/** What an import does to each row, column by column. */
module ConfigRows {
  import opened Basics
  import opened Text
  import opened ConfigDoc

  /** A line is taken when it has a name and, for a spec, its target and its pack are here. */
  predicate Lands(s: Section, targets: set<string>, packs: set<string>, l: Line) {
    && Trim(l.name) != ""
    && (s.Specs? ==>
          && (l.target == None || l.target == Some("") || l.target.value in targets)
          && (l.pack == None || l.pack == Some("") || l.pack.value in packs))
  }

  /** The document was written under a key this instance does not have. */
  predicate OtherKey(doc: Doc, key: Option<string>) {
    doc.fingerprint.Some? && key.Some? && doc.fingerprint.value != key.value
  }

  /** The line says something for that column of that name, and is taken. */
  predicate Says(s: Section, targets: set<string>, packs: set<string>, l: Line, name: string, column: string) {
    Lands(s, targets, packs, l) && Trim(l.name) == name && column in l.fields
  }

  /** The columns of rows already here that the document may write. */
  function Writable(s: Section, other: bool): set<string> { if other then Columns(s) - Secrets(s) else Columns(s) }

  lemma LandsIs(ctx: Context, l: Line)
    ensures Applies(ctx, l) <==> Lands(ctx.section, ctx.targets, ctx.packs, l)
  {
    hide Trim;
  }

  lemma SetsAre(ctx: Context, l: Line, column: string)
    ensures column in Sets(ctx, l, true) <==> column in l.fields && column in Writable(ctx.section, ctx.foreign)
    ensures column in Sets(ctx, l, true) ==> Sets(ctx, l, true)[column] == l.fields[column]
    ensures column in Sets(ctx, l, false) <==> column in l.fields && column in Columns(ctx.section)
    ensures column in Sets(ctx, l, false) ==> Sets(ctx, l, false)[column] == l.fields[column]
  {
    hide Columns, Secrets;
  }

  // ----- rows already here --------------------------------------------------------------------------

  /** The last line that says the column has it. */
  lemma {:induction false} PatchSays(ctx: Context, lines: seq<Line>, name: string, column: string, k: nat)
    requires k < |lines| && column in Writable(ctx.section, ctx.foreign)
    requires Says(ctx.section, ctx.targets, ctx.packs, lines[k], name, column)
    requires forall j :: k < j < |lines| ==> !Says(ctx.section, ctx.targets, ctx.packs, lines[j], name, column)
    ensures var p := PatchFor(ctx, lines, name);
            p.Patch? && column in p.fields && p.fields[column] == lines[k].fields[column]
  {
    hide Sets, Trim, Applies, Lands, Writable;
    var n := |lines| - 1;
    var front, l := lines[..n], lines[n];
    LandsIs(ctx, l);
    SetsAre(ctx, l, column);
    if k < n {
      assert forall j :: 0 <= j < n ==> front[j] == lines[j];
      PatchSays(ctx, front, name, column, k);
    }
  }

  /** A column that no line says, or none may write, is not touched. */
  lemma {:induction false} PatchSilent(ctx: Context, lines: seq<Line>, name: string, column: string)
    requires column !in Writable(ctx.section, ctx.foreign) ||
             forall j :: 0 <= j < |lines| ==> !Says(ctx.section, ctx.targets, ctx.packs, lines[j], name, column)
    ensures var p := PatchFor(ctx, lines, name); p.Untouched? || column !in p.fields
  {
    hide Sets, Trim, Applies, Lands, Writable;
    if lines != [] {
      var n := |lines| - 1;
      var front, l := lines[..n], lines[n];
      LandsIs(ctx, l);
      SetsAre(ctx, l, column);
      assert forall j :: 0 <= j < n ==> front[j] == lines[j];
      PatchSilent(ctx, front, name, column);
    }
  }

  /** The references are those of the last line taken for the name. */
  lemma PatchRefs(ctx: Context, lines: seq<Line>, name: string, k: nat)
    requires k < |lines| && Lands(ctx.section, ctx.targets, ctx.packs, lines[k]) && Trim(lines[k].name) == name
    requires forall j :: k < j < |lines| ==>
               !(Lands(ctx.section, ctx.targets, ctx.packs, lines[j]) && Trim(lines[j].name) == name)
    ensures var p := PatchFor(ctx, lines, name);
            p.Patch? && p.target == LineTarget(ctx, lines[k]) && p.pack == LinePack(ctx, lines[k])
    decreases |lines|
  {
    hide Sets, Trim, Applies, Lands;
    var n := |lines| - 1;
    LandsIs(ctx, lines[n]);
    if k < n {
      assert forall j :: 0 <= j < n ==> lines[..n][j] == lines[j];
      PatchRefs(ctx, lines[..n], name, k);
    }
  }

  /** The targets a section's lines are checked against. */
  function TargetsFor(s: Section, after: Config): set<string> { if s.Specs? then Names(after.targets) else {} }

  /** A section of an import that goes through. */
  lemma SectionImported(c: Config, doc: Doc, key: Option<string>, s: Section)
    requires Imported(c, doc, key).Success?
    ensures var after := Imported(c, doc, key).value;
            var ctx := Context(s, OtherKey(doc, key), TargetsFor(s, after), c.packs, c.defaults);
            after.In(s) == ApplyAll(c.In(s), ctx, doc.In(s)) && Shape(c.In(s), after.In(s), ctx, doc.In(s))
  {
    hide ApplyAll, Shape, Unique, Referring, Names;
    var after := Imported(c, doc, key).value;
    var ctx := Context(s, OtherKey(doc, key), TargetsFor(s, after), c.packs, c.defaults);
    SectionShape(c.In(s), ctx, doc.In(s));
  }

  /** The row as it is after the import. */
  lemma RowPatched(c: Config, doc: Doc, key: Option<string>, s: Section, i: nat)
    requires Imported(c, doc, key).Success? && i < |c.In(s)| && IsFirst(c.In(s), i)
    ensures var after := Imported(c, doc, key).value;
            var ctx := Context(s, OtherKey(doc, key), TargetsFor(s, after), c.packs, c.defaults);
            && i < |after.In(s)|
            && after.In(s)[i] == Patched(c.In(s)[i], PatchFor(ctx, doc.In(s), c.In(s)[i].name))
  {
    hide Imported, ApplyAll, PatchFor, NewRows, Names, Patched;
    SectionImported(c, doc, key, s);
  }

  /** Of the lines taken for a name, line k is the last to say the column. */
  predicate LastSays(
    s: Section, targets: set<string>, packs: set<string>, lines: seq<Line>, name: string, column: string, k: nat) {
    && k < |lines| && Says(s, targets, packs, lines[k], name, column)
    && forall j :: k < j < |lines| ==> !Says(s, targets, packs, lines[j], name, column)
  }

  predicate NoneSays(
    s: Section, targets: set<string>, packs: set<string>, lines: seq<Line>, name: string, column: string) {
    forall j :: 0 <= j < |lines| ==> !Says(s, targets, packs, lines[j], name, column)
  }

  /** A row that was here has, in a column the document may write, what the last line taken for
      it that says the column says. */
  lemma ColumnIsWritten(c: Config, doc: Doc, key: Option<string>, s: Section, i: nat, column: string, k: nat)
    requires Imported(c, doc, key).Success? && i < |c.In(s)| && IsFirst(c.In(s), i)
    requires column in Writable(s, OtherKey(doc, key))
    requires var targets := TargetsFor(s, Imported(c, doc, key).value);
             LastSays(s, targets, c.packs, doc.In(s), c.In(s)[i].name, column, k)
    ensures var after := Imported(c, doc, key).value;
            && i < |after.In(s)| && after.In(s)[i].name == c.In(s)[i].name
            && column in after.In(s)[i].fields && after.In(s)[i].fields[column] == doc.In(s)[k].fields[column]
  {
    hide Imported, PatchFor, Writable, Says, IsFirst, Names;
    RowPatched(c, doc, key, s, i);
    var ctx := Context(s, OtherKey(doc, key), TargetsFor(s, Imported(c, doc, key).value), c.packs, c.defaults);
    PatchSays(ctx, doc.In(s), c.In(s)[i].name, column, k);
  }

  /** A column that no line taken for the row says stays as it was, and so does every column the
      document may not write: under another key, the secrets, whatever the lines say. */
  lemma ColumnIsKept(c: Config, doc: Doc, key: Option<string>, s: Section, i: nat, column: string)
    requires Imported(c, doc, key).Success? && i < |c.In(s)| && IsFirst(c.In(s), i)
    requires var targets := TargetsFor(s, Imported(c, doc, key).value);
             column !in Writable(s, OtherKey(doc, key)) ||
             NoneSays(s, targets, c.packs, doc.In(s), c.In(s)[i].name, column)
    ensures var after, row := Imported(c, doc, key).value, c.In(s)[i];
            && i < |after.In(s)| && after.In(s)[i].name == row.name
            && (column in after.In(s)[i].fields <==> column in row.fields)
            && (column in row.fields ==> after.In(s)[i].fields[column] == row.fields[column])
  {
    hide Imported, PatchFor, Writable, Says, IsFirst, Names;
    RowPatched(c, doc, key, s, i);
    var ctx := Context(s, OtherKey(doc, key), TargetsFor(s, Imported(c, doc, key).value), c.packs, c.defaults);
    PatchSilent(ctx, doc.In(s), c.In(s)[i].name, column);
  }

  /** A document under another key leaves the secrets of every row that was here as they were. */
  lemma SecretsAreKept(c: Config, doc: Doc, key: Option<string>, s: Section, i: nat, secret: string)
    requires Imported(c, doc, key).Success? && i < |c.In(s)| && OtherKey(doc, key) && secret in Secrets(s)
    ensures var after, row := Imported(c, doc, key).value, c.In(s)[i];
            && i < |after.In(s)|
            && (secret in after.In(s)[i].fields <==> secret in row.fields)
            && (secret in row.fields ==> after.In(s)[i].fields[secret] == row.fields[secret])
  {
    hide Imported, IsFirst, Names;
    if IsFirst(c.In(s), i) {
      ColumnIsKept(c, doc, key, s, i, secret);
    } else {
      LaterRowsStay(c, doc, key, s, i);
    }
  }

  /** The references of a row that was here are those of the last line taken for it. */
  lemma ReferencesAreTheLast(c: Config, doc: Doc, key: Option<string>, i: nat, k: nat)
    requires Imported(c, doc, key).Success? && i < |c.specs| && IsFirst(c.specs, i) && k < |doc.specs|
    requires var targets := Names(Imported(c, doc, key).value.targets);
             && Lands(Specs, targets, c.packs, doc.specs[k]) && Trim(doc.specs[k].name) == c.specs[i].name
             && forall j :: k < j < |doc.specs| ==>
                  !(Lands(Specs, targets, c.packs, doc.specs[j]) && Trim(doc.specs[j].name) == c.specs[i].name)
    ensures var after, l := Imported(c, doc, key).value, doc.specs[k];
            && i < |after.specs|
            && after.specs[i].target == (if l.target == Some("") then None else l.target)
            && after.specs[i].pack == (if l.pack == Some("") then None else l.pack)
  {
    hide Imported, PatchFor, Lands, IsFirst, Names, Trim;
    RowPatched(c, doc, key, Specs, i);
    var ctx := Context(Specs, OtherKey(doc, key), Names(Imported(c, doc, key).value.targets), c.packs, c.defaults);
    PatchRefs(ctx, doc.specs, c.specs[i].name, k);
  }

  /** Rows after the first of a name are never touched. */
  lemma LaterRowsStay(c: Config, doc: Doc, key: Option<string>, s: Section, i: nat)
    requires Imported(c, doc, key).Success? && i < |c.In(s)| && !IsFirst(c.In(s), i)
    ensures var after := Imported(c, doc, key).value; i < |after.In(s)| && after.In(s)[i] == c.In(s)[i]
  {
    hide Imported, ApplyAll, PatchFor, NewRows, Names;
    SectionImported(c, doc, key, s);
  }

  // ----- new rows ---------------------------------------------------------------------------------

  /** A new row as its line makes it: the columns it says, the table's default for the others. */
  predicate MadeBy(s: Section, defaults: Fields, l: Line, row: Line) {
    && row.name == Trim(l.name)
    && row.fields.Keys == Columns(s)
    && (forall column :: column in Columns(s) ==>
          row.fields[column] == if column in l.fields then l.fields[column]
                                else if column in defaults then defaults[column] else "")
    && row.target == (if s.Specs? && l.target != Some("") then l.target else None)
    && row.pack == (if s.Specs? && l.pack != Some("") then l.pack else None)
  }

  lemma FreshIsMade(ctx: Context, l: Line)
    ensures MadeBy(ctx.section, ctx.defaults, l, Fresh(ctx, l))
  {
    hide Columns, Secrets, Trim;
  }

  /** The lines that make a row, in their order. */
  function Makers(
    s: Section, targets: set<string>, packs: set<string>, names: set<string>, lines: seq<Line>): seq<Line> {
    if lines == [] then []
    else
      var l, rest := lines[|lines| - 1], Makers(s, targets, packs, names, lines[..|lines| - 1]);
      if Lands(s, targets, packs, l) && Trim(l.name) !in names then rest + [l] else rest
  }

  lemma {:induction false} NewRowsAreMade(names: set<string>, ctx: Context, lines: seq<Line>)
    ensures var made, makers := NewRows(names, ctx, lines), Makers(ctx.section, ctx.targets, ctx.packs, names, lines);
            |made| == |makers| &&
            forall i :: 0 <= i < |made| ==> MadeBy(ctx.section, ctx.defaults, makers[i], made[i])
  {
    hide Fresh, Applies, Lands, MadeBy, Trim;
    if lines != [] {
      var n := |lines| - 1;
      NewRowsAreMade(names, ctx, lines[..n]);
      LandsIs(ctx, lines[n]);
      FreshIsMade(ctx, lines[n]);
    }
  }

  /** After the rows that were here come the new ones: one for every line taken whose name the
      section did not have, secrets included. */
  lemma ImportedNewRows(c: Config, doc: Doc, key: Option<string>, s: Section)
    requires Imported(c, doc, key).Success?
    ensures var after := Imported(c, doc, key).value;
            var makers := Makers(s, TargetsFor(s, after), c.packs, Names(c.In(s)), doc.In(s));
            && |after.In(s)| == |c.In(s)| + |makers|
            && forall i :: 0 <= i < |makers| ==> MadeBy(s, c.defaults, makers[i], after.In(s)[|c.In(s)| + i])
  {
    hide Imported, ApplyAll, PatchFor, NewRows, Names, MadeBy, Makers;
    SectionImported(c, doc, key, s);
    var after := Imported(c, doc, key).value;
    var ctx := Context(s, OtherKey(doc, key), TargetsFor(s, after), c.packs, c.defaults);
    NewRowsAreMade(Names(c.In(s)), ctx, doc.In(s));
    var n := |c.In(s)|;
    assert forall i :: 0 <= i < |after.In(s)| - n ==> after.In(s)[n..][i] == after.In(s)[n + i];
  }
}
