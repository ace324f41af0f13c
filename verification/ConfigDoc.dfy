/** Configuration as a document: export, and import as an upsert by natural key. */
module ConfigDoc {
  import opened Basics
  import opened Text

  datatype Section = Targets | Repos | Specs

  /** Column values, uninterpreted. */
  type Fields = map<string, string>

  /** A row of a table or of a document. A stored row has every column; a document's may lack
      some. Only a spec refers to a target and a pack; both go by name. */
  datatype Line = Line(name: string, fields: Fields, target: Option<string>, pack: Option<string>)

  /** The rows of a table, oldest first. Only targets have unique names. */
  type Table = seq<Line>

  /** An instance's rows, the packs it knows, and what its tables put in a column that a new
      row does not set. */
  datatype Config = Config(targets: Table, repos: Table, specs: Table, packs: set<string>, defaults: Fields) {
    function In(s: Section): Table {
      match s
      case Targets => targets
      case Repos => repos
      case Specs => specs
    }

    function With(s: Section, t: Table): Config {
      match s
      case Targets => this.(targets := t)
      case Repos => this.(repos := t)
      case Specs => this.(specs := t)
    }
  }

  datatype Doc = Doc(fingerprint: Option<string>, targets: seq<Line>, repos: seq<Line>, specs: seq<Line>) {
    function In(s: Section): seq<Line> {
      match s
      case Targets => targets
      case Repos => repos
      case Specs => specs
    }
  }

  function Names(t: Table): set<string> { set i | 0 <= i < |t| :: t[i].name }

  predicate Unique(t: Table) { forall i, j :: 0 <= i < j < |t| ==> t[i].name != t[j].name }

  function Secrets(s: Section): set<string> {
    match s
    case Targets => {"token_encrypted"}
    case Repos => {"secret_encrypted", "webhook_secret"}
    case Specs => {}
  }

  /** The columns that travel, the natural key aside. */
  function Columns(s: Section): set<string> {
    match s
    case Targets => {"hec_url", "default_index", "verify_tls", "env_tag", "max_concurrent_gb_day"} + Secrets(s)
    case Repos => {"auth_kind", "default_ref", "trusted_code"} + Secrets(s)
    case Specs => {"ref", "engine", "overrides_json", "rate_mode", "rate_value", "interval_s", "workers",
                   "duration_s", "fleet", "strict_release", "driver_opts_json", "eventgen_impl",
                   "fast_envelope", "rate_shape", "extra_pack_ids_json"}
  }

  /** The columns of a new row before anything is set on it. */
  function Blank(s: Section, defaults: Fields): Fields {
    map c | c in Columns(s) :: if c in defaults then defaults[c] else ""
  }

  /** Columns set over others. */
  function Over(base: Fields, sets: Fields): Fields { base + sets }

  function Only(f: Fields, columns: set<string>): Fields { map c | c in f && c in columns :: f[c] }

  /** A reference that is missing or empty is none. */
  function Ref(name: Option<string>): Option<string> { if name == Some("") then None else name }

  // ----- import ---------------------------------------------------------------------------------

  /** What a line's references are checked against, and whether its secrets are readable. */
  datatype Context = Context(
    section: Section,
    foreign: bool,
    targets: set<string>,
    packs: set<string>,
    defaults: Fields)

  /** A line is applied unless it has no name or is a spec whose target or pack is not here. */
  predicate Applies(ctx: Context, l: Line) {
    && Trim(l.name) != ""
    && (ctx.section.Specs? ==>
          && (Ref(l.target).Some? ==> Ref(l.target).value in ctx.targets)
          && (Ref(l.pack).Some? ==> Ref(l.pack).value in ctx.packs))
  }

  /** The columns a line sets. Ciphertext under another key never replaces a secret here. */
  function Sets(ctx: Context, l: Line, existing: bool): Fields {
    Only(l.fields,
         if ctx.foreign && existing then Columns(ctx.section) - Secrets(ctx.section) else Columns(ctx.section))
  }

  function LineTarget(ctx: Context, l: Line): Option<string> { if ctx.section.Specs? then Ref(l.target) else None }

  function LinePack(ctx: Context, l: Line): Option<string> { if ctx.section.Specs? then Ref(l.pack) else None }

  /** The row a line makes where there is none of its name. */
  function Fresh(ctx: Context, l: Line): Line {
    var fields := Over(Blank(ctx.section, ctx.defaults), Sets(ctx, l, false));
    Line(Trim(l.name), fields, LineTarget(ctx, l), LinePack(ctx, l))
  }

  function Updated(row: Line, ctx: Context, l: Line): Line {
    Line(row.name, Over(row.fields, Sets(ctx, l, true)), LineTarget(ctx, l), LinePack(ctx, l))
  }

  /** The first row of a name among the first n. */
  function Find(t: Table, n: nat, name: string): (r: Option<nat>)
    requires n <= |t|
    ensures r.Some? ==> r.value < n && t[r.value].name == name && forall j :: 0 <= j < r.value ==> t[j].name != name
    ensures r.None? ==> forall j :: 0 <= j < n ==> t[j].name != name
  {
    if n == 0 then None
    else
      var r := Find(t, n - 1, name);
      if r.Some? then r else if t[n - 1].name == name then Some(n - 1) else None
  }

  /** One line. Rows are looked up among the first n: those stored before the section began,
      because rows added since have not been flushed and the session does not flush by itself. */
  function Apply(t: Table, n: nat, ctx: Context, l: Line): (u: Table)
    requires n <= |t|
    ensures |u| >= |t|
  {
    if !Applies(ctx, l) then t
    else
      var i := Find(t, n, Trim(l.name));
      if i.Some? then t[i.value := Updated(t[i.value], ctx, l)] else t + [Fresh(ctx, l)]
  }

  function ApplyFrom(t: Table, n: nat, ctx: Context, lines: seq<Line>): (u: Table)
    requires n <= |t|
    ensures |u| >= |t|
  {
    if lines == [] then t else Apply(ApplyFrom(t, n, ctx, lines[..|lines| - 1]), n, ctx, lines[|lines| - 1])
  }

  function ApplyAll(t: Table, ctx: Context, lines: seq<Line>): Table { ApplyFrom(t, |t|, ctx, lines) }

  predicate Foreign(doc: Doc, key: Option<string>) {
    doc.fingerprint.Some? && key.Some? && doc.fingerprint != key
  }

  function ContextOf(c: Config, doc: Doc, key: Option<string>, s: Section, targets: set<string>): Context {
    Context(s, Foreign(doc, key), targets, c.packs, c.defaults)
  }

  /** Every spec has a target and a pack. */
  predicate Referring(t: Table) { forall i :: 0 <= i < |t| ==> t[i].target.Some? && t[i].pack.Some? }

  /** import_config: targets and repos first, so that specs find the targets. The database
      refuses two targets of one name and a spec without target or pack, and with them the
      whole import. */
  function Imported(c: Config, doc: Doc, key: Option<string>): Result<Config> {
    var targets := ApplyAll(c.targets, ContextOf(c, doc, key, Targets, {}), doc.targets);
    if !Unique(targets) then Failure("two targets of one name")
    else
      var repos := ApplyAll(c.repos, ContextOf(c, doc, key, Repos, {}), doc.repos);
      var specs := ApplyAll(c.specs, ContextOf(c, doc, key, Specs, Names(targets)), doc.specs);
      if !Referring(specs) then Failure("a spec without a target or a pack")
      else Success(Config(targets, repos, specs, c.packs, c.defaults))
  }

  // ----- what a section does to a table ------------------------------------------------------------

  /** What the lines for one name amount to on a row that is already there: every column as
      the last line to set it does, the references of the last line. */
  datatype Patch = Untouched | Patch(fields: Fields, target: Option<string>, pack: Option<string>)

  function PatchFor(ctx: Context, lines: seq<Line>, name: string): Patch {
    if lines == [] then Untouched
    else
      var rest := PatchFor(ctx, lines[..|lines| - 1], name);
      var l := lines[|lines| - 1];
      if !Applies(ctx, l) || Trim(l.name) != name then rest
      else
        var sets := Sets(ctx, l, true);
        Patch(if rest.Untouched? then sets else Over(rest.fields, sets), LineTarget(ctx, l), LinePack(ctx, l))
  }

  function Patched(r: Line, p: Patch): Line {
    if p.Untouched? then r else Line(r.name, Over(r.fields, p.fields), p.target, p.pack)
  }

  predicate IsFirst(t: Table, i: nat)
    requires i < |t|
  {
    forall j :: 0 <= j < i ==> t[j].name != t[i].name
  }

  /** The rows a section adds: one per line of a name that was not there, repeated or not. */
  function NewRows(names: set<string>, ctx: Context, lines: seq<Line>): seq<Line> {
    if lines == [] then []
    else
      var rest := NewRows(names, ctx, lines[..|lines| - 1]);
      var l := lines[|lines| - 1];
      if Applies(ctx, l) && Trim(l.name) !in names then rest + [Fresh(ctx, l)] else rest
  }

  lemma OverAssociates(a: Fields, b: Fields, c: Fields)
    ensures Over(Over(a, b), c) == Over(a, Over(b, c))
  {
  }

  /** The table after a section: old rows, the first of each name patched, then new rows. */
  ghost predicate Shape(t: Table, u: Table, ctx: Context, lines: seq<Line>) {
    && |u| >= |t|
    && u[|t|..] == NewRows(Names(t), ctx, lines)
    && (forall i :: 0 <= i < |t| ==>
          u[i] == if IsFirst(t, i) then Patched(t[i], PatchFor(ctx, lines, t[i].name)) else t[i])
  }

  lemma FirstFound(t: Table, u: Table, name: string)
    requires |u| >= |t| && forall i :: 0 <= i < |t| ==> u[i].name == t[i].name
    ensures Find(u, |t|, name).None? <==> name !in Names(t)
    ensures Find(u, |t|, name).Some? ==> IsFirst(t, Find(u, |t|, name).value)
    ensures forall i :: 0 <= i < |t| && IsFirst(t, i) && t[i].name == name ==> Find(u, |t|, name) == Some(i)
  {
    hide Find;
  }

  lemma PatchMore(r: Line, p: Patch, ctx: Context, l: Line)
    ensures var sets := Sets(ctx, l, true);
            Updated(Patched(r, p), ctx, l) ==
            Patched(r, Patch(if p.Untouched? then sets else Over(p.fields, sets), LineTarget(ctx, l), LinePack(ctx, l)))
  {
    hide Sets, Over;
    if p.Patch? {
      OverAssociates(r.fields, p.fields, Sets(ctx, l, true));
    }
  }

  lemma ShapeStep(t: Table, u: Table, ctx: Context, front: seq<Line>, l: Line)
    requires Shape(t, u, ctx, front)
    ensures Shape(t, Apply(u, |t|, ctx, l), ctx, front + [l])
  {
    hide Applies, Sets, Over, Trim, Find, Patched, Fresh, Updated;
    var lines := front + [l];
    assert lines[..|lines| - 1] == front;
    NamesStay(t, u, ctx, front);
    var name := Trim(l.name);
    FirstFound(t, u, name);
    var i := Find(u, |t|, name);
    var v := Apply(u, |t|, ctx, l);
    if Applies(ctx, l) {
      if i.Some? {
        PatchMore(t[i.value], PatchFor(ctx, front, name), ctx, l);
        assert v[|t|..] == u[|t|..];
      } else {
        assert v[|t|..] == u[|t|..] + [Fresh(ctx, l)];
      }
    }
  }

  lemma NamesStay(t: Table, u: Table, ctx: Context, lines: seq<Line>)
    requires Shape(t, u, ctx, lines)
    ensures forall i :: 0 <= i < |t| ==> u[i].name == t[i].name
  {
    hide Over, PatchFor, NewRows, IsFirst;
  }

  lemma {:induction false} SectionShape(t: Table, ctx: Context, lines: seq<Line>)
    ensures Shape(t, ApplyAll(t, ctx, lines), ctx, lines)
  {
    hide Shape, Apply;
    if lines == [] {
      NoLinesShape(t, ctx);
    } else {
      var n := |lines| - 1;
      SectionShape(t, ctx, lines[..n]);
      ShapeStep(t, ApplyAll(t, ctx, lines[..n]), ctx, lines[..n], lines[n]);
      assert lines == lines[..n] + [lines[n]];
    }
  }

  lemma NoLinesShape(t: Table, ctx: Context)
    ensures Shape(t, t, ctx, [])
  {
    assert t[|t|..] == [];
  }

  // ----- when a second import changes nothing --------------------------------------------------------

  /** Line k is the first that is applied for a name the table does not have. */
  predicate Opens(names: set<string>, ctx: Context, lines: seq<Line>, k: nat)
    requires k < |lines|
  {
    && Applies(ctx, lines[k]) && Trim(lines[k].name) !in names
    && forall j :: 0 <= j < k ==> !(Applies(ctx, lines[j]) && Trim(lines[j].name) == Trim(lines[k].name))
  }

  /** The later lines of its name leave line k's row as line k made it: each column's last
      word is what the row has, and so are the last references. */
  predicate Agrees(ctx: Context, lines: seq<Line>, k: nat)
    requires k < |lines|
  {
    var row, last := Fresh(ctx, lines[k]), PatchFor(ctx, lines, Trim(lines[k].name));
    && last.Patch? && last.target == row.target && last.pack == row.pack
    && forall c :: c in last.fields ==> c in row.fields && row.fields[c] == last.fields[c]
  }

  /** No name new to the table has lines that differ in their last word from their first. */
  predicate Settled(names: set<string>, ctx: Context, lines: seq<Line>) {
    forall k :: 0 <= k < |lines| && Opens(names, ctx, lines, k) ==> Agrees(ctx, lines, k)
  }

  lemma PatchTwice(r: Line, p: Patch)
    ensures Patched(Patched(r, p), p) == Patched(r, p)
  {
  }

  lemma AgreesIsAbsorbed(ctx: Context, lines: seq<Line>, k: nat)
    requires k < |lines| && PatchFor(ctx, lines, Trim(lines[k].name)).Patch?
    ensures Agrees(ctx, lines, k) <==>
            Patched(Fresh(ctx, lines[k]), PatchFor(ctx, lines, Trim(lines[k].name))) == Fresh(ctx, lines[k])
  {
    hide PatchFor, Trim, Sets, Blank;
    var row, last := Fresh(ctx, lines[k]), PatchFor(ctx, lines, Trim(lines[k].name));
    if Over(row.fields, last.fields) == row.fields {
      forall c | c in last.fields ensures c in row.fields && row.fields[c] == last.fields[c] {
        assert c in Over(row.fields, last.fields);
      }
    }
  }

  /** Which line made which new row. */
  lemma {:induction false} NewRowsFrom(names: set<string>, ctx: Context, lines: seq<Line>, i: nat) returns (k: nat)
    requires i < |NewRows(names, ctx, lines)|
    ensures k < |lines| && Applies(ctx, lines[k]) && Trim(lines[k].name) !in names
    ensures NewRows(names, ctx, lines)[i] == Fresh(ctx, lines[k])
    ensures i == |NewRows(names, ctx, lines[..k])|
  {
    hide Applies, Fresh, Trim;
    var n := |lines| - 1;
    var front := NewRows(names, ctx, lines[..n]);
    if i < |front| {
      k := NewRowsFrom(names, ctx, lines[..n], i);
      assert lines[..n][..k] == lines[..k];
    } else {
      k := n;
    }
  }

  lemma {:induction false} NewRowsOf(names: set<string>, ctx: Context, lines: seq<Line>, k: nat) returns (i: nat)
    requires k < |lines| && Applies(ctx, lines[k]) && Trim(lines[k].name) !in names
    ensures i < |NewRows(names, ctx, lines)| && NewRows(names, ctx, lines)[i] == Fresh(ctx, lines[k])
    ensures i == |NewRows(names, ctx, lines[..k])|
  {
    hide Applies, Fresh, Trim;
    var n := |lines| - 1;
    if k < n {
      assert lines[..n][..k] == lines[..k];
      i := NewRowsOf(names, ctx, lines[..n], k);
    } else {
      i := |NewRows(names, ctx, lines[..n])|;
    }
  }

  lemma {:induction false} NewRowsGrow(names: set<string>, ctx: Context, lines: seq<Line>, j: nat, k: nat)
    requires j < k <= |lines|
    ensures |NewRows(names, ctx, lines[..j])| <= |NewRows(names, ctx, lines[..k])|
    ensures Applies(ctx, lines[j]) && Trim(lines[j].name) !in names ==>
              |NewRows(names, ctx, lines[..j])| < |NewRows(names, ctx, lines[..k])|
  {
    hide Applies, Fresh, Trim;
    assert lines[..k][..k - 1] == lines[..k - 1];
    if j < k - 1 {
      NewRowsGrow(names, ctx, lines, j, k - 1);
    }
  }

  lemma {:induction false} SomePatch(ctx: Context, lines: seq<Line>, k: nat)
    requires k < |lines| && Applies(ctx, lines[k])
    ensures PatchFor(ctx, lines, Trim(lines[k].name)).Patch?
  {
    hide Applies, Trim, Sets, Over;
    var n := |lines| - 1;
    if k < n {
      SomePatch(ctx, lines[..n], k);
    }
  }

  lemma FreshName(ctx: Context, l: Line)
    ensures Fresh(ctx, l).name == Trim(l.name)
  {
  }

  /** The first row of a new name is the one its opening line made. */
  lemma OpeningRow(t: Table, ctx: Context, lines: seq<Line>, k: nat, i: nat)
    requires k < |lines| && Applies(ctx, lines[k]) && Trim(lines[k].name) !in Names(t)
    requires i == |t| + |NewRows(Names(t), ctx, lines[..k])|
    ensures var u := ApplyAll(t, ctx, lines);
            i < |u| && u[i] == Fresh(ctx, lines[k]) && (IsFirst(u, i) <==> Opens(Names(t), ctx, lines, k))
  {
    hide Applies, Fresh, Trim, ApplyAll, NewRows, PatchFor, Patched;
    var u, names, name := ApplyAll(t, ctx, lines), Names(t), Trim(lines[k].name);
    SectionShape(t, ctx, lines);
    NamesStay(t, u, ctx, lines);
    var rows := NewRows(names, ctx, lines);
    assert forall j :: 0 <= j < |rows| ==> u[|t| + j] == u[|t|..][j] == rows[j];
    var at := NewRowsOf(names, ctx, lines, k);
    FreshName(ctx, lines[k]);
    if Opens(names, ctx, lines, k) {
      forall j | 0 <= j < i ensures u[j].name != name {
        if j >= |t| {
          var m := NewRowsFrom(names, ctx, lines, j - |t|);
          FreshName(ctx, lines[m]);
          if m > k {
            NewRowsGrow(names, ctx, lines, k, m);
          }
          assert m < k;
        }
      }
    } else {
      var j :| 0 <= j < k && Applies(ctx, lines[j]) && Trim(lines[j].name) == name;
      var m := NewRowsOf(names, ctx, lines, j);
      NewRowsGrow(names, ctx, lines, j, k);
      FreshName(ctx, lines[j]);
      assert u[|t| + m].name == name;
    }
  }

  /** Once a section has been applied no line finds its name missing. */
  lemma {:induction false} NothingNew(names: set<string>, ctx: Context, lines: seq<Line>)
    requires forall k :: 0 <= k < |lines| && Applies(ctx, lines[k]) ==> Trim(lines[k].name) in names
    ensures NewRows(names, ctx, lines) == []
  {
    hide Applies, Fresh, Trim;
    if lines != [] {
      var n := |lines| - 1;
      assert forall k :: 0 <= k < n ==> lines[..n][k] == lines[k];
      NothingNew(names, ctx, lines[..n]);
    }
  }

  lemma AppliedNamesPresent(t: Table, ctx: Context, lines: seq<Line>, k: nat)
    requires k < |lines| && Applies(ctx, lines[k])
    ensures Trim(lines[k].name) in Names(ApplyAll(t, ctx, lines))
  {
    hide Applies, Fresh, Trim, ApplyAll, NewRows, PatchFor, Patched;
    var u, name := ApplyAll(t, ctx, lines), Trim(lines[k].name);
    SectionShape(t, ctx, lines);
    NamesStay(t, u, ctx, lines);
    if name in Names(t) {
      var i :| 0 <= i < |t| && t[i].name == name;
      assert u[i].name == name;
    } else {
      var i := NewRowsOf(Names(t), ctx, lines, k);
      FreshName(ctx, lines[k]);
      assert u[|t| + i] == u[|t|..][i];
    }
  }

  /** A section applied again: the same rows, the first of each name patched once more. */
  lemma SecondTime(t: Table, ctx: Context, lines: seq<Line>)
    ensures var u := ApplyAll(t, ctx, lines);
            var v := ApplyAll(u, ctx, lines);
            && |v| == |u|
            && forall i :: 0 <= i < |u| ==>
                 v[i] == if IsFirst(u, i) then Patched(u[i], PatchFor(ctx, lines, u[i].name)) else u[i]
  {
    hide Applies, Fresh, Trim, ApplyAll, NewRows, PatchFor, Patched, IsFirst;
    var u := ApplyAll(t, ctx, lines);
    var v := ApplyAll(u, ctx, lines);
    SectionShape(u, ctx, lines);
    forall k | 0 <= k < |lines| && Applies(ctx, lines[k]) ensures Trim(lines[k].name) in Names(u) {
      AppliedNamesPresent(t, ctx, lines, k);
    }
    NothingNew(Names(u), ctx, lines);
    assert v[|u|..] == [];
  }

  lemma OldRowSettled(t: Table, ctx: Context, lines: seq<Line>, i: nat)
    requires i < |t|
    ensures var u := ApplyAll(t, ctx, lines);
            IsFirst(u, i) ==> Patched(u[i], PatchFor(ctx, lines, u[i].name)) == u[i]
  {
    hide ApplyAll, NewRows, PatchFor, Patched;
    var u := ApplyAll(t, ctx, lines);
    SectionShape(t, ctx, lines);
    NamesStay(t, u, ctx, lines);
    if IsFirst(u, i) {
      assert IsFirst(t, i);
      PatchTwice(t[i], PatchFor(ctx, lines, t[i].name));
    }
  }

  lemma NewRowSettled(t: Table, ctx: Context, lines: seq<Line>, i: nat)
    requires |t| <= i < |ApplyAll(t, ctx, lines)| && Settled(Names(t), ctx, lines)
    ensures var u := ApplyAll(t, ctx, lines);
            IsFirst(u, i) ==> Patched(u[i], PatchFor(ctx, lines, u[i].name)) == u[i]
  {
    hide Applies, Fresh, Trim, ApplyAll, NewRows, PatchFor, Patched, IsFirst, Agrees, Opens;
    var u := ApplyAll(t, ctx, lines);
    SectionShape(t, ctx, lines);
    assert u[i] == u[|t|..][i - |t|];
    var k := NewRowsFrom(Names(t), ctx, lines, i - |t|);
    OpeningRow(t, ctx, lines, k, i);
    if IsFirst(u, i) {
      SomePatch(ctx, lines, k);
      AgreesIsAbsorbed(ctx, lines, k);
      FreshName(ctx, lines[k]);
    }
  }

  lemma UnsettledChanges(t: Table, ctx: Context, lines: seq<Line>)
    requires !Settled(Names(t), ctx, lines)
    ensures var u := ApplyAll(t, ctx, lines); ApplyAll(u, ctx, lines) != u
  {
    hide Applies, Fresh, Trim, ApplyAll, NewRows, PatchFor, Patched, IsFirst, Agrees;
    var u := ApplyAll(t, ctx, lines);
    var k :| 0 <= k < |lines| && Opens(Names(t), ctx, lines, k) && !Agrees(ctx, lines, k);
    var i := |t| + |NewRows(Names(t), ctx, lines[..k])|;
    OpeningRow(t, ctx, lines, k, i);
    SomePatch(ctx, lines, k);
    AgreesIsAbsorbed(ctx, lines, k);
    FreshName(ctx, lines[k]);
    SecondTime(t, ctx, lines);
    assert ApplyAll(u, ctx, lines)[i] != u[i];
  }

  /** A section applied twice is the section applied once exactly when it is settled. */
  lemma SectionTwiceIff(t: Table, ctx: Context, lines: seq<Line>)
    ensures ApplyAll(ApplyAll(t, ctx, lines), ctx, lines) == ApplyAll(t, ctx, lines)
            <==> Settled(Names(t), ctx, lines)
  {
    hide ApplyAll, PatchFor, Patched, IsFirst, Settled;
    var u := ApplyAll(t, ctx, lines);
    var v := ApplyAll(u, ctx, lines);
    if Settled(Names(t), ctx, lines) {
      SecondTime(t, ctx, lines);
      forall i | 0 <= i < |u| ensures v[i] == u[i] {
        if i < |t| {
          OldRowSettled(t, ctx, lines, i);
        } else {
          NewRowSettled(t, ctx, lines, i);
        }
      }
      assert v == u;
    } else {
      UnsettledChanges(t, ctx, lines);
    }
  }

  /** A name that is new and listed once is settled. */
  lemma {:induction false} ListedOnce(ctx: Context, lines: seq<Line>, k: nat)
    requires k < |lines| && Applies(ctx, lines[k])
    requires forall j :: 0 <= j < |lines| && j != k ==>
               !(Applies(ctx, lines[j]) && Trim(lines[j].name) == Trim(lines[k].name))
    ensures Agrees(ctx, lines, k)
  {
    hide Applies, Trim, Columns, Secrets;
    OnlyPatch(ctx, lines, k);
  }

  lemma {:induction false} OnlyPatch(ctx: Context, lines: seq<Line>, k: nat)
    requires k < |lines| && Applies(ctx, lines[k])
    requires forall j :: 0 <= j < |lines| && j != k ==>
               !(Applies(ctx, lines[j]) && Trim(lines[j].name) == Trim(lines[k].name))
    ensures PatchFor(ctx, lines, Trim(lines[k].name)) ==
            Patch(Sets(ctx, lines[k], true), LineTarget(ctx, lines[k]), LinePack(ctx, lines[k]))
  {
    hide Applies, Trim, Sets, Over;
    var n := |lines| - 1;
    var front := lines[..n];
    assert forall j :: 0 <= j < n ==> front[j] == lines[j];
    if k < n {
      OnlyPatch(ctx, front, k);
    } else {
      NoPatch(ctx, front, Trim(lines[k].name));
    }
  }

  lemma {:induction false} NoPatch(ctx: Context, lines: seq<Line>, name: string)
    requires forall j :: 0 <= j < |lines| ==> !(Applies(ctx, lines[j]) && Trim(lines[j].name) == name)
    ensures PatchFor(ctx, lines, name) == Untouched
  {
    hide Applies, Trim, Sets, Over;
    if lines != [] {
      var n := |lines| - 1;
      assert forall j :: 0 <= j < n ==> lines[..n][j] == lines[j];
      NoPatch(ctx, lines[..n], name);
    }
  }

  // ----- when an import fails -----------------------------------------------------------------------------

  /** No name new to the table is listed twice. */
  predicate NewNamesOnce(names: set<string>, ctx: Context, lines: seq<Line>) {
    forall j, k :: 0 <= j < k < |lines| && Applies(ctx, lines[j]) && Applies(ctx, lines[k]) ==>
      Trim(lines[j].name) in names || Trim(lines[j].name) != Trim(lines[k].name)
  }

  lemma UniqueIff(t: Table, ctx: Context, lines: seq<Line>)
    requires Unique(t)
    ensures Unique(ApplyAll(t, ctx, lines)) <==> NewNamesOnce(Names(t), ctx, lines)
  {
    hide Applies, Fresh, Trim, ApplyAll, NewRows, PatchFor, Patched;
    var u, names := ApplyAll(t, ctx, lines), Names(t);
    SectionShape(t, ctx, lines);
    NamesStay(t, u, ctx, lines);
    assert forall i :: |t| <= i < |u| ==> u[i] == u[|t|..][i - |t|];
    if NewNamesOnce(names, ctx, lines) {
      forall i, j | 0 <= i < j < |u| ensures u[i].name != u[j].name {
        if j >= |t| {
          var m := NewRowsFrom(names, ctx, lines, j - |t|);
          FreshName(ctx, lines[m]);
          if i >= |t| {
            var k := NewRowsFrom(names, ctx, lines, i - |t|);
            FreshName(ctx, lines[k]);
            assert k != m;
          } else {
            assert t[i].name in names;
          }
        }
      }
    } else {
      var j, k :| 0 <= j < k < |lines| && Applies(ctx, lines[j]) && Applies(ctx, lines[k])
                  && Trim(lines[j].name) !in names && Trim(lines[j].name) == Trim(lines[k].name);
      var i := NewRowsOf(names, ctx, lines, j);
      var m := NewRowsOf(names, ctx, lines, k);
      NewRowsGrow(names, ctx, lines, j, k);
      FreshName(ctx, lines[j]);
      FreshName(ctx, lines[k]);
      assert u[|t| + i].name == u[|t| + m].name;
    }
  }

  /** So with unique names a settled section is no condition on targets. */
  lemma OnceIsSettled(names: set<string>, ctx: Context, lines: seq<Line>)
    requires NewNamesOnce(names, ctx, lines)
    ensures Settled(names, ctx, lines)
  {
    hide Applies, Trim, Agrees;
    forall k | 0 <= k < |lines| && Opens(names, ctx, lines, k) ensures Agrees(ctx, lines, k) {
      ListedOnce(ctx, lines, k);
    }
  }

  /** Importing a document again changes nothing exactly when each repo or spec name that was
      new and listed more than once ends, column by column, where its first line began. */
  lemma ImportIdempotentIff(c: Config, doc: Doc, key: Option<string>)
    requires Unique(c.targets) && Imported(c, doc, key).Success?
    ensures var after := Imported(c, doc, key).value;
            var repos := ContextOf(c, doc, key, Repos, {});
            var specs := ContextOf(c, doc, key, Specs, Names(after.targets));
            Imported(after, doc, key) == Success(after) <==>
              Settled(Names(c.repos), repos, doc.repos) && Settled(Names(c.specs), specs, doc.specs)
  {
    hide ApplyAll, Settled, Unique, Referring, NewNamesOnce;
    var after := Imported(c, doc, key).value;
    var targets := ContextOf(c, doc, key, Targets, {});
    UniqueIff(c.targets, targets, doc.targets);
    OnceIsSettled(Names(c.targets), targets, doc.targets);
    SectionTwiceIff(c.targets, targets, doc.targets);
    SectionTwiceIff(c.repos, ContextOf(c, doc, key, Repos, {}), doc.repos);
    SectionTwiceIff(c.specs, ContextOf(c, doc, key, Specs, Names(after.targets)), doc.specs);
  }

  /** In particular when no new name is listed twice. */
  lemma ImportIsIdempotent(c: Config, doc: Doc, key: Option<string>)
    requires Unique(c.targets) && Imported(c, doc, key).Success?
    requires NewNamesOnce(Names(c.repos), ContextOf(c, doc, key, Repos, {}), doc.repos)
    requires var targets := Names(Imported(c, doc, key).value.targets);
             NewNamesOnce(Names(c.specs), ContextOf(c, doc, key, Specs, targets), doc.specs)
    ensures Imported(Imported(c, doc, key).value, doc, key) == Imported(c, doc, key)
  {
    hide Imported, NewNamesOnce, Settled;
    var after := Imported(c, doc, key).value;
    ImportIdempotentIff(c, doc, key);
    OnceIsSettled(Names(c.repos), ContextOf(c, doc, key, Repos, {}), doc.repos);
    OnceIsSettled(Names(c.specs), ContextOf(c, doc, key, Specs, Names(after.targets)), doc.specs);
  }

  /** What the database asks of the specs: every line that adds a row names a target and a
      pack, and so does the last line applied to each row that was there. */
  ghost predicate Placed(names: set<string>, ctx: Context, lines: seq<Line>) {
    && (forall k :: 0 <= k < |lines| && Applies(ctx, lines[k]) && Trim(lines[k].name) !in names ==>
          LineTarget(ctx, lines[k]).Some? && LinePack(ctx, lines[k]).Some?)
    && (forall name :: name in names && PatchFor(ctx, lines, name).Patch? ==>
          PatchFor(ctx, lines, name).target.Some? && PatchFor(ctx, lines, name).pack.Some?)
  }

  lemma FreshRefs(ctx: Context, l: Line)
    ensures Fresh(ctx, l).target == LineTarget(ctx, l) && Fresh(ctx, l).pack == LinePack(ctx, l)
  {
  }

  lemma FirstOfName(t: Table, name: string) returns (i: nat)
    requires name in Names(t)
    ensures i < |t| && t[i].name == name && IsFirst(t, i)
  {
    hide Find;
    i := Find(t, |t|, name).value;
  }

  lemma ReferringIff(t: Table, ctx: Context, lines: seq<Line>)
    requires Referring(t)
    ensures Referring(ApplyAll(t, ctx, lines)) <==> Placed(Names(t), ctx, lines)
  {
    hide Applies, Fresh, Trim, ApplyAll, NewRows, PatchFor, Over, LineTarget, LinePack;
    var u, names := ApplyAll(t, ctx, lines), Names(t);
    SectionShape(t, ctx, lines);
    assert forall i :: |t| <= i < |u| ==> u[i] == u[|t|..][i - |t|];
    if Placed(names, ctx, lines) {
      forall i | 0 <= i < |u| ensures u[i].target.Some? && u[i].pack.Some? {
        if i >= |t| {
          var k := NewRowsFrom(names, ctx, lines, i - |t|);
          FreshRefs(ctx, lines[k]);
        }
      }
    }
    if Referring(u) {
      forall k | 0 <= k < |lines| && Applies(ctx, lines[k]) && Trim(lines[k].name) !in names
        ensures LineTarget(ctx, lines[k]).Some? && LinePack(ctx, lines[k]).Some?
      {
        var i := NewRowsOf(names, ctx, lines, k);
        FreshRefs(ctx, lines[k]);
        assert u[|t| + i] == Fresh(ctx, lines[k]);
      }
      forall name | name in names && PatchFor(ctx, lines, name).Patch?
        ensures PatchFor(ctx, lines, name).target.Some? && PatchFor(ctx, lines, name).pack.Some?
      {
        var i := FirstOfName(t, name);
        assert u[i] == Patched(t[i], PatchFor(ctx, lines, name));
      }
    }
  }

  /** An import is refused exactly when a new target is listed twice or a spec would be left
      without a target or a pack. */
  lemma ImportSucceedsIff(c: Config, doc: Doc, key: Option<string>)
    requires Unique(c.targets) && Referring(c.specs)
    ensures var targets := ContextOf(c, doc, key, Targets, {});
            var names := Names(ApplyAll(c.targets, targets, doc.targets));
            Imported(c, doc, key).Success? <==>
              && NewNamesOnce(Names(c.targets), targets, doc.targets)
              && Placed(Names(c.specs), ContextOf(c, doc, key, Specs, names), doc.specs)
  {
    hide ApplyAll, Unique, Referring, NewNamesOnce, Placed;
    var targets := ContextOf(c, doc, key, Targets, {});
    var names := Names(ApplyAll(c.targets, targets, doc.targets));
    UniqueIff(c.targets, targets, doc.targets);
    ReferringIff(c.specs, ContextOf(c, doc, key, Specs, names), doc.specs);
  }

  // ----- a document that is not settled ------------------------------------------------------------------

  /** A url listed twice, with two default refs. */
  function TwoRefs(url: string, a: string, b: string): seq<Line> {
    [Line(url, map["default_ref" := a], None, None), Line(url, map["default_ref" := b], None, None)]
  }

  lemma TwoRefsUnsettled(names: set<string>, ctx: Context, url: string, a: string, b: string)
    requires ctx.section.Repos? && url != "" && Trimmed(url) && url !in names && a != b
    ensures !Settled(names, ctx, TwoRefs(url, a, b))
  {
    hide Trim;
    TrimmedStays(url);
    var lines := TwoRefs(url, a, b);
    assert Opens(names, ctx, lines, 0);
    assert lines[..1] == [lines[0]] && [lines[0]][..0] == [];
    var first := PatchFor(ctx, [lines[0]], url);
    assert PatchFor(ctx, [], url) == Untouched;
    assert first == Patch(Sets(ctx, lines[0], true), None, None);
    var last := PatchFor(ctx, lines, url);
    assert last == Patch(Over(first.fields, Sets(ctx, lines[1], true)), None, None);
    assert "default_ref" in Columns(Repos) && "default_ref" !in Secrets(Repos);
    assert last.fields["default_ref"] == b && Fresh(ctx, lines[0]).fields["default_ref"] == a;
    assert !Agrees(ctx, lines, 0);
  }

  /** On every instance without that repo the document imports, and importing it again
      changes the configuration. */
  lemma RepeatedRepoChanges(c: Config, key: Option<string>, url: string, a: string, b: string)
    requires Unique(c.targets) && Referring(c.specs)
    requires url != "" && Trimmed(url) && url !in Names(c.repos) && a != b
    ensures var doc := Doc(None, [], TwoRefs(url, a, b), []);
            && Imported(c, doc, key).Success?
            && Imported(Imported(c, doc, key).value, doc, key) != Imported(c, doc, key)
  {
    hide Settled, Unique, Referring, TwoRefs, Names;
    var doc := Doc(None, [], TwoRefs(url, a, b), []);
    ImportIdempotentIff(c, doc, key);
    TwoRefsUnsettled(Names(c.repos), ContextOf(c, doc, key, Repos, {}), url, a, b);
  }

  /** A new target listed twice fails the whole import, on every instance. */
  lemma RepeatedTargetFails(c: Config, doc: Doc, key: Option<string>, j: nat, k: nat)
    requires Unique(c.targets) && j < k < |doc.targets|
    requires Trim(doc.targets[j].name) == Trim(doc.targets[k].name) != ""
    requires Trim(doc.targets[j].name) !in Names(c.targets)
    ensures Imported(c, doc, key).Failure?
  {
    hide ApplyAll, Unique, Trim;
    var targets := ContextOf(c, doc, key, Targets, {});
    UniqueIff(c.targets, targets, doc.targets);
    assert Applies(targets, doc.targets[j]) && Applies(targets, doc.targets[k]);
  }

  // ----- export ------------------------------------------------------------------------------------------------

  function Insert(t: Table, x: Line): Table {
    if t == [] then [x]
    else if Sorts(x.name, t[0].name) && x.name != t[0].name then [x] + t
    else [t[0]] + Insert(t[1..], x)
  }

  /** A table by name; rows of one name keep their order. */
  function Sorted(t: Table): Table {
    if t == [] then [] else Insert(Sorted(t[..|t| - 1]), t[|t| - 1])
  }

  /** export_config, with secrets. */
  function Exported(c: Config, key: Option<string>): Doc {
    Doc(key, Sorted(c.targets), Sorted(c.repos), Sorted(c.specs))
  }

  predicate Ascending(t: Table) { forall i, j :: 0 <= i < j < |t| ==> Sorts(t[i].name, t[j].name) }

  lemma {:induction false} InsertRows(t: Table, x: Line)
    ensures multiset(Insert(t, x)) == multiset(t) + multiset{x}
  {
    if t != [] && !(Sorts(x.name, t[0].name) && x.name != t[0].name) {
      InsertRows(t[1..], x);
      assert t == [t[0]] + t[1..];
    }
  }

  lemma {:induction false} SortedRows(t: Table)
    ensures multiset(Sorted(t)) == multiset(t)
  {
    hide Insert;
    if t != [] {
      var n := |t| - 1;
      SortedRows(t[..n]);
      InsertRows(Sorted(t[..n]), t[n]);
      assert t == t[..n] + [t[n]];
    }
  }

  lemma {:induction false} InsertAscends(t: Table, x: Line)
    requires Ascending(t)
    ensures Ascending(Insert(t, x))
  {
    if t == [] {
    } else if Sorts(x.name, t[0].name) && x.name != t[0].name {
      SortsBelow(t, x);
    } else {
      var tail := Insert(t[1..], x);
      InsertAscends(t[1..], x);
      InsertRows(t[1..], x);
      SortsTotal(x.name, t[0].name);
      SortsTotal(t[0].name, t[0].name);
      forall y | y in tail ensures Sorts(t[0].name, y.name) {
        assert y in multiset(tail);
        if y in t[1..] {
          var k :| 0 <= k < |t[1..]| && t[1..][k] == y;
          assert t[k + 1] == y;
        }
      }
      HeadAscends(t[0], tail);
    }
  }

  lemma SortsBelow(t: Table, x: Line)
    requires t != [] && Ascending(t) && Sorts(x.name, t[0].name)
    ensures Ascending([x] + t)
  {
    SortsTotal(t[0].name, t[0].name);
    forall y | y in t ensures Sorts(x.name, y.name) {
      var k :| 0 <= k < |t| && t[k] == y;
      SortsTransitive(x.name, t[0].name, y.name);
    }
    HeadAscends(x, t);
  }

  lemma HeadAscends(x: Line, tail: Table)
    requires Ascending(tail) && forall y :: y in tail ==> Sorts(x.name, y.name)
    ensures Ascending([x] + tail)
  {
    var all := [x] + tail;
    forall i, j | 0 <= i < j < |all| ensures Sorts(all[i].name, all[j].name) {
      assert all[j] == tail[j - 1];
      if i > 0 {
        assert all[i] == tail[i - 1];
      }
    }
  }

  lemma {:induction false} SortedAscends(t: Table)
    ensures Ascending(Sorted(t))
  {
    hide Insert, Ascending;
    if t == [] {
      assert Ascending([]) by { NothingAscends(); }
    } else {
      SortedAscends(t[..|t| - 1]);
      InsertAscends(Sorted(t[..|t| - 1]), t[|t| - 1]);
    }
  }

  lemma NothingAscends()
    ensures Ascending([])
  {
  }

  lemma {:induction false} InsertLast(t: Table, x: Line)
    requires forall y :: y in t ==> Sorts(y.name, x.name)
    ensures Insert(t, x) == t + [x]
  {
    if t != [] {
      if Sorts(x.name, t[0].name) {
        SortsAntisymmetric(x.name, t[0].name);
      }
      InsertLast(t[1..], x);
      assert t == [t[0]] + t[1..];
    }
  }

  lemma {:induction false} AscendingStays(t: Table)
    requires Ascending(t)
    ensures Sorted(t) == t
  {
    hide Insert;
    if t != [] {
      var n := |t| - 1;
      AscendingStays(t[..n]);
      forall y | y in t[..n] ensures Sorts(y.name, t[n].name) {
        var k :| 0 <= k < n && t[..n][k] == y;
      }
      InsertLast(t[..n], t[n]);
      assert t == t[..n] + [t[n]];
    }
  }

  // ----- restore is the inverse of export ---------------------------------------------------------------------

  /** Rows as the control plane keeps them: every column, a name with no white space around
      it, references that lead somewhere. */
  predicate CleanTable(t: Table, s: Section, targets: set<string>, packs: set<string>) {
    forall i :: 0 <= i < |t| ==>
      && t[i].name != "" && Trimmed(t[i].name) && t[i].fields.Keys == Columns(s)
      && (if s.Specs? then
            && t[i].target.Some? && t[i].target.value != "" && t[i].target.value in targets
            && t[i].pack.Some? && t[i].pack.value != "" && t[i].pack.value in packs
          else t[i].target.None? && t[i].pack.None?)
  }

  predicate Clean(c: Config) {
    && Unique(c.targets)
    && CleanTable(c.targets, Targets, {}, c.packs)
    && CleanTable(c.repos, Repos, {}, c.packs)
    && CleanTable(c.specs, Specs, Names(c.targets), c.packs)
  }

  lemma CleanLineIsFresh(t: Table, ctx: Context, i: nat)
    requires CleanTable(t, ctx.section, ctx.targets, ctx.packs) && i < |t|
    ensures Applies(ctx, t[i]) && Fresh(ctx, t[i]) == t[i]
  {
    hide Columns, Trim;
    TrimmedStays(t[i].name);
    assert Sets(ctx, t[i], false) == t[i].fields;
    assert Over(Blank(ctx.section, ctx.defaults), t[i].fields) == t[i].fields;
  }

  lemma CleanFront(t: Table, ctx: Context)
    requires t != [] && CleanTable(t, ctx.section, ctx.targets, ctx.packs)
    ensures CleanTable(t[..|t| - 1], ctx.section, ctx.targets, ctx.packs)
  {
    hide Columns, Trimmed;
  }

  lemma {:induction false} CleanLinesAdd(t: Table, ctx: Context)
    requires CleanTable(t, ctx.section, ctx.targets, ctx.packs)
    ensures NewRows({}, ctx, t) == t
  {
    hide CleanTable, Applies, Fresh, Trim;
    if t != [] {
      var n := |t| - 1;
      CleanFront(t, ctx);
      CleanLinesAdd(t[..n], ctx);
      CleanLineIsFresh(t, ctx, n);
      assert t == t[..n] + [t[n]];
    }
  }

  lemma TableRestores(t: Table, ctx: Context)
    requires CleanTable(t, ctx.section, ctx.targets, ctx.packs)
    ensures ApplyAll([], ctx, t) == t
  {
    hide CleanTable, ApplyAll, NewRows;
    SectionShape([], ctx, t);
    CleanLinesAdd(t, ctx);
    assert Names([]) == {};
    var u := ApplyAll([], ctx, t);
    assert u[0..] == u;
  }

  lemma SortedMembers(t: Table, x: Line)
    ensures x in Sorted(t) <==> x in t
  {
    hide Sorted;
    SortedRows(t);
    assert x in t <==> x in multiset(t);
    assert x in Sorted(t) <==> x in multiset(Sorted(t));
  }

  lemma SortedNames(t: Table)
    ensures Names(Sorted(t)) == Names(t)
  {
    hide Sorted;
    var u := Sorted(t);
    forall n ensures n in Names(u) <==> n in Names(t) {
      if n in Names(u) {
        var i :| 0 <= i < |u| && u[i].name == n;
        SortedMembers(t, u[i]);
      }
      if n in Names(t) {
        var i :| 0 <= i < |t| && t[i].name == n;
        SortedMembers(t, t[i]);
        var j :| 0 <= j < |u| && u[j] == t[i];
      }
    }
  }

  lemma SortedClean(t: Table, s: Section, targets: set<string>, packs: set<string>)
    requires CleanTable(t, s, targets, packs)
    ensures CleanTable(Sorted(t), s, targets, packs)
  {
    hide Sorted, Columns;
    var u := Sorted(t);
    forall i | 0 <= i < |u| ensures u[i] in t {
      SortedMembers(t, u[i]);
    }
  }

  lemma SortedUnique(t: Table)
    requires Unique(t)
    ensures Unique(Sorted(t))
  {
    hide Sorted;
    var u := Sorted(t);
    SortedRows(t);
    forall i, j | 0 <= i < j < |u| ensures u[i].name != u[j].name {
      SortedMembers(t, u[i]);
      SortedMembers(t, u[j]);
      if u[i].name == u[j].name {
        var a :| 0 <= a < |t| && t[a] == u[i];
        var b :| 0 <= b < |t| && t[b] == u[j];
        assert a == b;
        Twice(u, i, j);
        Once(t, a);
      }
    }
  }

  lemma Twice(t: Table, i: nat, j: nat)
    requires i < j < |t| && t[i] == t[j]
    ensures multiset(t)[t[i]] >= 2
  {
    assert t == t[..j] + [t[j]] + t[j + 1..];
    assert t[i] in t[..j];
    assert multiset(t) == multiset(t[..j]) + multiset{t[j]} + multiset(t[j + 1..]);
  }

  lemma Once(t: Table, i: nat)
    requires Unique(t) && i < |t|
    ensures multiset(t)[t[i]] == 1
  {
    assert t == t[..i] + [t[i]] + t[i + 1..];
    assert t[i] !in t[..i] && t[i] !in t[i + 1..];
    assert multiset(t) == multiset(t[..i]) + multiset{t[i]} + multiset(t[i + 1..]);
  }

  function SortedConfig(c: Config): Config {
    c.(targets := Sorted(c.targets), repos := Sorted(c.repos), specs := Sorted(c.specs))
  }

  /** An export restored onto an empty instance gives back every row of every table, repos and
      specs that share a name included, in order of name; whether or not the key is the same;
      only the packs have to be there. And the restored instance exports the same document. */
  lemma RestoreInvertsExport(c: Config, exportKey: Option<string>, key: Option<string>)
    requires Clean(c)
    ensures Imported(Config([], [], [], c.packs, c.defaults), Exported(c, exportKey), key) == Success(SortedConfig(c))
    ensures forall s :: multiset(SortedConfig(c).In(s)) == multiset(c.In(s))
    ensures Exported(SortedConfig(c), exportKey) == Exported(c, exportKey)
  {
    hide CleanTable, ApplyAll, Sorted, Unique, Names, Referring;
    var blank, doc := Config([], [], [], c.packs, c.defaults), Exported(c, exportKey);
    SortedUnique(c.targets);
    SortedNames(c.targets);
    SortedClean(c.targets, Targets, {}, c.packs);
    SortedClean(c.repos, Repos, {}, c.packs);
    SortedClean(c.specs, Specs, Names(c.targets), c.packs);
    TableRestores(doc.targets, ContextOf(blank, doc, key, Targets, {}));
    TableRestores(doc.repos, ContextOf(blank, doc, key, Repos, {}));
    TableRestores(doc.specs, ContextOf(blank, doc, key, Specs, Names(c.targets)));
    CleanRefers(doc.specs, Names(c.targets), c.packs);
    forall s
      ensures multiset(SortedConfig(c).In(s)) == multiset(c.In(s)) && Sorted(Sorted(c.In(s))) == Sorted(c.In(s))
    {
      SortedRows(c.In(s));
      SortedAscends(c.In(s));
      AscendingStays(Sorted(c.In(s)));
    }
    assert Sorted(Sorted(c.In(Targets))) == Sorted(c.In(Targets));
    assert Sorted(Sorted(c.In(Repos))) == Sorted(c.In(Repos));
    assert Sorted(Sorted(c.In(Specs))) == Sorted(c.In(Specs));
  }

  lemma CleanRefers(t: Table, targets: set<string>, packs: set<string>)
    requires CleanTable(t, Specs, targets, packs)
    ensures Referring(t)
  {
    hide Columns, Trimmed;
  }

  // ----- the loops ---------------------------------------------------------------------------------------------

  /** One section of import_config: the rows upserted, how many were new and how many skipped. */
  method ImportSection(t: Table, ctx: Context, lines: seq<Line>) returns (out: Table, created: nat, skipped: nat)
    ensures out == ApplyAll(t, ctx, lines)
    ensures |out| == |t| + created
    ensures skipped == 0 <==> forall l :: l in lines ==> Applies(ctx, l)
  {
    hide Applies, Columns, Sets, Over, Trim, LineTarget, LinePack, Find;
    out, created, skipped := t, 0, 0;
    for i := 0 to |lines|
      invariant |out| == |t| + created
      invariant out == ApplyFrom(t, |t|, ctx, lines[..i])
      invariant skipped == 0 <==> forall l :: l in lines[..i] ==> Applies(ctx, l)
    {
      var l := lines[i];
      assert lines[..i + 1] == lines[..i] + [l] && lines[..i + 1][..i] == lines[..i];
      if !Applies(ctx, l) {
        skipped := skipped + 1;
      } else {
        var found := Find(out, |t|, Trim(l.name));
        if found.None? {
          out := out + [Line(Trim(l.name), Blank(ctx.section, ctx.defaults), None, None)];
          created := created + 1;
        }
        var at := if found.Some? then found.value else |out| - 1;
        var row := out[at];
        var fields := Over(row.fields, Sets(ctx, l, found.Some?));
        out := out[at := Line(row.name, fields, LineTarget(ctx, l), LinePack(ctx, l))];
      }
    }
    assert lines[..|lines|] == lines;
  }
}
