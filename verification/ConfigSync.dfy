/** The shared copy of the configuration: pulled, carried, pushed. */
module ConfigSync {
  import opened Basics
  import opened Text
  import opened ConfigDoc

  /** Rows the last pull could not place here, by section and natural key. */
  datatype Carried = Carried(targets: map<string, Line>, repos: map<string, Line>, specs: map<string, Line>) {
    function In(s: Section): map<string, Line> {
      match s
      case Targets => targets
      case Repos => repos
      case Specs => specs
    }
  }

  /** What a document says, whatever the order of its rows. */
  datatype Digest = Digest(
    fingerprint: Option<string>,
    targets: multiset<Line>,
    repos: multiset<Line>,
    specs: multiset<Line>)

  function DigestOf(doc: Doc): Digest {
    Digest(doc.fingerprint, multiset(doc.targets), multiset(doc.repos), multiset(doc.specs))
  }

  /** The instance, what it remembers of the last sync, and the shared copy. */
  datatype State = State(config: Config, carried: Carried, synced: Option<Digest>, shared: Option<Doc>)

  // ----- pull ---------------------------------------------------------------------------------

  /** The named rows of a document that the table does not have; of one name, the last. */
  function Leftover(t: Table, lines: seq<Line>): map<string, Line> {
    if lines == [] then map[]
    else
      var rest := Leftover(t, lines[..|lines| - 1]);
      var l := lines[|lines| - 1];
      var name := Trim(l.name);
      if name != "" && name !in Names(t) then rest[name := l] else rest
  }

  function CarriedFrom(c: Config, doc: Doc): Carried {
    Carried(Leftover(c.targets, doc.targets), Leftover(c.repos, doc.repos), Leftover(c.specs, doc.specs))
  }

  /** pull; an import the database refuses is rolled back and nothing is remembered of it. */
  function Pulled(st: State, key: Option<string>): State {
    if st.shared.None? then st
    else
      var doc := st.shared.value;
      var c := Imported(st.config, doc, key);
      if c.Failure? then st
      else State(c.value, CarriedFrom(c.value, doc), Some(DigestOf(doc)), st.shared)
  }

  /** There is a document and the instance could take it. */
  predicate PullApplies(st: State, key: Option<string>) {
    st.shared.Some? && Imported(st.config, st.shared.value, key).Success?
  }

  // ----- document and push -----------------------------------------------------------------------

  function Kept(t: Table, m: map<string, Line>): map<string, Line> { map n | n in m && n !in Names(t) :: m[n] }

  function Retained(c: Config, carried: Carried): Carried {
    Carried(Kept(c.targets, carried.targets), Kept(c.repos, carried.repos), Kept(c.specs, carried.specs))
  }

  function Values(m: map<string, Line>, names: seq<string>): (r: seq<Line>)
    requires forall n :: n in names ==> n in m
    ensures |r| == |names| && forall i :: 0 <= i < |names| ==> r[i] == m[names[i]]
  {
    seq(|names|, i requires 0 <= i < |names| => m[names[i]])
  }

  function SectionLines(t: Table, m: map<string, Line>): seq<Line> {
    Sorted(t) + Values(Kept(t, m), Listing(Kept(t, m).Keys))
  }

  /** document: this instance's rows, and the carried rows it does not have itself. */
  function DocumentOf(c: Config, carried: Carried, key: Option<string>): Doc {
    Doc(key, SectionLines(c.targets, carried.targets), SectionLines(c.repos, carried.repos),
        SectionLines(c.specs, carried.specs))
  }

  /** push; a store that refuses the write leaves the shared copy and the digest alone. */
  function Pushed(st: State, key: Option<string>, ok: bool): State {
    var doc := DocumentOf(st.config, st.carried, key);
    var trimmed := st.(carried := Retained(st.config, st.carried));
    if ok then trimmed.(synced := Some(DigestOf(doc)), shared := Some(doc)) else trimmed
  }

  /** maybe_push. */
  function MaybePushed(st: State, key: Option<string>, enabled: bool, ok: bool): State {
    if !enabled then st
    else
      var doc := DocumentOf(st.config, st.carried, key);
      var trimmed := st.(carried := Retained(st.config, st.carried));
      if st.synced == Some(DigestOf(doc)) then trimmed else Pushed(trimmed, key, ok)
  }

  datatype Op =
    | Pull
    | Add(section: Section, row: Line)
    | Edit(section: Section, at: nat, row: Line)
    | Remove(section: Section, name: string)
    | Reindex(packs: set<string>)
    | Push(ok: bool)
    | MaybePush(enabled: bool, ok: bool)

  function Without(t: Table, name: string): Table {
    if t == [] then []
    else
      var rest := Without(t[..|t| - 1], name);
      if t[|t| - 1].name == name then rest else rest + [t[|t| - 1]]
  }

  function Step(st: State, key: Option<string>, op: Op): State {
    match op
    case Pull => Pulled(st, key)
    case Add(s, row) => st.(config := st.config.With(s, st.config.In(s) + [row]))
    case Edit(s, at, row) =>
      var t := st.config.In(s);
      if at < |t| then st.(config := st.config.With(s, t[at := row.(name := t[at].name)])) else st
    case Remove(s, name) => st.(config := st.config.With(s, Without(st.config.In(s), name)))
    case Reindex(packs) => st.(config := st.config.(packs := packs))
    case Push(ok) => Pushed(st, key, ok)
    case MaybePush(enabled, ok) => MaybePushed(st, key, enabled, ok)
  }

  function Ran(st: State, key: Option<string>, ops: seq<Op>): State {
    if ops == [] then st else Step(Ran(st, key, ops[..|ops| - 1]), key, ops[|ops| - 1])
  }

  // ----- what a document holds ----------------------------------------------------------------------

  lemma CarriedRows(m: map<string, Line>, names: seq<string>, l: Line)
    requires forall n :: n in names <==> n in m
    ensures l in Values(m, names) <==> exists n :: n in m && l == m[n]
  {
    var a := Values(m, names);
    if l in a {
      var i :| 0 <= i < |a| && a[i] == l;
      assert names[i] in m;
    }
    if n :| n in m && l == m[n] {
      assert n in names;
      var i :| 0 <= i < |names| && names[i] == n;
      assert a[i] == l;
    }
  }

  /** The rows of a document are the instance's own, and the carried ones it lacks. */
  lemma SectionRows(t: Table, m: map<string, Line>, l: Line)
    ensures l in SectionLines(t, m) <==>
              || l in t
              || (exists n :: n in m && n !in Names(t) && l == m[n])
  {
    hide Listing, Values, Sorted, Names;
    var kept := Kept(t, m);
    SortedMembers(t, l);
    CarriedRows(kept, Listing(kept.Keys), l);
    if n :| n in m && n !in Names(t) && l == m[n] {
      assert n in kept;
    }
    if n :| n in kept && l == kept[n] {
      assert n in m;
    }
  }

  /** Section by section, what a document and its leftovers are. */
  lemma DocumentSection(c: Config, carried: Carried, key: Option<string>, s: Section)
    ensures DocumentOf(c, carried, key).In(s) == SectionLines(c.In(s), carried.In(s))
    ensures Retained(c, carried).In(s) == Kept(c.In(s), carried.In(s))
  {
    hide SectionLines, Kept;
  }

  /** So once this instance has a row, its own version is the one pushed. */
  lemma LocalVersionWins(st: State, key: Option<string>, s: Section, l: Line)
    ensures l in Pushed(st, key, true).shared.value.In(s) <==>
              || l in st.config.In(s)
              || (exists n :: n in st.carried.In(s) && n !in Names(st.config.In(s)) && l == st.carried.In(s)[n])
  {
    hide SectionLines, Retained, DigestOf;
    SectionRows(st.config.In(s), st.carried.In(s), l);
  }

  lemma KeptTwice(t: Table, m: map<string, Line>)
    ensures Kept(t, Kept(t, m)) == Kept(t, m)
    ensures SectionLines(t, Kept(t, m)) == SectionLines(t, m)
  {
    hide Sorted, Values, Listing, Names;
    assert Kept(t, Kept(t, m)) == Kept(t, m);
  }

  /** Building the document again gives the same document and carries the same rows. */
  lemma DocumentIsIdempotent(c: Config, carried: Carried, key: Option<string>)
    ensures DocumentOf(c, Retained(c, carried), key) == DocumentOf(c, carried, key)
    ensures Retained(c, Retained(c, carried)) == Retained(c, carried)
  {
    hide SectionLines, Kept;
    KeptTwice(c.targets, carried.targets);
    KeptTwice(c.repos, carried.repos);
    KeptTwice(c.specs, carried.specs);
  }

  /** With no edit since a push, maybe_push does nothing at all. */
  lemma QuietAfterPush(st: State, key: Option<string>, enabled: bool, ok: bool)
    ensures MaybePushed(Pushed(st, key, true), key, enabled, ok) == Pushed(st, key, true)
  {
    hide DocumentOf, Retained, DigestOf;
    DocumentIsIdempotent(st.config, st.carried, key);
  }

  /** Nor does it after a pull that left nothing of the instance's own to say. */
  lemma QuietAfterPull(st: State, key: Option<string>, enabled: bool, ok: bool)
    requires PullApplies(st, key)
    requires var now := Pulled(st, key);
             var doc := DocumentOf(now.config, now.carried, key);
             && doc.fingerprint == st.shared.value.fingerprint
             && forall s: Section :: multiset(doc.In(s)) == multiset(st.shared.value.In(s))
    ensures MaybePushed(Pulled(st, key), key, enabled, ok).shared == st.shared
  {
    hide DocumentOf, Retained, DigestOf, Imported, CarriedFrom;
    var now := Pulled(st, key);
    DigestSays(DocumentOf(now.config, now.carried, key), st.shared.value);
  }

  /** The digest remembered is that of the shared copy. */
  predicate Synced(st: State) {
    st.synced.Some? ==> st.shared.Some? && st.synced.value == DigestOf(st.shared.value)
  }

  lemma {:induction false} AlwaysSynced(st: State, key: Option<string>, ops: seq<Op>)
    requires Synced(st)
    ensures Synced(Ran(st, key, ops))
  {
    hide DocumentOf, Retained, DigestOf, Imported, CarriedFrom;
    if ops != [] {
      AlwaysSynced(st, key, ops[..|ops| - 1]);
    }
  }

  /** A digest is that of the rows, section by section, in any order, and of the key. */
  lemma DigestSays(a: Doc, b: Doc)
    ensures DigestOf(a) == DigestOf(b) <==>
            a.fingerprint == b.fingerprint && forall s: Section :: multiset(a.In(s)) == multiset(b.In(s))
  {
    if forall s: Section :: multiset(a.In(s)) == multiset(b.In(s)) {
      assert multiset(a.In(Targets)) == multiset(b.In(Targets));
      assert multiset(a.In(Repos)) == multiset(b.In(Repos));
      assert multiset(a.In(Specs)) == multiset(b.In(Specs));
    }
  }

  /** Switched off, maybe_push does nothing. */
  lemma SwitchedOffIsQuiet(st: State, key: Option<string>, ok: bool)
    ensures MaybePushed(st, key, false, ok) == st
  {
  }

  /** After maybe_push has written, or found nothing to write, the shared copy has the rows of
      the document, section by section, and its key: no edit goes unnoticed. */
  lemma SharedCopyIsCurrent(st: State, key: Option<string>, ops: seq<Op>)
    requires Synced(st)
    ensures var now := MaybePushed(Ran(st, key, ops), key, true, true);
            var doc := DocumentOf(now.config, now.carried, key);
            && now.shared.Some? && now.shared.value.fingerprint == doc.fingerprint
            && forall s: Section :: multiset(now.shared.value.In(s)) == multiset(doc.In(s))
  {
    hide Ran, DocumentOf, Retained, DigestOf;
    AlwaysSynced(st, key, ops);
    var st2 := Ran(st, key, ops);
    DocumentIsIdempotent(st2.config, st2.carried, key);
    var now := MaybePushed(st2, key, true, true);
    DigestSays(now.shared.value, DocumentOf(now.config, now.carried, key));
  }

  // ----- nothing is lost -------------------------------------------------------------------------------

  predicate Named(lines: seq<Line>, name: string) { exists i :: 0 <= i < |lines| && Trim(lines[i].name) == name }

  predicate WellCarriedIn(m: map<string, Line>) { forall n :: n in m ==> Trim(m[n].name) == n }

  predicate WellCarried(c: Carried) { WellCarriedIn(c.targets) && WellCarriedIn(c.repos) && WellCarriedIn(c.specs) }

  /** The shared copy has a row of this name, and this instance has it or carries it. */
  predicate Held(st: State, s: Section, name: string) {
    && st.shared.Some? && Named(st.shared.value.In(s), name)
    && (name in Names(st.config.In(s)) || name in st.carried.In(s))
    && WellCarried(st.carried)
  }

  lemma {:induction false} LeftoverHolds(t: Table, lines: seq<Line>, name: string)
    requires name != ""
    ensures name in Leftover(t, lines) <==> Named(lines, name) && name !in Names(t)
    ensures WellCarriedIn(Leftover(t, lines))
  {
    hide Trim, Names;
    if lines != [] {
      var n := |lines| - 1;
      var front := lines[..n];
      LeftoverHolds(t, front, name);
      assert forall i :: 0 <= i < n ==> front[i] == lines[i];
      if Named(front, name) {
        var i :| 0 <= i < |front| && Trim(front[i].name) == name;
        assert Trim(lines[i].name) == name;
      }
    }
  }

  lemma PullHolds(st: State, key: Option<string>, s: Section, name: string)
    requires name != "" && PullApplies(st, key) && Named(st.shared.value.In(s), name)
    ensures Held(Pulled(st, key), s, name)
  {
    hide Leftover, Named, WellCarriedIn, Imported, DigestOf, Names;
    var doc := st.shared.value;
    var c := Imported(st.config, doc, key).value;
    LeftoverHolds(c.targets, doc.targets, name);
    LeftoverHolds(c.repos, doc.repos, name);
    LeftoverHolds(c.specs, doc.specs, name);
  }

  function RowOf(t: Table, name: string): (l: Line)
    requires name in Names(t)
    ensures l in t && l.name == name
  {
    t[Find(t, |t|, name).value]
  }

  lemma DocumentNames(t: Table, m: map<string, Line>, name: string)
    requires (name in Names(t) || name in m) && WellCarriedIn(m) && Trim(name) == name
    ensures Named(SectionLines(t, m), name)
    ensures name in Names(t) || name in Kept(t, m)
    ensures WellCarriedIn(Kept(t, m))
  {
    hide SectionLines, Trim;
    var l := if name in Names(t) then RowOf(t, name) else m[name];
    SectionRows(t, m, l);
    var i :| 0 <= i < |SectionLines(t, m)| && SectionLines(t, m)[i] == l;
  }

  lemma KeptIsWell(t: Table, m: map<string, Line>)
    requires WellCarriedIn(m)
    ensures WellCarriedIn(Kept(t, m))
  {
  }

  lemma RetainedIsWell(c: Config, carried: Carried)
    requires WellCarried(carried)
    ensures WellCarried(Retained(c, carried))
  {
    hide WellCarriedIn, Kept;
    KeptIsWell(c.targets, carried.targets);
    KeptIsWell(c.repos, carried.repos);
    KeptIsWell(c.specs, carried.specs);
  }

  lemma WellIn(carried: Carried, s: Section)
    requires WellCarried(carried)
    ensures WellCarriedIn(carried.In(s))
  {
    hide WellCarriedIn;
  }

  lemma PushHolds(st: State, key: Option<string>, ok: bool, s: Section, name: string)
    requires Held(st, s, name) && Trim(name) == name
    ensures Held(Pushed(st, key, ok), s, name)
  {
    hide SectionLines, Named, WellCarriedIn, WellCarried, DigestOf, Kept, Trim, DocumentOf, Retained, Names;
    WellIn(st.carried, s);
    DocumentNames(st.config.In(s), st.carried.In(s), name);
    RetainedIsWell(st.config, st.carried);
    DocumentSection(st.config, st.carried, key, s);
  }

  lemma EditHolds(st: State, key: Option<string>, op: Op, s: Section, name: string)
    requires Held(st, s, name) && op != Remove(s, name) && (op.Add? || op.Edit? || op.Remove? || op.Reindex?)
    ensures Held(Step(st, key, op), s, name)
  {
    hide Named, WellCarried, Names, Without;
    if op.Remove? && op.section == s {
      WithoutOther(st.config.In(s), op.name, name);
    } else if op.Add? {
      NamesAdd(st.config.In(op.section), op.row, name);
    } else if op.Edit? && op.at < |st.config.In(op.section)| {
      NamesEdit(st.config.In(op.section), op.at, op.row, name);
    }
  }

  lemma {:induction false} WithoutOther(t: Table, removed: string, name: string)
    requires removed != name
    ensures name in Names(Without(t, removed)) <==> name in Names(t)
  {
    hide Names;
    if t == [] {
    } else {
      var n := |t| - 1;
      WithoutOther(t[..n], removed, name);
      NamesAdd(t[..n], t[n], name);
      assert t == t[..n] + [t[n]];
      NamesAdd(Without(t[..n], removed), t[n], name);
    }
  }

  lemma NamesAdd(t: Table, row: Line, name: string)
    ensures name in Names(t + [row]) <==> name in Names(t) || name == row.name
  {
    var u := t + [row];
    if name in Names(t) {
      var i :| 0 <= i < |t| && t[i].name == name;
      assert u[i].name == name;
    }
    assert u[|t|].name in Names(u);
  }

  lemma NamesEdit(t: Table, at: nat, row: Line, name: string)
    requires at < |t|
    ensures name in Names(t[at := row.(name := t[at].name)]) <==> name in Names(t)
  {
    var u := t[at := row.(name := t[at].name)];
    assert forall i :: 0 <= i < |t| ==> u[i].name == t[i].name;
  }

  lemma StepHolds(st: State, key: Option<string>, op: Op, s: Section, name: string)
    requires Held(st, s, name) && Trim(name) == name && name != "" && op != Remove(s, name)
    ensures Held(Step(st, key, op), s, name)
  {
    hide Held, Pulled, Pushed, Trim, DocumentOf, Retained, DigestOf, PullApplies, Without;
    match op
    case Pull =>
      NamedShared(st, s, name);
      if PullApplies(st, key) {
        PullHolds(st, key, s, name);
      } else {
        RefusedPull(st, key);
      }
    case Push(ok) => PushHolds(st, key, ok, s, name);
    case MaybePush(enabled, ok) =>
      var trimmed := st.(carried := Retained(st.config, st.carried));
      PushHolds(st, key, false, s, name);
      FailedPush(st, key);
      PushHolds(trimmed, key, ok, s, name);
    case _ => EditHolds(st, key, op, s, name);
  }

  lemma RefusedPull(st: State, key: Option<string>)
    requires !PullApplies(st, key)
    ensures Pulled(st, key) == st
  {
    hide Imported;
  }

  lemma NamedShared(st: State, s: Section, name: string)
    requires Held(st, s, name)
    ensures st.shared.Some? && Named(st.shared.value.In(s), name)
  {
  }

  lemma FailedPush(st: State, key: Option<string>)
    ensures Pushed(st, key, false) == st.(carried := Retained(st.config, st.carried))
  {
  }

  lemma {:induction false} HeldThrough(st: State, key: Option<string>, ops: seq<Op>, s: Section, name: string)
    requires Held(st, s, name) && Trim(name) == name && name != "" && Remove(s, name) !in ops
    ensures Held(Ran(st, key, ops), s, name)
  {
    hide Held, Step, Trim;
    if ops != [] {
      var n := |ops| - 1;
      assert Remove(s, name) !in ops[..n] && ops[n] in ops;
      HeldThrough(st, key, ops[..n], s, name);
      StepHolds(Ran(st, key, ops[..n]), key, ops[n], s, name);
    }
  }

  /** After a pull that applied and anything this instance does to its rows and pushes, every
      named row of the pulled document is still in the shared copy, unless it was deleted here. */
  lemma NothingPulledIsLost(st: State, key: Option<string>, ops: seq<Op>, s: Section, i: nat)
    requires PullApplies(st, key) && i < |st.shared.value.In(s)|
    requires var name := Trim(st.shared.value.In(s)[i].name); name != "" && Remove(s, name) !in ops
    ensures var name := Trim(st.shared.value.In(s)[i].name);
            var after := Ran(Pulled(st, key), key, ops);
            after.shared.Some? && Named(after.shared.value.In(s), name)
  {
    hide Ran, Pulled, Trim, WellCarried, Imported;
    var name := Trim(st.shared.value.In(s)[i].name);
    assert Named(st.shared.value.In(s), name);
    PullHolds(st, key, s, name);
    TrimTwice(st.shared.value.In(s)[i].name);
    HeldThrough(Pulled(st, key), key, ops, s, name);
  }

  // ----- carried rows are carried whole ---------------------------------------------------------------

  /** Of the lines of that name, row is the last. */
  predicate LastIs(lines: seq<Line>, name: string, row: Line) {
    exists k :: 0 <= k < |lines| && LastAt(lines, name, k) && lines[k] == row
  }

  predicate LastAt(lines: seq<Line>, name: string, k: nat)
    requires k < |lines|
  {
    Trim(lines[k].name) == name && forall j :: k < j < |lines| ==> Trim(lines[j].name) != name
  }

  /** What is left over under a name is its last line, column for column. */
  lemma {:induction false} LeftoverIsLast(t: Table, lines: seq<Line>, name: string, k: nat)
    requires k < |lines| && LastAt(lines, name, k) && name != "" && name !in Names(t)
    ensures name in Leftover(t, lines) && Leftover(t, lines)[name] == lines[k]
  {
    hide Trim, Names;
    var n := |lines| - 1;
    if k < n {
      assert forall j :: 0 <= j < n ==> lines[..n][j] == lines[j];
      LeftoverIsLast(t, lines[..n], name, k);
    }
  }

  /** The row is carried as that very line, and is what the shared copy says last of its name. */
  predicate Verbatim(st: State, s: Section, name: string, row: Line) {
    && st.shared.Some? && LastIs(st.shared.value.In(s), name, row)
    && name in st.carried.In(s) && st.carried.In(s)[name] == row
    && WellCarried(st.carried)
  }

  /** This instance has no row under the name. */
  predicate Lacks(st: State, s: Section, name: string) { name !in Names(st.config.In(s)) }

  lemma PullVerbatim(st: State, key: Option<string>, s: Section, name: string, row: Line)
    requires PullApplies(st, key) && LastIs(st.shared.value.In(s), name, row) && name != ""
    requires Lacks(Pulled(st, key), s, name)
    ensures Verbatim(Pulled(st, key), s, name, row)
  {
    hide Leftover, LastAt, WellCarriedIn, Imported, DigestOf, Names;
    var doc := st.shared.value;
    var c := Imported(st.config, doc, key).value;
    LeftoverIsWell(c.targets, doc.targets);
    LeftoverIsWell(c.repos, doc.repos);
    LeftoverIsWell(c.specs, doc.specs);
    var k :| 0 <= k < |doc.In(s)| && LastAt(doc.In(s), name, k) && doc.In(s)[k] == row;
    LeftoverIsLast(c.In(s), doc.In(s), name, k);
  }

  /** A document the instance writes says a carried row last of its name. */
  lemma WrittenLast(t: Table, m: map<string, Line>, name: string)
    requires WellCarriedIn(m) && name in m && name !in Names(t)
    ensures LastIs(SectionLines(t, m), name, m[name])
  {
    hide Sorted, Trim, Names, Listing;
    var kept := Kept(t, m);
    var names := Listing(kept.Keys);
    var own, carried, lines := Sorted(t), Values(kept, names), SectionLines(t, m);
    assert name in names;
    var i :| 0 <= i < |names| && names[i] == name;
    var k := |own| + i;
    assert lines[k] == carried[i] == m[name];
    forall j | k < j < |lines| ensures Trim(lines[j].name) != name {
      var other := names[j - |own|];
      assert other in names && other in kept;
      assert lines[j] == carried[j - |own|] == m[other];
    }
    assert LastAt(lines, name, k);
  }

  lemma PushVerbatim(st: State, key: Option<string>, ok: bool, s: Section, name: string, row: Line)
    requires Verbatim(st, s, name, row) && Lacks(st, s, name)
    ensures Verbatim(Pushed(st, key, ok), s, name, row)
  {
    hide SectionLines, LastIs, WellCarriedIn, WellCarried, DigestOf, DocumentOf, Retained, Names;
    WellIn(st.carried, s);
    WrittenLast(st.config.In(s), st.carried.In(s), name);
    RetainedIsWell(st.config, st.carried);
    DocumentSection(st.config, st.carried, key, s);
  }

  lemma StepVerbatim(st: State, key: Option<string>, op: Op, s: Section, name: string, row: Line)
    requires Verbatim(st, s, name, row) && name != "" && Lacks(st, s, name) && Lacks(Step(st, key, op), s, name)
    ensures Verbatim(Step(st, key, op), s, name, row)
  {
    hide Verbatim, Pulled, Pushed, DocumentOf, Retained, DigestOf, PullApplies, Without, Names;
    match op
    case Pull =>
      VerbatimShared(st, s, name, row);
      if PullApplies(st, key) {
        PullVerbatim(st, key, s, name, row);
      } else {
        RefusedPull(st, key);
      }
    case Push(ok) => PushVerbatim(st, key, ok, s, name, row);
    case MaybePush(enabled, ok) =>
      var trimmed := st.(carried := Retained(st.config, st.carried));
      PushVerbatim(st, key, false, s, name, row);
      FailedPush(st, key);
      PushVerbatim(trimmed, key, ok, s, name, row);
    case _ => EditVerbatim(st, key, op, s, name, row);
  }

  lemma VerbatimShared(st: State, s: Section, name: string, row: Line)
    requires Verbatim(st, s, name, row)
    ensures st.shared.Some? && LastIs(st.shared.value.In(s), name, row)
  {
  }

  lemma EditVerbatim(st: State, key: Option<string>, op: Op, s: Section, name: string, row: Line)
    requires Verbatim(st, s, name, row) && (op.Add? || op.Edit? || op.Remove? || op.Reindex?)
    ensures Verbatim(Step(st, key, op), s, name, row)
  {
    hide LastIs, WellCarried, Without;
  }

  lemma {:induction false} VerbatimThrough(
    st: State, key: Option<string>, ops: seq<Op>, s: Section, name: string, row: Line)
    requires Verbatim(st, s, name, row) && name != ""
    requires forall m :: 0 <= m <= |ops| ==> Lacks(Ran(st, key, ops[..m]), s, name)
    ensures Verbatim(Ran(st, key, ops), s, name, row)
  {
    hide Verbatim, Step, Lacks;
    if ops != [] {
      var n := |ops| - 1;
      assert forall m :: 0 <= m <= n ==> ops[..n][..m] == ops[..m];
      VerbatimThrough(st, key, ops[..n], s, name, row);
      assert ops[..n + 1] == ops;
      assert Lacks(Ran(st, key, ops[..n]), s, name) && Lacks(Ran(st, key, ops[..n + 1]), s, name);
      StepVerbatim(Ran(st, key, ops[..n]), key, ops[n], s, name, row);
    }
  }

  /** After a pull that applied and any edits, pulls and pushes, a row the instance has never had
      stands in the shared copy as the very line that was pulled: every column, its target and
      its pack. */
  lemma PulledRowStaysWhole(st: State, key: Option<string>, ops: seq<Op>, s: Section, k: nat)
    requires PullApplies(st, key) && k < |st.shared.value.In(s)|
    requires var lines := st.shared.value.In(s); Trim(lines[k].name) != "" && LastAt(lines, Trim(lines[k].name), k)
    requires var name := Trim(st.shared.value.In(s)[k].name);
             forall m :: 0 <= m <= |ops| ==> name !in Names(Ran(Pulled(st, key), key, ops[..m]).config.In(s))
    ensures var row, after := st.shared.value.In(s)[k], Ran(Pulled(st, key), key, ops);
            && after.shared.Some? && row in after.shared.value.In(s)
            && LastIs(after.shared.value.In(s), Trim(row.name), row)
  {
    hide Pulled, Trim, WellCarried, Imported, Names, LastAt;
    var row := st.shared.value.In(s)[k];
    var name := Trim(row.name);
    assert ops[..0] == [];
    assert Lacks(Ran(Pulled(st, key), key, ops[..0]), s, name);
    PullVerbatim(st, key, s, name, row);
    VerbatimThrough(Pulled(st, key), key, ops, s, name, row);
  }

  // ----- exactly what a push keeps -----------------------------------------------------------------

  const NothingCarried := Carried(map[], map[], map[])

  lemma LeftoverIsWell(t: Table, lines: seq<Line>)
    ensures WellCarriedIn(Leftover(t, lines))
  {
    hide Leftover, WellCarriedIn, Named;
    LeftoverHolds(t, lines, "x");
  }

  lemma StepIsWell(st: State, key: Option<string>, op: Op)
    requires WellCarried(st.carried)
    ensures WellCarried(Step(st, key, op).carried)
  {
    hide Leftover, WellCarriedIn, DocumentOf, DigestOf, Imported, Without, Retained;
    RetainedIsWell(st.config, st.carried);
    RetainedIsWell(st.config, Retained(st.config, st.carried));
    if op.Pull? && PullApplies(st, key) {
      var doc := st.shared.value;
      var c := Imported(st.config, doc, key).value;
      LeftoverIsWell(c.targets, doc.targets);
      LeftoverIsWell(c.repos, doc.repos);
      LeftoverIsWell(c.specs, doc.specs);
    }
  }

  /** Carried rows are filed under their own names after every history. */
  lemma {:induction false} AlwaysWellCarried(st: State, key: Option<string>, ops: seq<Op>)
    requires WellCarried(st.carried)
    ensures WellCarried(Ran(st, key, ops).carried)
  {
    hide Step, WellCarried;
    if ops != [] {
      AlwaysWellCarried(st, key, ops[..|ops| - 1]);
      StepIsWell(Ran(st, key, ops[..|ops| - 1]), key, ops[|ops| - 1]);
    }
  }

  /** The instance has a row that goes by this name. */
  predicate Has(t: Table, name: string) { exists k :: 0 <= k < |t| && Trim(t[k].name) == name }

  lemma SectionNamesIff(t: Table, m: map<string, Line>, name: string)
    requires WellCarriedIn(m) && Trim(name) == name
    ensures Named(SectionLines(t, m), name) <==> Has(t, name) || name in m
  {
    hide SectionLines, Trim, Names;
    var lines := SectionLines(t, m);
    if i :| 0 <= i < |lines| && Trim(lines[i].name) == name {
      SectionRows(t, m, lines[i]);
    }
    if k :| 0 <= k < |t| && Trim(t[k].name) == name {
      SectionRows(t, m, t[k]);
      var i :| 0 <= i < |lines| && lines[i] == t[k];
    } else if name in m {
      DocumentNames(t, m, name);
    }
  }

  /** What a push writes, by name, from any state. */
  lemma PushWritesIff(st: State, key: Option<string>, s: Section, name: string)
    requires WellCarried(st.carried) && Trim(name) == name
    ensures var after := Pushed(st, key, true);
            && after.shared.Some?
            && (Named(after.shared.value.In(s), name) <==> Has(st.config.In(s), name) || name in st.carried.In(s))
  {
    hide SectionLines, DigestOf, Retained, Trim, Named, Has, WellCarriedIn;
    WellIn(st.carried, s);
    DocumentSection(st.config, st.carried, key, s);
    SectionNamesIff(st.config.In(s), st.carried.In(s), name);
  }

  /** After every history from an instance that carries nothing: a row of the shared copy is
      still there once this instance has pulled and pushed, exactly when the pull applies, or
      the instance carries the row from an earlier pull, or has one of that name itself. */
  lemma PullAndPushKeepsIff(start: State, key: Option<string>, ops: seq<Op>, s: Section, name: string)
    requires start.carried == NothingCarried && Trim(name) == name != ""
    requires var st := Ran(start, key, ops); st.shared.Some? && Named(st.shared.value.In(s), name)
    ensures var st := Ran(start, key, ops);
            var after := Pushed(Pulled(st, key), key, true);
            && after.shared.Some?
            && (Named(after.shared.value.In(s), name) <==>
                  PullApplies(st, key) || name in st.carried.In(s) || Has(st.config.In(s), name))
  {
    hide Ran, Pulled, Pushed, Trim, PullApplies, Has, Named, Names;
    AlwaysWellCarried(start, key, ops);
    var st := Ran(start, key, ops);
    if PullApplies(st, key) {
      PullHolds(st, key, s, name);
      PushHolds(Pulled(st, key), key, true, s, name);
    } else {
      RefusedPull(st, key);
      PushWritesIff(st, key, s, name);
    }
  }

  /** So a pull that is refused protects only what was carried before: the next push drops
      every other row of the shared copy that this instance lacks. */
  lemma RefusedPullLosesOnPush(st: State, key: Option<string>, s: Section, name: string)
    requires st.shared.Some? && !PullApplies(st, key) && WellCarried(st.carried) && Trim(name) == name
    requires name !in st.carried.In(s) && !Has(st.config.In(s), name)
    ensures var after := Pushed(Pulled(st, key), key, true);
            after.shared.Some? && !Named(after.shared.value.In(s), name)
  {
    hide Pulled, Pushed, Trim, PullApplies, Has, Named, WellCarried;
    RefusedPull(st, key);
    PushWritesIff(st, key, s, name);
  }

  /** On a new instance, a shared copy with one target listed twice is such a copy. */
  lemma RepeatedTargetIsRefused(st: State, key: Option<string>, j: nat, k: nat)
    requires st.shared.Some? && Unique(st.config.targets) && j < k < |st.shared.value.targets|
    requires var lines := st.shared.value.targets;
             Trim(lines[j].name) == Trim(lines[k].name) != "" && Trim(lines[j].name) !in Names(st.config.targets)
    ensures !PullApplies(st, key)
  {
    hide Trim, Imported, Unique;
    RepeatedTargetFails(st.config, st.shared.value, key, j, k);
  }

  // ----- the module's own state -------------------------------------------------------------------------

  /** The carried rows looked at so far that are kept. */
  function KeptBut(t: Table, m: map<string, Line>, left: set<string>): map<string, Line> {
    map n | n in m && n !in left && n !in Names(t) :: m[n]
  }

  lemma KeptOne(t: Table, m: map<string, Line>, left: set<string>, n: string)
    requires n in left && n in m
    ensures KeptBut(t, m, left - {n}) == if n in Names(t) then KeptBut(t, m, left) else KeptBut(t, m, left)[n := m[n]]
  {
  }

  lemma KeptEnds(t: Table, m: map<string, Line>)
    ensures KeptBut(t, m, m.Keys) == map[] && KeptBut(t, m, {}) == Kept(t, m)
  {
  }

  /** The document loop for one section: present names are dropped, the rest appended. */
  method AppendCarried(t: Table, m: map<string, Line>) returns (lines: seq<Line>, kept: map<string, Line>)
    ensures lines == SectionLines(t, m) && kept == Kept(t, m)
  {
    hide Listing, KeptBut, Kept, Sorted, Values, Names;
    kept := map[];
    var left := m.Keys;
    var present := Names(t);
    KeptEnds(t, m);
    while left != {}
      invariant left <= m.Keys && kept == KeptBut(t, m, left)
      decreases left
    {
      var n :| n in left;
      KeptOne(t, m, left, n);
      if n !in present {
        kept := kept[n := m[n]];
      }
      left := left - {n};
    }
    lines := Sorted(t) + Values(kept, Listing(kept.Keys));
  }

  class ConfigSource {
    const key: Option<string>
    var config: Config
    var carried: Carried
    var synced: Option<Digest>
    var shared: Option<Doc>

    constructor (key: Option<string>, st: State)
      ensures this.key == key && View() == st
    {
      this.key := key;
      config, carried, synced, shared := st.config, st.carried, st.synced, st.shared;
    }

    function View(): State
      reads this
    {
      State(config, carried, synced, shared)
    }

    /** import_config; what the database refuses is rolled back. */
    method Import(doc: Doc) returns (ok: bool)
      modifies `config
      ensures ok == Imported(old(config), doc, key).Success?
      ensures config == if ok then Imported(old(config), doc, key).value else old(config)
    {
      hide ApplyAll, Names, Unique, Referring;
      var foreign := Foreign(doc, key);
      var targets, newTargets, badTargets :=
        ImportSection(config.targets, Context(Targets, foreign, {}, config.packs, config.defaults), doc.targets);
      if !Unique(targets) {
        return false;
      }
      var repos, newRepos, badRepos :=
        ImportSection(config.repos, Context(Repos, foreign, {}, config.packs, config.defaults), doc.repos);
      var specs, newSpecs, badSpecs :=
        ImportSection(config.specs, Context(Specs, foreign, Names(targets), config.packs, config.defaults), doc.specs);
      if !Referring(specs) {
        return false;
      }
      config := Config(targets, repos, specs, config.packs, config.defaults);
      return true;
    }

    /** The rows of a section that the import left out. */
    method Uncovered(t: Table, lines: seq<Line>) returns (m: map<string, Line>)
      ensures m == Leftover(t, lines)
    {
      hide Trim, Names;
      m := map[];
      for i := 0 to |lines|
        invariant m == Leftover(t, lines[..i])
      {
        assert lines[..i + 1][..i] == lines[..i] && lines[..i + 1][i] == lines[i];
        var name := Trim(lines[i].name);
        if name != "" && name !in Names(t) {
          m := m[name := lines[i]];
        }
      }
      assert lines[..|lines|] == lines;
    }

    method PullShared() returns (applied: bool)
      modifies this
      ensures View() == Pulled(old(View()), key) && applied == PullApplies(old(View()), key)
    {
      hide Imported, Leftover, DigestOf;
      applied := shared.Some?;
      if !applied {
        return;
      }
      var doc := shared.value;
      applied := Import(doc);
      if applied {
        var targets := Uncovered(config.targets, doc.targets);
        var repos := Uncovered(config.repos, doc.repos);
        var specs := Uncovered(config.specs, doc.specs);
        carried := Carried(targets, repos, specs);
        synced := Some(DigestOf(doc));
      }
    }

    method Document() returns (doc: Doc)
      modifies `carried
      ensures doc == DocumentOf(config, old(carried), key)
      ensures carried == Retained(config, old(carried))
    {
      hide SectionLines, Kept;
      var targets, keptTargets := AppendCarried(config.targets, carried.targets);
      var repos, keptRepos := AppendCarried(config.repos, carried.repos);
      var specs, keptSpecs := AppendCarried(config.specs, carried.specs);
      carried := Carried(keptTargets, keptRepos, keptSpecs);
      doc := Doc(key, targets, repos, specs);
    }

    method PushNow(ok: bool)
      modifies this
      ensures View() == Pushed(old(View()), key, ok)
    {
      hide DocumentOf, Retained, DigestOf;
      var doc := Document();
      if ok {
        shared := Some(doc);
        synced := Some(DigestOf(doc));
      }
    }

    method PushIfChanged(enabled: bool, ok: bool) returns (pushed: bool)
      modifies this
      ensures View() == MaybePushed(old(View()), key, enabled, ok)
      ensures !pushed ==> shared == old(shared) && synced == old(synced)
    {
      hide DocumentOf, Retained, DigestOf;
      if !enabled {
        return false;
      }
      var doc := Document();
      if synced == Some(DigestOf(doc)) {
        return false;
      }
      PushNow(ok);
      return true;
    }
  }
}
