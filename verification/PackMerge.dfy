/** Several eventgen packs merged into one bundle. */
module PackMerge {
  import opened Basics
  import opened Text
  import opened Namespaces

  type Options = map<string, string>

  /** A section of a pack's conf, the parser's defaults already folded into its options. */
  datatype Stanza = Stanza(name: string, options: Options)

  /** A pack as parsed for a merge: why it cannot be merged, if so; its sections in order;
      its sample files by path under samples/. */
  datatype Pack = Pack(problem: Option<string>, sections: seq<Stanza>, samples: set<string>)

  datatype Input = Input(ns: string, pack: Pack)

  /** Which pack's which sample a merged file is a copy of. */
  datatype Source = Source(ns: string, path: string)

  datatype Bundle = Bundle(conf: seq<Stanza>, files: map<string, Source>)

  // ----- names --------------------------------------------------------------------------------

  predicate IsGlobal(section: string) { Lower(section) == "global" || Lower(section) == "default" }

  /** A nested path on one level. */
  function Flat(path: string): string {
    if path == "" then "" else (if path[0] == '/' then SEP else [path[0]]) + Flat(path[1..])
  }

  function MergedName(ns: string, path: string): string { Prefixed(ns, Flat(path)) }

  // ----- references to samples ------------------------------------------------------------------

  function LastColon(s: string): (r: Option<nat>)
    ensures r.Some? ==> r.value < |s| && s[r.value] == ':' && forall j :: r.value < j < |s| ==> s[j] != ':'
    ensures r.None? ==> ':' !in s
  {
    if s == "" then None
    else if s[|s| - 1] == ':' then Some(|s| - 1)
    else LastColon(s[..|s| - 1])
  }

  /** A reference and the column it names, an integer after the last colon. */
  function SplitColumn(raw: string): (string, string) {
    var i := LastColon(raw);
    if i.Some? && Integer(raw[i.value + 1..]) then (raw[..i.value], raw[i.value..]) else (raw, "")
  }

  /** The sample a reference names, by path under samples/. */
  function Referenced(raw: string, samples: set<string>): Option<string> {
    var path := SplitColumn(raw).0;
    var norm := if "./" <= path then path[2..] else path;
    if "samples/" <= norm then (if norm[8..] in samples then Some(norm[8..]) else None)
    else if '/' !in norm && norm in samples then Some(norm)
    else None
  }

  /** _rewrite_sample_ref. */
  function Rewritten(value: string, samples: set<string>, ns: string): string {
    var raw := Trim(value);
    if raw == "" then value
    else
      var path := Referenced(raw, samples);
      if path.None? then value else "samples/" + MergedName(ns, path.value) + SplitColumn(raw).1
  }

  const TYPE := ".replacementType"
  const VALUE := ".replacement"

  predicate Ends(s: string, tail: string) { |tail| <= |s| && s[|s| - |tail|..] == tail }

  /** Options whose value is a path to a sample file. */
  predicate IsFileRef(options: Options, key: string) {
    || key == "sampleFile"
    || (Ends(key, VALUE) &&
        var kind := key[..|key| - |VALUE|] + TYPE;
        && kind in options
        && (Trim(options[kind]) == "file" || Trim(options[kind]) == "mvfile" || Trim(options[kind]) == "seqfile"))
  }

  /** _merged_stanza_options: a pack's globals under the stanza's own keys, its file
      references renamed. */
  function MergedOptions(globals: Options, own: Options, samples: set<string>, ns: string): Options {
    var all := globals + own;
    map key | key in all ::
      if all[key] != "" && IsFileRef(all, key) then Rewritten(all[key], samples, ns) else all[key]
  }

  // ----- the merge --------------------------------------------------------------------------------------

  /** The options of a pack's global sections, later ones over earlier. */
  function GlobalsOf(sections: seq<Stanza>): Options {
    if sections == [] then map[]
    else
      var rest := GlobalsOf(sections[..|sections| - 1]);
      var s := sections[|sections| - 1];
      if IsGlobal(s.name) then rest + s.options else rest
  }

  function MergedStanza(in_: Input, s: Stanza): Stanza {
    Stanza(Prefixed(in_.ns, s.name),
           MergedOptions(GlobalsOf(in_.pack.sections), s.options, in_.pack.samples, in_.ns))
  }

  /** The first n sections of a pack, its global ones dropped, as stanzas of the merge. */
  function StanzasUpTo(in_: Input, n: nat): seq<Stanza>
    requires n <= |in_.pack.sections|
  {
    if n == 0 then []
    else
      var s := in_.pack.sections[n - 1];
      StanzasUpTo(in_, n - 1) + (if IsGlobal(s.name) then [] else [MergedStanza(in_, s)])
  }

  function StanzasOf(in_: Input): seq<Stanza> { StanzasUpTo(in_, |in_.pack.sections|) }

  /** A pack's samples put among the merged files; two of one name are an error. */
  function AddSamples(files: map<string, Source>, ns: string, paths: seq<string>): Result<map<string, Source>> {
    if paths == [] then Success(files)
    else
      var rest := AddSamples(files, ns, paths[..|paths| - 1]);
      var path := paths[|paths| - 1];
      if rest.Failure? then rest
      else if MergedName(ns, path) in rest.value then Failure("merged sample name collision")
      else Success(rest.value[MergedName(ns, path) := Source(ns, path)])
  }

  function AddPack(b: Bundle, in_: Input): Result<Bundle> {
    if in_.pack.problem.Some? then Failure(in_.pack.problem.value)
    else
      var files := AddSamples(b.files, in_.ns, Listing(in_.pack.samples));
      if files.Failure? then Failure(files.message)
      else Success(Bundle(b.conf + StanzasOf(in_), files.value))
  }

  function AddPacks(inputs: seq<Input>): Result<Bundle> {
    if inputs == [] then Success(Bundle([], map[]))
    else
      var rest := AddPacks(inputs[..|inputs| - 1]);
      if rest.Failure? then rest else AddPack(rest.value, inputs[|inputs| - 1])
  }

  function NamesOf(inputs: seq<Input>): (r: seq<string>)
    ensures |r| == |inputs| && forall i :: 0 <= i < |inputs| ==> r[i] == inputs[i].ns
  {
    seq(|inputs|, i requires 0 <= i < |inputs| => inputs[i].ns)
  }

  function Insert(inputs: seq<Input>, x: Input): seq<Input> {
    if inputs == [] then [x]
    else if Sorts(x.ns, inputs[0].ns) && x.ns != inputs[0].ns then [x] + inputs
    else [inputs[0]] + Insert(inputs[1..], x)
  }

  function Ordered(inputs: seq<Input>): seq<Input> {
    if inputs == [] then [] else Insert(Ordered(inputs[..|inputs| - 1]), inputs[|inputs| - 1])
  }

  /** build_from_packs, up to rendering. */
  function Merge(inputs: seq<Input>): Result<Bundle> {
    if |inputs| < 2 then Failure("a multi-pack bundle needs at least two packs")
    else if !Distinct(NamesOf(inputs)) then Failure("multi-pack namespaces must be unique")
    else AddPacks(Ordered(inputs))
  }

  // ----- order of selection does not matter ------------------------------------------------------------------

  predicate Ascending(inputs: seq<Input>) {
    forall i, j :: 0 <= i < j < |inputs| ==> Sorts(inputs[i].ns, inputs[j].ns)
  }

  lemma {:induction false} InsertKeeps(inputs: seq<Input>, x: Input)
    requires Ascending(inputs)
    ensures multiset(Insert(inputs, x)) == multiset(inputs) + multiset{x}
    ensures Ascending(Insert(inputs, x))
  {
    if inputs == [] {
    } else if Sorts(x.ns, inputs[0].ns) && x.ns != inputs[0].ns {
      forall i, j | 0 <= i < j < |[x] + inputs| ensures Sorts(([x] + inputs)[i].ns, ([x] + inputs)[j].ns) {
        if i == 0 && j > 1 {
          SortsTransitive(x.ns, inputs[0].ns, inputs[j - 1].ns);
        }
      }
    } else {
      var tail := Insert(inputs[1..], x);
      InsertKeeps(inputs[1..], x);
      assert inputs == [inputs[0]] + inputs[1..];
      SortsTotal(x.ns, inputs[0].ns);
      SortsTotal(inputs[0].ns, inputs[0].ns);
      forall y | y in tail ensures Sorts(inputs[0].ns, y.ns) {
        assert y in multiset(tail);
        if y in inputs[1..] {
          var k :| 0 <= k < |inputs[1..]| && inputs[1..][k] == y;
          assert inputs[k + 1] == y;
        }
      }
      HeadFirst(inputs[0], tail);
    }
  }

  lemma HeadFirst(x: Input, tail: seq<Input>)
    requires Ascending(tail) && forall y :: y in tail ==> Sorts(x.ns, y.ns)
    ensures Ascending([x] + tail)
  {
    var all := [x] + tail;
    forall i, j | 0 <= i < j < |all| ensures Sorts(all[i].ns, all[j].ns) {
      assert all[j] == tail[j - 1];
      if i > 0 {
        assert all[i] == tail[i - 1];
      }
    }
  }

  lemma {:induction false} OrderedKeeps(inputs: seq<Input>)
    ensures multiset(Ordered(inputs)) == multiset(inputs) && Ascending(Ordered(inputs))
  {
    if inputs != [] {
      var n := |inputs| - 1;
      OrderedKeeps(inputs[..n]);
      InsertKeeps(Ordered(inputs[..n]), inputs[n]);
      assert inputs == inputs[..n] + [inputs[n]];
    }
  }

  ghost predicate UniqueNames(m: multiset<Input>) {
    && (forall x :: x in m ==> m[x] == 1)
    && (forall x, y :: x in m && y in m && x.ns == y.ns ==> x == y)
  }

  lemma {:induction false} UniqueFrom(inputs: seq<Input>)
    requires Distinct(NamesOf(inputs))
    ensures UniqueNames(multiset(inputs))
  {
    if inputs != [] {
      var n := |inputs| - 1;
      var front, last := inputs[..n], inputs[n];
      assert inputs == front + [last];
      forall i, j | 0 <= i < j < |NamesOf(front)| ensures NamesOf(front)[i] != NamesOf(front)[j] {
        assert NamesOf(inputs)[i] != NamesOf(inputs)[j];
      }
      UniqueFrom(front);
      forall x | x in front ensures x.ns != last.ns {
        var i :| 0 <= i < |front| && front[i] == x;
        assert NamesOf(inputs)[i] != NamesOf(inputs)[n];
      }
      assert last !in front;
      assert multiset(inputs) == multiset(front) + multiset{last};
    }
  }

  lemma SameHead(a: seq<Input>, b: seq<Input>)
    requires a != [] && b != [] && multiset(a) == multiset(b)
    requires UniqueNames(multiset(a)) && Ascending(a) && Ascending(b)
    ensures a[0] == b[0]
  {
    assert a[0] in multiset(b) && b[0] in multiset(a);
    var i :| 0 <= i < |b| && b[i] == a[0];
    var j :| 0 <= j < |a| && a[j] == b[0];
    SortsTotal(a[0].ns, a[0].ns);
    SortsTotal(b[0].ns, b[0].ns);
    assert Sorts(b[0].ns, b[i].ns) && Sorts(a[0].ns, a[j].ns);
    SortsAntisymmetric(a[0].ns, b[0].ns);
  }

  lemma TailMultiset(a: seq<Input>)
    requires a != []
    ensures multiset(a) == multiset{a[0]} + multiset(a[1..])
  {
    assert a == [a[0]] + a[1..];
  }

  /** One multiset of inputs with unique names has one ascending order. */
  lemma {:induction false} OneOrder(a: seq<Input>, b: seq<Input>)
    requires multiset(a) == multiset(b) && UniqueNames(multiset(a)) && Ascending(a) && Ascending(b)
    ensures a == b
  {
    hide UniqueNames, Ascending;
    assert |a| == |multiset(a)| == |multiset(b)| == |b|;
    if a != [] {
      SameHead(a, b);
      TailMultiset(a);
      TailMultiset(b);
      SameRest(a[0], multiset(a[1..]), multiset(b[1..]));
      UniqueRest(a[0], a[1..]);
      TailAscends(a);
      TailAscends(b);
      OneOrder(a[1..], b[1..]);
      assert a == [a[0]] + a[1..] && b == [b[0]] + b[1..];
    }
  }

  lemma SameRest(x: Input, a: multiset<Input>, b: multiset<Input>)
    requires multiset{x} + a == multiset{x} + b
    ensures a == b
  {
    assert a == (multiset{x} + a) - multiset{x};
    assert b == (multiset{x} + b) - multiset{x};
  }

  lemma TailAscends(a: seq<Input>)
    requires a != [] && Ascending(a)
    ensures Ascending(a[1..])
  {
    forall i, j | 0 <= i < j < |a[1..]| ensures Sorts(a[1..][i].ns, a[1..][j].ns) {
      assert a[1..][i] == a[i + 1] && a[1..][j] == a[j + 1];
    }
  }

  lemma UniqueRest(x: Input, rest: seq<Input>)
    requires UniqueNames(multiset{x} + multiset(rest))
    ensures UniqueNames(multiset(rest))
  {
    var all := multiset{x} + multiset(rest);
    forall y | y in multiset(rest) ensures multiset(rest)[y] == 1 {
      assert y in all && all[y] == 1;
    }
    forall y, z | y in multiset(rest) && z in multiset(rest) && y.ns == z.ns ensures y == z {
      assert y in all && z in all;
    }
  }

  lemma {:induction false} DistinctFrom(inputs: seq<Input>)
    requires UniqueNames(multiset(inputs))
    ensures Distinct(NamesOf(inputs))
  {
    forall i, j | 0 <= i < j < |inputs| ensures NamesOf(inputs)[i] != NamesOf(inputs)[j] {
      assert inputs[i] in multiset(inputs) && inputs[j] in multiset(inputs);
      if inputs[i].ns == inputs[j].ns {
        TwiceIsTwo(inputs, i, j);
      }
    }
  }

  lemma TwiceIsTwo(inputs: seq<Input>, i: nat, j: nat)
    requires i < j < |inputs| && inputs[i] == inputs[j]
    ensures multiset(inputs)[inputs[i]] >= 2
  {
    assert inputs == inputs[..j] + [inputs[j]] + inputs[j + 1..];
    assert inputs[i] in inputs[..j];
    assert multiset(inputs) == multiset(inputs[..j]) + multiset{inputs[j]} + multiset(inputs[j + 1..]);
  }

  /** The same set of packs merges to the same bundle, whatever order they were chosen in. */
  lemma MergeIgnoresOrder(a: seq<Input>, b: seq<Input>)
    requires multiset(a) == multiset(b)
    ensures Merge(a) == Merge(b)
  {
    hide AddPacks, Ordered, Ascending, UniqueNames, Distinct;
    assert |a| == |multiset(a)| == |multiset(b)| == |b|;
    if Distinct(NamesOf(a)) {
      UniqueFrom(a);
      DistinctFrom(b);
      OrderedKeeps(a);
      OrderedKeeps(b);
      OneOrder(Ordered(a), Ordered(b));
    } else if Distinct(NamesOf(b)) {
      UniqueFrom(b);
      DistinctFrom(a);
    }
  }

  // ----- what the merge holds -----------------------------------------------------------------------------

  predicate AllPlain(inputs: seq<Input>) { forall i :: 0 <= i < |inputs| ==> Plain(inputs[i].ns) }

  /** Two samples of one pack whose flattened names are the same. */
  predicate Clashes(p: Pack) { exists x, y :: x in p.samples && y in p.samples && x != y && Flat(x) == Flat(y) }

  /** The merged files are the samples of these packs, each under its own name. */
  ghost predicate Holds(files: map<string, Source>, inputs: seq<Input>) {
    && (forall f :: f in files ==>
          exists i :: 0 <= i < |inputs| && files[f].ns == inputs[i].ns && files[f].path in inputs[i].pack.samples
                      && f == MergedName(files[f].ns, files[f].path))
    && (forall i, path :: 0 <= i < |inputs| && path in inputs[i].pack.samples ==>
          var f := MergedName(inputs[i].ns, path); f in files && files[f] == Source(inputs[i].ns, path))
  }

  /** Names from another namespace are not in the way. */
  lemma NewNames(files: map<string, Source>, inputs: seq<Input>, ns: string, path: string)
    requires Holds(files, inputs) && AllPlain(inputs) && Plain(ns)
    requires forall i :: 0 <= i < |inputs| ==> inputs[i].ns != ns
    ensures MergedName(ns, path) !in files
  {
    hide Plain, Flat;
    var f := MergedName(ns, path);
    if f in files {
      var src := files[f];
      var i :| 0 <= i < |inputs| && src.ns == inputs[i].ns && src.path in inputs[i].pack.samples
               && f == MergedName(src.ns, src.path);
      assert Plain(inputs[i].ns);
      PrefixIsInjective(ns, Flat(path), src.ns, Flat(src.path));
    }
  }

  predicate FlatDistinct(paths: seq<string>) {
    forall i, j :: 0 <= i < j < |paths| ==> Flat(paths[i]) != Flat(paths[j])
  }

  /** Within one pack, adding its samples fails just when two flatten alike. */
  lemma {:induction false} AddSamplesIff(files: map<string, Source>, ns: string, paths: seq<string>)
    requires forall path :: path in paths ==> MergedName(ns, path) !in files
    ensures AddSamples(files, ns, paths).Success? <==> FlatDistinct(paths)
    ensures AddSamples(files, ns, paths).Success? ==>
              var r := AddSamples(files, ns, paths).value;
              && (forall f :: f in files ==> f in r && r[f] == files[f])
              && (forall path :: path in paths ==>
                    MergedName(ns, path) in r && r[MergedName(ns, path)] == Source(ns, path))
              && (forall f :: f in r && f !in files ==> exists path :: path in paths && f == MergedName(ns, path))
  {
    hide Flat;
    if paths != [] {
      var n := |paths| - 1;
      var front, last := paths[..n], paths[n];
      assert paths == front + [last];
      AddSamplesIff(files, ns, front);
      var rest := AddSamples(files, ns, front);
      if rest.Success? {
        if MergedName(ns, last) in rest.value {
          var path :| path in front && MergedName(ns, last) == MergedName(ns, path);
          SamePrefix(ns, Flat(last), Flat(path));
          var i :| 0 <= i < |front| && front[i] == path;
          assert paths[i] == path;
        } else {
          forall i | 0 <= i < n ensures Flat(paths[i]) != Flat(last) {
            assert front[i] in front;
          }
          FlatDistinctGrows(paths);
        }
      } else {
        FlatDistinctFront(paths);
      }
    }
  }

  lemma SamePrefix(ns: string, x: string, y: string)
    requires Prefixed(ns, x) == Prefixed(ns, y)
    ensures x == y
  {
    assert x == Prefixed(ns, x)[|ns| + 2..] && y == Prefixed(ns, y)[|ns| + 2..];
  }

  lemma FlatDistinctFront(paths: seq<string>)
    requires paths != [] && !FlatDistinct(paths[..|paths| - 1])
    ensures !FlatDistinct(paths)
  {
    hide Flat;
    var front := paths[..|paths| - 1];
    var i, j :| 0 <= i < j < |front| && Flat(front[i]) == Flat(front[j]);
    assert Flat(paths[i]) == Flat(paths[j]);
  }

  lemma FlatDistinctGrows(paths: seq<string>)
    requires paths != [] && FlatDistinct(paths[..|paths| - 1])
    requires forall i :: 0 <= i < |paths| - 1 ==> Flat(paths[i]) != Flat(paths[|paths| - 1])
    ensures FlatDistinct(paths)
  {
    hide Flat;
    var front := paths[..|paths| - 1];
    forall i, j | 0 <= i < j < |paths| ensures Flat(paths[i]) != Flat(paths[j]) {
      assert paths[i] == front[i];
      if j < |front| {
        assert paths[j] == front[j];
      }
    }
  }

  lemma ListingClashes(p: Pack)
    ensures FlatDistinct(Listing(p.samples)) <==> !Clashes(p)
  {
    hide Flat, Listing;
    var paths := Listing(p.samples);
    if !FlatDistinct(paths) {
      var i, j :| 0 <= i < j < |paths| && Flat(paths[i]) == Flat(paths[j]);
      assert paths[i] in p.samples && paths[j] in p.samples && paths[i] != paths[j];
    }
    if x, y :| x in p.samples && y in p.samples && x != y && Flat(x) == Flat(y) {
      assert x in paths && y in paths;
      var i :| 0 <= i < |paths| && paths[i] == x;
      var j :| 0 <= j < |paths| && paths[j] == y;
      assert Flat(paths[if i < j then i else j]) == Flat(paths[if i < j then j else i]);
    }
  }

  /** All stanzas of these packs, pack by pack. */
  function AllStanzas(inputs: seq<Input>): seq<Stanza> {
    if inputs == [] then [] else AllStanzas(inputs[..|inputs| - 1]) + StanzasOf(inputs[|inputs| - 1])
  }

  predicate Mergeable(p: Pack) { p.problem.None? && !Clashes(p) }

  predicate AllMergeable(inputs: seq<Input>) { forall i :: 0 <= i < |inputs| ==> Mergeable(inputs[i].pack) }

  lemma HoldsMore(files: map<string, Source>, next: map<string, Source>, front: seq<Input>, last: Input)
    requires Holds(files, front)
    requires forall f :: f in files ==> f in next && next[f] == files[f]
    requires forall path :: path in last.pack.samples ==>
               MergedName(last.ns, path) in next && next[MergedName(last.ns, path)] == Source(last.ns, path)
    requires forall f :: f in next && f !in files ==>
               exists path :: path in last.pack.samples && f == MergedName(last.ns, path)
    ensures Holds(next, front + [last])
  {
    hide MergedName;
    var inputs := front + [last];
    forall f | f in next
      ensures exists i :: 0 <= i < |inputs| && next[f].ns == inputs[i].ns && next[f].path in inputs[i].pack.samples
                          && f == MergedName(next[f].ns, next[f].path)
    {
      if f in files {
        var i :| 0 <= i < |front| && files[f].ns == front[i].ns && files[f].path in front[i].pack.samples
                 && f == MergedName(files[f].ns, files[f].path);
        assert inputs[i] == front[i];
      } else {
        assert inputs[|front|] == last;
      }
    }
  }

  lemma AddPackIff(b: Bundle, front: seq<Input>, last: Input)
    requires Holds(b.files, front) && AllPlain(front) && Plain(last.ns)
    requires forall i :: 0 <= i < |front| ==> front[i].ns != last.ns
    ensures AddPack(b, last).Success? <==> Mergeable(last.pack)
    ensures AddPack(b, last).Success? ==>
              && AddPack(b, last).value.conf == b.conf + StanzasOf(last)
              && Holds(AddPack(b, last).value.files, front + [last])
  {
    hide Plain, MergedName, StanzasOf, Clashes, AddSamples, FlatDistinct, Listing, Holds, AllPlain;
    if last.pack.problem.None? {
      var paths := Listing(last.pack.samples);
      forall path | path in paths ensures MergedName(last.ns, path) !in b.files {
        NewNames(b.files, front, last.ns, path);
      }
      AddSamplesIff(b.files, last.ns, paths);
      ListingClashes(last.pack);
      var files := AddSamples(b.files, last.ns, paths);
      if files.Success? {
        HoldsMore(b.files, files.value, front, last);
      }
    }
  }

  lemma NothingHolds()
    ensures Holds(map[], [])
  {
  }

  /** With plain, distinct namespaces a merge succeeds exactly when each pack by itself can
      be merged, and then holds every stanza and every sample of every pack. */
  lemma {:induction false} AddPacksIff(inputs: seq<Input>)
    requires AllPlain(inputs) && Distinct(NamesOf(inputs))
    ensures AddPacks(inputs).Success? <==> AllMergeable(inputs)
    ensures AddPacks(inputs).Success? ==>
              AddPacks(inputs).value.conf == AllStanzas(inputs) && Holds(AddPacks(inputs).value.files, inputs)
  {
    hide Plain, AllPlain, Distinct, StanzasOf, AddPack, Holds, Mergeable;
    if inputs == [] {
      NothingHolds();
    } else {
      var n := |inputs| - 1;
      var front, last := inputs[..n], inputs[n];
      assert inputs == front + [last];
      FrontDistinct(inputs);
      AddPacksIff(front);
      MergeableFront(inputs);
      var rest := AddPacks(front);
      if rest.Success? {
        AddPackIff(rest.value, front, last);
      }
    }
  }

  lemma FrontDistinct(inputs: seq<Input>)
    requires inputs != [] && AllPlain(inputs) && Distinct(NamesOf(inputs))
    ensures var front := inputs[..|inputs| - 1];
            && AllPlain(front) && Distinct(NamesOf(front)) && Plain(inputs[|inputs| - 1].ns)
            && forall i :: 0 <= i < |front| ==> front[i].ns != inputs[|inputs| - 1].ns
  {
    hide Plain;
    var n := |inputs| - 1;
    var front := inputs[..n];
    forall i, j | 0 <= i < j < |front| ensures NamesOf(front)[i] != NamesOf(front)[j] {
      assert NamesOf(inputs)[i] != NamesOf(inputs)[j];
    }
    forall i | 0 <= i < |front| ensures front[i].ns != inputs[n].ns {
      assert NamesOf(inputs)[i] != NamesOf(inputs)[n];
    }
  }

  lemma MergeableFront(inputs: seq<Input>)
    requires inputs != []
    ensures AllMergeable(inputs) <==> AllMergeable(inputs[..|inputs| - 1]) && Mergeable(inputs[|inputs| - 1].pack)
  {
    hide Mergeable;
    var n := |inputs| - 1;
    if AllMergeable(inputs[..n]) && Mergeable(inputs[n].pack) {
      forall i | 0 <= i < |inputs| ensures Mergeable(inputs[i].pack) {
        assert i < n ==> inputs[..n][i] == inputs[i];
      }
    }
    if AllMergeable(inputs) {
      forall i | 0 <= i < n ensures Mergeable(inputs[..n][i].pack) {
        assert inputs[..n][i] == inputs[i];
      }
    }
  }
}
