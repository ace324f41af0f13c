/** What a merged bundle holds, and how it is built. */
module PackBundle {
  import opened Basics
  import opened Text
  import opened Namespaces
  import opened PackMerge

  // ----- from the sorted inputs back to the inputs --------------------------------------------------

  ghost predicate SameInputs(a: seq<Input>, b: seq<Input>) { forall x :: x in a <==> x in b }

  lemma OrderedSame(inputs: seq<Input>)
    ensures SameInputs(inputs, Ordered(inputs))
    ensures Distinct(NamesOf(inputs)) ==> Distinct(NamesOf(Ordered(inputs)))
  {
    hide Ordered, Ascending, UniqueNames, Distinct;
    OrderedKeeps(inputs);
    forall x ensures x in inputs <==> x in Ordered(inputs) {
      assert x in inputs <==> x in multiset(inputs);
      assert x in Ordered(inputs) <==> x in multiset(Ordered(inputs));
    }
    if Distinct(NamesOf(inputs)) {
      UniqueFrom(inputs);
      DistinctFrom(Ordered(inputs));
    }
  }

  lemma PlainSame(a: seq<Input>, b: seq<Input>)
    requires SameInputs(a, b)
    ensures AllPlain(a) ==> AllPlain(b)
    ensures AllMergeable(a) <==> AllMergeable(b)
  {
    hide Plain, Mergeable;
    forall i | 0 <= i < |a| ensures exists j :: 0 <= j < |b| && b[j] == a[i] {
      assert a[i] in b;
    }
    forall j | 0 <= j < |b| ensures exists i :: 0 <= i < |a| && a[i] == b[j] {
      assert b[j] in a;
    }
  }

  lemma HoldsSame(files: map<string, Source>, a: seq<Input>, b: seq<Input>)
    requires SameInputs(a, b) && Holds(files, a)
    ensures Holds(files, b)
  {
    hide MergedName;
    forall f | f in files
      ensures exists j :: 0 <= j < |b| && files[f].ns == b[j].ns && files[f].path in b[j].pack.samples
                          && f == MergedName(files[f].ns, files[f].path)
    {
      var i :| 0 <= i < |a| && files[f].ns == a[i].ns && files[f].path in a[i].pack.samples
               && f == MergedName(files[f].ns, files[f].path);
      assert a[i] in b;
      var j :| 0 <= j < |b| && b[j] == a[i];
    }
    forall j, path | 0 <= j < |b| && path in b[j].pack.samples
      ensures var f := MergedName(b[j].ns, path); f in files && files[f] == Source(b[j].ns, path)
    {
      assert b[j] in a;
      var i :| 0 <= i < |a| && a[i] == b[j];
    }
  }

  // ----- every stanza once, from its own pack --------------------------------------------------------

  /** A stanza of the merge comes from a section of one pack, with that pack's globals. */
  predicate ComesFrom(in_: Input, st: Stanza, n: nat) {
    exists k :: 0 <= k < n && k < |in_.pack.sections| && !IsGlobal(in_.pack.sections[k].name)
                && st == MergedStanza(in_, in_.pack.sections[k])
  }

  lemma {:induction false} StanzasFrom(in_: Input, n: nat, st: Stanza)
    requires n <= |in_.pack.sections|
    ensures st in StanzasUpTo(in_, n) <==> ComesFrom(in_, st, n)
  {
    hide MergedStanza, IsGlobal;
    if n > 0 {
      StanzasFrom(in_, n - 1, st);
    }
  }

  lemma {:induction false} AllStanzasFrom(inputs: seq<Input>, st: Stanza)
    ensures st in AllStanzas(inputs) <==>
            exists i :: 0 <= i < |inputs| && ComesFrom(inputs[i], st, |inputs[i].pack.sections|)
  {
    hide ComesFrom, StanzasUpTo;
    if inputs != [] {
      var n := |inputs| - 1;
      var front := inputs[..n];
      AllStanzasFrom(front, st);
      StanzasFrom(inputs[n], |inputs[n].pack.sections|, st);
      assert forall i :: 0 <= i < n ==> front[i] == inputs[i];
      if st in AllStanzas(front) {
        var i :| 0 <= i < |front| && ComesFrom(front[i], st, |front[i].pack.sections|);
        assert ComesFrom(inputs[i], st, |inputs[i].pack.sections|);
      }
    }
  }

  predicate DistinctStanzas(conf: seq<Stanza>) { forall i, j :: 0 <= i < j < |conf| ==> conf[i].name != conf[j].name }

  /** A conf parser keeps one section per name. */
  predicate Parsed(p: Pack) { DistinctStanzas(p.sections) }

  lemma JoinDistinct(a: seq<Stanza>, b: seq<Stanza>)
    requires DistinctStanzas(a) && DistinctStanzas(b)
    requires forall x, y :: x in a && y in b ==> x.name != y.name
    ensures DistinctStanzas(a + b)
  {
    var all := a + b;
    forall i, j | 0 <= i < j < |all| ensures all[i].name != all[j].name {
      if i < |a| && j >= |a| {
        assert all[i] in a && all[j] in b;
      }
    }
  }

  lemma {:induction false} PackStanzasDistinct(in_: Input, n: nat)
    requires Parsed(in_.pack) && n <= |in_.pack.sections|
    ensures DistinctStanzas(StanzasUpTo(in_, n))
  {
    hide MergedStanza, IsGlobal;
    if n > 0 {
      PackStanzasDistinct(in_, n - 1);
      var s := in_.pack.sections[n - 1];
      var front := StanzasUpTo(in_, n - 1);
      forall x | x in front ensures x.name != Prefixed(in_.ns, s.name) {
        StanzasFrom(in_, n - 1, x);
        var k :| 0 <= k < n - 1 && x == MergedStanza(in_, in_.pack.sections[k]);
        StanzaName(in_, in_.pack.sections[k]);
        OtherName(in_.ns, in_.pack.sections[k].name, s.name);
      }
      StanzaName(in_, s);
      JoinDistinct(front, [MergedStanza(in_, s)]);
    }
  }

  lemma StanzaName(in_: Input, s: Stanza)
    ensures MergedStanza(in_, s).name == Prefixed(in_.ns, s.name)
  {
  }

  lemma OtherName(ns: string, x: string, y: string)
    requires x != y
    ensures Prefixed(ns, x) != Prefixed(ns, y)
  {
    hide Prefixed;
    if Prefixed(ns, x) == Prefixed(ns, y) {
      SamePrefix(ns, x, y);
    }
  }

  lemma {:induction false} AllStanzasDistinct(inputs: seq<Input>)
    requires AllPlain(inputs) && Distinct(NamesOf(inputs))
    requires forall i :: 0 <= i < |inputs| ==> Parsed(inputs[i].pack)
    ensures DistinctStanzas(AllStanzas(inputs))
  {
    hide Plain, StanzasUpTo, DistinctStanzas;
    if inputs == [] {
      NoStanzas();
    } else {
      var n := |inputs| - 1;
      var front, last := inputs[..n], inputs[n];
      FrontDistinct(inputs);
      AllStanzasDistinct(front);
      PackStanzasDistinct(last, |last.pack.sections|);
      forall x, y | x in AllStanzas(front) && y in StanzasOf(last) ensures x.name != y.name {
        AcrossPacks(front, last, x, y);
      }
      JoinDistinct(AllStanzas(front), StanzasOf(last));
    }
  }

  lemma NoStanzas()
    ensures DistinctStanzas([])
  {
  }

  lemma {:induction false} AcrossPacks(front: seq<Input>, last: Input, x: Stanza, y: Stanza)
    requires AllPlain(front) && Plain(last.ns) && forall i :: 0 <= i < |front| ==> front[i].ns != last.ns
    requires x in AllStanzas(front) && y in StanzasOf(last)
    ensures x.name != y.name
  {
    hide Plain, StanzasUpTo, AllStanzas, MergedStanza, IsGlobal, Prefixed;
    AllStanzasFrom(front, x);
    StanzasFrom(last, |last.pack.sections|, y);
    var i :| 0 <= i < |front| && ComesFrom(front[i], x, |front[i].pack.sections|);
    var k :| 0 <= k < |front[i].pack.sections| && x == MergedStanza(front[i], front[i].pack.sections[k]);
    var l :| 0 <= l < |last.pack.sections| && y == MergedStanza(last, last.pack.sections[l]);
    StanzaName(front[i], front[i].pack.sections[k]);
    StanzaName(last, last.pack.sections[l]);
    if x.name == y.name {
      PrefixIsInjective(front[i].ns, front[i].pack.sections[k].name, last.ns, last.pack.sections[l].name);
    }
  }

  /** The merge of packs with plain, distinct namespaces. It fails only over a pack that
      cannot be merged, or two samples of one pack that flatten to one name: never over two
      packs. If it succeeds, every section of every pack is in it under its own name, once,
      with its own pack's globals and no other's, and every sample is, and nothing else. */
  lemma MergeHoldsEveryPack(inputs: seq<Input>)
    requires |inputs| >= 2 && AllPlain(inputs) && Distinct(NamesOf(inputs))
    ensures Merge(inputs).Success? <==> AllMergeable(inputs)
    ensures Merge(inputs).Success? ==> Holds(Merge(inputs).value.files, inputs)
    ensures Merge(inputs).Success? ==>
              forall st :: st in Merge(inputs).value.conf <==>
                exists i :: 0 <= i < |inputs| && ComesFrom(inputs[i], st, |inputs[i].pack.sections|)
  {
    hide Ordered, AddPacks, AllPlain, Distinct, AllMergeable, Holds, AllStanzas, ComesFrom;
    var ordered := Ordered(inputs);
    OrderedSame(inputs);
    PlainSame(inputs, ordered);
    AddPacksIff(ordered);
    if Merge(inputs).Success? {
      var b := Merge(inputs).value;
      SameInputsBack(inputs, ordered);
      HoldsSame(b.files, ordered, inputs);
      forall st ensures st in b.conf <==>
        exists i :: 0 <= i < |inputs| && ComesFrom(inputs[i], st, |inputs[i].pack.sections|)
      {
        AllStanzasFrom(ordered, st);
        SomeInput(inputs, ordered, st);
        SomeInput(ordered, inputs, st);
      }
    }
  }

  lemma SameInputsBack(a: seq<Input>, b: seq<Input>)
    requires SameInputs(a, b)
    ensures SameInputs(b, a)
  {
  }

  lemma SomeInput(a: seq<Input>, b: seq<Input>, st: Stanza)
    requires SameInputs(a, b)
    ensures (exists i :: 0 <= i < |a| && ComesFrom(a[i], st, |a[i].pack.sections|)) ==>
            exists j :: 0 <= j < |b| && ComesFrom(b[j], st, |b[j].pack.sections|)
  {
    hide ComesFrom;
    if i :| 0 <= i < |a| && ComesFrom(a[i], st, |a[i].pack.sections|) {
      assert a[i] in b;
      var j :| 0 <= j < |b| && b[j] == a[i];
      assert ComesFrom(b[j], st, |b[j].pack.sections|);
    }
  }

  lemma MergedStanzasDistinct(inputs: seq<Input>)
    requires |inputs| >= 2 && AllPlain(inputs) && Distinct(NamesOf(inputs)) && AllMergeable(inputs)
    requires forall i :: 0 <= i < |inputs| ==> Parsed(inputs[i].pack)
    ensures Merge(inputs).Success? && DistinctStanzas(Merge(inputs).value.conf)
  {
    hide Ordered, AddPacks, AllPlain, Distinct, AllMergeable, Holds, AllStanzas, Parsed, DistinctStanzas;
    var ordered := Ordered(inputs);
    OrderedSame(inputs);
    PlainSame(inputs, ordered);
    AddPacksIff(ordered);
    forall j | 0 <= j < |ordered| ensures Parsed(ordered[j].pack) {
      assert ordered[j] in inputs;
    }
    AllStanzasDistinct(ordered);
  }

  // ----- the loops of build_from_packs ----------------------------------------------------------------------

  method SortByNamespace(inputs: seq<Input>) returns (r: seq<Input>)
    ensures r == Ordered(inputs)
  {
    hide Insert;
    r := [];
    for i := 0 to |inputs|
      invariant r == Ordered(inputs[..i])
    {
      assert inputs[..i + 1][..i] == inputs[..i] && inputs[..i + 1][i] == inputs[i];
      r := Insert(r, inputs[i]);
    }
    assert inputs[..|inputs|] == inputs;
  }

  method PackGlobals(sections: seq<Stanza>) returns (globals: Options)
    ensures globals == GlobalsOf(sections)
  {
    hide IsGlobal;
    globals := map[];
    for i := 0 to |sections|
      invariant globals == GlobalsOf(sections[..i])
    {
      assert sections[..i + 1][..i] == sections[..i] && sections[..i + 1][i] == sections[i];
      if IsGlobal(sections[i].name) {
        globals := globals + sections[i].options;
      }
    }
    assert sections[..|sections|] == sections;
  }

  /** One turn of the loop over packs. */
  method AddOne(b: Bundle, in_: Input) returns (r: Result<Bundle>)
    ensures r == AddPack(b, in_)
  {
    hide MergedName, MergedOptions, IsGlobal, GlobalsOf, Listing;
    if in_.pack.problem.Some? {
      return Failure(in_.pack.problem.value);
    }
    var paths := Listing(in_.pack.samples);
    var files := b.files;
    var i := 0;
    while i < |paths|
      invariant 0 <= i <= |paths| && AddSamples(b.files, in_.ns, paths[..i]) == Success(files)
    {
      assert paths[..i + 1][..i] == paths[..i] && paths[..i + 1][i] == paths[i];
      var name := MergedName(in_.ns, paths[i]);
      if name in files {
        CollisionStays(b.files, in_.ns, paths, i + 1);
        return Failure("merged sample name collision");
      }
      files := files[name := Source(in_.ns, paths[i])];
      i := i + 1;
    }
    assert paths[..i] == paths;
    var globals := PackGlobals(in_.pack.sections);
    var conf := b.conf;
    for k := 0 to |in_.pack.sections|
      invariant conf == b.conf + StanzasUpTo(in_, k)
    {
      var s := in_.pack.sections[k];
      if !IsGlobal(s.name) {
        conf := conf + [Stanza(Prefixed(in_.ns, s.name), MergedOptions(globals, s.options, in_.pack.samples, in_.ns))];
      }
    }
    r := Success(Bundle(conf, files));
  }

  lemma {:induction false} CollisionStays(files: map<string, Source>, ns: string, paths: seq<string>, n: nat)
    requires n <= |paths| && AddSamples(files, ns, paths[..n]) == Failure("merged sample name collision")
    ensures AddSamples(files, ns, paths) == Failure("merged sample name collision")
    decreases |paths| - n
  {
    hide MergedName;
    if n == |paths| {
      assert paths[..n] == paths;
    } else {
      assert paths[..n + 1][..n] == paths[..n];
      CollisionStays(files, ns, paths, n + 1);
    }
  }

  /** build_from_packs, up to rendering. */
  method BuildFromPacks(inputs: seq<Input>) returns (r: Result<Bundle>)
    ensures r == Merge(inputs)
  {
    hide AddPack, Ordered;
    if |inputs| < 2 {
      return Failure("a multi-pack bundle needs at least two packs");
    }
    if !Distinct(NamesOf(inputs)) {
      return Failure("multi-pack namespaces must be unique");
    }
    var ordered := SortByNamespace(inputs);
    var b := Bundle([], map[]);
    var i := 0;
    while i < |ordered|
      invariant 0 <= i <= |ordered| && AddPacks(ordered[..i]) == Success(b)
    {
      assert ordered[..i + 1][..i] == ordered[..i] && ordered[..i + 1][i] == ordered[i];
      var next := AddOne(b, ordered[i]);
      if next.Failure? {
        FailureStays(ordered, i + 1);
        return next;
      }
      b := next.value;
      i := i + 1;
    }
    assert ordered[..i] == ordered;
    r := Success(b);
  }

  lemma {:induction false} FailureStays(inputs: seq<Input>, n: nat)
    requires n <= |inputs| && AddPacks(inputs[..n]).Failure?
    ensures AddPacks(inputs) == AddPacks(inputs[..n])
    decreases |inputs| - n
  {
    hide AddPack;
    if n == |inputs| {
      assert inputs[..n] == inputs;
    } else {
      assert inputs[..n + 1][..n] == inputs[..n];
      FailureStays(inputs, n + 1);
    }
  }
}
