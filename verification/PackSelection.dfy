/** From a selection of packs to one bundle: namespaces, then the merge. */
module PackSelection {
  import opened Basics
  import opened Text
  import opened Namespaces
  import opened PackMerge
  import opened PackBundle
  import opened SampleRefs

  datatype Choice = Choice(tag: Labelled, pack: Pack)

  function Labels(choices: seq<Choice>): (r: seq<Labelled>)
    ensures |r| == |choices| && forall i :: 0 <= i < |choices| ==> r[i] == choices[i].tag
  {
    seq(|choices|, i requires 0 <= i < |choices| => choices[i].tag)
  }

  function Inputs(choices: seq<Choice>): (r: seq<Input>)
    ensures |r| == |choices|
    ensures forall i :: 0 <= i < |choices| ==> r[i] == Input(Chosen(Labels(choices), i), choices[i].pack)
  {
    seq(|choices|, i requires 0 <= i < |choices| => Input(Chosen(Labels(choices), i), choices[i].pack))
  }

  /** _build_merged_bundle, for packs already parsed. */
  function Bundled(choices: seq<Choice>): Result<Bundle> {
    if !Distinct(ChosenAll(Labels(choices))) then Failure("cannot derive unique merge namespaces")
    else Merge(Inputs(choices))
  }

  predicate Selected(choices: seq<Choice>) { Selection(Labels(choices)) }

  // ----- order -------------------------------------------------------------------------------------

  /** Another pack of the selection has the same base. */
  ghost predicate SharedIn(tag: Labelled, all: multiset<Choice>) {
    exists c: Choice :: c in all && c.tag.id != tag.id && Namespace(c.tag.name) == Namespace(tag.name)
  }

  /** A pack's namespace, from the selection as a whole. */
  ghost function NameIn(tag: Labelled, all: multiset<Choice>): string {
    if SharedIn(tag, all) then Suffixed(Namespace(tag.name), tag.id) else Namespace(tag.name)
  }

  ghost function InputIn(c: Choice, all: multiset<Choice>): Input { Input(NameIn(c.tag, all), c.pack) }

  lemma ChosenIn(choices: seq<Choice>, i: nat)
    requires Selected(choices) && i < |choices|
    ensures Chosen(Labels(choices), i) == NameIn(choices[i].tag, multiset(choices))
  {
    hide Namespace, Suffixed, Decimal;
    var labels, all := Labels(choices), multiset(choices);
    if Shared(labels, i) {
      var j :| 0 <= j < |labels| && j != i && Base(labels, j) == Base(labels, i);
      assert labels[j].id != labels[i].id;
      assert choices[j] in all;
    }
    if SharedIn(choices[i].tag, all) {
      var c :| c in all && c.tag.id != choices[i].tag.id && Namespace(c.tag.name) == Namespace(choices[i].tag.name);
      assert c in choices;
      var j :| 0 <= j < |choices| && choices[j] == c;
      assert Base(labels, j) == Base(labels, i);
    }
  }

  /** The inputs are the choices, each under the name the whole selection gives it. */
  ghost function Mapped(choices: seq<Choice>, all: multiset<Choice>): (r: seq<Input>)
    ensures |r| == |choices|
    ensures forall i :: 0 <= i < |choices| ==> r[i] == InputIn(choices[i], all)
  {
    if choices == [] then [] else [InputIn(choices[0], all)] + Mapped(choices[1..], all)
  }

  lemma InputsMapped(choices: seq<Choice>)
    requires Selected(choices)
    ensures Inputs(choices) == Mapped(choices, multiset(choices))
  {
    hide Selected, Chosen, NameIn;
    forall i | 0 <= i < |choices| ensures Inputs(choices)[i] == Mapped(choices, multiset(choices))[i] {
      ChosenIn(choices, i);
    }
  }

  lemma Without<T>(s: seq<T>, k: nat)
    requires k < |s|
    ensures multiset(s) == multiset{s[k]} + multiset(s[..k] + s[k + 1..])
  {
    assert s == s[..k] + [s[k]] + s[k + 1..];
  }

  lemma MappedWithout(choices: seq<Choice>, all: multiset<Choice>, k: nat)
    requires k < |choices|
    ensures multiset(Mapped(choices, all)) ==
            multiset{InputIn(choices[k], all)} + multiset(Mapped(choices[..k] + choices[k + 1..], all))
  {
    hide InputIn, Mapped;
    var whole, less := Mapped(choices, all), Mapped(choices[..k] + choices[k + 1..], all);
    assert less == whole[..k] + whole[k + 1..];
    Without(whole, k);
  }

  lemma {:induction false} MappedPermutes(a: seq<Choice>, b: seq<Choice>, all: multiset<Choice>)
    requires multiset(a) == multiset(b)
    ensures multiset(Mapped(a, all)) == multiset(Mapped(b, all))
    decreases |a|
  {
    hide InputIn, Mapped;
    if a == [] {
      NoneLeft(b);
    } else {
      assert a[0] in multiset(b);
      var k :| 0 <= k < |b| && b[k] == a[0];
      Without(a, 0);
      Without(b, k);
      MappedWithout(a, all, 0);
      MappedWithout(b, all, k);
      var restA, restB := a[..0] + a[1..], b[..k] + b[k + 1..];
      SameLeft(a[0], multiset(restA), multiset(restB));
      MappedPermutes(restA, restB, all);
    }
  }

  lemma NoneLeft<T>(b: seq<T>)
    requires multiset(b) == multiset{}
    ensures b == []
  {
    assert |b| == |multiset(b)|;
  }

  lemma SameLeft<T>(x: T, a: multiset<T>, b: multiset<T>)
    requires multiset{x} + a == multiset{x} + b
    ensures a == b
  {
    assert a == (multiset{x} + a) - multiset{x};
    assert b == (multiset{x} + b) - multiset{x};
  }

  lemma SelectedPermutes(a: seq<Choice>, b: seq<Choice>)
    requires Selected(a) && multiset(a) == multiset(b)
    ensures Selected(b)
  {
    hide Decimal;
    var la, lb := Labels(a), Labels(b);
    forall i | 0 <= i < |b| ensures Decimal(lb[i].id) {
      assert b[i] in multiset(a);
      var j :| 0 <= j < |a| && a[j] == b[i];
      assert Decimal(la[j].id);
    }
    forall i, j | 0 <= i < j < |b| ensures lb[i].id != lb[j].id {
      if lb[i].id == lb[j].id {
        assert b[i] in multiset(a) && b[j] in multiset(a);
        var k :| 0 <= k < |a| && a[k] == b[i];
        var l :| 0 <= l < |a| && a[l] == b[j];
        assert la[k].id == la[l].id;
        assert k == l;
        ChosenTwice(b, i, j);
        ChosenOnce(a, k);
      }
    }
  }

  lemma ChosenTwice(b: seq<Choice>, i: nat, j: nat)
    requires i < j < |b| && b[i] == b[j]
    ensures multiset(b)[b[i]] >= 2
  {
    assert b == b[..j] + [b[j]] + b[j + 1..];
    assert b[i] in b[..j];
    assert multiset(b) == multiset(b[..j]) + multiset{b[j]} + multiset(b[j + 1..]);
  }

  lemma ChosenOnce(a: seq<Choice>, k: nat)
    requires Selected(a) && k < |a|
    ensures multiset(a)[a[k]] == 1
  {
    hide Decimal;
    var labels := Labels(a);
    assert a == a[..k] + [a[k]] + a[k + 1..];
    forall i | 0 <= i < |a| && i != k ensures a[i] != a[k] {
      assert labels[i].id != labels[k].id;
    }
    assert a[k] !in a[..k] && a[k] !in a[k + 1..];
    assert multiset(a) == multiset(a[..k]) + multiset{a[k]} + multiset(a[k + 1..]);
  }

  lemma NamesAreChosen(choices: seq<Choice>)
    ensures NamesOf(Inputs(choices)) == ChosenAll(Labels(choices))
  {
    hide Chosen;
  }

  /** The same packs give the same bundle, or the same refusal, in whatever order they are
      selected. */
  lemma SelectionOrderIgnored(a: seq<Choice>, b: seq<Choice>)
    requires Selected(a) && multiset(a) == multiset(b)
    ensures Bundled(a) == Bundled(b)
  {
    hide Selected, Distinct, Merge, Mapped, Inputs, NamesOf, ChosenAll, UniqueNames;
    SelectedPermutes(a, b);
    InputsMapped(a);
    InputsMapped(b);
    MappedPermutes(a, b, multiset(a));
    MergeIgnoresOrder(Inputs(a), Inputs(b));
    NamesAreChosen(a);
    NamesAreChosen(b);
    if Distinct(NamesOf(Inputs(a))) {
      UniqueFrom(Inputs(a));
      DistinctFrom(Inputs(b));
    }
    if Distinct(NamesOf(Inputs(b))) {
      UniqueFrom(Inputs(b));
      DistinctFrom(Inputs(a));
    }
  }

  // ----- when it succeeds, and what it holds ------------------------------------------------------------

  predicate NoneMimics(labels: seq<Labelled>) {
    forall i, j :: 0 <= i < |labels| && 0 <= j < |labels| && i != j ==> !Mimics(labels, i, j)
  }

  lemma InputsPlain(choices: seq<Choice>)
    requires Selected(choices)
    ensures AllPlain(Inputs(choices))
  {
    hide Plain, Chosen;
    var inputs := Inputs(choices);
    forall i | 0 <= i < |inputs| ensures Plain(inputs[i].ns) {
      ChosenIsPlain(Labels(choices), i);
    }
  }

  lemma InputsMergeable(choices: seq<Choice>)
    ensures AllMergeable(Inputs(choices)) <==> forall i :: 0 <= i < |choices| ==> Mergeable(choices[i].pack)
  {
    hide Mergeable, Chosen;
    var inputs := Inputs(choices);
    if AllMergeable(inputs) {
      forall i | 0 <= i < |choices| ensures Mergeable(choices[i].pack) {
        assert Mergeable(inputs[i].pack);
      }
    }
  }

  /** Two packs or more are bundled exactly when none mimics another and each can be merged by
      itself; the bundle then holds every pack's stanzas and samples and nothing else. */
  lemma BundledIff(choices: seq<Choice>)
    requires Selected(choices) && |choices| >= 2
    ensures Bundled(choices).Success? <==>
            NoneMimics(Labels(choices)) && forall i :: 0 <= i < |choices| ==> Mergeable(choices[i].pack)
    ensures Bundled(choices).Success? ==>
              var b, inputs := Bundled(choices).value, Inputs(choices);
              && Holds(b.files, inputs)
              && forall st :: st in b.conf <==>
                   exists i :: 0 <= i < |inputs| && ComesFrom(inputs[i], st, |inputs[i].pack.sections|)
  {
    hide Mimics, Distinct, Merge, Mergeable, AllPlain, AllMergeable, Holds, ComesFrom, Chosen;
    NamespacesFailIff(Labels(choices));
    NamesAreChosen(choices);
    InputsPlain(choices);
    InputsMergeable(choices);
    if Distinct(ChosenAll(Labels(choices))) {
      MergeHoldsEveryPack(Inputs(choices));
    }
  }

  /** The options of a section before its file references are renamed. */
  function PlainOptions(p: Pack, k: nat): Options
    requires k < |p.sections|
  {
    GlobalsOf(p.sections) + p.sections[k].options
  }

  /** Every file option of every stanza that names a sample of its pack names, in the bundle,
      that sample's own copy. */
  lemma FileOptionsFollow(choices: seq<Choice>, i: nat, k: nat, key: string)
    requires Selected(choices) && |choices| >= 2 && Bundled(choices).Success? && i < |choices|
    requires k < |choices[i].pack.sections| && !IsGlobal(choices[i].pack.sections[k].name)
    requires var options := PlainOptions(choices[i].pack, k);
             && key in options && IsFileRef(options, key) && Trim(options[key]) != ""
             && Referenced(Trim(options[key]), choices[i].pack.samples).Some?
    ensures var b, in_ := Bundled(choices).value, Inputs(choices)[i];
            var st := MergedStanza(in_, in_.pack.sections[k]);
            var path := Referenced(Trim(PlainOptions(in_.pack, k)[key]), in_.pack.samples).value;
            && st in b.conf && key in st.options
            && Referenced(Trim(st.options[key]), b.files.Keys) == Some(MergedName(in_.ns, path))
            && MergedName(in_.ns, path) in b.files && b.files[MergedName(in_.ns, path)] == Source(in_.ns, path)
  {
    hide Selected, Chosen, Merge, Distinct, Trim, Referenced, Rewritten, IsFileRef, IsGlobal, MergedName, GlobalsOf;
    var b, inputs := Bundled(choices).value, Inputs(choices);
    var in_ := inputs[i];
    BundledIff(choices);
    InputsPlain(choices);
    var st := MergedStanza(in_, in_.pack.sections[k]);
    assert ComesFrom(in_, st, |in_.pack.sections|);
    var value := PlainOptions(in_.pack, k)[key];
    ReferencedPath(Trim(value), in_.pack.samples);
    EmptyTrims();
    assert value != "";
    assert st.options[key] == Rewritten(value, in_.pack.samples, in_.ns);
    RewrittenFollowsItsSample(value, in_.pack.samples, in_.ns, b.files);
  }

  lemma ReferencedPath(raw: string, samples: set<string>)
    ensures Referenced(raw, samples).Some? ==> Referenced(raw, samples).value in samples
  {
    hide SplitColumn;
  }

  lemma EmptyTrims()
    ensures Trim("") == ""
  {
  }
}
