/** Namespaces for packs merged into one bundle. */
module Namespaces {
  import opened Basics
  import opened Text

  const SEP := "--"

  predicate Word(c: char) { 'a' <= c <= 'z' || 'A' <= c <= 'Z' || '0' <= c <= '9' || c == '_' }

  // ----- one namespace ------------------------------------------------------------------------

  /** Every run of other characters becomes one hyphen. */
  function Hyphenated(s: string): string {
    if s == "" then ""
    else
      var rest := Hyphenated(s[..|s| - 1]);
      var c := s[|s| - 1];
      if Word(c) then rest + [c]
      else if rest != "" && rest[|rest| - 1] == '-' then rest
      else rest + "-"
  }

  /** Hyphenated text has no two hyphens together, so at most one goes at either end. */
  function EdgesOff(s: string): string {
    var left := if s != "" && s[0] == '-' then s[1..] else s;
    if left != "" && left[|left| - 1] == '-' then left[..|left| - 1] else left
  }

  /** merge_namespace. */
  function Namespace(name: string): string {
    var ns := EdgesOff(Hyphenated(name));
    if ns == "" then "pack" else ns
  }

  /** No character but word characters and hyphens, and no two hyphens together. */
  predicate Tidy(s: string) {
    && (forall i :: 0 <= i < |s| ==> Word(s[i]) || s[i] == '-')
    && (forall i :: 0 <= i < |s| - 1 ==> s[i] != '-' || s[i + 1] != '-')
  }

  /** A namespace: tidy, not empty, no hyphen at either end. */
  predicate Plain(s: string) { Tidy(s) && s != "" && s[0] != '-' && s[|s| - 1] != '-' }

  lemma {:induction false} HyphenatedIsTidy(s: string)
    ensures Tidy(Hyphenated(s))
  {
    if s != "" {
      HyphenatedIsTidy(s[..|s| - 1]);
    }
  }

  lemma NamespaceIsPlain(name: string)
    ensures Plain(Namespace(name))
  {
    hide Hyphenated;
    HyphenatedIsTidy(name);
    var h := Hyphenated(name);
    var left := if h != "" && h[0] == '-' then h[1..] else h;
    assert Tidy(left);
    assert left != "" ==> left[0] != '-';
  }

  /** A plain name is its own namespace. */
  lemma {:induction false} PlainStays(s: string)
    requires Plain(s)
    ensures Namespace(s) == s
  {
    TidyStays(s);
  }

  lemma {:induction false} TidyStays(s: string)
    requires Tidy(s)
    ensures Hyphenated(s) == s
  {
    if s != "" {
      TidyStays(s[..|s| - 1]);
      assert s == s[..|s| - 1] + [s[|s| - 1]];
    }
  }

  // ----- prefixes cannot be confused ------------------------------------------------------------

  function Prefixed(ns: string, name: string): string { ns + SEP + name }

  /** The first two hyphens together are those of the separator. */
  lemma NoEarlierSeparator(ns: string, name: string, k: nat)
    requires Plain(ns) && k < |ns|
    ensures Prefixed(ns, name)[k] != '-' || Prefixed(ns, name)[k + 1] != '-'
  {
    var s := Prefixed(ns, name);
    assert s[k] == ns[k];
    assert k + 1 < |ns| ==> s[k + 1] == ns[k + 1];
  }

  lemma SeparatorAt(ns: string, name: string)
    ensures Prefixed(ns, name)[|ns|] == '-' && Prefixed(ns, name)[|ns| + 1] == '-'
  {
  }

  lemma ShorterPrefix(a: string, x: string, b: string, y: string)
    requires Plain(a) && Plain(b) && Prefixed(a, x) == Prefixed(b, y)
    ensures |a| >= |b|
  {
    SeparatorAt(a, x);
    if |a| < |b| {
      NoEarlierSeparator(b, y, |a|);
    }
  }

  /** Two prefixed names are equal only if both their namespaces and their names are. */
  lemma PrefixIsInjective(a: string, x: string, b: string, y: string)
    requires Plain(a) && Plain(b) && Prefixed(a, x) == Prefixed(b, y)
    ensures a == b && x == y
  {
    ShorterPrefix(a, x, b, y);
    ShorterPrefix(b, y, a, x);
    var s, t := Prefixed(a, x), Prefixed(b, y);
    assert a == s[..|a|] && b == t[..|b|];
    assert x == s[|a| + 2..] && y == t[|b| + 2..];
  }

  // ----- namespaces for a selection of packs ------------------------------------------------------------

  /** A pack's name and the decimal digits of its id. */
  datatype Labelled = Labelled(name: string, id: string)

  predicate Decimal(s: string) { s != "" && forall i :: 0 <= i < |s| ==> Digit(s[i]) }

  /** Packs as the selection gives them: real ids, no pack twice. */
  predicate Selection(packs: seq<Labelled>) {
    && (forall i :: 0 <= i < |packs| ==> Decimal(packs[i].id))
    && (forall i, j :: 0 <= i < j < |packs| ==> packs[i].id != packs[j].id)
  }

  function Base(packs: seq<Labelled>, i: nat): string
    requires i < |packs|
  {
    Namespace(packs[i].name)
  }

  predicate Shared(packs: seq<Labelled>, i: nat)
    requires i < |packs|
  {
    exists j :: 0 <= j < |packs| && j != i && Base(packs, j) == Base(packs, i)
  }

  function Suffixed(ns: string, id: string): string { ns + "-" + id }

  /** The i-th namespace: the id is added only where two packs would share one. */
  function Chosen(packs: seq<Labelled>, i: nat): string
    requires i < |packs|
  {
    if Shared(packs, i) then Suffixed(Base(packs, i), packs[i].id) else Base(packs, i)
  }

  predicate Distinct(names: seq<string>) { forall i, j :: 0 <= i < j < |names| ==> names[i] != names[j] }

  function ChosenAll(packs: seq<Labelled>): (r: seq<string>)
    ensures |r| == |packs| && forall i :: 0 <= i < |packs| ==> r[i] == Chosen(packs, i)
  {
    seq(|packs|, i requires 0 <= i < |packs| => Chosen(packs, i))
  }

  lemma SuffixedIsPlain(ns: string, id: string)
    requires Plain(ns) && Decimal(id)
    ensures Plain(Suffixed(ns, id))
  {
    var s := Suffixed(ns, id);
    assert forall i :: 0 <= i < |ns| ==> s[i] == ns[i];
    assert s[|ns|] == '-';
    assert forall i :: |ns| < i < |s| ==> s[i] == id[i - |ns| - 1];
  }

  lemma ChosenIsPlain(packs: seq<Labelled>, i: nat)
    requires Selection(packs) && i < |packs|
    ensures Plain(Chosen(packs, i))
  {
    hide Namespace, Plain;
    NamespaceIsPlain(packs[i].name);
    SuffixedIsPlain(Base(packs, i), packs[i].id);
  }

  lemma HyphenAt(ns: string, id: string)
    ensures Suffixed(ns, id)[|ns|] == '-'
  {
  }

  lemma DigitsAfter(ns: string, id: string, k: nat)
    requires Decimal(id) && |ns| < k < |Suffixed(ns, id)|
    ensures Digit(Suffixed(ns, id)[k])
  {
    assert Suffixed(ns, id)[k] == id[k - |ns| - 1];
  }

  lemma ShorterSuffix(a: string, x: string, b: string, y: string)
    requires Decimal(x) && Decimal(y) && Suffixed(a, x) == Suffixed(b, y)
    ensures |x| >= |y|
  {
    HyphenAt(a, x);
    if |x| < |y| {
      DigitsAfter(b, y, |a|);
    }
  }

  lemma SuffixIsInjective(a: string, x: string, b: string, y: string)
    requires Decimal(x) && Decimal(y) && Suffixed(a, x) == Suffixed(b, y)
    ensures a == b && x == y
  {
    ShorterSuffix(a, x, b, y);
    ShorterSuffix(b, y, a, x);
    var s, t := Suffixed(a, x), Suffixed(b, y);
    assert a == s[..|a|] && b == t[..|b|];
    assert x == s[|a| + 1..] && y == t[|b| + 1..];
  }

  /** A pack whose own namespace is what another's becomes with its id added. */
  predicate Mimics(packs: seq<Labelled>, i: nat, j: nat)
    requires i < |packs| && j < |packs|
  {
    !Shared(packs, i) && Shared(packs, j) && Base(packs, i) == Suffixed(Base(packs, j), packs[j].id)
  }

  lemma SameChoice(packs: seq<Labelled>, i: nat, j: nat)
    requires Selection(packs) && i < |packs| && j < |packs| && i != j
    ensures Chosen(packs, i) == Chosen(packs, j) <==> Mimics(packs, i, j) || Mimics(packs, j, i)
  {
    hide Base, Suffixed;
    if Shared(packs, i) && Shared(packs, j) {
      if Chosen(packs, i) == Chosen(packs, j) {
        SuffixIsInjective(Base(packs, i), packs[i].id, Base(packs, j), packs[j].id);
        assert false;
      }
    } else if !Shared(packs, i) && !Shared(packs, j) {
      assert Base(packs, i) != Base(packs, j);
    }
  }

  /** No unique namespaces can be had exactly when one pack mimics another. */
  lemma NamespacesFailIff(packs: seq<Labelled>)
    requires Selection(packs)
    ensures Distinct(ChosenAll(packs)) <==>
            forall i, j :: 0 <= i < |packs| && 0 <= j < |packs| && i != j ==> !Mimics(packs, i, j)
  {
    hide Chosen, Mimics;
    forall i, j | 0 <= i < |packs| && 0 <= j < |packs| && i != j
      ensures Chosen(packs, i) == Chosen(packs, j) <==> Mimics(packs, i, j) || Mimics(packs, j, i)
    {
      SameChoice(packs, i, j);
    }
    var names := ChosenAll(packs);
    if Distinct(names) {
      forall i, j | 0 <= i < |packs| && 0 <= j < |packs| && i != j ensures !Mimics(packs, i, j) {
        assert names[i] != names[j];
      }
    } else {
      var i, j :| 0 <= i < j < |names| && names[i] == names[j];
      assert Mimics(packs, i, j) || Mimics(packs, j, i);
    }
  }

  /** And it happens: two packs called a, with ids 1 and 2, and one called a-1. */
  lemma MimicsHappen()
    ensures var packs := [Labelled("a", "1"), Labelled("a", "2"), Labelled("a-1", "3")];
            Selection(packs) && Mimics(packs, 2, 0) && !Distinct(ChosenAll(packs))
  {
    hide Namespace, Plain;
    var packs := [Labelled("a", "1"), Labelled("a", "2"), Labelled("a-1", "3")];
    assert Plain("a") && Plain("a-1") by { PlainExamples(); }
    PlainStays("a");
    PlainStays("a-1");
    assert Base(packs, 0) == Base(packs, 1) == "a" && Base(packs, 2) == "a-1";
    assert Suffixed("a", "1") == "a-1";
    assert Chosen(packs, 0) == Chosen(packs, 2);
    assert ChosenAll(packs)[0] == ChosenAll(packs)[2];
  }

  lemma PlainExamples()
    ensures Plain("a") && Plain("a-1")
  {
  }

  /** How many of the first n packs have this namespace. */
  function Tally(packs: seq<Labelled>, ns: string, n: nat): nat
    requires n <= |packs|
  {
    if n == 0 then 0 else Tally(packs, ns, n - 1) + (if Base(packs, n - 1) == ns then 1 else 0)
  }

  lemma {:induction false} TallyFinds(packs: seq<Labelled>, ns: string, n: nat, i: nat)
    requires i < n <= |packs| && Base(packs, i) == ns
    ensures Tally(packs, ns, n) >= 1
    ensures Tally(packs, ns, n) > 1 <==> exists j :: 0 <= j < n && j != i && Base(packs, j) == ns
  {
    hide Namespace;
    if i < n - 1 {
      TallyFinds(packs, ns, n - 1, i);
    } else {
      TallyNone(packs, ns, n - 1);
    }
  }

  lemma {:induction false} TallyNone(packs: seq<Labelled>, ns: string, n: nat)
    requires n <= |packs|
    ensures Tally(packs, ns, n) > 0 <==> exists j :: 0 <= j < n && Base(packs, j) == ns
  {
    hide Namespace;
    if n > 0 {
      TallyNone(packs, ns, n - 1);
    }
  }

  lemma TallyShares(packs: seq<Labelled>, i: nat)
    requires i < |packs|
    ensures Tally(packs, Base(packs, i), |packs|) >= 1
    ensures Tally(packs, Base(packs, i), |packs|) > 1 <==> Shared(packs, i)
  {
    hide Base, Tally;
    TallyFinds(packs, Base(packs, i), |packs|, i);
  }

  /** merge_pack_namespaces: bases counted, then chosen, then checked for repeats. */
  method PackNamespaces(packs: seq<Labelled>) returns (r: Result<seq<string>>)
    ensures r.Success? <==> Distinct(ChosenAll(packs))
    ensures r.Success? ==> r.value == ChosenAll(packs)
  {
    hide Namespace, Suffixed, Shared;
    var counts: map<string, nat> := map[];
    for i := 0 to |packs|
      invariant forall ns :: (if ns in counts then counts[ns] else 0) == Tally(packs, ns, i)
    {
      var ns := Base(packs, i);
      counts := counts[ns := (if ns in counts then counts[ns] else 0) + 1];
    }
    var out: seq<string> := [];
    for i := 0 to |packs|
      invariant |out| == i && forall k :: 0 <= k < i ==> out[k] == Chosen(packs, k)
    {
      var ns := Base(packs, i);
      TallyShares(packs, i);
      out := out + [if counts[ns] == 1 then ns else Suffixed(ns, packs[i].id)];
    }
    assert out == ChosenAll(packs);
    if Distinct(out) {
      r := Success(out);
    } else {
      r := Failure("cannot derive unique merge namespaces");
    }
  }
}
