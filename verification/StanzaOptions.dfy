/** The options of every stanza of a bundle, key by key. */
module StanzaOptions {
  import opened Basics
  import opened Text
  import opened Namespaces
  import opened PackMerge
  import opened PackBundle
  import opened PackSelection

  // ----- what is in force for a stanza ---------------------------------------------------------------

  /** The word, each letter small or capital. */
  predicate Spells(name: string, word: string) {
    |name| == |word| &&
    forall i :: 0 <= i < |word| ==> name[i] == word[i] || name[i] as int + 32 == word[i] as int
  }

  /** A section for the whole pack: [global] or [default], in any case of letters. */
  predicate PackWide(s: Stanza) { Spells(s.name, "global") || Spells(s.name, "default") }

  lemma LowerSpells(name: string, word: string)
    requires forall i :: 0 <= i < |word| ==> 'a' <= word[i] <= 'z'
    ensures Lower(name) == word <==> Spells(name, word)
  {
    var low := Lower(name);
    if low == word {
      forall i | 0 <= i < |word| ensures name[i] == word[i] || name[i] as int + 32 == word[i] as int {
        assert low[i] == word[i];
      }
    }
    if Spells(name, word) {
      forall i | 0 <= i < |word| ensures low[i] == word[i] {
        assert name[i] == word[i] || name[i] as int + 32 == word[i] as int;
      }
    }
  }

  lemma PackWideIs(s: Stanza)
    ensures PackWide(s) <==> IsGlobal(s.name)
  {
    LowerSpells(s.name, "global");
    LowerSpells(s.name, "default");
    hide Lower, Spells;
  }

  /** Section g is the last pack-wide one to set the key. */
  predicate LastWide(sections: seq<Stanza>, key: string, g: nat) {
    && g < |sections| && PackWide(sections[g]) && key in sections[g].options
    && forall j :: g < j < |sections| && PackWide(sections[j]) ==> key !in sections[j].options
  }

  /** What section k of a pack has under a key: its own value, else the last pack-wide one. */
  ghost function InForce(p: Pack, k: nat, key: string): Option<string>
    requires k < |p.sections|
  {
    if key in p.sections[k].options then Some(p.sections[k].options[key])
    else if exists g: nat :: LastWide(p.sections, key, g) then
      var g: nat :| LastWide(p.sections, key, g);
      Some(p.sections[g].options[key])
    else None
  }

  predicate FileKind(v: string) { Trim(v) == "file" || Trim(v) == "mvfile" || Trim(v) == "seqfile" }

  /** The key holds a path: sampleFile, or the replacement of a token whose kind is a file. */
  ghost predicate HoldsPath(p: Pack, k: nat, key: string)
    requires k < |p.sections|
  {
    || key == "sampleFile"
    || exists token: string ::
         && key == token + ".replacement"
         && InForce(p, k, token + ".replacementType").Some?
         && FileKind(InForce(p, k, token + ".replacementType").value)
  }

  /** The value is a path to one of the pack's samples. */
  predicate NamesSample(p: Pack, v: string) { Trim(v) != "" && Referenced(Trim(v), p.samples).Some? }

  /** A stanza with exactly the keys in force for section k; every value is the one in force,
      except that a path to one of the pack's samples is renamed. */
  ghost predicate Carries(st: Stanza, ns: string, p: Pack, k: nat)
    requires k < |p.sections|
  {
    && st.name == ns + "--" + p.sections[k].name
    && (forall key: string :: key in st.options <==> InForce(p, k, key).Some?)
    && (forall key: string ::
          key in st.options && !(HoldsPath(p, k, key) && NamesSample(p, InForce(p, k, key).value)) ==>
            st.options[key] == InForce(p, k, key).value)
  }

  // ----- the merge's own functions meet it --------------------------------------------------------------

  lemma {:induction false} GlobalsHave(sections: seq<Stanza>, key: string)
    ensures key in GlobalsOf(sections) <==> exists g: nat :: LastWide(sections, key, g)
    ensures forall g: nat :: LastWide(sections, key, g) ==>
              key in GlobalsOf(sections) && GlobalsOf(sections)[key] == sections[g].options[key]
  {
    hide IsGlobal, PackWide;
    if sections != [] {
      var n := |sections| - 1;
      var front, s := sections[..n], sections[n];
      GlobalsHave(front, key);
      PackWideIs(s);
      assert forall j :: 0 <= j < n ==> front[j] == sections[j];
      if PackWide(s) && key in s.options {
        assert LastWide(sections, key, n);
      } else {
        forall g: nat ensures LastWide(sections, key, g) <==> LastWide(front, key, g) {
          WideAppend(front, s, key, g);
          assert sections == front + [s];
        }
      }
    }
  }

  lemma WideAppend(front: seq<Stanza>, s: Stanza, key: string, g: nat)
    requires !(PackWide(s) && key in s.options)
    ensures LastWide(front + [s], key, g) <==> LastWide(front, key, g)
  {
    hide PackWide;
    var sections := front + [s];
    assert forall j :: 0 <= j < |front| ==> sections[j] == front[j];
  }

  lemma AllInForce(p: Pack, k: nat, key: string)
    requires k < |p.sections|
    ensures var all := GlobalsOf(p.sections) + p.sections[k].options;
            && (key in all <==> InForce(p, k, key).Some?)
            && (key in all ==> all[key] == InForce(p, k, key).value)
  {
    hide GlobalsOf, LastWide;
    GlobalsHave(p.sections, key);
  }

  lemma PathKeys(p: Pack, k: nat, key: string)
    requires k < |p.sections|
    ensures IsFileRef(GlobalsOf(p.sections) + p.sections[k].options, key) <==> HoldsPath(p, k, key)
  {
    hide GlobalsOf, InForce, Trim;
    var all := GlobalsOf(p.sections) + p.sections[k].options;
    if PackMerge.Ends(key, VALUE) {
      var token := key[..|key| - |VALUE|];
      assert key == token + ".replacement";
      AllInForce(p, k, token + ".replacementType");
    }
    if token: string :| && key == token + ".replacement"
                        && InForce(p, k, token + ".replacementType").Some?
                        && FileKind(InForce(p, k, token + ".replacementType").value) {
      assert key[|key| - |VALUE|..] == VALUE && key[..|key| - |VALUE|] == token;
      AllInForce(p, k, token + ".replacementType");
    }
  }

  lemma MergedKey(in_: Input, k: nat, key: string)
    requires k < |in_.pack.sections|
    ensures var st, p := MergedStanza(in_, in_.pack.sections[k]), in_.pack;
            && (key in st.options <==> InForce(p, k, key).Some?)
            && (key in st.options && !(HoldsPath(p, k, key) && NamesSample(p, InForce(p, k, key).value)) ==>
                  st.options[key] == InForce(p, k, key).value)
  {
    hide GlobalsOf, InForce, HoldsPath, IsFileRef, Trim, Referenced, SplitColumn, MergedName;
    AllInForce(in_.pack, k, key);
    PathKeys(in_.pack, k, key);
  }

  lemma MergedCarries(in_: Input, k: nat)
    requires k < |in_.pack.sections|
    ensures Carries(MergedStanza(in_, in_.pack.sections[k]), in_.ns, in_.pack, k)
  {
    hide MergedOptions, InForce, HoldsPath, NamesSample;
    var st := MergedStanza(in_, in_.pack.sections[k]);
    assert st.name == in_.ns + "--" + in_.pack.sections[k].name;
    forall key: string
      ensures key in st.options <==> InForce(in_.pack, k, key).Some?
      ensures key in st.options
              && !(HoldsPath(in_.pack, k, key) && NamesSample(in_.pack, InForce(in_.pack, k, key).value)) ==>
                st.options[key] == InForce(in_.pack, k, key).value
    {
      MergedKey(in_, k, key);
    }
  }

  // ----- every stanza of a bundle -------------------------------------------------------------------------

  /** Every section of every pack that is not pack-wide is in the bundle, with exactly the
      options in force for it in its own pack. */
  lemma EverySectionIsBundled(choices: seq<Choice>, i: nat, k: nat)
    requires Selected(choices) && |choices| >= 2 && Bundled(choices).Success? && i < |choices|
    requires k < |choices[i].pack.sections| && !PackWide(choices[i].pack.sections[k])
    ensures exists st :: st in Bundled(choices).value.conf && Carries(st, Inputs(choices)[i].ns, choices[i].pack, k)
  {
    hide Selected, Chosen, Merge, Distinct, MergedStanza, Carries, IsGlobal, PackWide, Bundled, Holds;
    BundledIff(choices);
    var in_ := Inputs(choices)[i];
    var st := MergedStanza(in_, in_.pack.sections[k]);
    PackWideIs(in_.pack.sections[k]);
    assert ComesFrom(in_, st, |in_.pack.sections|);
    MergedCarries(in_, k);
  }

  /** And nothing else is: every stanza of the bundle is such a section of one of the packs. */
  lemma OnlySectionsAreBundled(choices: seq<Choice>, st: Stanza)
    requires Selected(choices) && |choices| >= 2 && Bundled(choices).Success? && st in Bundled(choices).value.conf
    ensures exists i: nat, k: nat ::
              && i < |choices| && k < |choices[i].pack.sections| && !PackWide(choices[i].pack.sections[k])
              && Carries(st, Inputs(choices)[i].ns, choices[i].pack, k)
  {
    hide Selected, Chosen, Merge, Distinct, MergedStanza, Carries, IsGlobal, PackWide, Bundled, Holds;
    BundledIff(choices);
    var inputs := Inputs(choices);
    var i: nat :| i < |inputs| && ComesFrom(inputs[i], st, |inputs[i].pack.sections|);
    var k: nat :| k < |inputs[i].pack.sections| && !IsGlobal(inputs[i].pack.sections[k].name)
                  && st == MergedStanza(inputs[i], inputs[i].pack.sections[k]);
    MergedCarries(inputs[i], k);
    PackWideIs(inputs[i].pack.sections[k]);
    assert Carries(st, inputs[i].ns, choices[i].pack, k);
  }
}
