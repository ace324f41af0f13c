/** Renaming a pack and reading it back. */
module PackRename {
  import opened Basics
  import opened Text
  import opened PackYaml

  // ----- what the lines involved say ------------------------------------------------------------

  predicate Unquoted(s: string) { forall i :: 0 <= i < |s| ==> !Quote(s[i]) && s[i] != '#' }

  lemma {:induction false} UncommentedPlain(a: string, b: string)
    requires Unquoted(a)
    ensures Uncommented(a + b, None) == a + Uncommented(b, None)
  {
    if a == "" {
      assert a + b == b;
    } else {
      assert (a + b)[1..] == a[1..] + b && (a + b)[0] == a[0];
      UncommentedPlain(a[1..], b);
      assert a == [a[0]] + a[1..];
    }
  }

  lemma {:induction false} UncommentedQuoted(x: string, q: char)
    requires q !in x
    ensures Uncommented(x + [q], Some(q)) == x + [q]
  {
    var s := x + [q];
    if x == "" {
      assert s == [q] && s[1..] == "";
    } else {
      assert s[0] == x[0] && s[1..] == x[1..] + [q];
      UncommentedQuoted(x[1..], q);
      assert x == [x[0]] + x[1..];
    }
  }

  lemma {:induction false} FirstColonIs(s: string, n: nat)
    requires n < |s| && s[n] == ':' && ':' !in s[..n]
    ensures FirstColon(s) == n
  {
    if n > 0 {
      assert s[..n][0] == s[0];
      assert s[1..][..n - 1] == s[..n][1..];
      FirstColonIs(s[1..], n - 1);
    }
  }

  lemma SpaceGoes(s: string)
    requires Trimmed(s) && s != ""
    ensures Trim(" " + s) == s
  {
    assert (" " + s)[1..] == s;
    assert TrimLeft(" " + s) == TrimLeft(s) == s;
  }

  function QuotedName(name: string): string { [QuoteFor(name)] + name + [QuoteFor(name)] }

  lemma QuotedNameIs(name: string)
    requires Storable(name)
    ensures Trimmed(QuotedName(name)) && QuotedName(name) != "" && Scalar(QuotedName(name)) == Str(name)
    ensures QuoteFor(name) !in name && Quote(QuoteFor(name)) && !White(QuoteFor(name))
  {
    var t := QuotedName(name);
    assert t[0] == t[|t| - 1] == QuoteFor(name);
    assert t[1..|t| - 1] == name;
  }

  lemma NameLineKept(name: string)
    requires Storable(name)
    ensures StripComment(NameLine(name)) == NameLine(name)
  {
    hide Uncommented, Storable;
    var q := QuoteFor(name);
    QuotedNameIs(name);
    var tail := name + [q];
    assert NameLine(name) == "name: " + ([q] + tail);
    UncommentedPlain("name: ", [q] + tail);
    OpensQuote(q, tail);
    UncommentedQuoted(name, q);
    var line := NameLine(name);
    assert line[|line| - 1] == q;
  }

  lemma OpensQuote(q: char, tail: string)
    requires Quote(q)
    ensures Uncommented([q] + tail, None) == [q] + Uncommented(tail, Some(q))
  {
    assert ([q] + tail)[1..] == tail;
  }

  /** The line a rename writes says the name and nothing else. */
  lemma NameLineReads(name: string)
    requires Storable(name)
    ensures Read(NameLine(name)) == Top("name", QuotedName(name)) && QuotedName(name) != ""
    ensures Scalar(QuotedName(name)) == Str(name)
  {
    hide StripComment, Storable, Scalar, FirstColon, Trim;
    NameLineKept(name);
    QuotedNameIs(name);
    var line, value := NameLine(name), QuotedName(name);
    assert line == "name: " + value;
    assert line[0] == 'n' && line[|line| - 1] == value[|value| - 1];
    LineTrimmed(line);
    assert line[..4] == "name" && line[4] == ':';
    FirstColonIs(line, 4);
    LineTrimmed("name");
    assert line[5..] == " " + value;
    SpaceGoes(value);
  }

  lemma LineTrimmed(line: string)
    requires line != "" && line[0] == 'n' && !White(line[|line| - 1])
    ensures Trim(line) == line
  {
    TrimmedStays(line);
  }

  lemma {:induction false} TrimLeftDrops(s: string)
    ensures forall j :: 0 <= j < |s| - |TrimLeft(s)| ==> White(s[j])
  {
    if s != "" && White(s[0]) {
      TrimLeftDrops(s[1..]);
      assert forall j :: 1 <= j < |s| ==> s[j] == s[1..][j - 1];
    }
  }

  lemma WhiteIsPlain(s: string)
    requires AllWhite(s)
    ensures Unquoted(s) && ':' !in s
  {
  }

  lemma {:induction false} WhiteTrims(s: string)
    requires forall j :: 0 <= j < |s| ==> White(s[j])
    ensures TrimRight(s) == "" && TrimLeft(s) == ""
  {
    if s != "" {
      WhiteTrims(s[..|s| - 1]);
      WhiteTrims(s[1..]);
    }
  }

  lemma {:induction false} TrimRightOver(a: string, w: string)
    requires a != "" && !White(a[|a| - 1]) && AllWhite(w)
    ensures TrimRight(a + w) == a
  {
    if w == "" {
      assert a + w == a;
    } else {
      var n := |w| - 1;
      assert (a + w)[..|a| + n] == a + w[..n] && (a + w)[|a| + n] == w[n];
      TrimRightOver(a, w[..n]);
    }
  }

  lemma {:induction false} TrimRightLonger(a: string, b: string)
    requires a != "" && !White(a[|a| - 1])
    ensures a <= TrimRight(a + b)
  {
    if b == "" {
      assert a + b == a;
    } else {
      var n := |b| - 1;
      assert (a + b)[..|a| + n] == a + b[..n];
      TrimRightLonger(a, b[..n]);
    }
  }

  predicate AllWhite(w: string) { forall j :: 0 <= j < |w| ==> White(w[j]) }

  lemma NameFormParts(raw: string) returns (w: string, tail: string)
    requires NameForm(raw)
    ensures AllWhite(w) && raw == "name" + w + ":" + tail
  {
    hide White;
    var after := raw[4..];
    var rest := TrimLeft(after);
    w, tail := after[..|after| - |rest|], rest[1..];
    TrimLeftDrops(after);
    assert raw == "name" + after && after == w + rest && rest == ":" + tail;
  }

  /** A line the rewriter takes for the name is one the reader takes for it. */
  lemma NameFormReads(raw: string)
    requires NameForm(raw)
    ensures Read(raw).Top? && Read(raw).key == "name"
  {
    hide Uncommented, Quote, NameForm, AllWhite, Read, TrimRight;
    var w, tail := NameFormParts(raw);
    WhiteIsPlain(w);
    PlainHead(w);
    var head := "name" + w + ":";
    UncommentedPlain(head, tail);
    HeadEnds(w);
    TrimRightLonger(head, Uncommented(tail, None));
    ReadHead(raw, w);
  }

  lemma HeadEnds(w: string)
    ensures var head := "name" + w + ":"; head != "" && !White(head[|head| - 1])
  {
  }

  lemma PlainHead(w: string)
    requires Unquoted(w)
    ensures Unquoted("name" + w + ":")
  {
    var head := "name" + w + ":";
    assert forall i :: 4 <= i < |w| + 4 ==> head[i] == w[i - 4];
  }

  lemma KeyTrims(w: string)
    requires AllWhite(w)
    ensures Trim("name" + w) == "name"
  {
    hide White;
    assert !White('n') && !White('e') by { LettersAreNotWhite(); }
    assert ("name" + w)[0] == 'n';
    TrimRightOver("name", w);
  }

  lemma LettersAreNotWhite()
    ensures !White('n') && !White('e')
  {
  }

  lemma ReadHead(raw: string, w: string)
    requires AllWhite(w) && "name" + w + ":" <= StripComment(raw)
    ensures Read(raw).Top? && Read(raw).key == "name"
  {
    hide StripComment, FirstColon, AllWhite, Trim;
    var line, head := StripComment(raw), "name" + w + ":";
    assert line[0] == head[0] == 'n';
    NotWhite(raw);
    LineTrimmed(line);
    var n := 4 + |w|;
    assert head[n] == ':' && line[n] == head[n];
    WhiteIsPlain(w);
    assert line[..n] == head[..n] == "name" + w;
    FirstColonIs(line, n);
    KeyTrims(w);
  }

  lemma NotWhite(raw: string)
    requires StripComment(raw) != ""
    ensures !White(StripComment(raw)[|StripComment(raw)| - 1])
  {
    hide Uncommented;
  }

  lemma HashOpensComment(s: string)
    requires s != "" && s[0] == '#'
    ensures Uncommented(s, None) == ""
  {
  }

  /** A comment says nothing. */
  lemma CommentReadsNothing(raw: string)
    requires CommentLine(raw)
    ensures Read(raw) == Skip
  {
    hide Quote;
    var rest := TrimLeft(raw);
    var w := raw[..|raw| - |rest|];
    TrimLeftDrops(raw);
    WhiteIsPlain(w);
    assert raw == w + rest;
    UncommentedPlain(w, rest);
    HashOpensComment(rest);
    assert w + "" == w;
    WhiteTrims(w);
  }

  // ----- two readers that differ in the name -------------------------------------------------------

  predicate SaysName(raw: string) { Read(raw).Top? && Read(raw).key == "name" }

  /** The same but for the name; where the old file's name opened a section, the new file is
      in none. */
  predicate Shadows(old_: Reader, new_: Reader, name: string) {
    && new_.result == old_.result["name" := Leaf(Str(name))]
    && (if old_.section == Some("name") then new_.section.None? else new_.section == old_.section)
  }

  lemma ShadowsOn(old_: Reader, new_: Reader, name: string, e: Entry)
    requires Shadows(old_, new_, name) && !(e.Top? && e.key == "name")
    ensures Shadows(Enter(old_, e), Enter(new_, e), name)
  {
    hide Scalar;
    var o, n := Enter(old_, e), Enter(new_, e);
    assert n.result == o.result["name" := Leaf(Str(name))];
  }

  lemma ShadowsBegin(old_: Reader, name: string, e: Entry, value: string)
    requires e.Top? && e.key == "name" && value != "" && Scalar(value) == Str(name)
    ensures Shadows(Enter(old_, e), Enter(old_, Top("name", value)), name)
  {
  }

  /** What the last line that says a name says; "" opens a section of that name. */
  function LastSaid(lines: seq<string>): Option<string> {
    if lines == [] then None
    else
      var last := lines[|lines| - 1];
      if SaysName(last) then Some(Read(last).value) else LastSaid(lines[..|lines| - 1])
  }

  /** Where the first of them agree but for the name: the same lines after each keep it so
      until one says a name, and from then on the two are the same. */
  lemma {:induction false} ShadowsThrough(o: seq<string>, n: seq<string>, tail: seq<string>, name: string)
    requires Shadows(ReadAll(o), ReadAll(n), name)
    ensures LastSaid(tail).None? ==> Shadows(ReadAll(o + tail), ReadAll(n + tail), name)
    ensures LastSaid(tail).Some? ==> ReadAll(o + tail) == ReadAll(n + tail)
    ensures LastSaid(tail).Some? ==> Named(ReadAll(n + tail), LastSaid(tail).value)
  {
    hide Read, Scalar;
    if tail == [] {
      assert o + tail == o && n + tail == n;
    } else {
      var front, last := tail[..|tail| - 1], tail[|tail| - 1];
      assert (o + tail)[..|o + tail| - 1] == o + front && (n + tail)[..|n + tail| - 1] == n + front;
      ShadowsThrough(o, n, front, name);
      var before, after := ReadAll(o + front), ReadAll(n + front);
      if SaysName(last) {
        SameOnceNamed(before, after, name, Read(last).value);
      } else if LastSaid(front).None? {
        ShadowsOn(before, after, name, Read(last));
      }
    }
  }

  /** The name as that value gives it. */
  predicate Named(st: Reader, value: string) {
    "name" in st.result && (if value == "" then st.result["name"].Branch? else st.result["name"] == Leaf(Scalar(value)))
  }

  lemma SameOnceNamed(o: Reader, n: Reader, name: string, value: string)
    requires o == n || Shadows(o, n, name)
    ensures Enter(o, Top("name", value)) == Enter(n, Top("name", value))
    ensures Named(Enter(n, Top("name", value)), value)
  {
    hide Scalar;
    var any := if value == "" then Branch(map[]) else Leaf(Scalar(value));
    assert o.result["name" := any] == n.result["name" := any];
  }

  lemma {:induction false} CommentsSayNothing(lines: seq<string>, n: nat)
    requires n <= |lines| && forall j :: 0 <= j < n ==> CommentLine(lines[j])
    ensures ReadAll(lines[..n]) == Reader(map[], None)
  {
    hide Read, CommentLine;
    if n > 0 {
      assert lines[..n][..n - 1] == lines[..n - 1];
      CommentsSayNothing(lines, n - 1);
      CommentReadsNothing(lines[n - 1]);
    }
  }

  // ----- the round trip -------------------------------------------------------------------------------

  /** The lines that follow the name line the rewriter writes. */
  function AfterName(lines: seq<string>): seq<string> {
    var i := FirstName(lines);
    if i < |lines| then lines[i + 1..] else lines[LeadingComments(lines)..]
  }

  /** The file up to where the name line is, or will be. */
  function BeforeName(lines: seq<string>): seq<string> {
    var i := FirstName(lines);
    if i < |lines| then lines[..i] else lines[..LeadingComments(lines)]
  }

  /** No later line says a name, or the last that does says this one. */
  predicate Stands(lines: seq<string>, name: string) {
    var last := LastSaid(AfterName(lines));
    last.Some? ==> last.value != "" && Scalar(last.value) == Str(name)
  }

  /** The part of the old file that the new one replaces, up to the name. */
  function OldHead(lines: seq<string>): seq<string> {
    var i := FirstName(lines);
    if i < |lines| then lines[..i + 1] else lines[..LeadingComments(lines)]
  }

  lemma RenamedParts(lines: seq<string>, name: string)
    ensures lines == OldHead(lines) + AfterName(lines)
    ensures RenamedLines(lines, name) == BeforeName(lines) + [NameLine(name)] + AfterName(lines)
  {
    hide NameLine, FirstName, LeadingComments;
  }

  lemma ReadAllPlus(lines: seq<string>, line: string)
    ensures ReadAll(lines + [line]) == Enter(ReadAll(lines), Read(line))
  {
    hide Read, Enter;
    assert (lines + [line])[..|lines|] == lines;
  }

  lemma HeadShadows(lines: seq<string>, name: string)
    requires Storable(name)
    ensures Shadows(ReadAll(OldHead(lines)), ReadAll(BeforeName(lines) + [NameLine(name)]), name)
  {
    hide Read, Storable, NameLine, NameForm, CommentLine, ReadAll, FirstName, LeadingComments, Enter, Shadows;
    var before, i := BeforeName(lines), FirstName(lines);
    NameLineReads(name);
    ReadAllPlus(before, NameLine(name));
    if i < |lines| {
      FirstNameFinds(lines);
      NameFormReads(lines[i]);
      assert OldHead(lines) == before + [lines[i]];
      ReadAllPlus(before, lines[i]);
      ShadowsBegin(ReadAll(before), name, Read(lines[i]), QuotedName(name));
    } else {
      LeadingAreComments(lines);
      CommentsSayNothing(lines, |before|);
      ShadowsNothing(name, QuotedName(name));
    }
  }

  lemma ShadowsNothing(name: string, value: string)
    requires value != "" && Scalar(value) == Str(name)
    ensures Shadows(Reader(map[], None), Enter(Reader(map[], None), Top("name", value)), name)
  {
    hide Scalar;
  }

  /** The reading changes in the name alone, or, where a later line says a name, not at all. */
  lemma RenamedLinesRead(lines: seq<string>, name: string)
    requires Storable(name)
    ensures var old_, new_ := ReadAll(lines).result, ReadAll(RenamedLines(lines, name)).result;
            && (new_ == old_["name" := Leaf(Str(name))] <==> Stands(lines, name))
            && (LastSaid(AfterName(lines)).Some? ==> new_ == old_)
  {
    hide Read, Storable, NameLine, ReadAll, RenamedLines, OldHead, BeforeName, AfterName, LastSaid, Scalar;
    RenamedParts(lines, name);
    HeadShadows(lines, name);
    ShadowsThrough(OldHead(lines), BeforeName(lines) + [NameLine(name)], AfterName(lines), name);
  }

  lemma NameLineFree(name: string)
    requires BreakFree(name)
    ensures BreakFree(NameLine(name))
  {
    var line := NameLine(name);
    var q := QuoteFor(name);
    assert !Break(q);
    assert forall i :: 7 <= i < 7 + |name| ==> line[i] == name[i - 7];
    assert line[6] == q && line[|line| - 1] == q;
  }

  lemma RenamedLinesFree(lines: seq<string>, name: string)
    requires BreakFree(name) && forall l :: l in lines ==> BreakFree(l)
    ensures forall l :: l in RenamedLines(lines, name) ==> BreakFree(l)
  {
    hide NameLine, BreakFree, FirstName, LeadingComments;
    NameLineFree(name);
  }

  /** No value read from a file spans lines. */
  predicate ValuesFree(st: Reader) {
    forall k :: k in st.result && st.result[k].Leaf? ==> BreakFree(st.result[k].value.text)
  }

  lemma SubFree(s: string, i: nat, j: nat)
    requires BreakFree(s) && i <= j <= |s|
    ensures BreakFree(s[i..j])
  {
  }

  lemma TrimFree(s: string)
    requires BreakFree(s)
    ensures BreakFree(Trim(s))
  {
    hide Break;
  }

  lemma {:induction false} UncommentedFree(s: string, quote: Option<char>)
    requires BreakFree(s)
    ensures BreakFree(Uncommented(s, quote))
  {
    hide Break;
    if s != "" {
      UncommentedFree(s[1..], None);
      UncommentedFree(s[1..], quote);
      UncommentedFree(s[1..], Some(s[0]));
    }
  }

  lemma ReadFree(raw: string)
    requires BreakFree(raw)
    ensures !Read(raw).Skip? ==> BreakFree(Read(raw).value)
  {
    hide BreakFree, Uncommented, FirstColon, Trim, TrimRight;
    UncommentedFree(raw, None);
    StripFree(raw);
    var line := StripComment(raw);
    TrimFree(line);
    var stripped := Trim(line);
    var n := FirstColon(stripped);
    if n < |stripped| {
      SubFree(stripped, n + 1, |stripped|);
      assert stripped[n + 1..] == stripped[n + 1..|stripped|];
      TrimFree(stripped[n + 1..]);
    }
  }

  lemma StripFree(raw: string)
    requires BreakFree(Uncommented(raw, None))
    ensures BreakFree(StripComment(raw))
  {
    hide Uncommented, Break;
  }

  lemma ScalarFree(text: string)
    requires BreakFree(text)
    ensures BreakFree(Scalar(text).text)
  {
    hide Break;
  }

  lemma {:induction false} ReadAllFree(lines: seq<string>)
    requires forall l :: l in lines ==> BreakFree(l)
    ensures ValuesFree(ReadAll(lines))
  {
    hide Read, BreakFree, Scalar;
    if lines != [] {
      var n := |lines| - 1;
      ReadAllFree(lines[..n]);
      ReadFree(lines[n]);
      var e := Read(lines[n]);
      if e.Top? {
        ScalarFree(e.value);
      }
    }
  }

  /** For every storable name and every file: reading the renamed file gives the old reading
      with only the name changed, to exactly the new name, just when no character of the name
      is a line break to the reader and no later line of the file says another name. Control
      characters are refused in names, which leaves U+0085, U+2028 and U+2029. */
  lemma RenameRoundTripIff(text: string, name: string)
    requires Storable(name)
    ensures Parse(Rename(text, name)) == Parse(text)["name" := Leaf(Str(name))] <==>
            BreakFree(name) && Stands(SplitLines(text), name)
    ensures BreakFree(name) && LastSaid(AfterName(SplitLines(text))).Some? ==> Parse(Rename(text, name)) == Parse(text)
  {
    hide Storable, ReadAll, SplitLines, BreakFree, RenamedLines, JoinLines, Stands, AfterName, LastSaid;
    var lines := SplitLines(text);
    var changed := RenamedLines(lines, name);
    if BreakFree(name) {
      RenamedLinesFree(lines, name);
      SplitOfJoin(changed);
      RenamedLinesRead(lines, name);
    } else {
      var read := ReadAll(SplitLines(JoinLines(changed)));
      ReadAllFree(SplitLines(JoinLines(changed)));
      NotThatName(read, name);
    }
  }

  lemma NotThatName(st: Reader, name: string)
    requires ValuesFree(st) && !BreakFree(name)
    ensures "name" in st.result ==> st.result["name"] != Leaf(Str(name))
  {
    hide BreakFree;
  }

  /** A name clean_name accepts that the file cannot carry. */
  lemma SeparatorInNameIsLost(text: string)
    ensures CleanName("a\U{2028}b") == Success("a\U{2028}b")
    ensures Parse(Rename(text, "a\U{2028}b")) != Parse(text)["name" := Leaf(Str("a\U{2028}b"))]
  {
    hide SplitLines, Parse, Rename, Trim, Stands;
    var name := "a\U{2028}b";
    assert Storable(name);
    CleanNameIff(name);
    assert Break(name[1]);
    RenameRoundTripIff(text, name);
  }

  /** A file that says its name twice keeps the second: the rename is not read. */
  lemma SecondNameIsKept(a: string, b: string, name: string)
    requires Storable(a) && Storable(b) && Storable(name) && BreakFree(a) && BreakFree(b) && BreakFree(name)
    ensures var text := JoinLines([NameLine(a), NameLine(b)]);
            && Parse(Rename(text, name)) == Parse(text)
            && "name" in Parse(text) && Parse(text)["name"] == Leaf(Str(b))
  {
    hide Storable, BreakFree, NameLine, Read, NameForm, SplitLines, JoinLines, Rename;
    var lines := [NameLine(a), NameLine(b)];
    NameLineFree(a);
    NameLineFree(b);
    SplitOfJoin(lines);
    NameLineReads(a);
    NameLineReads(b);
    NameLineForm(a);
    assert FirstName(lines) == 0;
    assert AfterName(lines) == [NameLine(b)];
    assert LastSaid(AfterName(lines)).Some?;
    RenameRoundTripIff(JoinLines(lines), name);
    assert lines[..1] == [NameLine(a)];
    assert ReadAll(lines) == Enter(ReadAll([NameLine(a)]), Top("name", QuotedName(b)));
  }

  lemma NameLineForm(name: string)
    ensures NameForm(NameLine(name))
  {
  }

  /** A line of white space, a hash and anything. */
  predicate Hashed(line: string) {
    exists k :: 0 <= k < |line| && line[k] == '#' && forall j :: 0 <= j < k ==> White(line[j])
  }

  lemma HashedIs(line: string)
    ensures CommentLine(line) <==> Hashed(line)
  {
    TrimLeftDrops(line);
    var rest := TrimLeft(line);
    hide TrimLeft;
    var n := |line| - |rest|;
    if rest != "" {
      assert rest[0] == line[n];
    }
    if k :| 0 <= k < |line| && line[k] == '#' && forall j :: 0 <= j < k ==> White(line[j]) {
      assert !White('#');
    }
  }

  /** Without a name line, the new one goes after the leading comments, indented ones too, and
      before anything else. */
  lemma NameGoesAfterComments(front: seq<string>, back: seq<string>, name: string)
    requires forall i :: 0 <= i < |front| ==> Hashed(front[i])
    requires back != [] ==> !Hashed(back[0])
    requires forall i :: 0 <= i < |front + back| ==> !NameForm((front + back)[i])
    ensures RenamedLines(front + back, name) == front + [NameLine(name)] + back
  {
    hide NameForm, Hashed, CommentLine, NameLine, FirstName, LeadingComments;
    var lines := front + back;
    FirstNameIs(lines, |lines|);
    forall i | 0 <= i < |front| ensures CommentLine(lines[i]) {
      HashedIs(front[i]);
    }
    if back != [] {
      HashedIs(back[0]);
    }
    LeadingCommentsIs(lines, |front|);
  }
}
