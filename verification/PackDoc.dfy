/** Documents of two levels, written out and read back. */
module PackDoc {
  import opened Basics
  import opened Text
  import opened PackYaml
  import opened PackRename

  /** A key with its value, or with a section of keys of its own. */
  datatype Item = One(key: string, value: string) | Many(key: string, entries: seq<Pair>)

  datatype Pair = Pair(key: string, value: string)

  /** A key that needs no quotes. */
  predicate PlainKey(key: string) {
    && key != "" && Trimmed(key) && !("- " <= key) && BreakFree(key)
    && forall i :: 0 <= i < |key| ==> key[i] != ':' && key[i] != '#' && !Quote(key[i])
  }

  /** A value that one kind of quotes can hold on one line. */
  predicate Quotable(value: string) { BreakFree(value) && ('"' !in value || '\'' !in value) }

  predicate Writable(item: Item) {
    && PlainKey(item.key)
    && (item.One? ==> Quotable(item.value))
    && (item.Many? ==>
          forall i :: 0 <= i < |item.entries| ==> PlainKey(item.entries[i].key) && Quotable(item.entries[i].value))
  }

  // ----- writing ---------------------------------------------------------------------------------

  function InQuotes(value: string): string { [QuoteFor(value)] + value + [QuoteFor(value)] }

  function TopLine(key: string, value: string): string { key + ": " + InQuotes(value) }

  function HeadLine(key: string): string { key + ":" }

  function NestedLine(p: Pair): string { "  " + TopLine(p.key, p.value) }

  function NestedLines(entries: seq<Pair>): seq<string> {
    if entries == [] then [] else NestedLines(entries[..|entries| - 1]) + [NestedLine(entries[|entries| - 1])]
  }

  function ItemLines(item: Item): seq<string> {
    match item
    case One(key, value) => [TopLine(key, value)]
    case Many(key, entries) => [HeadLine(key)] + NestedLines(entries)
  }

  function Written(doc: seq<Item>): seq<string> {
    if doc == [] then [] else Written(doc[..|doc| - 1]) + ItemLines(doc[|doc| - 1])
  }

  // ----- meaning ------------------------------------------------------------------------------------

  /** The entries of a section, later ones over earlier of the same key. */
  function EntriesOf(entries: seq<Pair>): map<string, Value> {
    if entries == [] then map[]
    else
      var p := entries[|entries| - 1];
      EntriesOf(entries[..|entries| - 1])[p.key := Str(p.value)]
  }

  function Meant(doc: seq<Item>): map<string, Node> {
    if doc == [] then map[]
    else
      var item := doc[|doc| - 1];
      Meant(doc[..|doc| - 1])[item.key := if item.One? then Leaf(Str(item.value)) else Branch(EntriesOf(item.entries))]
  }

  // ----- one line ---------------------------------------------------------------------------------

  lemma QuotesHold(value: string)
    requires Quotable(value)
    ensures var t, q := InQuotes(value), QuoteFor(value);
            && |t| >= 2 && Trimmed(t) && !White(q) && Quote(q) && q !in value
            && t[0] == q && t[|t| - 1] == q && t == [q] + (value + [q])
            && Scalar(t) == Str(value)
  {
    var t := InQuotes(value);
    assert t[1..|t| - 1] == value;
  }

  lemma KeyUnquoted(key: string)
    requires PlainKey(key)
    ensures Unquoted(key + ": ") && Unquoted("  " + (key + ": ")) && Unquoted(key + ":") && ':' !in key
  {
    var s, t, u := key + ": ", "  " + (key + ": "), key + ":";
    assert forall i :: 0 <= i < |s| ==> s[i] == if i < |key| then key[i] else if i == |key| then ':' else ' ';
    assert forall i :: 0 <= i < |t| ==> t[i] == if i < 2 then ' ' else s[i - 2];
    assert forall i :: 0 <= i < |u| ==> u[i] == if i < |key| then key[i] else ':';
  }

  /** Nothing of such a line is a comment, nor trimmed at its end. */
  lemma LineKept(head: string, value: string)
    requires Unquoted(head) && Quotable(value)
    ensures StripComment(head + InQuotes(value)) == head + InQuotes(value)
  {
    hide Uncommented, Quotable, Unquoted;
    var q := QuoteFor(value);
    QuotesHold(value);
    var line := head + InQuotes(value);
    UncommentedPlain(head, InQuotes(value));
    OpensQuote(q, value + [q]);
    UncommentedQuoted(value, q);
    assert line[|line| - 1] == q;
  }

  /** The text of a line that says a key and a value, apart. */
  lemma PartsRead(key: string, value: string)
    requires PlainKey(key) && Trimmed(value) && value != ""
    ensures var s := key + ": " + value;
            && Trimmed(s) && s != "" && !("- " <= s) && FirstColon(s) == |key| && |key| < |s|
            && Trim(s[..|key|]) == key && Trim(s[|key| + 1..]) == value
  {
    hide FirstColon, Trim, White, Quote;
    var s := key + ": " + value;
    NoColon(key);
    assert s[0] == key[0] && s[|s| - 1] == value[|value| - 1];
    assert s[..|key|] == key && s[|key|] == ':' && s[|key| + 1..] == " " + value;
    FirstColonIs(s, |key|);
    TrimmedStays(key);
    SpaceGoes(value);
    NoDash(key, ": " + value);
    assert s == key + (": " + value);
  }

  lemma NoColon(key: string)
    requires PlainKey(key)
    ensures ':' !in key
  {
  }

  lemma NoDash(key: string, rest: string)
    requires PlainKey(key) && ":" <= rest
    ensures !("- " <= key + rest)
  {
    var s := key + rest;
    assert s[|key|] == ':';
    if |key| > 1 {
      assert s[0] == key[0] && s[1] == key[1];
    }
  }

  lemma TopLineReads(key: string, value: string)
    requires PlainKey(key) && Quotable(value)
    ensures Read(TopLine(key, value)) == Top(key, InQuotes(value))
  {
    hide StripComment, FirstColon, Trim, Quotable;
    QuotesHold(value);
    KeyUnquoted(key);
    LineKept(key + ": ", value);
    var line := TopLine(key, value);
    PartsRead(key, InQuotes(value));
    TrimmedStays(line);
    assert line[0] == key[0] && !White(key[0]);
    assert White(' ');
  }

  lemma NestedLineReads(p: Pair)
    requires PlainKey(p.key) && Quotable(p.value)
    ensures Read(NestedLine(p)) == Nested(p.key, InQuotes(p.value))
  {
    hide StripComment, FirstColon, Trim, Quotable;
    QuotesHold(p.value);
    KeyUnquoted(p.key);
    var line, s := NestedLine(p), TopLine(p.key, p.value);
    assert line == ("  " + (p.key + ": ")) + InQuotes(p.value);
    LineKept("  " + (p.key + ": "), p.value);
    PartsRead(p.key, InQuotes(p.value));
    TwoSpacesGo(s);
    assert line[0] == ' ';
  }

  lemma TwoSpacesGo(s: string)
    requires Trimmed(s) && s != ""
    ensures Trim("  " + s) == s
  {
    var one, two := " " + s, "  " + s;
    assert White(' ') && two[0] == ' ' && one[0] == ' ';
    assert two[1..] == one && one[1..] == s;
    assert TrimLeft(s) == s;
    hide White;
    assert TrimLeft(one) == s;
    assert TrimLeft(two) == TrimLeft(one);
    TrimmedStays(s);
  }

  lemma HeadLineReads(key: string)
    requires PlainKey(key)
    ensures Read(HeadLine(key)) == Top(key, "")
  {
    hide FirstColon, StripComment, Trim;
    var line := HeadLine(key);
    KeyUnquoted(key);
    assert !White(':') && White(' ');
    assert line[|line| - 1] == ':' && line[0] == key[0];
    HeadKept(line);
    TrimmedStays(line);
    assert line[..|key|] == key && line[|key|] == ':' && line[|key| + 1..] == "";
    FirstColonIs(line, |key|);
    TrimmedStays(key);
    TrimmedStays("");
    NoDash(key, ":");
  }

  lemma HeadKept(line: string)
    requires Unquoted(line) && Trimmed(line) && line != ""
    ensures StripComment(line) == line
  {
    hide Unquoted;
    UncommentedPlain(line, "");
    assert line + "" == line;
  }

  // ----- comments, lists and bare values ----------------------------------------------------------------

  lemma {:induction false} UncommentedClosed(x: string, q: char, rest: string)
    requires q !in x
    ensures Uncommented(x + [q] + rest, Some(q)) == x + [q] + Uncommented(rest, None)
  {
    var s := x + [q] + rest;
    if x == "" {
      assert s[0] == q && s[1..] == rest;
    } else {
      assert s[0] == x[0] && s[1..] == x[1..] + [q] + rest;
      UncommentedClosed(x[1..], q, rest);
      assert x == [x[0]] + x[1..];
    }
  }

  /** What follows a hash after the value is not read, whatever it is. */
  lemma CommentIsIgnored(key: string, value: string, comment: string)
    requires PlainKey(key) && Quotable(value)
    ensures Read(TopLine(key, value) + " #" + comment) == Read(TopLine(key, value))
  {
    hide Uncommented, FirstColon, Trim, TrimRight;
    QuotesHold(value);
    KeyUnquoted(key);
    var line, q := TopLine(key, value), QuoteFor(value);
    var tail := " #" + comment;
    LineKept(key + ": ", value);
    assert line + " #" + comment == (key + ": ") + ([q] + (value + [q] + tail));
    UncommentedPlain(key + ": ", [q] + (value + [q] + tail));
    OpensQuote(q, value + [q] + tail);
    UncommentedClosed(value, q, tail);
    HashEnds(comment);
    assert Uncommented(line + " #" + comment, None) == line + " ";
    SpaceTrimmed(line);
  }

  lemma HashEnds(comment: string)
    ensures Uncommented(" #" + comment, None) == " "
  {
    var s := " #" + comment;
    assert s[0] == ' ' && s[1..] == "#" + comment && ("#" + comment)[0] == '#';
  }

  lemma SpaceTrimmed(line: string)
    requires line != "" && !White(line[|line| - 1])
    ensures TrimRight(line + " ") == line && TrimRight(line) == line
  {
    var s := line + " ";
    assert s[|s| - 1] == ' ' && White(' ') && s[..|s| - 1] == line;
  }

  /** The lines of a list say nothing. */
  lemma ListLineSaysNothing(rest: string)
    ensures Read("- " + rest) == Skip
  {
    hide Uncommented, FirstColon, White;
    var line := StripComment("- " + rest);
    var text := Uncommented(rest, None);
    assert Unquoted("- ");
    UncommentedPlain("- ", rest);
    DashTrims(text);
    if line == "-" {
      assert FirstColon("-") == 1 by { DashHasNoColon(); }
    }
  }

  lemma DashHasNoColon()
    ensures FirstColon("-") == 1
  {
    assert "-"[1..] == "";
  }

  /** Trimmed, it is a dash alone or still begins a list. */
  lemma DashTrims(text: string)
    ensures var line := TrimRight("- " + text); Trim(line) == line && (line == "-" || "- " <= line)
  {
    hide Trim;
    var raw := "- " + text;
    var line := TrimRight(raw);
    DashStays(raw, 1);
    assert !White('-');
    assert line[0] == '-' && line == raw[..|line|];
    TrimmedStays(line);
    if |line| > 1 {
      assert line[..2] == raw[..2] == "- ";
    }
  }

  lemma {:induction false} DashStays(s: string, n: nat)
    requires 1 <= n <= |s| && s[0] == '-'
    ensures TrimRight(s) != ""
  {
    if |s| == 1 {
      assert s == "-" && !White('-');
    } else if White(s[|s| - 1]) {
      DashStays(s[..|s| - 1], 1);
    }
  }

  /** Nor does a line without a colon. */
  lemma NoColonSaysNothing(raw: string)
    requires ':' !in raw
    ensures Read(raw) == Skip
  {
    hide Uncommented, FirstColon, Trim, TrimRight, White;
    UncommentedIsFront(raw, None);
    var text := Uncommented(raw, None);
    var line := TrimRight(text);
    var stripped := Trim(line);
    TrimIsInside(line);
    assert ':' !in stripped;
    assert FirstColon(stripped) == |stripped|;
  }

  lemma {:induction false} UncommentedIsFront(s: string, quote: Option<char>)
    ensures Uncommented(s, quote) <= s
  {
    if s != "" {
      UncommentedIsFront(s[1..], None);
      UncommentedIsFront(s[1..], quote);
      UncommentedIsFront(s[1..], Some(s[0]));
    }
  }

  lemma TrimIsInside(s: string)
    ensures forall c :: c in Trim(s) ==> c in s
    ensures forall c :: c in TrimRight(s) ==> c in s
  {
    hide White;
  }

  /** A key inside a section that says no value is not read. */
  lemma EmptyNestedIsIgnored(before: seq<string>, key: string)
    requires PlainKey(key)
    ensures ReadAll(before + ["  " + HeadLine(key)]) == ReadAll(before)
  {
    hide Read, ReadAll, PlainKey;
    ReadAllPlus(before, "  " + HeadLine(key));
    NestedHeadReads(key);
  }

  lemma NestedHeadReads(key: string)
    requires PlainKey(key)
    ensures Read("  " + HeadLine(key)) == Nested(key, "")
  {
    hide FirstColon, StripComment, Trim;
    var s, line := HeadLine(key), "  " + HeadLine(key);
    KeyUnquoted(key);
    assert !White(':') && line[|line| - 1] == ':' && s[|s| - 1] == ':' && s[0] == key[0];
    SpacedHeadKept(key);
    TwoSpacesGo(s);
    assert s[..|key|] == key && s[|key|] == ':' && s[|key| + 1..] == "";
    FirstColonIs(s, |key|);
    TrimmedStays(key);
    TrimmedStays("");
    NoDash(key, ":");
    assert line[0] == ' ';
  }

  lemma SpacedHeadKept(key: string)
    requires PlainKey(key)
    ensures StripComment("  " + HeadLine(key)) == "  " + HeadLine(key)
  {
    hide PlainKey, Uncommented;
    var line := "  " + HeadLine(key);
    SpacedUnquoted(key);
    UncommentedPlain(line, "");
    assert line + "" == line && Uncommented("", None) == "" by { NothingUncommented(); }
    assert line[|line| - 1] == ':' && !White(':');
  }

  lemma NothingUncommented()
    ensures Uncommented("", None) == ""
  {
  }

  lemma SpacedUnquoted(key: string)
    requires PlainKey(key)
    ensures Unquoted("  " + HeadLine(key))
  {
    var line := "  " + HeadLine(key);
    assert forall i :: 0 <= i < |line| ==> line[i] == if i < 2 then ' ' else if i < |key| + 2 then key[i - 2] else ':';
  }

  /** A bare value is the string it spells, unless it spells a boolean, a null or a number; those
      are told from the same text in quotes. */
  lemma BareOrQuoted(value: string)
    requires Quotable(value) && (value != "" ==> !Quote(value[0]))
    ensures Scalar(InQuotes(value)) == Str(value)
    ensures Scalar(value) == (if Special(value) then Typed(value) else Str(value))
    ensures Special("true") && Special("No") && Special("~") && Special("12") && Special("-1.5e3") && Special("inf")
    ensures !Special("web logs") && !Special("e3") && !Special("1.2.3")
  {
    QuotesHold(value);
    SpecialWords();
  }

  lemma SpecialWords()
    ensures Special("true") && Special("No") && Special("~") && Special("12") && Special("-1.5e3") && Special("inf")
    ensures !Special("web logs") && !Special("e3") && !Special("1.2.3")
  {
    assert Lower("true") == "true" && Lower("No") == "no" && Lower("~") == "~";
    Numbers();
    NotNumbers();
  }

  lemma Numbers()
    ensures Integer("12") && Float("-1.5e3") && Float("inf")
  {
    hide Trim, Decimals;
    TrimmedStays("12");
    TrimmedStays("-1.5e3");
    TrimmedStays("inf");
    assert Lower("inf") == "inf" && Unsigned("inf") == "inf";
    OnePointFive();
    var t := "1.5e3";
    assert Unsigned("-1.5e3") == t && Lower(t) == t;
    assert t[..3] == "1.5" && t[4..] == "3" && t[3] == 'e';
    assert Digits("3") && Unsigned("3") == "3";
  }

  lemma OnePointFive()
    ensures Decimals("1.5")
  {
    var d := "1.5";
    assert d[1] == '.' && d[..1] == "1" && d[2..] == "5";
    assert Digits("1") && Digits("5");
  }

  lemma NotNumbers()
    ensures !Special("web logs") && !Special("e3") && !Special("1.2.3")
  {
    NotNumber("web logs");
    NotNumber("e3");
    TwoPoints();
  }

  lemma NotNumber(s: string)
    requires s == "web logs" || s == "e3"
    ensures !Special(s)
  {
    TrimmedStays(s);
    assert Lower(s) == s && Unsigned(s) == s;
    forall k | 0 <= k < |s| && s[k] == 'e' ensures !Decimals(s[..k]) {
      assert s[..k] == "" || s[..k][0] == 'w';
    }
  }

  lemma TwoPoints()
    ensures !Special("1.2.3")
  {
    var s := "1.2.3";
    TrimmedStays(s);
    assert Lower(s) == s && Unsigned(s) == s;
    assert s[1] == '.' && s[3] == '.';
    assert s[..3][1] == '.' && s[2..][1] == '.';
  }

  // ----- a whole document ------------------------------------------------------------------------------

  lemma {:induction false} NestedRead(before: seq<string>, key: string, entries: seq<Pair>)
    requires ReadAll(before).section == Some(key) && key in ReadAll(before).result
    requires ReadAll(before).result[key] == Branch(map[])
    requires forall i :: 0 <= i < |entries| ==> PlainKey(entries[i].key) && Quotable(entries[i].value)
    ensures ReadAll(before + NestedLines(entries)) ==
            Reader(ReadAll(before).result[key := Branch(EntriesOf(entries))], Some(key))
  {
    hide Read, PlainKey, Quotable, Scalar, NestedLine;
    if entries == [] {
      assert before + [] == before;
    } else {
      var n := |entries| - 1;
      var p := entries[n];
      NestedRead(before, key, entries[..n]);
      var lines := before + NestedLines(entries[..n]);
      assert before + NestedLines(entries) == lines + [NestedLine(p)];
      ReadAllPlus(lines, NestedLine(p));
      NestedLineReads(p);
      QuotesHold(p.value);
    }
  }

  lemma ItemRead(before: seq<string>, item: Item)
    requires Writable(item)
    ensures ReadAll(before + ItemLines(item)).result ==
            ReadAll(before).result[item.key := if item.One? then Leaf(Str(item.value))
                                               else Branch(EntriesOf(item.entries))]
  {
    hide Read, PlainKey, Quotable, Scalar, ReadAll, TopLine, HeadLine, NestedLines, EntriesOf;
    match item {
      case One(key, value) =>
        ReadAllPlus(before, TopLine(key, value));
        TopLineReads(key, value);
        QuotesHold(value);
      case Many(key, entries) =>
        var head := before + [HeadLine(key)];
        ReadAllPlus(before, HeadLine(key));
        HeadLineReads(key);
        NestedRead(head, key, entries);
        assert before + ItemLines(item) == head + NestedLines(entries);
    }
  }

  /** Every document of plain keys and quotable values, written out line by line, is read back
      as it was meant: every key of every section, the last value of each. */
  lemma {:induction false} DocumentIsReadBack(doc: seq<Item>)
    requires forall i :: 0 <= i < |doc| ==> Writable(doc[i])
    ensures ReadAll(Written(doc)).result == Meant(doc)
  {
    hide Read, Writable, ItemLines, EntriesOf;
    if doc != [] {
      var n := |doc| - 1;
      DocumentIsReadBack(doc[..n]);
      ItemRead(Written(doc[..n]), doc[n]);
    }
  }

  // ----- as text ---------------------------------------------------------------------------------------

  lemma FreePlus(a: string, b: string)
    requires BreakFree(a) && BreakFree(b)
    ensures BreakFree(a + b)
  {
  }

  lemma TopLineFree(key: string, value: string)
    requires PlainKey(key) && Quotable(value)
    ensures BreakFree(TopLine(key, value)) && BreakFree(NestedLine(Pair(key, value))) && BreakFree(HeadLine(key))
  {
    hide BreakFree;
    MarksFree(QuoteFor(value));
    FreePlus([QuoteFor(value)], value);
    FreePlus([QuoteFor(value)] + value, [QuoteFor(value)]);
    FreePlus(key, ": ");
    FreePlus(key + ": ", InQuotes(value));
    FreePlus("  ", TopLine(key, value));
    FreePlus(key, ":");
  }

  lemma MarksFree(q: char)
    requires Quote(q)
    ensures BreakFree([q]) && BreakFree(": ") && BreakFree("  ") && BreakFree(":")
  {
  }

  lemma {:induction false} NestedFree(entries: seq<Pair>)
    requires forall i :: 0 <= i < |entries| ==> PlainKey(entries[i].key) && Quotable(entries[i].value)
    ensures forall l :: l in NestedLines(entries) ==> BreakFree(l)
  {
    hide PlainKey, Quotable, BreakFree, NestedLine;
    if entries != [] {
      var n := |entries| - 1;
      NestedFree(entries[..n]);
      TopLineFree(entries[n].key, entries[n].value);
      assert entries[n] == Pair(entries[n].key, entries[n].value);
    }
  }

  lemma NothingIsQuotable()
    ensures Quotable("")
  {
  }

  lemma {:induction false} WrittenFree(doc: seq<Item>)
    requires forall i :: 0 <= i < |doc| ==> Writable(doc[i])
    ensures forall l :: l in Written(doc) ==> BreakFree(l)
  {
    hide PlainKey, Quotable, BreakFree, TopLine, HeadLine, NestedLines;
    if doc != [] {
      var n := |doc| - 1;
      WrittenFree(doc[..n]);
      var item := doc[n];
      NothingIsQuotable();
      TopLineFree(item.key, if item.One? then item.value else "");
      if item.Many? {
        NestedFree(item.entries);
      }
    }
  }

  /** And so is its text. */
  lemma TextIsReadBack(doc: seq<Item>)
    requires forall i :: 0 <= i < |doc| ==> Writable(doc[i])
    ensures Parse(JoinLines(Written(doc))) == Meant(doc)
  {
    hide Writable, Written, Meant, ReadAll, BreakFree, JoinLines, SplitLines;
    WrittenFree(doc);
    SplitOfJoin(Written(doc));
    DocumentIsReadBack(doc);
  }
}
