/** Renaming keeps references: a file option still names the sample it named. */
module SampleRefs {
  import opened Basics
  import opened Text
  import opened Namespaces
  import opened PackMerge

  lemma {:induction false} TrimLeftKeeps(s: string, j: nat)
    requires j < |s| && !White(s[j])
    ensures j >= |s| - |TrimLeft(s)|
  {
    if White(s[0]) {
      TrimLeftKeeps(s[1..], j - 1);
    }
  }

  lemma {:induction false} TrimRightKeeps(s: string, j: nat)
    requires j < |s| && !White(s[j])
    ensures j < |TrimRight(s)|
  {
    if White(s[|s| - 1]) {
      TrimRightKeeps(s[..|s| - 1], j);
    }
  }

  /** Two hyphens together are still there, together, after trimming. */
  lemma TrimKeepsSeparator(s: string, j: nat) returns (k: nat)
    requires j + 1 < |s| && s[j] == '-' && s[j + 1] == '-'
    ensures k + 1 < |Trim(s)| && Trim(s)[k] == '-' && Trim(s)[k + 1] == '-'
  {
    var left := TrimLeft(s);
    var off := |s| - |left|;
    TrimLeftKeeps(s, j);
    k := j - off;
    assert left[k] == s[j] && left[k + 1] == s[j + 1];
    TrimRightKeeps(left, k + 1);
  }

  lemma SeparatorIsNoInteger(s: string, j: nat)
    requires j + 1 < |s| && s[j] == '-' && s[j + 1] == '-'
    ensures !Integer(s)
  {
    hide Trim;
    var k := TrimKeepsSeparator(s, j);
    var t := Trim(s);
    var body := if t != "" && (t[0] == '+' || t[0] == '-') then t[1..] else t;
    assert body == t || body[k] == t[k + 1];
    assert body == t ==> body[k] == '-';
  }

  lemma {:induction false} FlatPlain(s: string)
    requires '/' !in s
    ensures Flat(s) == s
  {
    if s != "" {
      FlatPlain(s[1..]);
    }
  }

  lemma {:induction false} FlatSeparates(s: string) returns (j: nat)
    requires '/' in s
    ensures j + 1 < |Flat(s)| && Flat(s)[j] == '-' && Flat(s)[j + 1] == '-'
  {
    if s[0] == '/' {
      j := 0;
    } else {
      assert '/' in s[1..];
      var k := FlatSeparates(s[1..]);
      j := k + 1;
    }
  }

  lemma FlatKeepsNonInteger(s: string)
    requires !Integer(s)
    ensures !Integer(Flat(s))
  {
    hide Flat, Integer;
    if '/' in s {
      var j := FlatSeparates(s);
      SeparatorIsNoInteger(Flat(s), j);
    } else {
      FlatPlain(s);
    }
  }

  lemma {:induction false} FlatJoins(a: string, b: string)
    ensures Flat(a + b) == Flat(a) + Flat(b)
  {
    if a == "" {
      assert a + b == b;
    } else {
      assert (a + b)[1..] == a[1..] + b;
      FlatJoins(a[1..], b);
    }
  }

  lemma {:induction false} FlatColon(s: string)
    ensures ':' in Flat(s) <==> ':' in s
  {
    if s != "" {
      FlatColon(s[1..]);
      assert s == [s[0]] + s[1..];
    }
  }

  lemma {:induction false} FlatLast(s: string)
    requires s != "" && !White(s[|s| - 1])
    ensures Flat(s) != "" && !White(Flat(s)[|Flat(s)| - 1])
  {
    if |s| > 1 {
      FlatLast(s[1..]);
    }
  }

  lemma {:induction false} LastColonIs(s: string, k: nat)
    requires k < |s| && s[k] == ':' && forall j :: k < j < |s| ==> s[j] != ':'
    ensures LastColon(s) == Some(k)
  {
    if k < |s| - 1 {
      LastColonIs(s[..|s| - 1], k);
    }
  }

  lemma NoColon(s: string)
    requires ':' !in s
    ensures LastColon(s) == None
  {
    hide LastColon;
  }

  lemma NoColonInPlain(ns: string)
    requires Plain(ns)
    ensures ':' !in ns
  {
    assert forall i :: 0 <= i < |ns| ==> ns[i] != ':';
  }

  /** What comes before the path in a reference. */
  predicate Head(s: string) { s == "" || s == "./" || s == "samples/" || s == "./samples/" }

  lemma ReferenceParts(raw: string, samples: set<string>) returns (head: string)
    requires Referenced(raw, samples).Some?
    ensures Head(head) && raw == head + Referenced(raw, samples).value + SplitColumn(raw).1
  {
    hide SplitColumn;
    SplitJoins(raw);
    var path := SplitColumn(raw).0;
    var dotted := "./" <= path;
    var norm := if dotted then path[2..] else path;
    PrefixJoins("./", path);
    PrefixJoins("samples/", norm);
    if "samples/" <= norm {
      head := if dotted then "./samples/" else "samples/";
      assert "./" + "samples/" == "./samples/";
      Reassociate("./", "samples/", norm[8..]);
    } else {
      head := if dotted then "./" else "";
    }
    assert path == head + Referenced(raw, samples).value;
  }

  lemma SplitJoins(raw: string)
    ensures raw == SplitColumn(raw).0 + SplitColumn(raw).1
  {
    hide LastColon, Integer;
  }

  lemma PrefixJoins(p: string, s: string)
    ensures p <= s ==> s == p + s[|p|..]
  {
  }

  lemma Reassociate(a: string, b: string, c: string)
    ensures a + (b + c) == a + b + c
  {
  }

  lemma HeadHasNoColon(head: string, path: string, i: nat)
    requires Head(head) && i < |head + path| && (head + path)[i] == ':'
    ensures i >= |head|
  {
  }

  /** The last colon of a path is the last one of its renamed form. */
  lemma RenamedColon(path: string, k: nat, prefix: string)
    requires k < |path| && path[k] == ':' && forall j :: k < j < |path| ==> path[j] != ':'
    ensures var out := prefix + Flat(path);
            exists at :: 0 <= at < |out| && LastColon(out) == Some(at) && out[at + 1..] == Flat(path[k + 1..])
  {
    hide Flat, LastColon;
    var front, tail := path[..k], path[k + 1..];
    var out := prefix + Flat(path);
    assert path == front + ":" + tail;
    FlatJoins(front + ":", tail);
    FlatJoins(front, ":");
    FlatPlain(":");
    FlatColon(tail);
    var at := |prefix| + |Flat(front)|;
    assert out == prefix + Flat(front) + ":" + Flat(tail);
    assert out[at + 1..] == Flat(tail);
    forall j | at < j < |out| ensures out[j] != ':' {
      assert out[j] == Flat(tail)[j - at - 1];
    }
    LastColonIs(out, at);
  }

  /** A path with no column after it gets none by being renamed. */
  lemma NoColumnArises(head: string, path: string, prefix: string)
    requires Head(head) && ':' !in prefix && SplitColumn(head + path).1 == ""
    ensures SplitColumn(prefix + Flat(path)) == (prefix + Flat(path), "")
  {
    hide Flat, Integer, LastColon, Head;
    var raw, out := head + path, prefix + Flat(path);
    var i := LastColon(raw);
    if i.None? {
      assert ':' !in path;
      FlatColon(path);
      assert ':' !in out;
      NoColon(out);
    } else {
      HeadHasNoColon(head, path, i.value);
      var k := i.value - |head|;
      assert path[k] == raw[i.value] && forall j :: k < j < |path| ==> path[j] == raw[|head| + j];
      assert path[k + 1..] == raw[i.value + 1..];
      RenamedColon(path, k, prefix);
      FlatKeepsNonInteger(path[k + 1..]);
    }
  }

  /** A column stays the column. */
  lemma ColumnStays(raw: string, prefix: string)
    requires SplitColumn(raw).1 != ""
    ensures SplitColumn(prefix + SplitColumn(raw).1) == (prefix, SplitColumn(raw).1)
  {
    hide Integer, LastColon;
    var i := LastColon(raw).value;
    var column := raw[i..];
    var out := prefix + column;
    assert out[|prefix|] == ':' && forall j :: |prefix| < j < |out| ==> out[j] == raw[i + j - |prefix|];
    LastColonIs(out, |prefix|);
    assert out[|prefix| + 1..] == raw[i + 1..];
    assert out[..|prefix|] == prefix && out[|prefix|..] == column;
  }

  lemma RenamedIsTrimmed(head: string, path: string, column: string, ns: string)
    requires Head(head) && Trimmed(head + path + column) && Plain(ns)
    ensures Trimmed("samples/" + MergedName(ns, path) + column)
  {
    hide Flat;
    var raw, out := head + path + column, "samples/" + MergedName(ns, path) + column;
    assert out[0] == 's';
    if column != "" {
      assert out[|out| - 1] == column[|column| - 1] == raw[|raw| - 1];
    } else if path != "" {
      assert path[|path| - 1] == raw[|raw| - 1];
      FlatLast(path);
      assert out[|out| - 1] == Flat(path)[|Flat(path)| - 1];
    } else {
      assert Flat(path) == "" by { FlatPlain(path); }
      assert out[|out| - 1] == '-';
    }
  }

  lemma SplitAfterRename(raw: string, samples: set<string>, ns: string)
    requires Referenced(raw, samples).Some? && Plain(ns) && Trimmed(raw)
    ensures var merged := "samples/" + MergedName(ns, Referenced(raw, samples).value);
            var column := SplitColumn(raw).1;
            Trimmed(merged + column) && SplitColumn(merged + column) == (merged, column)
  {
    hide Flat, SplitColumn, Referenced, Plain, Trimmed, Head;
    var path, column := Referenced(raw, samples).value, SplitColumn(raw).1;
    var head := ReferenceParts(raw, samples);
    RenamedIsTrimmed(head, path, column, ns);
    var merged := "samples/" + MergedName(ns, path);
    if column == "" {
      assert raw == head + path && merged + column == merged;
      NoColonInPlain(ns);
      var prefix := "samples/" + ns + SEP;
      assert merged == prefix + Flat(path);
      NoColumnArises(head, path, prefix);
    } else {
      ColumnStays(raw, merged);
    }
  }

  /** A reference to one of a pack's samples, rewritten, resolves among the merged files to
      that sample's copy, column and all. */
  lemma RewrittenFollowsItsSample(value: string, samples: set<string>, ns: string, files: map<string, Source>)
    requires Plain(ns) && Trim(value) != "" && Referenced(Trim(value), samples).Some?
    requires var path := Referenced(Trim(value), samples).value;
             MergedName(ns, path) in files && files[MergedName(ns, path)] == Source(ns, path)
    ensures var path := Referenced(Trim(value), samples).value;
            var out := Trim(Rewritten(value, samples, ns));
            && Referenced(out, files.Keys) == Some(MergedName(ns, path))
            && SplitColumn(out).1 == SplitColumn(Trim(value)).1
            && files[MergedName(ns, path)] == Source(ns, path)
  {
    hide Flat, SplitColumn, Plain, Trim, Trimmed, MergedName;
    TrimIsTrimmed(value);
    var raw := Trim(value);
    SplitAfterRename(raw, samples, ns);
    var merged := "samples/" + MergedName(ns, Referenced(raw, samples).value);
    var out := merged + SplitColumn(raw).1;
    TrimmedStays(out);
    assert merged[0] == 's' && merged[8..] == MergedName(ns, Referenced(raw, samples).value);
    assert "samples/" <= merged;
  }

  // ----- every way to name a sample ------------------------------------------------------------------

  /** No column, or an integer after a colon. */
  predicate Column(column: string) {
    column == "" || (column[0] == ':' && Integer(column[1..]) && ':' !in column[1..])
  }

  lemma ColumnSplits(path: string, column: string)
    requires Column(column) && (column == "" ==> ':' !in path)
    ensures SplitColumn(path + column) == (path, column)
  {
    hide Integer, LastColon;
    var raw := path + column;
    if column == "" {
      assert raw == path;
    } else {
      assert raw[|path|] == ':' && forall j :: |path| < j < |raw| ==> raw[j] == column[1..][j - |path| - 1];
      LastColonIs(raw, |path|);
      assert raw[|path| + 1..] == column[1..] && raw[..|path|] == path && raw[|path|..] == column;
    }
  }

  /** A sample is found by its path under samples/, with or without a leading "./", and by its
      bare name when it lies at the top; a column changes nothing. */
  lemma EverySpellingIsFound(head: string, path: string, column: string, samples: set<string>)
    requires Head(head) && path in samples && Column(column) && (column == "" ==> ':' !in path)
    requires head == "" || head == "./" ==> '/' !in path
    ensures Referenced(head + path + column, samples) == Some(path)
  {
    hide SplitColumn, Column;
    NoColonInHead(head, path);
    ColumnSplits(head + path, column);
    var full := head + path;
    if head == "./samples/" {
      assert full[..2] == "./" && full[2..] == "samples/" + path;
      assert ("samples/" + path)[8..] == path;
    } else if head == "samples/" {
      assert full[0] == 's' && full[..8] == "samples/" && full[8..] == path;
    } else if head == "./" {
      assert full[..2] == "./" && full[2..] == path;
      NoSlash(path);
    } else {
      assert full == path;
      NoSlash(path);
    }
  }

  lemma NoSlash(path: string)
    requires '/' !in path
    ensures !("./" <= path) && !("samples/" <= path)
  {
    assert |path| > 1 ==> path[1] != '/';
    assert |path| > 7 ==> path[7] != '/';
  }

  lemma NoColonInHead(head: string, path: string)
    requires Head(head)
    ensures ':' !in path ==> ':' !in head + path
  {
  }
}
