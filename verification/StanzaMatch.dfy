/** Which sample files a stanza takes: its name is a regular expression, and a file is its
    own when the match found first covers the whole file name and the expression is found
    in the whole path as well. */
module StanzaMatch {
  import opened Basics
  import opened Text
  import opened Namespaces
  import opened PackMerge

  // ----- expressions --------------------------------------------------------------------------

  /** `Never` matches nothing, not even the empty text; no name compiles to it. */
  datatype Rx =
    | Never
    | Empty
    | Char(c: char)
    | Any
    | Kind(k: char)
    | Start
    | End
    | Seq(a: Rx, b: Rx)
    | Alt(a: Rx, b: Rx)
    | Opt(x: Rx)
    | Star(x: Rx)

  predicate Quantifier(c: char) { c == '*' || c == '+' || c == '?' }

  /** What was read, and the text left over. */
  datatype Parsed = NoParse | Parsed(rx: Rx, rest: string)

  function ParseAtom(t: string): (r: Parsed)
    requires t != "" && t[0] != '|' && t[0] != ')'
    ensures r.Parsed? ==> |r.rest| < |t|
    decreases |t|, 0
  {
    var c := t[0];
    if c == '(' then
      var inner := ParseAlt(t[1..]);
      if inner.Parsed? && inner.rest != "" && inner.rest[0] == ')' then Parsed(inner.rx, inner.rest[1..]) else NoParse
    else if c == '\\' then
      if |t| < 2 then NoParse
      else if t[1] == 'd' || t[1] == 'w' || t[1] == 's' then Parsed(Kind(t[1]), t[2..])
      else if Word(t[1]) then NoParse
      else Parsed(Char(t[1]), t[2..])
    else if Quantifier(c) || c == '[' || c == '{' then NoParse
    else Parsed(if c == '.' then Any else if c == '^' then Start else if c == '$' then End else Char(c), t[1..])
  }

  function Repeated(x: Rx, q: char): Rx {
    if q == '*' then Star(x) else if q == '+' then Seq(x, Star(x)) else Opt(x)
  }

  function ParseItem(t: string): (r: Parsed)
    requires t != "" && t[0] != '|' && t[0] != ')'
    ensures r.Parsed? ==> |r.rest| < |t|
    decreases |t|, 1
  {
    var atom := ParseAtom(t);
    if atom.NoParse? || atom.rest == "" || !Quantifier(atom.rest[0]) then atom
    else if atom.rx.Start? || atom.rx.End? || (|atom.rest| > 1 && Quantifier(atom.rest[1])) then NoParse
    else Parsed(Repeated(atom.rx, atom.rest[0]), atom.rest[1..])
  }

  function ParseBranch(t: string): (r: Parsed)
    ensures r.Parsed? ==> |r.rest| <= |t|
    ensures r.Parsed? ==> r.rx.Empty? || r.rx.Seq?
    decreases |t|, 2
  {
    if t == "" || t[0] == '|' || t[0] == ')' then Parsed(Empty, t)
    else
      var item := ParseItem(t);
      if item.NoParse? then NoParse
      else
        var more := ParseBranch(item.rest);
        if more.NoParse? then NoParse else Parsed(Seq(item.rx, more.rx), more.rest)
  }

  function ParseAlt(t: string): (r: Parsed)
    ensures r.Parsed? ==> |r.rest| <= |t|
    decreases |t|, 3
  {
    var branch := ParseBranch(t);
    if branch.NoParse? || branch.rest == "" || branch.rest[0] != '|' then branch
    else
      var more := ParseAlt(branch.rest[1..]);
      if more.NoParse? then NoParse else Parsed(Alt(branch.rx, more.rx), more.rest)
  }

  /** None for a name that does not compile. */
  function Compile(name: string): Option<Rx> {
    var r := ParseAlt(name);
    if r.Parsed? && r.rest == "" then Some(r.rx) else None
  }

  // ----- matching -------------------------------------------------------------------------------

  predicate InKind(c: char, k: char) {
    if k == 'd' then Digit(c) else if k == 'w' then Word(c) else c == ' ' || '\t' <= c <= '\r'
  }

  predicate AtEnd(s: string, i: nat)
    requires i <= |s|
  {
    i == |s| || (i == |s| - 1 && s[i] == '\n')
  }

  function One(yes: bool, i: nat): seq<nat> { if yes then [i] else [] }

  predicate Between(ends: seq<nat>, lo: nat, hi: nat) { forall k :: 0 <= k < |ends| ==> lo <= ends[k] <= hi }

  /** Where a match from i can end, in the order the matcher tries. */
  function Ends(r: Rx, s: string, i: nat): (ends: seq<nat>)
    requires i <= |s|
    ensures Between(ends, i, |s|)
    decreases r, |s| - i, 1, 0
  {
    match r
    case Never => []
    case Empty => [i]
    case Char(c) => One(i < |s| && s[i] == c, i + 1)
    case Any => One(i < |s| && s[i] != '\n', i + 1)
    case Kind(k) => One(i < |s| && InKind(s[i], k), i + 1)
    case Start => One(i == 0, i)
    case End => One(AtEnd(s, i), i)
    case Seq(a, b) => Through(b, Ends(a, s, i), s, i)
    case Alt(a, b) => Ends(a, s, i) + Ends(b, s, i)
    case Opt(x) => Ends(x, s, i) + [i]
    case Star(x) => Again(r, Ends(x, s, i), s, i) + [i]
  }

  /** On from each of those ends in turn. */
  function Through(r: Rx, from: seq<nat>, s: string, i: nat): (ends: seq<nat>)
    requires i <= |s| && Between(from, i, |s|)
    ensures Between(ends, i, |s|)
    decreases r, |s| + 1, 0, |from|
  {
    if from == [] then [] else Ends(r, s, from[0]) + Through(r, from[1..], s, i)
  }

  /** Once more round from each end that got further. */
  function Again(r: Rx, from: seq<nat>, s: string, i: nat): (ends: seq<nat>)
    requires i <= |s| && Between(from, i, |s|)
    ensures Between(ends, i, |s|)
    decreases r, |s| - i, 0, |from|
  {
    if from == [] then []
    else (if from[0] > i then Ends(r, s, from[0]) else []) + Again(r, from[1..], s, i)
  }

  /** The file is the stanza's: the match found first covers the whole name. */
  predicate Takes(r: Rx, file: string) {
    var ends := Ends(r, file, 0);
    ends != [] && ends[0] == |file|
  }

  // One step of the matcher at a time.

  lemma {:induction false} AtomEnds(s: string, i: nat, c: char)
    requires i <= |s|
    ensures Ends(Never, s, i) == [] && Ends(Empty, s, i) == [i] && Ends(Start, s, i) == One(i == 0, i)
    ensures Ends(Char(c), s, i) == One(i < |s| && s[i] == c, i + 1)
    ensures Ends(Any, s, i) == One(i < |s| && s[i] != '\n', i + 1)
  {
  }

  lemma {:induction false} SeqEnds(a: Rx, b: Rx, s: string, i: nat)
    requires i <= |s|
    ensures Ends(Seq(a, b), s, i) == Through(b, Ends(a, s, i), s, i)
  {
  }

  lemma {:induction false} AltEnds(a: Rx, b: Rx, s: string, i: nat)
    requires i <= |s|
    ensures Ends(Alt(a, b), s, i) == Ends(a, s, i) + Ends(b, s, i)
  {
  }

  lemma {:induction false} OptEnds(x: Rx, s: string, i: nat)
    requires i <= |s|
    ensures Ends(Opt(x), s, i) == Ends(x, s, i) + [i]
  {
  }

  lemma {:induction false} StarEnds(x: Rx, s: string, i: nat)
    requires i <= |s|
    ensures Ends(Star(x), s, i) == Again(Star(x), Ends(x, s, i), s, i) + [i]
  {
  }

  lemma {:induction false} ThroughOne(r: Rx, s: string, i: nat, e: nat)
    requires i <= e <= |s|
    ensures Through(r, [e], s, i) == Ends(r, s, e) && Through(r, [], s, i) == []
  {
    hide Ends;
  }

  // ----- a prefix on the text ----------------------------------------------------------------------

  function Lits(p: string, r: Rx): Rx { if p == "" then r else Seq(Char(p[0]), Lits(p[1..], r)) }

  /** A prefix goes on the first alternative only. */
  function Prefixing(p: string, r: Rx): Rx { if r.Alt? then Alt(Lits(p, r.a), r.b) else Lits(p, r) }

  predicate Literal(c: char) { Word(c) || c == '-' }

  lemma OneLiteral(c: char, t: string)
    requires Literal(c) && (t == "" || !Quantifier(t[0]))
    ensures var more := ParseBranch(t);
            ParseBranch([c] + t) == if more.NoParse? then NoParse else Parsed(Seq(Char(c), more.rx), more.rest)
  {
    var u := [c] + t;
    assert u[0] == c && u[1..] == t;
    assert ParseAtom(u) == Parsed(Char(c), t);
    assert ParseItem(u) == Parsed(Char(c), t);
  }

  lemma {:induction false} LiteralsParse(p: string, t: string)
    requires forall i :: 0 <= i < |p| ==> Literal(p[i])
    requires ParseBranch(t).Parsed?
    ensures ParseBranch(p + t) == Parsed(Lits(p, ParseBranch(t).rx), ParseBranch(t).rest)
  {
    hide ParseBranch;
    if p == "" {
      assert p + t == t;
    } else {
      var rest := p[1..] + t;
      assert p + t == [p[0]] + rest;
      LiteralsParse(p[1..], t);
      if t != "" && Quantifier(t[0]) {
        NothingToRepeat(t);
      }
      assert Literal(p[0]) && (rest == "" || !Quantifier(rest[0]));
      OneLiteral(p[0], rest);
    }
  }

  lemma NothingToRepeat(t: string)
    requires t != "" && Quantifier(t[0])
    ensures ParseBranch(t).NoParse?
  {
    assert ParseAtom(t).NoParse?;
  }

  lemma PrefixCompiles(p: string, name: string)
    requires (forall i :: 0 <= i < |p| ==> Literal(p[i])) && Compile(name).Some?
    ensures Compile(p + name) == Some(Prefixing(p, Compile(name).value))
  {
    hide ParseBranch, Lits;
    LiteralsParse(p, name);
    LitsIsSeq(p, ParseBranch(name).rx);
  }

  lemma LitsIsSeq(p: string, r: Rx)
    requires r.Empty? || r.Seq?
    ensures Lits(p, r).Empty? || Lits(p, r).Seq?
  {
  }

  lemma {:induction false} LitsEnd(p: string, r: Rx, s: string, i: nat)
    requires i <= |s|
    ensures Ends(Lits(p, r), s, i) == if p <= s[i..] then Ends(r, s, i + |p|) else []
  {
    hide Ends;
    if p != "" {
      CharThen(p[0], Lits(p[1..], r), s, i);
      if i < |s| {
        LitsEnd(p[1..], r, s, i + 1);
        PrefixSplits(p, s, i);
      }
    }
  }

  lemma {:induction false} CharThen(c: char, r: Rx, s: string, i: nat)
    requires i <= |s|
    ensures Ends(Seq(Char(c), r), s, i) == if i < |s| && s[i] == c then Ends(r, s, i + 1) else []
  {
    hide Ends, Through;
    SeqEnds(Char(c), r, s, i);
    AtomEnds(s, i, c);
    if i < |s| && s[i] == c {
      ThroughOne(r, s, i, i + 1);
    } else {
      ThroughOne(r, s, i, i);
    }
  }

  lemma PrefixSplits(p: string, s: string, i: nat)
    requires p != "" && i < |s|
    ensures p <= s[i..] <==> p[0] == s[i] && p[1..] <= s[i + 1..]
  {
    assert s[i..] == [s[i]] + s[i + 1..] && p == [p[0]] + p[1..];
  }

  // ----- moving a match along -----------------------------------------------------------------------

  /** The expression anywhere but at the start of a text: its carets never match. */
  function Cut(r: Rx): Rx {
    match r
    case Start => Never
    case Seq(a, b) => Seq(Cut(a), Cut(b))
    case Alt(a, b) => Alt(Cut(a), Cut(b))
    case Opt(x) => Opt(Cut(x))
    case Star(x) => Star(Cut(x))
    case _ => r
  }

  predicate Unanchored(r: Rx) {
    match r
    case Start => false
    case Seq(a, b) => Unanchored(a) && Unanchored(b)
    case Alt(a, b) => Unanchored(a) && Unanchored(b)
    case Opt(x) => Unanchored(x)
    case Star(x) => Unanchored(x)
    case _ => true
  }

  lemma {:induction false} CutUnanchored(r: Rx)
    requires Unanchored(r)
    ensures Cut(r) == r
  {
    match r {
      case Seq(a, b) =>
        CutUnanchored(a);
        CutUnanchored(b);
      case Alt(a, b) =>
        CutUnanchored(a);
        CutUnanchored(b);
      case Opt(x) => CutUnanchored(x);
      case Star(x) => CutUnanchored(x);
      case _ =>
    }
  }

  function Moved(ends: seq<nat>, d: nat): (r: seq<nat>)
    ensures |r| == |ends| && forall k :: 0 <= k < |ends| ==> r[k] == ends[k] + d
  {
    seq(|ends|, k requires 0 <= k < |ends| => ends[k] + d)
  }

  lemma MovedPlus(a: seq<nat>, b: seq<nat>, d: nat)
    ensures Moved(a + b, d) == Moved(a, d) + Moved(b, d)
  {
  }

  predicate Atomic(r: Rx) { !r.Seq? && !r.Alt? && !r.Opt? && !r.Star? }

  lemma {:induction false} AtomMoves(r: Rx, p: string, s: string, i: nat)
    requires Atomic(r) && p != "" && i <= |s|
    ensures Ends(r, p + s, |p| + i) == Moved(Ends(Cut(r), s, i), |p|)
  {
    assert i < |s| ==> (p + s)[|p| + i] == s[i];
  }

  /** What stands before matters to the carets alone. */
  lemma {:induction false} EndsMove(r: Rx, p: string, s: string, i: nat)
    requires p != "" && i <= |s|
    ensures Ends(r, p + s, |p| + i) == Moved(Ends(Cut(r), s, i), |p|)
    decreases r, |s| - i, 1, 0
  {
    hide Ends, Through, Again;
    var t, d := p + s, |p|;
    match r {
      case Seq(a, b) =>
        EndsMove(a, p, s, i);
        ThroughMoves(b, Ends(Cut(a), s, i), p, s, i);
        SeqEnds(a, b, t, d + i);
        SeqEnds(Cut(a), Cut(b), s, i);
      case Alt(a, b) =>
        EndsMove(a, p, s, i);
        EndsMove(b, p, s, i);
        MovedPlus(Ends(Cut(a), s, i), Ends(Cut(b), s, i), d);
        AltEnds(a, b, t, d + i);
        AltEnds(Cut(a), Cut(b), s, i);
      case Opt(x) =>
        EndsMove(x, p, s, i);
        MovedPlus(Ends(Cut(x), s, i), [i], d);
        OptEnds(x, t, d + i);
        OptEnds(Cut(x), s, i);
      case Star(x) =>
        EndsMove(x, p, s, i);
        AgainMoves(r, Ends(Cut(x), s, i), p, s, i);
        MovedPlus(Again(Cut(r), Ends(Cut(x), s, i), s, i), [i], d);
        StarEnds(x, t, d + i);
        StarEnds(Cut(x), s, i);
      case _ =>
        AtomMoves(r, p, s, i);
    }
  }

  lemma {:induction false} ThroughMoves(r: Rx, from: seq<nat>, p: string, s: string, i: nat)
    requires p != "" && i <= |s| && Between(from, i, |s|)
    ensures Through(r, Moved(from, |p|), p + s, |p| + i) == Moved(Through(Cut(r), from, s, i), |p|)
    decreases r, |s| + 1, 0, |from|
  {
    hide Ends, Cut;
    if from != [] {
      EndsMove(r, p, s, from[0]);
      ThroughMoves(r, from[1..], p, s, i);
      assert Moved(from, |p|)[1..] == Moved(from[1..], |p|);
      MovedPlus(Ends(Cut(r), s, from[0]), Through(Cut(r), from[1..], s, i), |p|);
    }
  }

  lemma {:induction false} AgainMoves(r: Rx, from: seq<nat>, p: string, s: string, i: nat)
    requires p != "" && i <= |s| && Between(from, i, |s|)
    ensures Again(r, Moved(from, |p|), p + s, |p| + i) == Moved(Again(Cut(r), from, s, i), |p|)
    decreases r, |s| - i, 0, |from|
  {
    hide Ends, Cut;
    if from != [] {
      if from[0] > i {
        EndsMove(r, p, s, from[0]);
      }
      AgainMoves(r, from[1..], p, s, i);
      assert Moved(from, |p|)[1..] == Moved(from[1..], |p|);
      MovedPlus(if from[0] > i then Ends(Cut(r), s, from[0]) else [], Again(Cut(r), from[1..], s, i), |p|);
    }
  }

  // ----- what a prefixed stanza takes -----------------------------------------------------------------

  function First(r: Rx): Rx { if r.Alt? then r.a else r }

  lemma PrefixedEnds(p: string, r: Rx, file: string)
    requires p != ""
    ensures Ends(Lits(p, r), file, 0) == if p <= file then Moved(Ends(Cut(r), file[|p|..], 0), |p|) else []
  {
    hide Ends, Lits;
    LitsEnd(p, r, file, 0);
    assert file[0..] == file;
    if p <= file {
      EndsMove(r, p, file[|p|..], 0);
      assert p + file[|p|..] == file;
    }
  }

  lemma AltTakes(a: Rx, b: Rx, file: string)
    ensures Takes(Alt(a, b), file) <==> if Ends(a, file, 0) != [] then Takes(a, file) else Takes(b, file)
  {
    hide Ends;
    AltEnds(a, b, file, 0);
  }

  /** The first alternative, carets cut, has the say on the prefixed names it matches; on all
      other names the later alternatives have it, as they did without the prefix. */
  predicate TakenPrefixed(p: string, r: Rx, file: string) {
    if p <= file && Ends(Cut(First(r)), file[|p|..], 0) != [] then Takes(Cut(First(r)), file[|p|..])
    else r.Alt? && Takes(r.b, file)
  }

  lemma PrefixedTakes(p: string, r: Rx, file: string)
    requires p != ""
    ensures Takes(Prefixing(p, r), file) <==> TakenPrefixed(p, r, file)
  {
    hide Lits, Moved, Cut, Ends;
    PrefixedEnds(p, First(r), file);
    if r.Alt? {
      AltTakes(Lits(p, r.a), r.b, file);
    }
  }

  lemma PrefixIsLiteral(ns: string)
    requires Plain(ns)
    ensures forall i :: 0 <= i < |ns + SEP| ==> Literal((ns + SEP)[i])
  {
  }

  /** For every namespace, every stanza name that compiles and every file: the prefixed name
      compiles too, and this is exactly when it takes the file. */
  lemma PrefixedStanzaTakes(ns: string, name: string, file: string)
    requires Plain(ns) && Compile(name).Some?
    ensures Compile(Prefixed(ns, name)) == Some(Prefixing(ns + SEP, Compile(name).value))
    ensures Takes(Compile(Prefixed(ns, name)).value, file) <==> TakenPrefixed(ns + SEP, Compile(name).value, file)
  {
    hide Compile, Prefixing, Plain, Takes, TakenPrefixed;
    PrefixIsLiteral(ns);
    PrefixCompiles(ns + SEP, name);
    PrefixedTakes(ns + SEP, Compile(name).value, file);
  }

  /** So with one alternative and no caret it takes exactly its own pack's copies of the files
      the name took. */
  lemma PrefixKeepsMatching(ns: string, name: string, file: string)
    requires Plain(ns) && Compile(name).Some?
    requires !Compile(name).value.Alt? && Unanchored(Compile(name).value)
    ensures Compile(Prefixed(ns, name)).Some?
    ensures Takes(Compile(Prefixed(ns, name)).value, file) <==>
            ns + SEP <= file && Takes(Compile(name).value, file[|ns + SEP|..])
  {
    hide Compile, Plain, Ends, Unanchored;
    PrefixedStanzaTakes(ns, name, file);
    CutUnanchored(Compile(name).value);
  }

  // ----- what the engine uses -------------------------------------------------------------------------

  /** The engine looks for the expression once more, anywhere in the file's whole path. */
  predicate Found(r: Rx, s: string) { exists i :: 0 <= i <= |s| && Ends(r, s, i) != [] }

  function InDir(dir: string, file: string): string { dir + "/" + file }

  predicate Uses(r: Rx, dir: string, file: string) { Takes(r, file) && Found(r, InDir(dir, file)) }

  lemma FoundEither(a: Rx, b: Rx, s: string)
    ensures Found(Alt(a, b), s) <==> Found(a, s) || Found(b, s)
  {
    hide Ends;
    forall i | 0 <= i <= |s| ensures Ends(Alt(a, b), s, i) != [] <==> Ends(a, s, i) != [] || Ends(b, s, i) != [] {
      AltEnds(a, b, s, i);
    }
  }

  /** A match that needs no caret is found again in the path. */
  lemma FoundAgain(r: Rx, dir: string, file: string)
    requires Ends(Cut(r), file, 0) != []
    ensures Found(r, InDir(dir, file))
  {
    hide Ends, Cut;
    var d := dir + "/";
    EndsMove(r, d, file, 0);
    assert InDir(dir, file) == d + file;
    assert Ends(r, InDir(dir, file), |d|) != [];
  }

  lemma PrefixedFoundAgain(p: string, r: Rx, dir: string, file: string)
    requires p != "" && p <= file && Ends(Cut(r), file[|p|..], 0) != []
    ensures Found(Lits(p, r), InDir(dir, file))
  {
    hide Ends, Cut, Lits;
    var d, f := dir + "/", file[|p|..];
    var path := InDir(dir, file);
    assert path == d + file && path[|d|..] == file && path == (d + p) + f;
    LitsEnd(p, r, path, |d|);
    EndsMove(r, d + p, f, 0);
    assert Ends(Lits(p, r), path, |d|) != [];
  }

  /** The second test can fail only for the later alternatives of a name. */
  predicate UsedPrefixed(p: string, r: Rx, dir: string, file: string) {
    if p <= file && Ends(Cut(First(r)), file[|p|..], 0) != [] then Takes(Cut(First(r)), file[|p|..])
    else
      && r.Alt? && Takes(r.b, file)
      && (Found(Lits(p, r.a), InDir(dir, file)) || Found(r.b, InDir(dir, file)))
  }

  lemma PrefixedUses(p: string, r: Rx, dir: string, file: string)
    requires p != ""
    ensures Uses(Prefixing(p, r), dir, file) <==> UsedPrefixed(p, r, dir, file)
  {
    hide Ends, Cut, Lits, Takes, Found;
    PrefixedTakes(p, r, file);
    if p <= file && Ends(Cut(First(r)), file[|p|..], 0) != [] {
      PrefixedFoundAgain(p, First(r), dir, file);
    }
    if r.Alt? {
      FoundEither(Lits(p, r.a), r.b, InDir(dir, file));
    }
  }

  /** Without carets the second test always succeeds. */
  lemma UnanchoredUses(r: Rx, dir: string, file: string)
    requires Unanchored(r)
    ensures Uses(r, dir, file) <==> Takes(r, file)
  {
    hide Ends, Unanchored, Found;
    CutUnanchored(r);
    if Takes(r, file) {
      FoundAgain(r, dir, file);
    }
  }

  // ----- in the bundle --------------------------------------------------------------------------------

  lemma OnlyItsOwn(ns: string, other: string, x: string)
    requires Plain(ns) && Plain(other)
    ensures ns + SEP <= Prefixed(other, x) <==> ns == other
    ensures ns == other ==> Prefixed(other, x)[|ns + SEP|..] == x
  {
    hide Plain;
    var file := Prefixed(other, x);
    if ns + SEP <= file {
      assert file == Prefixed(ns, file[|ns + SEP|..]);
      PrefixIsInjective(ns, file[|ns + SEP|..], other, x);
    }
  }

  /** The engine lists one directory: a file below it is not looked at. */
  predicate UsesListed(r: Rx, dir: string, path: string) { '/' !in path && Uses(r, dir, path) }

  /** When the merged stanza of a pack uses the merged sample of a pack. */
  predicate UsesMerged(ns: string, r: Rx, dir: string, other: string, path: string) {
    if ns == other && Ends(Cut(First(r)), Flat(path), 0) != [] then Takes(Cut(First(r)), Flat(path))
    else
      && r.Alt? && Takes(r.b, MergedName(other, path))
      && (Found(Lits(ns + SEP, r.a), InDir(dir, MergedName(other, path))) ||
          Found(r.b, InDir(dir, MergedName(other, path))))
  }

  /** For every stanza name that compiles and every pair of packs: exactly this. */
  lemma MergedStanzaUses(ns: string, name: string, dir: string, other: string, path: string)
    requires Plain(ns) && Plain(other) && Compile(name).Some?
    ensures Compile(Prefixed(ns, name)).Some?
    ensures Uses(Compile(Prefixed(ns, name)).value, dir, MergedName(other, path)) <==>
            UsesMerged(ns, Compile(name).value, dir, other, path)
  {
    hide Compile, Plain, Takes, Flat, Cut, Ends, Found, Lits, Uses;
    PrefixIsLiteral(ns);
    PrefixCompiles(ns + SEP, name);
    PrefixedUses(ns + SEP, Compile(name).value, dir, MergedName(other, path));
    OnlyItsOwn(ns, other, Flat(path));
  }

  /** A stanza's own samples are used as before, and no other pack's is used. */
  ghost predicate KeepsMatching(ns: string, name: string, dir: string, samples: set<string>,
                                others: set<(string, string)>)
    requires Compile(name).Some? && Compile(Prefixed(ns, name)).Some?
  {
    var r, merged := Compile(name).value, Compile(Prefixed(ns, name)).value;
    && (forall path :: path in samples ==> (Uses(merged, dir, MergedName(ns, path)) <==> UsesListed(r, dir, path)))
    && (forall o :: o in others ==> !Uses(merged, dir, MergedName(o.0, o.1)))
  }

  /** For every stanza name that compiles, whatever its pack's samples and the other packs':
      merging keeps its matching exactly when the later alternatives use no other pack's
      sample, the stanza uses no sample of a subdirectory under its flattened name, and it
      uses every other sample under its new name just when it did under the old. */
  lemma MatchingIsKeptIff(ns: string, name: string, dir: string, samples: set<string>, others: set<(string, string)>)
    requires Plain(ns) && Compile(name).Some?
    requires forall o :: o in others ==> Plain(o.0) && o.0 != ns
    ensures Compile(Prefixed(ns, name)).Some?
    ensures var r := Compile(name).value;
            KeepsMatching(ns, name, dir, samples, others) <==>
              && (r.Alt? ==> forall o :: o in others && Takes(r.b, MergedName(o.0, o.1)) ==>
                    !Found(Lits(ns + SEP, r.a), InDir(dir, MergedName(o.0, o.1))) &&
                    !Found(r.b, InDir(dir, MergedName(o.0, o.1))))
              && (forall path :: path in samples && '/' in path ==> !UsesMerged(ns, r, dir, ns, path))
              && (forall path :: path in samples && '/' !in path ==>
                    (UsesMerged(ns, r, dir, ns, path) <==> Uses(r, dir, path)))
  {
    hide Compile, Plain, Takes, Flat, Cut, Ends, Found, Lits, Uses, MergedName;
    PrefixIsLiteral(ns);
    PrefixCompiles(ns + SEP, name);
    var r, merged := Compile(name).value, Compile(Prefixed(ns, name)).value;
    forall path | path in samples
      ensures Uses(merged, dir, MergedName(ns, path)) <==> UsesMerged(ns, r, dir, ns, path)
    {
      MergedStanzaUses(ns, name, dir, ns, path);
    }
    forall o | o in others
      ensures Uses(merged, dir, MergedName(o.0, o.1)) <==> UsesMerged(ns, r, dir, o.0, o.1)
    {
      MergedStanzaUses(ns, name, dir, o.0, o.1);
    }
  }

  lemma {:induction false} FlatIsSame(path: string)
    requires '/' !in path
    ensures Flat(path) == path
  {
    if path != "" {
      assert path[0] != '/';
      FlatIsSame(path[1..]);
    }
  }

  /** With one alternative and no caret, exactly when it matches the flattened name of no
      sample in a subdirectory. */
  lemma OneAlternativeIsKeptIff(ns: string, name: string, dir: string, samples: set<string>,
                                others: set<(string, string)>)
    requires Plain(ns) && Compile(name).Some?
    requires forall o :: o in others ==> Plain(o.0) && o.0 != ns
    requires !Compile(name).value.Alt? && Unanchored(Compile(name).value)
    ensures Compile(Prefixed(ns, name)).Some?
    ensures KeepsMatching(ns, name, dir, samples, others) <==>
            forall path :: path in samples && '/' in path ==> !Takes(Compile(name).value, Flat(path))
  {
    hide Compile, Plain, Flat, Ends, Found, Uses, Unanchored, MergedName, KeepsMatching;
    MatchingIsKeptIff(ns, name, dir, samples, others);
    var r := Compile(name).value;
    CutUnanchored(r);
    forall path | path in samples && '/' !in path
      ensures UsesMerged(ns, r, dir, ns, path) <==> Uses(r, dir, path)
    {
      FlatIsSame(path);
      UnanchoredUses(r, dir, path);
    }
  }

  // ----- where it does not hold -----------------------------------------------------------------------

  // Linting admits the stanzas below when their sampleFile names a sample of the pack, or
  // when some sample has the stanza's name letter for letter.

  predicate Literals(w: string) { forall i :: 0 <= i < |w| ==> Literal(w[i]) }

  lemma BranchStops(t: string)
    requires t == "" || t[0] == '|'
    ensures ParseBranch(t) == Parsed(Empty, t)
  {
  }

  lemma WordCompiles(w: string)
    requires Literals(w)
    ensures ParseAlt(w) == Parsed(Lits(w, Empty), "")
  {
    hide ParseBranch, Lits, Literals;
    BranchStops("");
    WordParses(w, "");
    assert w + "" == w;
  }

  lemma TwoWordsCompile(a: string, b: string)
    requires Literals(a) && Literals(b)
    ensures Compile(a + "|" + b) == Some(Alt(Lits(a, Empty), Lits(b, Empty)))
  {
    hide ParseBranch, Lits, Literals;
    var tail := "|" + b;
    BranchStops(tail);
    WordParses(a, tail);
    WordCompiles(b);
    assert tail[1..] == b && a + "|" + b == a + tail;
  }

  lemma WordParses(w: string, t: string)
    requires Literals(w) && ParseBranch(t) == Parsed(Empty, t)
    ensures ParseBranch(w + t) == Parsed(Lits(w, Empty), t)
  {
    hide ParseBranch, Lits;
    LiteralsParse(w, t);
  }

  lemma WordTakes(w: string, file: string)
    ensures Ends(Lits(w, Empty), file, 0) == if w <= file then [|w|] else []
    ensures Takes(Lits(w, Empty), file) <==> file == w
  {
    hide Lits;
    LitsEnd(w, Empty, file, 0);
    assert file[0..] == file;
    assert w <= file && |w| == |file| ==> w == file;
  }

  lemma {:induction false} WordUnanchored(w: string)
    ensures Unanchored(Lits(w, Empty))
  {
    if w != "" {
      WordUnanchored(w[1..]);
    }
  }

  /** A stanza for two files, named one after the other, loses the second in every pack. */
  lemma AlternationLosesAFile(ns: string, dir: string, a: string, b: string)
    requires Plain(ns) && Literals(a) && Literals(b) && !(a <= b)
    ensures var r, merged := Compile(a + "|" + b), Compile(Prefixed(ns, a + "|" + b));
            && r.Some? && merged.Some?
            && Uses(r.value, dir, b) && !Takes(merged.value, Prefixed(ns, b))
  {
    hide Literals, Plain, Takes, Ends, Lits, Unanchored, Uses;
    TwoWordsCompile(a, b);
    var r, p, file := Alt(Lits(a, Empty), Lits(b, Empty)), ns + SEP, Prefixed(ns, b);
    WordTakes(a, b);
    WordTakes(b, b);
    WordTakes(b, file);
    AltTakes(Lits(a, Empty), Lits(b, Empty), b);
    WordUnanchored(a);
    TwoUnanchored(Lits(a, Empty), Lits(b, Empty));
    WordUnanchored(b);
    UnanchoredUses(r, dir, b);
    CutUnanchored(Lits(a, Empty));
    assert file[|p|..] == b && |file| > |b|;
    PrefixedStanzaTakes(ns, a + "|" + b, file);
  }

  lemma TwoUnanchored(a: Rx, b: Rx)
    ensures Unanchored(Alt(a, b)) <==> Unanchored(a) && Unanchored(b)
  {
  }

  /** And its second name can be another pack's file. */
  lemma AlternationTakesAnothers(ns: string, dir: string, a: string, other: string, x: string)
    requires Plain(ns) && Plain(other) && ns != other && Literals(a) && Literals(x)
    ensures var merged := Compile(Prefixed(ns, a + "|" + Prefixed(other, x)));
            merged.Some? && Uses(merged.value, dir, Prefixed(other, x))
  {
    hide Plain, Takes, Ends, Compile, Lits, Found;
    var b, p := Prefixed(other, x), ns + SEP;
    PrefixIsLiteral(other);
    assert Literals(b);
    TwoWordsCompile(a, b);
    WordTakes(b, b);
    WordUnanchored(b);
    UnanchoredUses(Lits(b, Empty), dir, b);
    OnlyItsOwn(ns, other, x);
    PrefixIsLiteral(ns);
    PrefixCompiles(p, a + "|" + b);
    assert p + (a + "|" + b) == Prefixed(ns, a + "|" + b);
    PrefixedUses(p, Alt(Lits(a, Empty), Lits(b, Empty)), dir, b);
  }

  /** A name of one alternative that begins with a caret takes no file at all once prefixed. */
  lemma CaretTakesNothing(ns: string, name: string, file: string)
    requires Plain(ns) && Compile(name).Some? && Compile(name).value.Seq? && Compile(name).value.a.Start?
    ensures Compile(Prefixed(ns, name)).Some? && !Takes(Compile(Prefixed(ns, name)).value, file)
  {
    hide Compile, Plain, Ends;
    PrefixedStanzaTakes(ns, name, file);
    var p, r := ns + SEP, Compile(name).value;
    assert Cut(First(r)) == Seq(Never, Cut(r.b));
    if p <= file {
      NeverThen(Cut(r.b), file[|p|..]);
    }
  }

  lemma {:induction false} NeverThen(r: Rx, s: string)
    ensures Ends(Seq(Never, r), s, 0) == []
  {
    hide Ends, Through;
    SeqEnds(Never, r, s, 0);
    AtomEnds(s, 0, 'a');
    ThroughOne(r, s, 0, 0);
  }

  /** A caret before a word used no file before either: a path begins with a slash. */
  lemma CaretWordUsedNothing(dir: string, w: string, file: string)
    requires "/" <= dir && Literals(w) && w != ""
    ensures var r := Compile("^" + w); r.Some? && !Uses(r.value, dir, file)
  {
    hide Lits, Takes;
    CaretWordCompiles(w);
    var r, path := Seq(Start, Lits(w, Empty)), InDir(dir, file);
    forall i | 0 <= i <= |path| ensures Ends(r, path, i) == [] {
      StartThen(Lits(w, Empty), path, i);
      if i == 0 {
        assert path[0..] == path && path[0] == '/' && Literal(w[0]);
        LitsEnd(w, Empty, path, 0);
      }
    }
  }

  lemma {:induction false} StartThen(r: Rx, s: string, i: nat)
    requires i <= |s|
    ensures Ends(Seq(Start, r), s, i) == if i == 0 then Ends(r, s, 0) else []
  {
    hide Ends, Through;
    SeqEnds(Start, r, s, i);
    AtomEnds(s, i, 'a');
    ThroughOne(r, s, i, i);
  }

  lemma CaretWordCompiles(w: string)
    requires Literals(w)
    ensures Compile("^" + w) == Some(Seq(Start, Lits(w, Empty)))
  {
    hide Lits;
    var t := "^" + w;
    WordParses(w, "");
    assert w + "" == w && t[1..] == w;
    assert w != "" ==> Literal(w[0]);
    assert ParseAtom(t) == Parsed(Start, w);
    assert ParseItem(t) == Parsed(Start, w);
    assert ParseBranch(t) == Parsed(Seq(Start, Lits(w, Empty)), "");
  }

  /** But a caret before a wildcard did match, and a stanza with one loses its file. */
  lemma CaretLosesItsFile(ns: string, dir: string, file: string)
    requires Plain(ns) && '\n' !in dir
    ensures var r, merged := Compile("^.*a"), Compile(Prefixed(ns, "^.*a"));
            && r.Some? && merged.Some?
            && Uses(r.value, dir, "a") && !Takes(merged.value, file)
  {
    hide Plain, Takes, Found;
    WildcardCompiles();
    WildcardTakes();
    WildcardFound(dir);
    CaretTakesNothing(ns, "^.*a", file);
  }

  const Wildcard := Seq(Star(Any), Seq(Char('a'), Empty))

  lemma WildcardCompiles()
    ensures Compile("^.*a") == Some(Seq(Start, Wildcard))
  {
    var t := "^.*a";
    assert t[1..] == ".*a" && ".*a"[1..] == "*a" && "*a"[1..] == "a" && "a"[1..] == "";
    assert ParseBranch("a") == Parsed(Seq(Char('a'), Empty), "");
    assert ParseItem(".*a") == Parsed(Star(Any), "a");
    assert ParseBranch(".*a") == Parsed(Wildcard, "");
    assert ParseItem(t) == Parsed(Start, ".*a");
  }

  lemma {:induction false} AgainOne(r: Rx, s: string, i: nat, e: nat)
    requires i <= e <= |s|
    ensures Again(r, [e], s, i) == (if e > i then Ends(r, s, e) else []) && Again(r, [], s, i) == []
  {
    hide Ends;
  }

  /** A wildcard goes to the end of the line first, and reaches every place on it. */
  lemma {:induction false} WildcardReaches(s: string, i: nat, j: nat)
    requires i <= j <= |s| && '\n' !in s
    ensures j in Ends(Star(Any), s, i) && Ends(Star(Any), s, i)[0] == |s|
    decreases |s| - i
  {
    hide Ends, Again;
    StarEnds(Any, s, i);
    AtomEnds(s, i, 'a');
    if i < |s| {
      assert s[i] in s;
      WildcardReaches(s, i + 1, if i < j then j else i + 1);
      AgainOne(Star(Any), s, i, i + 1);
    } else {
      AgainOne(Star(Any), s, i, i);
    }
  }

  lemma WildcardOnOne(s: string)
    requires |s| == 1 && s[0] != '\n'
    ensures Ends(Star(Any), s, 0) == [1, 0]
  {
    hide Ends, Again;
    AtomEnds(s, 0, 'a');
    AtomEnds(s, 1, 'a');
    StarEnds(Any, s, 0);
    StarEnds(Any, s, 1);
    AgainOne(Star(Any), s, 0, 1);
    AgainOne(Star(Any), s, 1, 1);
  }

  lemma {:induction false} ThroughTwo(r: Rx, s: string, e: nat, f: nat)
    requires e <= |s| && f <= |s|
    ensures Through(r, [e, f], s, 0) == Ends(r, s, e) + Ends(r, s, f)
  {
    hide Ends;
    assert [e, f][1..] == [f];
    ThroughOne(r, s, 0, f);
  }

  lemma WildcardTakes()
    ensures Takes(Seq(Start, Wildcard), "a")
  {
    hide Ends, Through;
    var s, tail := "a", Seq(Char('a'), Empty);
    StartThen(Wildcard, s, 0);
    SeqEnds(Star(Any), tail, s, 0);
    WildcardOnOne(s);
    ThroughTwo(tail, s, 1, 0);
    CharThen('a', Empty, s, 0);
    CharThen('a', Empty, s, 1);
    AtomEnds(s, 1, 'a');
  }

  lemma {:induction false} ThroughFinds(r: Rx, from: seq<nat>, s: string, i: nat, e: nat)
    requires i <= |s| && Between(from, i, |s|) && e in from && e <= |s| && Ends(r, s, e) != []
    ensures Through(r, from, s, i) != []
  {
    hide Ends;
    if from[0] != e {
      ThroughFinds(r, from[1..], s, i, e);
    }
  }

  lemma WildcardFound(dir: string)
    requires '\n' !in dir
    ensures Found(Seq(Start, Wildcard), InDir(dir, "a"))
  {
    var s := InDir(dir, "a");
    var e := |s| - 1;
    assert s[e] == 'a';
    WildcardReaches(s, 0, e);
    CharThen('a', Empty, s, e);
    StartThen(Wildcard, s, 0);
    ThroughFinds(Seq(Char('a'), Empty), Ends(Star(Any), s, 0), s, 0, e);
    assert Ends(Seq(Start, Wildcard), s, 0) != [];
  }

  /** A sample in a subdirectory that its stanza did not look at is used once merged. */
  lemma NestedSampleIsUsed(ns: string, dir: string)
    requires Plain(ns)
    ensures var r, merged := Compile("a.*"), Compile(Prefixed(ns, "a.*"));
            && r.Some? && merged.Some?
            && !UsesListed(r.value, dir, "a/b") && Uses(merged.value, dir, MergedName(ns, "a/b"))
  {
    hide Plain, Found;
    AnythingCompiles();
    assert Flat("a/b") == "a--b";
    AnythingTakes();
    MergedStanzaUses(ns, "a.*", dir, ns, "a/b");
  }

  lemma AnythingCompiles()
    ensures Compile("a.*") == Some(Seq(Char('a'), Seq(Star(Any), Empty)))
  {
    var t := "a.*";
    assert t[1..] == ".*" && t[2..] == "*" && t[1..][1..] == "*" && "*"[1..] == "";
    assert ParseItem(".*") == Parsed(Star(Any), "");
    assert ParseBranch(".*") == Parsed(Seq(Star(Any), Empty), "");
    assert ParseItem(t) == Parsed(Char('a'), ".*");
  }

  lemma AnythingTakes()
    ensures Takes(Seq(Char('a'), Seq(Star(Any), Empty)), "a--b")
  {
    hide Ends;
    var s := "a--b";
    AtomEnds(s, |s|, 'a');
    CharThen('a', Seq(Star(Any), Empty), s, 0);
    SeqEnds(Star(Any), Empty, s, 1);
    WildcardReaches(s, 1, 1);
  }
}
