/** pack.yaml: the two-level subset the control plane reads, and the line a rename rewrites. */
module PackYaml {
  import opened Basics
  import opened Text

  // ----- lines --------------------------------------------------------------------------------

  /** The characters at which a text is split into lines. */
  predicate Break(c: char) {
    || ('\U{0A}' <= c <= '\U{0D}') || ('\U{1C}' <= c <= '\U{1E}') || c == '\U{85}' || c == '\U{2028}' || c == '\U{2029}'
  }

  predicate BreakFree(s: string) { forall i :: 0 <= i < |s| ==> !Break(s[i]) }

  /** How far the first line reaches. */
  function LineLength(s: string): (n: nat)
    ensures n <= |s| && BreakFree(s[..n]) && (n < |s| ==> Break(s[n]))
  {
    if s == "" || Break(s[0]) then 0
    else
      var n := LineLength(s[1..]);
      assert s[..n + 1] == [s[0]] + s[1..][..n];
      n + 1
  }

  /** str.splitlines. */
  function SplitLines(s: string): (r: seq<string>)
    ensures forall l :: l in r ==> BreakFree(l)
    decreases |s|
  {
    if s == "" then []
    else
      var n := LineLength(s);
      var skip := if n == |s| then n else if s[n] == '\r' && n + 1 < |s| && s[n + 1] == '\n' then n + 2 else n + 1;
      [s[..n]] + SplitLines(s[skip..])
  }

  function JoinLines(lines: seq<string>): string {
    if lines == [] then "" else lines[0] + "\n" + JoinLines(lines[1..])
  }

  lemma {:induction false} LineLengthIs(a: string, b: string)
    requires BreakFree(a) && b != "" && Break(b[0])
    ensures LineLength(a + b) == |a|
  {
    hide Break;
    if a == "" {
      assert a + b == b;
    } else {
      assert (a + b)[1..] == a[1..] + b;
      LineLengthIs(a[1..], b);
    }
  }

  /** Lines written one to a line are read back. */
  lemma {:induction false} SplitOfJoin(lines: seq<string>)
    requires forall l :: l in lines ==> BreakFree(l)
    ensures SplitLines(JoinLines(lines)) == lines
  {
    if lines != [] {
      hide LineLength;
      var rest := JoinLines(lines[1..]);
      var s := lines[0] + "\n" + rest;
      assert s == lines[0] + ("\n" + rest);
      LineLengthIs(lines[0], "\n" + rest);
      assert s[..|lines[0]|] == lines[0] && s[|lines[0]|] == '\n' && s[|lines[0]| + 1..] == rest;
      SplitOfJoin(lines[1..]);
      assert lines == [lines[0]] + lines[1..];
    }
  }

  // ----- reading one line -----------------------------------------------------------------------

  predicate Quote(c: char) { c == '\'' || c == '"' }

  /** What precedes a comment; a hash inside quotes opens none. */
  function Uncommented(s: string, quote: Option<char>): string {
    if s == "" then ""
    else
      var c := s[0];
      if quote.Some? then [c] + Uncommented(s[1..], if c == quote.value then None else quote)
      else if Quote(c) then [c] + Uncommented(s[1..], Some(c))
      else if c == '#' then ""
      else [c] + Uncommented(s[1..], None)
  }

  function StripComment(line: string): string { TrimRight(Uncommented(line, None)) }

  /** A string, or the boolean, null or number that a bare text stands for. */
  datatype Value = Str(text: string) | Typed(text: string)

  /** A bare text that is not read as a string. */
  predicate Special(text: string) {
    || Lower(text) in {"true", "yes", "on", "false", "no", "off", "null", "~", ""}
    || Integer(text) || Float(text)
  }

  function Scalar(text: string): Value {
    if |text| >= 2 && text[0] == text[|text| - 1] && Quote(text[0]) then Str(text[1..|text| - 1])
    else if Special(text) then Typed(text)
    else Str(text)
  }

  function FirstColon(s: string): (n: nat)
    ensures n <= |s| && ':' !in s[..n] && (n < |s| ==> s[n] == ':')
  {
    if s == "" || s[0] == ':' then 0
    else
      var n := FirstColon(s[1..]);
      assert s[..n + 1] == [s[0]] + s[1..][..n];
      n + 1
  }

  /** What a line says: nothing, a top-level key, or a key one level in. */
  datatype Entry = Skip | Top(key: string, value: string) | Nested(key: string, value: string)

  function Read(raw: string): Entry {
    var line := StripComment(raw);
    var stripped := Trim(line);
    var n := FirstColon(stripped);
    if stripped == "" || "- " <= stripped || n == |stripped| then Skip
    else
      var key, value := Trim(stripped[..n]), Trim(stripped[n + 1..]);
      if line != "" && line[0] == ' ' then Nested(key, value) else Top(key, value)
  }

  // ----- reading a file ----------------------------------------------------------------------------

  datatype Node = Leaf(value: Value) | Branch(entries: map<string, Value>)

  datatype Reader = Reader(result: map<string, Node>, section: Option<string>)

  function Enter(st: Reader, e: Entry): Reader {
    match e
    case Skip => st
    case Top(key, value) =>
      if value == "" then Reader(st.result[key := Branch(map[])], Some(key))
      else Reader(st.result[key := Leaf(Scalar(value))], None)
    case Nested(key, value) =>
      if st.section.Some? && value != "" && st.section.value in st.result && st.result[st.section.value].Branch? then
        var entries := st.result[st.section.value].entries;
        st.(result := st.result[st.section.value := Branch(entries[key := Scalar(value)])])
      else st
  }

  function ReadAll(lines: seq<string>): Reader {
    if lines == [] then Reader(map[], None) else Enter(ReadAll(lines[..|lines| - 1]), Read(lines[|lines| - 1]))
  }

  /** _parse_pack_yaml. */
  function Parse(text: string): map<string, Node> { ReadAll(SplitLines(text)).result }

  /** _pack_yaml_strip_comment's loop. */
  method StripCommentLoop(line: string) returns (r: string)
    ensures r == StripComment(line)
  {
    var out: string := "";
    var quote: Option<char> := None;
    var i := 0;
    while i < |line| && (quote.Some? || line[i] != '#')
      invariant 0 <= i <= |line| && Uncommented(line, None) == out + Uncommented(line[i..], quote)
    {
      var c := line[i];
      assert line[i..][0] == c && line[i..][1..] == line[i + 1..];
      if quote.Some? {
        quote := if c == quote.value then None else quote;
      } else if Quote(c) {
        quote := Some(c);
      }
      assert out + ([c] + Uncommented(line[i + 1..], quote)) == out + [c] + Uncommented(line[i + 1..], quote);
      out := out + [c];
      i := i + 1;
    }
    assert Uncommented(line[i..], quote) == "" && out + "" == out;
    r := TrimRight(out);
  }

  /** _parse_pack_yaml's loop over lines. */
  method ParseText(text: string) returns (result: map<string, Node>)
    ensures result == Parse(text)
  {
    hide Read, Scalar;
    var lines := SplitLines(text);
    result := map[];
    var section: Option<string> := None;
    var i := 0;
    while i < |lines|
      invariant 0 <= i <= |lines| && Reader(result, section) == ReadAll(lines[..i])
    {
      assert lines[..i + 1][..i] == lines[..i] && lines[..i + 1][i] == lines[i];
      match Read(lines[i]) {
        case Skip =>
        case Top(key, value) =>
          if value == "" {
            section := Some(key);
            result := result[key := Branch(map[])];
          } else {
            section := None;
            result := result[key := Leaf(Scalar(value))];
          }
        case Nested(key, value) =>
          if section.Some? && value != "" && section.value in result && result[section.value].Branch? {
            var entries := result[section.value].entries;
            result := result[section.value := Branch(entries[key := Scalar(value)])];
          }
      }
      i := i + 1;
    }
    assert lines[..i] == lines;
  }

  // ----- the new name ------------------------------------------------------------------------------------

  predicate Control(c: char) { c <= '\U{1F}' || c == '\U{7F}' }

  const MAX_NAME_LEN := 255

  /** clean_name. */
  function CleanName(name: string): Result<string> {
    var text := Trim(name);
    if text == "" then Failure("a pack name cannot be empty")
    else if |text| > MAX_NAME_LEN then Failure("a pack name is at most 255 characters")
    else if exists i :: 0 <= i < |text| && Control(text[i]) then
      Failure("a pack name cannot contain control characters")
    else if '"' in text && '\'' in text then Failure("a pack name cannot contain both quotes")
    else Success(text)
  }

  /** The names that can be stored. */
  predicate Storable(name: string) {
    && name != "" && Trimmed(name) && |name| <= 255
    && (forall i :: 0 <= i < |name| ==> !Control(name[i]))
    && ('"' !in name || '\'' !in name)
  }

  /** A name is stored just when trimming makes it storable, and then as trimmed. */
  lemma CleanNameIff(name: string)
    ensures CleanName(name).Success? <==> Storable(Trim(name))
    ensures CleanName(name).Success? ==> CleanName(name).value == Trim(name)
    ensures Storable(name) ==> CleanName(name) == Success(name)
  {
    hide Trim, Control;
    TrimIsTrimmed(name);
    if Storable(name) {
      TrimmedStays(name);
    }
  }

  function QuoteFor(name: string): char { if '"' !in name then '"' else '\'' }

  /** _yaml_value on its line. */
  function NameLine(name: string): string { "name: " + [QuoteFor(name)] + name + [QuoteFor(name)] }

  /** A line that the rewriter takes for the top-level name. */
  predicate NameForm(raw: string) {
    "name" <= raw && var rest := TrimLeft(raw[4..]); rest != "" && rest[0] == ':'
  }

  predicate CommentLine(raw: string) { var rest := TrimLeft(raw); rest != "" && rest[0] == '#' }

  function FirstName(lines: seq<string>): (n: nat)
    ensures n <= |lines|
  {
    if lines == [] || NameForm(lines[0]) then 0 else FirstName(lines[1..]) + 1
  }

  lemma {:induction false} FirstNameIs(lines: seq<string>, n: nat)
    requires n <= |lines| && (n < |lines| ==> NameForm(lines[n])) && forall j :: 0 <= j < n ==> !NameForm(lines[j])
    ensures FirstName(lines) == n
  {
    hide NameForm;
    if n > 0 {
      assert forall j :: 1 <= j < |lines| ==> lines[j] == lines[1..][j - 1];
      FirstNameIs(lines[1..], n - 1);
    }
  }

  lemma {:induction false} FirstNameFinds(lines: seq<string>)
    ensures var n := FirstName(lines);
            (n < |lines| ==> NameForm(lines[n])) && forall j :: 0 <= j < n ==> !NameForm(lines[j])
  {
    hide NameForm;
    if lines != [] && !NameForm(lines[0]) {
      assert forall j :: 1 <= j < |lines| ==> lines[j] == lines[1..][j - 1];
      FirstNameFinds(lines[1..]);
    }
  }

  function LeadingComments(lines: seq<string>): (n: nat)
    ensures n <= |lines|
  {
    if lines == [] || !CommentLine(lines[0]) then 0 else LeadingComments(lines[1..]) + 1
  }

  lemma {:induction false} LeadingCommentsIs(lines: seq<string>, n: nat)
    requires n <= |lines| && (n < |lines| ==> !CommentLine(lines[n]))
    requires forall j :: 0 <= j < n ==> CommentLine(lines[j])
    ensures LeadingComments(lines) == n
  {
    hide CommentLine;
    if n > 0 {
      assert forall j :: 1 <= j < |lines| ==> lines[j] == lines[1..][j - 1];
      LeadingCommentsIs(lines[1..], n - 1);
    }
  }

  lemma {:induction false} LeadingAreComments(lines: seq<string>)
    ensures forall j :: 0 <= j < LeadingComments(lines) ==> CommentLine(lines[j])
  {
    hide CommentLine;
    if lines != [] && CommentLine(lines[0]) {
      assert forall j :: 1 <= j < |lines| ==> lines[j] == lines[1..][j - 1];
      LeadingAreComments(lines[1..]);
    }
  }

  function RenamedLines(lines: seq<string>, name: string): seq<string> {
    var i := FirstName(lines);
    if i < |lines| then lines[i := NameLine(name)]
    else
      var at := LeadingComments(lines);
      lines[..at] + [NameLine(name)] + lines[at..]
  }

  /** rewrite_pack_yaml: the text of the file before and after. */
  function Rename(text: string, name: string): string { JoinLines(RenamedLines(SplitLines(text), name)) }

  /** The loops of rewrite_pack_yaml; no file, nothing done. */
  method RewriteFile(file: Option<string>, name: string) returns (out: Option<string>, found: bool)
    ensures found == file.Some?
    ensures out == if file.None? then None else Some(Rename(file.value, name))
  {
    hide NameForm, CommentLine, NameLine;
    if file.None? {
      return None, false;
    }
    var lines := SplitLines(file.value);
    var line := NameLine(name);
    var i := 0;
    while i < |lines| && !NameForm(lines[i])
      invariant 0 <= i <= |lines| && forall j :: 0 <= j < i ==> !NameForm(lines[j])
    {
      i := i + 1;
    }
    if i < |lines| {
      FirstNameIs(lines, i);
      lines := lines[i := line];
    } else {
      FirstNameIs(lines, i);
      var at := 0;
      while at < |lines| && CommentLine(lines[at])
        invariant 0 <= at <= |lines| && forall j :: 0 <= j < at ==> CommentLine(lines[j])
      {
        at := at + 1;
      }
      LeadingCommentsIs(lines, at);
      lines := lines[..at] + [line] + lines[at..];
    }
    return Some(JoinLines(lines)), true;
  }
}
