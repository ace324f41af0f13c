/** Trimming and ordering of strings, and the numbers among them, as the control plane's own language does them. */
module Text {
  /** The characters that str.strip removes. */
  predicate White(c: char) {
    || ('\U{09}' <= c <= '\U{0D}') || ('\U{1C}' <= c <= ' ') || c == '\U{85}' || c == '\U{A0}'
    || c == '\U{1680}' || ('\U{2000}' <= c <= '\U{200A}') || c == '\U{2028}' || c == '\U{2029}'
    || c == '\U{202F}' || c == '\U{205F}' || c == '\U{3000}'
  }

  function TrimLeft(s: string): (r: string)
    ensures r == "" || !White(r[0])
    ensures |r| <= |s| && r == s[|s| - |r|..]
  {
    if s == "" then s
    else if White(s[0]) then
      var r := TrimLeft(s[1..]);
      assert r == s[1..][|s| - 1 - |r|..] == s[|s| - |r|..];
      r
    else s
  }

  function TrimRight(s: string): (r: string)
    ensures r == "" || !White(r[|r| - 1])
    ensures |r| <= |s| && r == s[..|r|]
  {
    if s == "" then s
    else if White(s[|s| - 1]) then TrimRight(s[..|s| - 1])
    else s
  }

  function Trim(s: string): string { TrimRight(TrimLeft(s)) }

  /** Text with no white space at either end. */
  predicate Trimmed(s: string) { s == "" || (!White(s[0]) && !White(s[|s| - 1])) }

  lemma TrimmedStays(s: string)
    requires Trimmed(s)
    ensures Trim(s) == s
  {
  }

  lemma TrimIsTrimmed(s: string)
    ensures Trimmed(Trim(s))
  {
    var left := TrimLeft(s);
    var r := TrimRight(left);
    if r != "" {
      assert r[0] == left[0];
    }
  }

  lemma TrimTwice(s: string)
    ensures Trim(Trim(s)) == Trim(s)
  {
    TrimIsTrimmed(s);
    TrimmedStays(Trim(s));
  }

  // ----- numbers ----------------------------------------------------------------------------

  function Lower(s: string): (r: string)
    ensures |r| == |s|
  {
    seq(|s|, i requires 0 <= i < |s| => if 'A' <= s[i] <= 'Z' then s[i] - 'A' + 'a' else s[i])
  }

  predicate Digit(c: char) { '0' <= c <= '9' }

  /** Digits with single underscores between them. */
  predicate Digits(s: string) {
    && s != "" && Digit(s[0]) && Digit(s[|s| - 1])
    && (forall i :: 0 <= i < |s| ==> Digit(s[i]) || s[i] == '_')
    && (forall i :: 0 <= i < |s| - 1 ==> s[i] != '_' || s[i + 1] != '_')
  }

  function Unsigned(s: string): string { if s != "" && (s[0] == '+' || s[0] == '-') then s[1..] else s }

  /** What int() takes. */
  predicate Integer(s: string) {
    Digits(Unsigned(Trim(s)))
  }

  /** Digits, with a point among or beside them or none. */
  predicate Decimals(s: string) {
    || Digits(s)
    || (exists k :: 0 <= k < |s| && s[k] == '.' && |s| > 1
                    && (k == 0 || Digits(s[..k])) && (k == |s| - 1 || Digits(s[k + 1..])))
  }

  /** What float() takes. */
  predicate Float(s: string) {
    var t := Lower(Unsigned(Trim(s)));
    || t == "inf" || t == "infinity" || t == "nan"
    || Decimals(t)
    || (exists k :: 0 <= k < |t| && t[k] == 'e' && Decimals(t[..k]) && Digits(Unsigned(t[k + 1..])))
  }

  // ----- order ------------------------------------------------------------------------------

  /** Character by character, a prefix first. */
  predicate Sorts(a: string, b: string) {
    a == "" || (b != "" && (a[0] < b[0] || (a[0] == b[0] && Sorts(a[1..], b[1..]))))
  }

  lemma {:induction false} SortsTotal(a: string, b: string)
    ensures Sorts(a, b) || Sorts(b, a)
  {
    if a != "" && b != "" {
      SortsTotal(a[1..], b[1..]);
    }
  }

  lemma {:induction false} SortsAntisymmetric(a: string, b: string)
    requires Sorts(a, b) && Sorts(b, a)
    ensures a == b
  {
    if a != "" {
      SortsAntisymmetric(a[1..], b[1..]);
      assert a == [a[0]] + a[1..] && b == [b[0]] + b[1..];
    }
  }

  lemma {:induction false} SortsTransitive(a: string, b: string, c: string)
    requires Sorts(a, b) && Sorts(b, c)
    ensures Sorts(a, c)
  {
    if a != "" && a[0] == b[0] && b[0] == c[0] {
      SortsTransitive(a[1..], b[1..], c[1..]);
    }
  }

  predicate IsLeast(names: set<string>, a: string) { a in names && forall b :: b in names ==> Sorts(a, b) }

  lemma {:induction false} LeastExists(names: set<string>) returns (a: string)
    requires names != {}
    ensures IsLeast(names, a)
  {
    a :| a in names;
    SortsTotal(a, a);
    var rest := names - {a};
    if rest == {} {
      forall b | b in names ensures Sorts(a, b) {
        assert b == a || b in rest;
      }
    } else {
      var other := LeastExists(rest);
      SortsTotal(a, other);
      var least := if Sorts(a, other) then a else other;
      forall b | b in names ensures Sorts(least, b) {
        if b == a {
        } else {
          assert b in rest;
          if least == a {
            SortsTransitive(a, other, b);
          }
        }
      }
      a := least;
    }
  }

  function Least(names: set<string>): (a: string)
    requires names != {}
    ensures IsLeast(names, a)
  {
    assert exists a :: IsLeast(names, a) by { var a := LeastExists(names); }
    LeastUnique(names);
    var a :| IsLeast(names, a);
    a
  }

  lemma LeastUnique(names: set<string>)
    ensures forall a, b :: IsLeast(names, a) && IsLeast(names, b) ==> a == b
  {
    forall a, b | IsLeast(names, a) && IsLeast(names, b) ensures a == b {
      SortsAntisymmetric(a, b);
    }
  }

  /** The names in order. */
  function Listing(names: set<string>): (r: seq<string>)
    ensures |r| == |names|
    ensures forall a :: a in r <==> a in names
    ensures forall i, j :: 0 <= i < j < |r| ==> r[i] != r[j]
  {
    if names == {} then []
    else
      var a := Least(names);
      [a] + Listing(names - {a})
  }
}
