/** Text helpers: Python's notion of blank text, decimal formatting, and the code-point order. */
module Text {
  /** The text of a UUID. */
  type Uuid = string

  // ----- Blank text -----

  /** The characters `str.strip` removes. */
  predicate IsSpace(c: char) {
    || '\t' <= c <= '\r'
    || '\U{1c}' <= c <= ' '
    || c == '\U{85}' || c == '\U{a0}' || c == '\U{1680}'
    || '\U{2000}' <= c <= '\U{200a}'
    || c == '\U{2028}' || c == '\U{2029}' || c == '\U{202f}' || c == '\U{205f}' || c == '\U{3000}'
  }

  /** `not text.strip()`. */
  predicate IsBlank(text: string) {
    forall c :: c in text ==> IsSpace(c)
  }

  function StripLeft(text: string): string {
    if text != [] && IsSpace(text[0]) then StripLeft(text[1..]) else text
  }

  function StripRight(text: string): string {
    if text != [] && IsSpace(text[|text| - 1]) then StripRight(text[..|text| - 1]) else text
  }

  /** `text.strip()`. */
  function Strip(text: string): string {
    StripRight(StripLeft(text))
  }

  /** The characters with the Unicode property White_Space, which string fields of the contracts lose
      at both ends. */
  predicate IsWhiteSpace(c: char) {
    IsSpace(c) && !('\U{1c}' <= c <= '\U{1f}')
  }

  function TrimLeft(text: string): string {
    if text != [] && IsWhiteSpace(text[0]) then TrimLeft(text[1..]) else text
  }

  function TrimRight(text: string): string {
    if text != [] && IsWhiteSpace(text[|text| - 1]) then TrimRight(text[..|text| - 1]) else text
  }

  function Trim(text: string): string {
    TrimRight(TrimLeft(text))
  }

  // ----- Decimal formatting -----

  predicate IsDigit(c: char) {
    '0' <= c <= '9'
  }

  function DigitText(d: nat): (c: char)
    requires d < 10
    ensures IsDigit(c) && DigitValue(c) == d
  {
    '0' + d as char
  }

  function DigitValue(c: char): nat
    requires IsDigit(c)
  {
    (c - '0') as nat
  }

  predicate AllDigits(text: string) {
    forall c :: c in text ==> IsDigit(c)
  }

  /** `str(n)` of a non-negative integer. */
  function NatText(n: nat): (text: string)
    ensures text != [] && AllDigits(text)
  {
    if n < 10 then [DigitText(n)] else NatText(n / 10) + [DigitText(n % 10)]
  }

  function NatValue(text: string): nat
    requires AllDigits(text)
  {
    if text == [] then 0 else 10 * NatValue(text[..|text| - 1]) + DigitValue(text[|text| - 1])
  }

  lemma {:induction false} NatRoundTrip(n: nat)
    ensures NatValue(NatText(n)) == n
  {
    if n >= 10 {
      NatRoundTrip(n / 10);
      assert NatText(n)[..|NatText(n)| - 1] == NatText(n / 10);
    }
  }

  /** `str(i)` of an integer. */
  function IntText(i: int): (text: string)
    ensures text != []
  {
    if i < 0 then "-" + NatText(-i) else NatText(i)
  }

  lemma NatTextInjective(m: nat, n: nat)
    requires NatText(m) == NatText(n)
    ensures m == n
  {
    NatRoundTrip(m);
    NatRoundTrip(n);
  }

  lemma IntTextInjective(i: int, j: int)
    requires IntText(i) == IntText(j)
    ensures i == j
  {
    assert i >= 0 ==> IntText(i)[0] in NatText(i);
    assert j >= 0 ==> IntText(j)[0] in NatText(j);
    if i < 0 && j < 0 {
      assert IntText(i)[1..] == NatText(-i) && IntText(j)[1..] == NatText(-j);
      NatTextInjective(-i, -j);
    } else if i >= 0 && j >= 0 {
      NatTextInjective(i, j);
    }
  }

  lemma IntTextNoColon(i: int)
    ensures ':' !in IntText(i)
  {}

  // ----- Splitting at separators -----

  lemma SplitAtFirst(a: string, b: string, a': string, b': string, separator: char)
    requires a + [separator] + b == a' + [separator] + b'
    requires separator !in a && separator !in a'
    ensures a == a' && b == b'
  {
    var s := a + [separator] + b;
    assert s[|a|] == separator && s[|a'|] == separator;
    assert forall k :: 0 <= k < |a| ==> s[k] == a[k] && a[k] in a;
    assert forall k :: 0 <= k < |a'| ==> s[k] == a'[k] && a'[k] in a';
    assert |a| == |a'|;
    assert a == s[..|a|] && a' == s[..|a'|];
    assert b == s[|a| + 1..] && b' == s[|a'| + 1..];
  }

  lemma SplitAtLast(a: string, b: string, a': string, b': string, separator: char)
    requires a + [separator] + b == a' + [separator] + b'
    requires separator !in b && separator !in b'
    ensures a == a' && b == b'
  {
    var s := a + [separator] + b;
    assert s[|a|] == separator && s[|a'|] == separator;
    assert forall k :: |a| < k < |s| ==> s[k] == b[k - |a| - 1] && b[k - |a| - 1] in b;
    assert forall k :: |a'| < k < |s| ==> s[k] == b'[k - |a'| - 1] && b'[k - |a'| - 1] in b';
    assert |a| == |a'|;
    assert a == s[..|a|] && a' == s[..|a'|];
    assert b == s[|a| + 1..] && b' == s[|a'| + 1..];
  }

  lemma CommonPrefix(prefix: string, a: string, b: string)
    requires prefix + a == prefix + b
    ensures a == b
  {
    assert a == (prefix + a)[|prefix|..] && b == (prefix + b)[|prefix|..];
  }

  // ----- The code-point order of strings -----

  predicate Below(a: string, b: string) {
    && b != []
    && (a == [] || a[0] < b[0] || (a[0] == b[0] && Below(a[1..], b[1..])))
  }

  lemma {:induction false} BelowIrreflexive(a: string)
    ensures !Below(a, a)
  {
    if a != [] { BelowIrreflexive(a[1..]); }
  }

  lemma {:induction false} BelowTransitive(a: string, b: string, c: string)
    requires Below(a, b) && Below(b, c)
    ensures Below(a, c)
  {
    if a != [] && a[0] == b[0] && b[0] == c[0] { BelowTransitive(a[1..], b[1..], c[1..]); }
  }

  lemma {:induction false} BelowTotal(a: string, b: string)
    ensures a == b || Below(a, b) || Below(b, a)
  {
    if a != [] && b != [] && a[0] == b[0] {
      BelowTotal(a[1..], b[1..]);
      assert a == [a[0]] + a[1..] && b == [b[0]] + b[1..];
    }
  }

  lemma {:induction false} BelowAsymmetric(a: string, b: string)
    requires Below(a, b)
    ensures a != b && !Below(b, a)
  {
    if Below(b, a) { BelowTransitive(a, b, a); }
    BelowIrreflexive(a);
  }

  predicate IsLeast(a: string, s: set<string>) {
    a in s && forall b :: b in s ==> a == b || Below(a, b)
  }

  lemma {:induction false} LeastExists(s: set<string>) returns (a: string)
    requires s != {}
    ensures IsLeast(a, s)
  {
    var x :| x in s;
    if s == {x} {
      a := x;
    } else {
      var y := LeastExists(s - {x});
      BelowTotal(x, y);
      a := if Below(x, y) then x else y;
      forall b | b in s ensures a == b || Below(a, b) {
        if b != x && Below(x, y) && b != y { BelowTransitive(x, y, b); }
      }
    }
  }

  /** `sorted(s)` of a set of strings. */
  ghost function Sorted(s: set<string>): seq<string> {
    if s == {} then []
    else
      assert exists a :: IsLeast(a, s) by { var a := LeastExists(s); }
      var a :| IsLeast(a, s);
      [a] + Sorted(s - {a})
  }

  function Join(parts: seq<string>, separator: string): string {
    if parts == [] then ""
    else if |parts| == 1 then parts[0]
    else parts[0] + separator + Join(parts[1..], separator)
  }
}
