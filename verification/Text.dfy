/** The few string operations of the standard library that the models rely on. */
module Text {

  datatype Option<+T> = None | Some(value: T)
  datatype Result<+T, +E> = Ok(value: T) | Err(error: E)

  const U64_LIMIT: nat := 0x1_0000_0000_0000_0000

  // ------------------------------------------------------------ searching

  function IndexOf(s: string, c: char): (i: nat)
    requires c in s
    ensures i < |s| && s[i] == c && forall k | 0 <= k < i :: s[k] != c
  {
    if s[0] == c then 0 else 1 + IndexOf(s[1..], c)
  }

  /** Text is cut at its first separator in one way only. */
  lemma CutOnce(a: string, rest: string, b: string, rest': string, c: char)
    requires c !in a && c !in b
    requires a + [c] + rest == b + [c] + rest'
    ensures a == b && rest == rest'
  {
    var whole := a + [c] + rest;
    assert whole[|a|] == c && whole[|b|] == c;
    assert forall i | 0 <= i < |a| :: whole[i] == a[i] && a[i] in a;
    assert forall i | 0 <= i < |b| :: whole[i] == b[i] && b[i] in b;
    assert a == whole[..|a|] && b == whole[..|b|];
    assert rest == whole[|a| + 1..] && rest' == whole[|b| + 1..];
  }

  /** Splitting at every occurrence of a separator. */
  function Split(s: string, c: char): (parts: seq<string>)
    ensures |parts| > 0
    decreases |s|
  {
    if c in s then
      var i := IndexOf(s, c);
      [s[..i]] + Split(s[i + 1..], c)
    else [s]
  }

  lemma SplitFirst(a: string, rest: string, c: char)
    requires c !in a
    ensures Split(a + [c] + rest, c) == [a] + Split(rest, c)
  {
    var s := a + [c] + rest;
    assert s[|a|] == c;
    var i := IndexOf(s, c);
    assert forall k | 0 <= k < |a| :: s[k] == a[k] && a[k] in a;
    assert i == |a|;
    assert s[..i] == a && s[i + 1..] == rest;
  }

  /** `part` stands at offset `at`. */
  predicate StandsAt(text: string, at: nat, part: string) {
    at + |part| <= |text| && text[at..at + |part|] == part
  }

  predicate StartsWith(s: string, prefix: string) {
    |prefix| <= |s| && s[..|prefix|] == prefix
  }

  // ------------------------------------------------------------ order

  /** The order of text by its characters, first to last. */
  predicate NotAfter(a: string, b: string) {
    a == "" || (b != "" && (a[0] < b[0] || (a[0] == b[0] && NotAfter(a[1..], b[1..]))))
  }

  lemma {:induction false} NotAfterTotal(a: string, b: string)
    ensures NotAfter(a, b) || NotAfter(b, a)
  {
    if a != "" && b != "" {
      NotAfterTotal(a[1..], b[1..]);
    }
  }

  lemma {:induction false} NotAfterTrans(a: string, b: string, c: string)
    requires NotAfter(a, b) && NotAfter(b, c)
    ensures NotAfter(a, c)
  {
    if a != "" && a[0] == b[0] == c[0] {
      NotAfterTrans(a[1..], b[1..], c[1..]);
    }
  }

  lemma {:induction false} FirstOf(names: set<string>) returns (first: string)
    requires names != {}
    ensures first in names && forall n :: n in names ==> NotAfter(first, n)
    decreases names
  {
    first :| first in names;
    NotAfterTotal(first, first);
    var others := names - {first};
    assert names == others + {first};
    if others != {} {
      var next := FirstOf(others);
      NotAfterTotal(first, next);
      var any := first;
      first := if NotAfter(any, next) then any else next;
      forall n | n in names ensures NotAfter(first, n) {
        NotAfterTotal(n, n);
        if n != any {
          NotAfterTrans(first, next, n);
        }
      }
    }
  }

  // ------------------------------------------------------------ trimming

  /** The Unicode property White_Space. */
  predicate IsSpace(c: char) {
    var n := c as int;
    9 <= n <= 13 || n == 0x20 || n == 0x85 || n == 0xA0 || n == 0x1680
    || 0x2000 <= n <= 0x200A || n == 0x2028 || n == 0x2029 || n == 0x202F || n == 0x205F || n == 0x3000
  }

  /** They are these twenty-five. */
  lemma SpacesAre(c: char)
    ensures IsSpace(c) <==>
            c as int in {0x9, 0xA, 0xB, 0xC, 0xD, 0x20, 0x85, 0xA0, 0x1680, 0x2000, 0x2001, 0x2002, 0x2003, 0x2004, 0x2005, 0x2006,
                         0x2007, 0x2008, 0x2009, 0x200A, 0x2028, 0x2029, 0x202F, 0x205F, 0x3000}
  {
  }

  function TrimStart(s: string): string {
    if s != [] && IsSpace(s[0]) then TrimStart(s[1..]) else s
  }

  function TrimEnd(s: string): string {
    if s != [] && IsSpace(s[|s| - 1]) then TrimEnd(s[..|s| - 1]) else s
  }

  function Trim(s: string): string { TrimEnd(TrimStart(s)) }

  /** Text without space at either end. */
  predicate Tight(s: string) {
    s != [] && !IsSpace(s[0]) && !IsSpace(s[|s| - 1])
  }

  /** Every line feed and carriage return at the end goes. */
  function TrimEol(s: string): string {
    if s != [] && s[|s| - 1] in {'\n', '\r'} then TrimEol(s[..|s| - 1]) else s
  }

  lemma TrimEolOfLine(s: string)
    requires '\n' !in s && (s != [] ==> s[|s| - 1] != '\r')
    ensures TrimEol(s + "\n") == s
  {
    assert (s + "\n")[..|s|] == s;
  }

  function LowerChar(c: char): char { if 'A' <= c <= 'Z' then ((c as int) + 32) as char else c }

  function Lower(s: string): (r: string)
    ensures |r| == |s| && forall i :: 0 <= i < |s| ==> r[i] == LowerChar(s[i])
  {
    seq(|s|, i requires 0 <= i < |s| => LowerChar(s[i]))
  }

  // ------------------------------------------------------------ numbers

  function Digit(d: nat): char
    requires d < 10
  {
    ('0' as int + d) as char
  }

  predicate IsDigit(c: char) { '0' as int <= c as int <= '9' as int }

  function Decimal(n: nat): (s: string)
    ensures s != [] && forall c | c in s :: IsDigit(c)
  {
    if n < 10 then [Digit(n)] else Decimal(n / 10) + [Digit(n % 10)]
  }

  function DigitsValue(s: string): nat
    requires forall c | c in s :: IsDigit(c)
  {
    if s == [] then 0
    else
      var last := s[|s| - 1];
      assert IsDigit(last);
      DigitsValue(s[..|s| - 1]) * 10 + (last as int - '0' as int)
  }

  /** Reading an unsigned 64-bit number: an optional plus sign, at least one digit, no overflow. */
  function ParseU64(s: string): Option<nat> {
    var digits := if StartsWith(s, "+") then s[1..] else s;
    if digits == [] || exists c | c in digits :: !IsDigit(c) then None
    else if DigitsValue(digits) >= U64_LIMIT then None
    else Some(DigitsValue(digits))
  }

  lemma {:induction false} DecimalValue(n: nat)
    ensures DigitsValue(Decimal(n)) == n
  {
    if n >= 10 {
      DecimalValue(n / 10);
      var s := Decimal(n);
      assert s[..|s| - 1] == Decimal(n / 10);
    }
  }

  /** A number printed is read back, with or without space around it, up to the 64-bit limit. */
  lemma DecimalParses(n: nat)
    requires n < U64_LIMIT
    ensures ParseU64(Trim(Decimal(n))) == Some(n)
  {
    var s := Decimal(n);
    DecimalValue(n);
    assert s[0] in s && s[|s| - 1] in s;
    assert Trim(s) == s;
    assert s[..1] == [s[0]];
  }

  /** A number is read back from its digits if and only if it has 64 bits or fewer. */
  lemma NumbersThatFit(n: nat)
    ensures ParseU64(Decimal(n)) == if n <= 0xFFFF_FFFF_FFFF_FFFF then Some(n) else None
    ensures ParseU64("+" + Decimal(n)) == ParseU64(Decimal(n))
  {
    DecimalValue(n);
    assert Decimal(n)[0] in Decimal(n);
    assert Decimal(n)[..1] == [Decimal(n)[0]];
    assert ("+" + Decimal(n))[..1] == "+" && ("+" + Decimal(n))[1..] == Decimal(n);
  }

  lemma NotANumber(s: string, c: char)
    requires c in s && !IsDigit(c) && c != '+'
    ensures ParseU64(s).None? && ParseU64("").None?
  {
    var digits := if StartsWith(s, "+") then s[1..] else s;
    if StartsWith(s, "+") {
      assert s == [s[0]] + s[1..] && s[0] == s[..1][0] == '+';
    }
    assert c in digits;
  }
}
