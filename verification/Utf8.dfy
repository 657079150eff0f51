/** UTF-8 as section 4 of RFC 3629 defines it, in the form both sides of the event
    stream and the result projection use it: bytes, the longest valid prefix of a
    byte string, and character boundaries. */
module Utf8 {

  type Byte = b: int | 0 <= b < 256

  predicate Continuation(b: Byte) { 0x80 <= b < 0xC0 }

  /** The second byte allowed after the lead byte `lead` of a multi-byte character. */
  predicate SecondOk(lead: Byte, b: Byte) {
    && Continuation(b)
    && (lead == 0xE0 ==> 0xA0 <= b)
    && (lead == 0xED ==> b < 0xA0)
    && (lead == 0xF0 ==> 0x90 <= b)
    && (lead == 0xF4 ==> b < 0x90)
  }

  /** How many bytes a character with this lead byte has; 0 if no character starts so. */
  function LeadLen(lead: Byte): nat {
    if lead < 0x80 then 1
    else if 0xC2 <= lead < 0xE0 then 2
    else if 0xE0 <= lead < 0xF0 then 3
    else if 0xF0 <= lead < 0xF5 then 4
    else 0
  }

  /** What there is of the character that starts `b` is in order; it need not be all there. */
  predicate Promising(b: seq<Byte>)
    requires |b| > 0
  {
    && LeadLen(b[0]) > 0
    && (|b| > 1 && LeadLen(b[0]) > 1 ==> SecondOk(b[0], b[1]))
    && (|b| > 2 && LeadLen(b[0]) > 2 ==> Continuation(b[2]))
    && (|b| > 3 && LeadLen(b[0]) > 3 ==> Continuation(b[3]))
  }

  /** The number of bytes of the well-formed character at the start of `b`; 0 if there is none. */
  function CharLen(b: seq<Byte>): (n: nat)
    ensures n <= |b| && n <= 4
  {
    if |b| == 0 || !Promising(b) || |b| < LeadLen(b[0]) then 0 else LeadLen(b[0])
  }

  predicate Scalar(n: int) { 0 <= n < 0xD800 || 0xE000 <= n < 0x110000 }

  /** The code point a well-formed character of these bytes stands for. */
  function CodePoint(b: seq<Byte>): (n: int)
    requires CharLen(b) > 0
    ensures Scalar(n)
    ensures if n < 0x80 then CharLen(b) == 1 else if n < 0x800 then CharLen(b) == 2
            else if n < 0x10000 then CharLen(b) == 3 else CharLen(b) == 4
  {
    var b0: int := b[0];
    var b1: int := if |b| > 1 then b[1] else 0;
    var b2: int := if |b| > 2 then b[2] else 0;
    var b3: int := if |b| > 3 then b[3] else 0;
    if b0 < 0x80 then b0
    else if b0 < 0xE0 then (b0 - 0xC0) * 0x40 + (b1 - 0x80)
    else if b0 < 0xF0 then (b0 - 0xE0) * 0x1000 + (b1 - 0x80) * 0x40 + (b2 - 0x80)
    else (b0 - 0xF0) * 0x40000 + (b1 - 0x80) * 0x1000 + (b2 - 0x80) * 0x40 + (b3 - 0x80)
  }

  /** The character `CharLen` found. */
  function CharAt(b: seq<Byte>): char
    requires CharLen(b) > 0
  {
    CodePoint(b) as char
  }

  /** The length of the longest valid prefix of `b`. */
  function ValidUpTo(b: seq<Byte>): (n: nat)
    ensures n <= |b|
  {
    var k := CharLen(b);
    if k == 0 then 0 else k + ValidUpTo(b[k..])
  }

  /** The text of the longest valid prefix of `b`. */
  function Decode(b: seq<Byte>): string {
    var k := CharLen(b);
    if k == 0 then [] else [CharAt(b)] + Decode(b[k..])
  }

  predicate Valid(b: seq<Byte>) { ValidUpTo(b) == |b| }

  function EncodePoint(n: int): (b: seq<Byte>)
    requires Scalar(n)
    ensures 1 <= |b| <= 4
  {
    if n < 0x80 then [n]
    else if n < 0x800 then [0xC0 + n / 0x40, 0x80 + n % 0x40]
    else if n < 0x10000 then [0xE0 + n / 0x1000, 0x80 + n / 0x40 % 0x40, 0x80 + n % 0x40]
    else [0xF0 + n / 0x40000, 0x80 + n / 0x1000 % 0x40, 0x80 + n / 0x40 % 0x40, 0x80 + n % 0x40]
  }

  function EncodeChar(c: char): (b: seq<Byte>)
    ensures 1 <= |b| <= 4
  {
    EncodePoint(c as int)
  }

  function Encode(s: string): seq<Byte> {
    if s == [] then [] else EncodeChar(s[0]) + Encode(s[1..])
  }

  lemma PointRoundTrip(n: int)
    requires Scalar(n)
    ensures CharLen(EncodePoint(n)) == |EncodePoint(n)|
    ensures CodePoint(EncodePoint(n)) == n
  {
    if n < 0x800 {
    } else if n < 0x10000 {
      assert n / 0x40 / 0x40 == n / 0x1000;
    } else {
      assert n / 0x1000 / 0x40 == n / 0x40000;
      assert n / 0x40 / 0x40 == n / 0x1000;
    }
  }

  lemma CharLenExtends(b: seq<Byte>, x: seq<Byte>)
    requires CharLen(b) > 0
    ensures CharLen(b + x) == CharLen(b) && CharAt(b + x) == CharAt(b)
  {
    assert forall i | 0 <= i < |b| :: (b + x)[i] == b[i];
  }

  /** One character, whatever follows it. */
  lemma CharRoundTrip(c: char, rest: seq<Byte>)
    ensures CharLen(EncodeChar(c) + rest) == |EncodeChar(c)|
    ensures CharAt(EncodeChar(c) + rest) == c
  {
    PointRoundTrip(c as int);
    CharLenExtends(EncodeChar(c), rest);
  }

  /** Encoding is a right inverse of decoding, and the encoding of a text is valid. */
  lemma {:induction false} DecodeEncode(s: string, rest: seq<Byte>)
    ensures Decode(Encode(s) + rest) == s + Decode(rest)
    ensures ValidUpTo(Encode(s) + rest) == |Encode(s)| + ValidUpTo(rest)
  {
    hide EncodePoint, CodePoint, CharLen, Promising;
    if s == [] {
      assert Encode(s) + rest == rest;
    } else {
      var c := EncodeChar(s[0]);
      var all := Encode(s) + rest;
      assert all == c + (Encode(s[1..]) + rest);
      CharRoundTrip(s[0], Encode(s[1..]) + rest);
      assert all[|c|..] == Encode(s[1..]) + rest;
      DecodeEncode(s[1..], rest);
    }
  }

  /** Three base-64 digits below a leading one are read back by division. */
  lemma Digits(d0: int, d1: int, d2: int, d3: int)
    requires 0 <= d0 && 0 <= d1 < 0x40 && 0 <= d2 < 0x40 && 0 <= d3 < 0x40
    ensures var n := d0 * 0x40000 + d1 * 0x1000 + d2 * 0x40 + d3;
            && n / 0x40000 == d0 && n / 0x1000 == d0 * 0x40 + d1 && n / 0x40 == d0 * 0x1000 + d1 * 0x40 + d2
            && n / 0x1000 % 0x40 == d1 && n / 0x40 % 0x40 == d2 && n % 0x40 == d3
  {
  }

  lemma EncodeCharInverse(b: seq<Byte>)
    requires CharLen(b) > 0
    ensures EncodeChar(CharAt(b)) == b[..CharLen(b)]
  {
    var n := CodePoint(b);
    if CharLen(b) == 1 {
      assert EncodePoint(n) == [b[0]];
    } else if CharLen(b) == 2 {
      Digits(0, 0, b[0] as int - 0xC0, b[1] as int - 0x80);
      assert EncodePoint(n) == [b[0], b[1]];
    } else if CharLen(b) == 3 {
      Digits(0, b[0] as int - 0xE0, b[1] as int - 0x80, b[2] as int - 0x80);
      assert EncodePoint(n) == [b[0], b[1], b[2]];
    } else {
      Digits(b[0] as int - 0xF0, b[1] as int - 0x80, b[2] as int - 0x80, b[3] as int - 0x80);
      assert EncodePoint(n) == [b[0], b[1], b[2], b[3]];
    }
  }

  /** What is decoded is the longest valid prefix and nothing else. */
  lemma {:induction false} EncodeDecode(b: seq<Byte>)
    ensures Encode(Decode(b)) == b[..ValidUpTo(b)]
  {
    hide EncodeChar, CharAt, CharLen;
    var k := CharLen(b);
    if k > 0 {
      var v := ValidUpTo(b[k..]);
      EncodeCharInverse(b);
      EncodeDecode(b[k..]);
      assert Decode(b) == [CharAt(b)] + Decode(b[k..]);
      assert Decode(b)[1..] == Decode(b[k..]);
      assert b[..k] + b[k..][..v] == b[..k + v];
    } else {
      assert Decode(b) == [] && ValidUpTo(b) == 0;
    }
  }

  lemma {:induction false} EncodeAppend(s: string, t: string)
    ensures Encode(s + t) == Encode(s) + Encode(t)
  {
    if s == [] {
      assert s + t == t;
    } else {
      assert (s + t)[1..] == s[1..] + t;
      EncodeAppend(s[1..], t);
    }
  }

  /** Cutting a byte string anywhere and carrying the undecoded rest over loses nothing. */
  lemma {:induction false} DecodeSplit(a: seq<Byte>, b: seq<Byte>)
    ensures var v := ValidUpTo(a);
            && Decode(a + b) == Decode(a) + Decode(a[v..] + b)
            && ValidUpTo(a + b) == v + ValidUpTo(a[v..] + b)
  {
    hide CharLen, CharAt;
    var k := CharLen(a);
    if k == 0 {
      assert a[0..] == a;
    } else {
      CharLenExtends(a, b);
      assert (a + b)[k..] == a[k..] + b;
      DecodeSplit(a[k..], b);
      var v := ValidUpTo(a[k..]);
      assert a[k..][v..] == a[k + v..];
    }
  }

  /** Nothing more can be decoded of what follows the longest valid prefix. */
  lemma {:induction false} RestUndecodable(b: seq<Byte>)
    ensures CharLen(b[ValidUpTo(b)..]) == 0
  {
    hide CharLen;
    var k := CharLen(b);
    if k == 0 {
      assert b[0..] == b;
    } else {
      RestUndecodable(b[k..]);
      assert b[k..][ValidUpTo(b[k..])..] == b[ValidUpTo(b)..];
    }
  }

  /** Bytes that cannot begin a character: no continuation makes one of them. */
  predicate IllFormed(b: seq<Byte>) { |b| > 0 && !Promising(b) }

  /** The bytes that finish what `b` begins. */
  function Completion(b: seq<Byte>): seq<Byte>
    requires CharLen(b) == 0 && !IllFormed(b)
  {
    if b == [] then [0x20]
    else
      var second: Byte := if b[0] == 0xE0 then 0xA0 else if b[0] == 0xF0 then 0x90 else 0x80;
      var tail: seq<Byte> := [second, 0x80, 0x80];
      tail[|b| - 1..LeadLen(b[0]) - 1]
  }

  lemma Completes(b: seq<Byte>)
    requires CharLen(b) == 0 && !IllFormed(b)
    ensures CharLen(b + Completion(b)) > 0 && Valid(b + Completion(b))
  {
    var whole := b + Completion(b);
    if b == [] {
      assert whole == [0x20];
    } else {
      var second: Byte := if b[0] == 0xE0 then 0xA0 else if b[0] == 0xF0 then 0x90 else 0x80;
      var s1: Byte := if |b| > 1 then b[1] else second;
      var s2: Byte := if |b| > 2 then b[2] else 0x80;
      var n := LeadLen(b[0]);
      forall i | 0 <= i < n
        ensures whole[i] == [b[0], s1, s2, 0x80][i]
      {
        assert i >= |b| ==> whole[i] == [second, 0x80, 0x80][i - 1];
      }
      assert whole == [b[0], s1, s2, 0x80][..n];
      CompletedChar(b[0], s1, s2);
    }
    assert ValidUpTo(whole[|whole|..]) == 0;
  }

  lemma CompletedChar(lead: Byte, second: Byte, third: Byte)
    requires LeadLen(lead) > 1 && SecondOk(lead, second) && Continuation(third)
    ensures var c := [lead, second, third, 0x80][..LeadLen(lead)]; CharLen(c) == |c|
  {
  }

  lemma IllFormedStays(b: seq<Byte>, x: seq<Byte>)
    requires IllFormed(b)
    ensures IllFormed(b + x) && CharLen(b + x) == 0
  {
    assert forall i | 0 <= i < |b| :: (b + x)[i] == b[i];
  }

  /** `IllFormed` is exact: everything else can still become a character. */
  lemma IllFormedExactly(b: seq<Byte>)
    requires CharLen(b) == 0
    ensures IllFormed(b) <==> forall x: seq<Byte> :: CharLen(b + x) == 0
  {
    if IllFormed(b) {
      forall x: seq<Byte>
        ensures CharLen(b + x) == 0
      {
        IllFormedStays(b, x);
      }
    } else {
      Completes(b);
    }
  }

  // ------------------------------------------------------------ boundaries

  /** The test the runtime library makes: no continuation byte stands at `i`. */
  predicate IsBoundary(b: seq<Byte>, i: nat)
  {
    i == 0 || i == |b| || (i < |b| && !Continuation(b[i]))
  }

  lemma ValidTail(b: seq<Byte>)
    requires Valid(b) && b != []
    ensures 0 < CharLen(b) && Valid(b[CharLen(b)..])
    ensures IsBoundary(b, CharLen(b))
    ensures forall i: nat | i <= |b| - CharLen(b) && IsBoundary(b[CharLen(b)..], i) :: IsBoundary(b, CharLen(b) + i)
  {
    var rest := b[CharLen(b)..];
    if rest != [] {
      assert ValidUpTo(rest) == |rest|;
      assert CharLen(rest) > 0;
      assert !Continuation(rest[0]);
    }
  }

  lemma InsideChar(b: seq<Byte>, i: nat)
    requires 0 < i < CharLen(b)
    ensures !IsBoundary(b, i) && CharLen(b[..i]) == 0
  {
  }

  /** For valid text the byte test means what it should: `i` splits the text into two texts. */
  lemma {:induction false} BoundaryMeansSplit(b: seq<Byte>, i: nat)
    requires Valid(b) && i <= |b|
    ensures IsBoundary(b, i) <==> Valid(b[..i])
    ensures IsBoundary(b, i) ==> Valid(b[i..])
  {
    hide CharLen, Continuation;
    if i == 0 {
      assert b[0..] == b && b[..0] == [];
      assert CharLen([]) == 0;
    } else {
      ValidTail(b);
      var k := CharLen(b);
      if i < k {
        InsideChar(b, i);
      } else {
        var rest := b[k..];
        var head, mid := b[..k], rest[..i - k];
        BoundaryMeansSplit(rest, i - k);
        assert rest[i - k..] == b[i..];
        CharLenPrefix(b);
        CharLenExtends(head, mid);
        assert head + mid == b[..i];
        assert (head + mid)[k..] == mid;
        assert ValidUpTo(b[..i]) == k + ValidUpTo(mid);
        assert IsBoundary(b, i) <==> IsBoundary(rest, i - k);
      }
    }
  }

  lemma CharLenPrefix(b: seq<Byte>)
    ensures CharLen(b) > 0 ==> CharLen(b[..CharLen(b)]) == CharLen(b)
  {
  }

  lemma {:induction false} ValidAppend(a: seq<Byte>, b: seq<Byte>)
    requires Valid(a)
    ensures Valid(a + b) <==> Valid(b)
  {
    DecodeSplit(a, b);
    assert a[|a|..] + b == b;
  }

  /** At most three bytes separate any position from a boundary on either side. */
  lemma {:induction false} BoundaryNear(b: seq<Byte>, i: nat) returns (below: nat, above: nat)
    requires Valid(b) && i <= |b|
    ensures below <= i <= below + 3 && IsBoundary(b, below)
    ensures i <= above <= i + 3 && above <= |b| && IsBoundary(b, above)
  {
    if IsBoundary(b, i) {
      return i, i;
    }
    ValidTail(b);
    var k := CharLen(b);
    if i < k {
      assert IsBoundary(b[k..], 0);
      below, above := 0, k + 0;
    } else {
      var b0, a0 := BoundaryNear(b[k..], i - k);
      below, above := k + b0, k + a0;
    }
  }

  /** Characters of one to four bytes, by the examples of section 7 of RFC 3629. */
  lemma KnownCharacters()
    ensures Encode("A\U{2262}\U{0391}.") == [0x41, 0xE2, 0x89, 0xA2, 0xCE, 0x91, 0x2E]
    ensures Encode("\U{FEFF}\U{233B4}") == [0xEF, 0xBB, 0xBF, 0xF0, 0xA3, 0x8E, 0xB4]
  {
    assert "A\U{2262}\U{0391}."[1..] == "\U{2262}\U{0391}.";
    assert "\U{2262}\U{0391}."[1..] == "\U{0391}.";
    assert "\U{0391}."[1..] == ".";
    assert "."[1..] == "";
    assert "\U{FEFF}\U{233B4}"[1..] == "\U{233B4}" && "\U{233B4}"[1..] == "";
  }
}
