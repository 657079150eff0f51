/** Cutting UTF-8 text to a byte budget on whole lines (crates/komo-kernel/src/projection.rs:340-405).

    Text is its bytes. `Floor` and `Ceil` say what the two boundary loops compute; everything else is
    proved about them. */
module TextCut {
  import opened Text
  import opened Utf8

  type Bytes = seq<Byte>

  const NEWLINE: Byte := 0x0A

  // ------------------------------------------------------------ character boundaries

  /** The largest character boundary that is not above `limit`. */
  function Floor(text: Bytes, limit: nat): (cut: nat)
    ensures cut <= |text| && cut <= limit
  {
    if limit >= |text| then |text|
    else if IsBoundary(text, limit) then limit
    else Floor(text, limit - 1)
  }

  /** The smallest character boundary that is not below `floor`. */
  function Ceil(text: Bytes, floor: nat): (cut: nat)
    ensures cut <= |text|
    decreases |text| - floor
  {
    if floor >= |text| then |text|
    else if IsBoundary(text, floor) then floor
    else Ceil(text, floor + 1)
  }

  method Boundary(text: Bytes, limit: nat) returns (cut: nat)
    ensures cut == Floor(text, limit)
  {
    cut := if limit < |text| then limit else |text|;
    while cut > 0 && !IsBoundary(text, cut)
      invariant cut <= |text| && Floor(text, cut) == Floor(text, limit)
    {
      cut := cut - 1;
    }
  }

  method BoundaryRev(text: Bytes, floor: nat) returns (cut: nat)
    ensures cut == Ceil(text, floor)
  {
    cut := if floor < |text| then floor else |text|;
    while cut < |text| && !IsBoundary(text, cut)
      invariant cut <= |text| && Ceil(text, cut) == Ceil(text, floor)
    {
      cut := cut + 1;
    }
  }

  /** `Floor` is the largest boundary in reach, and in valid text it is never more than three bytes short. */
  lemma {:induction false} FloorIsLargest(text: Bytes, limit: nat)
    requires Valid(text)
    ensures IsBoundary(text, Floor(text, limit))
    ensures forall b: nat :: b <= limit && b <= |text| && IsBoundary(text, b) ==> b <= Floor(text, limit)
    ensures limit < |text| ==> limit <= Floor(text, limit) + 3
  {
    if limit < |text| {
      FloorReaches(text, limit);
      var below, above := BoundaryNear(text, limit);
    }
  }

  lemma {:induction false} FloorReaches(text: Bytes, limit: nat)
    ensures IsBoundary(text, Floor(text, limit))
    ensures forall b: nat :: b <= limit && b <= |text| && IsBoundary(text, b) ==> b <= Floor(text, limit)
  {
    if limit < |text| && !IsBoundary(text, limit) {
      FloorReaches(text, limit - 1);
    }
  }

  lemma {:induction false} CeilIsSmallest(text: Bytes, floor: nat)
    requires Valid(text)
    ensures IsBoundary(text, Ceil(text, floor))
    ensures forall b: nat :: floor <= b <= |text| && IsBoundary(text, b) ==> Ceil(text, floor) <= b
    ensures floor <= |text| ==> floor <= Ceil(text, floor) <= floor + 3
  {
    CeilReaches(text, floor);
    if floor <= |text| {
      var below, above := BoundaryNear(text, floor);
    }
  }

  lemma {:induction false} CeilReaches(text: Bytes, floor: nat)
    ensures IsBoundary(text, Ceil(text, floor))
    ensures floor <= |text| ==> floor <= Ceil(text, floor)
    ensures forall b: nat :: floor <= b <= |text| && IsBoundary(text, b) ==> Ceil(text, floor) <= b
    decreases |text| - floor
  {
    if floor < |text| && !IsBoundary(text, floor) {
      CeilReaches(text, floor + 1);
    }
  }

  // ------------------------------------------------------------ lines

  function LastNewline(text: Bytes): (r: Option<nat>)
    ensures r.Some? ==> r.value < |text| && text[r.value] == NEWLINE && NEWLINE !in text[r.value + 1..]
    ensures r.None? ==> NEWLINE !in text
  {
    if text == [] then None
    else if text[|text| - 1] == NEWLINE then Some(|text| - 1)
    else
      var r := LastNewline(text[..|text| - 1]);
      assert text == text[..|text| - 1] + [text[|text| - 1]];
      assert r.Some? ==> text[r.value + 1..] == text[..|text| - 1][r.value + 1..] + [text[|text| - 1]];
      r
  }

  function FirstNewline(text: Bytes): (r: Option<nat>)
    ensures r.Some? ==> r.value < |text| && text[r.value] == NEWLINE && NEWLINE !in text[..r.value]
    ensures r.None? ==> NEWLINE !in text
  {
    if text == [] then None
    else if text[0] == NEWLINE then Some(0)
    else
      var r := FirstNewline(text[1..]);
      assert text == [text[0]] + text[1..];
      assert r.Some? ==> text[..r.value + 1] == [text[0]] + text[1..][..r.value];
      if r.None? then None else Some(r.value + 1)
  }

  /** A line ends on a character boundary. */
  lemma LineEndsAreBoundaries(text: Bytes, i: nat)
    requires Valid(text) && i < |text| && text[i] == NEWLINE
    ensures IsBoundary(text, i + 1)
  {
    BoundaryMeansSplit(text, i);
    var rest := text[i..];
    ValidTail(rest);
    assert CharLen(rest) == 1;
    if i + 1 < |text| {
      assert rest[1] == text[i + 1];
    }
  }

  // ------------------------------------------------------------ the beginning of a text

  /** Where the kept beginning ends: after the last whole line, unless that wastes more than half. */
  function HeadEnd(text: Bytes, limit: nat): nat {
    var cut := Floor(text, limit);
    if cut == |text| then cut
    else
      var newline := LastNewline(text[..cut]);
      if newline.Some? && (newline.value + 1) * 2 >= cut then newline.value + 1 else cut
  }

  /** No line ends in the second half of what precedes `cut`. */
  predicate LongLineBefore(text: Bytes, cut: nat)
    requires cut <= |text|
  {
    forall i: nat :: i < cut && (i + 1) * 2 >= cut ==> text[i] != NEWLINE
  }

  /** Main result: the kept beginning is within its budget, ends on a character boundary, keeps at least
      half of the largest cut that the budget allows, and ends on a line if a line ends in that half. */
  lemma HeadEndIsGood(text: Bytes, limit: nat)
    requires Valid(text)
    ensures var e, cut := HeadEnd(text, limit), Floor(text, limit);
            && e <= cut <= limit && IsBoundary(text, e)
            && cut <= |text| && 2 * e >= cut
            && (limit < |text| ==> limit <= cut + 3)
            && (limit >= |text| ==> e == |text|)
            && (e < cut ==> text[e - 1] == NEWLINE && NEWLINE !in text[e..cut])
            && (e == cut < |text| ==> (e > 0 && text[e - 1] == NEWLINE) || LongLineBefore(text, cut))
  {
    var e, cut := HeadEnd(text, limit), Floor(text, limit);
    FloorIsLargest(text, limit);
    if cut < |text| {
      var head := text[..cut];
      var newline := LastNewline(head);
      if newline.Some? {
        LineEndsAreBoundaries(text, newline.value);
        assert head[newline.value + 1..] == text[newline.value + 1..cut];
        if e == cut && newline.value + 1 < cut {
          NoLaterNewline(text, cut, newline.value);
        }
      } else {
        assert forall i: nat :: i < cut ==> head[i] == text[i] && head[i] in head;
      }
    }
  }

  lemma NoLaterNewline(text: Bytes, cut: nat, newline: nat)
    requires newline < cut <= |text| && NEWLINE !in text[newline + 1..cut] && (newline + 1) * 2 < cut
    ensures LongLineBefore(text, cut)
  {
    forall i: nat | i < cut && (i + 1) * 2 >= cut
      ensures text[i] != NEWLINE
    {
      assert i > newline;
      assert text[i] == text[newline + 1..cut][i - newline - 1];
    }
  }

  // ------------------------------------------------------------ the end of a text

  function TailStart(text: Bytes, limit: nat): nat {
    var floor := Ceil(text, if limit < |text| then |text| - limit else 0);
    if floor == 0 || text[floor - 1] == NEWLINE then floor
    else
      var newline := FirstNewline(text[floor..]);
      if newline.Some? && (|text| - (floor + newline.value + 1)) * 2 >= |text| - floor then floor + newline.value + 1
      else floor
  }

  /** No line starts in the first half of what follows `floor`. */
  predicate LongLineAfter(text: Bytes, floor: nat)
    requires floor <= |text|
  {
    forall i: nat :: floor <= i < |text| && (|text| - (i + 1)) * 2 >= |text| - floor ==> text[i] != NEWLINE
  }

  /** The same for the kept end. */
  lemma TailStartIsGood(text: Bytes, limit: nat)
    requires Valid(text)
    ensures var s, floor := TailStart(text, limit), Ceil(text, if limit < |text| then |text| - limit else 0);
            && floor <= s <= |text| && |text| - floor <= limit && IsBoundary(text, s)
            && 2 * (|text| - s) >= |text| - floor
            && (limit < |text| ==> limit <= |text| - floor + 3)
            && (limit >= |text| ==> s == 0)
            && (s > floor ==> text[s - 1] == NEWLINE && NEWLINE !in text[floor..s - 1])
            && (s == floor > 0 ==> text[s - 1] == NEWLINE || LongLineAfter(text, floor))
  {
    var from := if limit < |text| then |text| - limit else 0;
    var s, floor := TailStart(text, limit), Ceil(text, from);
    CeilIsSmallest(text, from);
    if floor > 0 && text[floor - 1] != NEWLINE {
      var tail := text[floor..];
      var newline := FirstNewline(tail);
      if newline.Some? {
        LineEndsAreBoundaries(text, floor + newline.value);
        assert tail[..newline.value] == text[floor..floor + newline.value];
        if s == floor {
          NoEarlierNewline(text, floor, newline.value);
        }
      } else {
        assert forall i: nat :: floor <= i < |text| ==> tail[i - floor] == text[i] && tail[i - floor] in tail;
      }
    }
  }

  lemma NoEarlierNewline(text: Bytes, floor: nat, newline: nat)
    requires floor + newline < |text| && NEWLINE !in text[floor..floor + newline]
    requires (|text| - (floor + newline + 1)) * 2 < |text| - floor
    ensures LongLineAfter(text, floor)
  {
    forall i: nat | floor <= i < |text| && (|text| - (i + 1)) * 2 >= |text| - floor
      ensures text[i] != NEWLINE
    {
      assert i < floor + newline;
      assert text[i] == text[floor..floor + newline][i - floor];
    }
  }

  // ------------------------------------------------------------ both ends

  datatype Truncated = Truncated(head: Bytes, tail: Bytes, omitted: nat)

  function Whole(text: Bytes): Truncated { Truncated(text, [], 0) }

  function Excerpt(text: Bytes, headBytes: nat, tailBytes: nat): Truncated
    requires Valid(text)
  {
    if |text| <= headBytes + tailBytes then Whole(text)
    else
      var head, tail := HeadEnd(text, headBytes), TailStart(text, tailBytes);
      HeadEndIsGood(text, headBytes);
      TailStartIsGood(text, tailBytes);
      Truncated(text[..head], text[tail..], tail - head)
  }

  lemma NothingIsValid()
    ensures Valid([])
  {
    assert CharLen([]) == 0;
  }

  /** Main result: an excerpt is a beginning and an end of the text that do not overlap, and says exactly
      how much lies between them; it is cut if and only if the text does not fit the two budgets. */
  lemma ExcerptAccounts(text: Bytes, headBytes: nat, tailBytes: nat)
    requires Valid(text)
    ensures var x := Excerpt(text, headBytes, tailBytes);
            && |x.head| + x.omitted + |x.tail| == |text|
            && text == x.head + text[|x.head|..|x.head| + x.omitted] + x.tail
            && (x.omitted > 0 <==> |text| > headBytes + tailBytes)
            && (x.omitted > 0 ==> |x.head| <= headBytes && |x.tail| <= tailBytes)
            && (x.omitted == 0 ==> x == Whole(text))
            && Valid(x.head) && Valid(x.tail)
  {
    hide HeadEnd, TailStart, Floor, Ceil, IsBoundary, Valid, LongLineBefore, LongLineAfter;
    if |text| > headBytes + tailBytes {
      HeadEndIsGood(text, headBytes);
      TailStartIsGood(text, tailBytes);
      BoundaryMeansSplit(text, HeadEnd(text, headBytes));
      BoundaryMeansSplit(text, TailStart(text, tailBytes));
    } else {
      NothingIsValid();
    }
  }
}
