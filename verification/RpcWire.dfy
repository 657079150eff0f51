/** The byte stream of the channel RPC (crates/komo-channel/src/rpc.rs): each frame is its length in four
    bytes, most significant first, and then that many bytes. */
module RpcWire {
  import opened Utf8

  type Bytes = seq<Byte>

  const MAX_FRAME: nat := 1024 * 1024
  const U32_LIMIT: nat := 0x1_0000_0000

  function Be32(n: nat): (b: Bytes)
    requires n < U32_LIMIT
    ensures |b| == 4
  {
    [n / 0x100_0000, n / 0x1_0000 % 0x100, n / 0x100 % 0x100, n % 0x100]
  }

  function ReadBe32(b: Bytes): nat
    requires |b| >= 4
  {
    b[0] as int * 0x100_0000 + b[1] as int * 0x1_0000 + b[2] as int * 0x100 + b[3] as int
  }

  lemma Be32RoundTrip(n: nat, rest: Bytes)
    requires n < U32_LIMIT
    ensures ReadBe32(Be32(n) + rest) == n
  {
    var a, b, c := n / 0x100_0000, n / 0x1_0000 % 0x100, n / 0x100 % 0x100;
    assert n / 0x1_0000 == a * 0x100 + b;
    assert n / 0x100 == (a * 0x100 + b) * 0x100 + c;
  }

  predicate Sendable(frame: Bytes) { |frame| <= MAX_FRAME }

  function Framed(frame: Bytes): (b: Bytes)
    requires Sendable(frame)
    ensures |b| == 4 + |frame|
  {
    Be32(|frame|) + frame
  }

  function Wire(frames: seq<Bytes>): Bytes
    requires forall f :: f in frames ==> Sendable(f)
  {
    if frames == [] then [] else Framed(frames[0]) + Wire(frames[1..])
  }

  /** What a reader has made of the bytes so far: the frames, or a length it refuses. */
  datatype Reading = Reading(frames: seq<Bytes>, refused: bool)

  function Read(stream: Bytes): Reading
    decreases |stream|
  {
    if |stream| < 4 then Reading([], false)
    else
      var size := ReadBe32(stream);
      if size > MAX_FRAME then Reading([], true)
      else if |stream| < 4 + size then Reading([], false)
      else
        var rest := Read(stream[4 + size..]);
        Reading([stream[4..4 + size]] + rest.frames, rest.refused)
  }

  lemma ReadNext(stream: Bytes, size: nat)
    requires |stream| >= 4 + size && ReadBe32(stream) == size <= MAX_FRAME
    ensures Read(stream).frames == [stream[4..4 + size]] + Read(stream[4 + size..]).frames
    ensures Read(stream).refused == Read(stream[4 + size..]).refused
  {
    hide ReadBe32;
  }

  lemma ReadEnds(stream: Bytes)
    requires |stream| < 4 || ReadBe32(stream) > MAX_FRAME || |stream| < 4 + ReadBe32(stream)
    ensures Read(stream) == Reading([], |stream| >= 4 && ReadBe32(stream) > MAX_FRAME)
  {
    hide ReadBe32;
  }

  /** The reader's loop over a stream that ends where `stream` does. */
  method ReadLoop(stream: Bytes) returns (frames: seq<Bytes>, refused: bool)
    ensures Reading(frames, refused) == Read(stream)
  {
    hide ReadBe32, Read;
    var rest := stream;
    frames, refused := [], false;
    while |rest| >= 4 && ReadBe32(rest) <= MAX_FRAME && |rest| >= 4 + ReadBe32(rest)
      invariant Read(stream).frames == frames + Read(rest).frames
      invariant Read(stream).refused == Read(rest).refused
      decreases |rest|
    {
      var size := ReadBe32(rest);
      ReadNext(rest, size);
      var frame := rest[4..4 + size];
      assert frames + ([frame] + Read(rest[4 + size..]).frames) == (frames + [frame]) + Read(rest[4 + size..]).frames;
      frames := frames + [frame];
      rest := rest[4 + size..];
    }
    ReadEnds(rest);
    refused := |rest| >= 4 && ReadBe32(rest) > MAX_FRAME;
  }

  lemma ReadFirst(frame: Bytes, rest: Bytes)
    requires Sendable(frame)
    ensures Read(Framed(frame) + rest) == Reading([frame] + Read(rest).frames, Read(rest).refused)
  {
    var stream := Framed(frame) + rest;
    Be32RoundTrip(|frame|, frame + rest);
    assert stream == Be32(|frame|) + (frame + rest);
    assert stream[4..4 + |frame|] == frame && stream[4 + |frame|..] == rest;
  }

  /** A beginning of a frame is not a frame, and is not refused. */
  lemma ReadPartial(frame: Bytes, k: nat)
    requires Sendable(frame) && k < 4 + |frame|
    ensures Read(Framed(frame)[..k]) == Reading([], false)
  {
    var stream := Framed(frame)[..k];
    if k >= 4 {
      Be32RoundTrip(|frame|, frame[..k - 4]);
      assert stream == Be32(|frame|) + frame[..k - 4];
    }
  }

  /** Main result: wherever a stream of frames stops, the reader has every frame that is there whole, in
      order, and nothing else; and no frame that may be sent is ever refused for its size. */
  lemma {:induction false} ReadsWhatIsWhole(frames: seq<Bytes>, next: Bytes, k: nat)
    requires (forall f :: f in frames ==> Sendable(f)) && Sendable(next) && k < 4 + |next|
    ensures Read(Wire(frames) + Framed(next)[..k]) == Reading(frames, false)
  {
    if frames == [] {
      assert Wire(frames) + Framed(next)[..k] == Framed(next)[..k];
      ReadPartial(next, k);
    } else {
      var rest := Wire(frames[1..]) + Framed(next)[..k];
      ReadsWhatIsWhole(frames[1..], next, k);
      ReadFirst(frames[0], rest);
      assert Wire(frames) + Framed(next)[..k] == Framed(frames[0]) + rest;
    }
  }

  lemma {:induction false} WireSnoc(frames: seq<Bytes>, f: Bytes)
    requires (forall g :: g in frames ==> Sendable(g)) && Sendable(f)
    ensures forall g :: g in frames + [f] ==> Sendable(g)
    ensures Wire(frames + [f]) == Wire(frames) + Framed(f)
  {
    if frames == [] {
      assert frames + [f] == [f];
      assert [f][1..] == [];
    } else {
      assert (frames + [f])[1..] == frames[1..] + [f];
      WireSnoc(frames[1..], f);
    }
  }

  /** Every cut of a stream of frames is some whole frames and a beginning of the next one. */
  lemma {:induction false} CutSomewhere(frames: seq<Bytes>, k: nat) returns (n: nat, j: nat)
    requires (forall f :: f in frames ==> Sendable(f)) && k < |Wire(frames)|
    ensures n < |frames| && j < 4 + |frames[n]|
    ensures Wire(frames)[..k] == Wire(frames[..n]) + Framed(frames[n])[..j]
  {
    var first := Framed(frames[0]);
    if k < |first| {
      n, j := 0, k;
      assert Wire(frames)[..k] == first[..k];
      assert frames[..0] == [];
    } else {
      n, j := CutSomewhere(frames[1..], k - |first|);
      assert Wire(frames)[..k] == first + Wire(frames[1..])[..k - |first|];
      assert frames[..n + 1][1..] == frames[1..][..n];
      assert Wire(frames[..n + 1]) == first + Wire(frames[1..][..n]);
      n := n + 1;
    }
  }

  /** The same for any cut: the peer reads a prefix of what was sent. */
  lemma AnyCutReadsAPrefix(frames: seq<Bytes>, k: nat)
    requires (forall f :: f in frames ==> Sendable(f)) && k <= |Wire(frames)|
    ensures Read(Wire(frames)[..k]).frames <= frames && !Read(Wire(frames)[..k]).refused
    ensures k == |Wire(frames)| ==> Read(Wire(frames)[..k]).frames == frames
  {
    if k < |Wire(frames)| {
      var n, j := CutSomewhere(frames, k);
      ReadsWhatIsWhole(frames[..n], frames[n], j);
    } else {
      var none: Bytes := [];
      ReadsWhatIsWhole(frames, none, 0);
      assert Wire(frames) + Framed(none)[..0] == Wire(frames)[..k];
    }
  }

  /** The limit is 1 MiB, for the writer and for the reader. */
  lemma FrameLimit(frame: Bytes, stream: Bytes)
    ensures Sendable(frame) <==> |frame| <= 1_048_576
    ensures |stream| >= 4 && ReadBe32(stream) > 1_048_576 ==> Read(stream) == Reading([], true)
    ensures |stream| >= 4 && ReadBe32(stream) <= 1_048_576 && |stream| < 4 + ReadBe32(stream) ==> Read(stream) == Reading([], false)
  {
    hide ReadBe32;
  }
}
