/** The psx/1 frame envelope: encoder, streaming decoder and a one-shot reference parser. */
module FrameCodec {
  import opened Wire

  /** One protocol frame; `kind` is the opaque type byte. */
  datatype Frame = Frame(kind: Byte, flags: Byte, id: U32, payload: seq<Byte>)

  const HEADER_SIZE := 10
  const DEFAULT_MAX_PAYLOAD := 16 * 1024 * 1024

  /** A frame that fits the envelope under the payload limit `max`. */
  predicate Fits(f: Frame, max: nat) {
    |f.payload| <= max < U32_LIMIT
  }

  /** `encodeFrame`: header followed by payload; the length field is the payload size cast to 32 bits. */
  function EncodeFrame(f: Frame): (s: seq<Byte>)
    ensures |s| == HEADER_SIZE + |f.payload|
  {
    [f.kind, f.flags] + EncodeU32(f.id) + EncodeU32(|f.payload| % U32_LIMIT) + f.payload
  }

  function EncodeAll(fs: seq<Frame>): seq<Byte> {
    if fs == [] then [] else EncodeFrame(fs[0]) + EncodeAll(fs[1..])
  }

  /** What the front of a byte buffer holds. */
  datatype Front = Partial | TooLong | Complete(frame: Frame, size: nat)

  function ParseFront(buffer: seq<Byte>, max: nat): (r: Front)
    ensures r.Complete? ==> HEADER_SIZE <= r.size <= |buffer| && r.size == HEADER_SIZE + |r.frame.payload|
    ensures r.Complete? ==> |r.frame.payload| <= max
  {
    if |buffer| < HEADER_SIZE then Partial
    else
      var length := DecodeU32(buffer[6..10]);
      if length > max then TooLong
      else if |buffer| < HEADER_SIZE + length then Partial
      else Complete(Frame(buffer[0], buffer[1], DecodeU32(buffer[2..6]), buffer[HEADER_SIZE..HEADER_SIZE + length]),
                    HEADER_SIZE + length)
  }

  /** Result of parsing a whole byte sequence: frames in order, then an incomplete tail or a poisoned decoder. */
  datatype Parsed = Parsed(frames: seq<Frame>, rest: seq<Byte>, failed: bool)

  function ParseAll(buffer: seq<Byte>, max: nat): (r: Parsed)
    decreases |buffer|
  {
    match ParseFront(buffer, max)
    case Partial => Parsed([], buffer, false)
    case TooLong => Parsed([], buffer, true)
    case Complete(f, n) =>
      var tail := ParseAll(buffer[n..], max);
      Parsed([f] + tail.frames, tail.rest, tail.failed)
  }

  /** The decoder keeps less than one maximal frame. */
  lemma {:induction false} RestIsBounded(buffer: seq<Byte>, max: nat)
    ensures !ParseAll(buffer, max).failed ==> |ParseAll(buffer, max).rest| < HEADER_SIZE + max
    decreases |buffer|
  {
    match ParseFront(buffer, max)
    case Complete(_, n) => RestIsBounded(buffer[n..], max);
    case _ =>
  }

  /** A front that is already decided does not change when more bytes arrive. */
  lemma FrontIsStable(a: seq<Byte>, b: seq<Byte>, max: nat)
    ensures !ParseFront(a, max).Partial? ==> ParseFront(a + b, max) == ParseFront(a, max)
  {
    if |a| >= HEADER_SIZE {
      assert (a + b)[6..10] == a[6..10];
      assert (a + b)[2..6] == a[2..6];
      var length := DecodeU32(a[6..10]);
      if HEADER_SIZE + length <= |a| {
        assert (a + b)[HEADER_SIZE..HEADER_SIZE + length] == a[HEADER_SIZE..HEADER_SIZE + length];
      }
    }
  }

  function Then(first: Parsed, second: Parsed): Parsed {
    Parsed(first.frames + second.frames, second.rest, second.failed)
  }

  /** Parsing in two instalments gives the frames and the verdict of parsing at once. */
  lemma {:induction false} ParseSplit(a: seq<Byte>, b: seq<Byte>, max: nat)
    ensures ParseAll(a, max).failed ==>
              ParseAll(a + b, max).failed && ParseAll(a + b, max).frames == ParseAll(a, max).frames
    ensures !ParseAll(a, max).failed ==>
              ParseAll(a + b, max) == Then(ParseAll(a, max), ParseAll(ParseAll(a, max).rest + b, max))
    decreases |a|
  {
    FrontIsStable(a, b, max);
    match ParseFront(a, max)
    case Partial =>
      var second := ParseAll(a + b, max);
      assert [] + second.frames == second.frames;
    case TooLong =>
    case Complete(f, n) =>
      assert (a + b)[n..] == a[n..] + b;
      ParseSplit(a[n..], b, max);
      ThenPrepend(f, ParseAll(a[n..], max), ParseAll(ParseAll(a[n..], max).rest + b, max));
  }

  lemma ThenPrepend(f: Frame, first: Parsed, second: Parsed)
    ensures Then(Parsed([f] + first.frames, first.rest, first.failed), second).frames == [f] + Then(first, second).frames
  {
  }

  function Concat(chunks: seq<seq<Byte>>): seq<Byte> {
    if chunks == [] then [] else Concat(chunks[..|chunks| - 1]) + chunks[|chunks| - 1]
  }

  /** What a decoder has emitted after pushing `chunks` one by one; a failed push poisons it. */
  function PushAll(chunks: seq<seq<Byte>>, max: nat): Parsed {
    if chunks == [] then Parsed([], [], false)
    else
      var before := PushAll(chunks[..|chunks| - 1], max);
      if before.failed then before
      else
        Then(before, ParseAll(before.rest + chunks[|chunks| - 1], max))
  }

  /** Decoding depends only on the concatenated bytes, whatever the chunking. */
  lemma {:induction false} ChunkingIsIrrelevant(chunks: seq<seq<Byte>>, max: nat)
    ensures PushAll(chunks, max).frames == ParseAll(Concat(chunks), max).frames
    ensures PushAll(chunks, max).failed == ParseAll(Concat(chunks), max).failed
    ensures !PushAll(chunks, max).failed ==> PushAll(chunks, max).rest == ParseAll(Concat(chunks), max).rest
  {
    if chunks != [] {
      var init, last := chunks[..|chunks| - 1], chunks[|chunks| - 1];
      ChunkingIsIrrelevant(init, max);
      ParseSplit(Concat(init), last, max);
    }
  }

  /** The front of an encoded frame followed by anything is that frame. */
  lemma FrontOfEncoded(f: Frame, tail: seq<Byte>, max: nat)
    requires Fits(f, max)
    ensures ParseFront(EncodeFrame(f) + tail, max) == Complete(f, HEADER_SIZE + |f.payload|)
  {
    hide EncodeFrame, EncodeU32, DecodeU32;
    EncodedSlices(f, tail);
    U32RoundTrip(|f.payload|);
    U32RoundTrip(f.id);
  }

  lemma EncodedSlices(f: Frame, tail: seq<Byte>)
    requires |f.payload| < U32_LIMIT
    ensures var s := EncodeFrame(f) + tail;
            && s[0] == f.kind && s[1] == f.flags && s[2..6] == EncodeU32(f.id) && s[6..10] == EncodeU32(|f.payload|)
            && s[HEADER_SIZE..HEADER_SIZE + |f.payload|] == f.payload
  {
    hide EncodeU32;
  }

  /** A proper prefix of an encoded frame is incomplete, never an error. */
  lemma PartialOfEncoded(f: Frame, n: nat, max: nat)
    requires Fits(f, max) && n < HEADER_SIZE + |f.payload|
    ensures ParseFront(EncodeFrame(f)[..n], max) == Partial
  {
    var s := EncodeFrame(f);
    FrontOfEncoded(f, [], max);
    assert s + [] == s && s[..n] + s[n..] == s;
    FrontIsStable(s[..n], s[n..], max);
  }

  /** The decoder inverts the encoder on every frame list. */
  lemma {:induction false} DecodeInvertsEncode(fs: seq<Frame>, max: nat)
    requires forall f | f in fs :: Fits(f, max)
    ensures ParseAll(EncodeAll(fs), max) == Parsed(fs, [], false)
  {
    if fs != [] {
      FrontOfEncoded(fs[0], EncodeAll(fs[1..]), max);
      assert EncodeAll(fs)[HEADER_SIZE + |fs[0].payload|..] == EncodeAll(fs[1..]);
      DecodeInvertsEncode(fs[1..], max);
    }
  }

  lemma EncodeCons(f: Frame, fs: seq<Frame>)
    ensures EncodeAll([f] + fs) == EncodeFrame(f) + EncodeAll(fs)
  {
    assert ([f] + fs)[1..] == fs;
  }

  lemma Rejoin(buffer: seq<Byte>, n: nat, x: seq<Byte>, y: seq<Byte>)
    requires n <= |buffer| && x + y == buffer[n..]
    ensures (buffer[..n] + x) + y == buffer
  {
  }

  /** The encoder inverts the decoder: the bytes consumed are exactly the encodings of the frames emitted. */
  lemma {:induction false} EncodeInvertsDecode(buffer: seq<Byte>, max: nat)
    requires max < U32_LIMIT
    ensures EncodeAll(ParseAll(buffer, max).frames) + ParseAll(buffer, max).rest == buffer
    decreases |buffer|
  {
    var front := ParseFront(buffer, max);
    if front.Complete? {
      var tail := ParseAll(buffer[front.size..], max);
      EncodeInvertsDecode(buffer[front.size..], max);
      FrontIsCanonical(buffer, max);
      EncodeCons(front.frame, tail.frames);
      Rejoin(buffer, front.size, EncodeAll(tail.frames), tail.rest);
    }
  }

  lemma FrontIsCanonical(buffer: seq<Byte>, max: nat)
    requires max < U32_LIMIT && ParseFront(buffer, max).Complete?
    ensures EncodeFrame(ParseFront(buffer, max).frame) == buffer[..ParseFront(buffer, max).size]
  {
    var n := ParseFront(buffer, max).size;
    var idBytes, lengthBytes := buffer[2..6], buffer[6..10];
    U32Canonical(idBytes);
    U32Canonical(lengthBytes);
    assert |ParseFront(buffer, max).frame.payload| % U32_LIMIT == DecodeU32(lengthBytes);
    HeaderSlices(buffer, n);
  }

  lemma HeaderSlices(buffer: seq<Byte>, n: nat)
    requires HEADER_SIZE <= n <= |buffer|
    ensures buffer[..n] == [buffer[0], buffer[1]] + buffer[2..6] + buffer[6..10] + buffer[10..n]
  {
  }

  lemma EmitFront(frames: seq<Frame>, buffer: seq<Byte>, max: nat)
    requires ParseFront(buffer, max).Complete?
    ensures var front := ParseFront(buffer, max);
            Then(Parsed(frames, [], false), ParseAll(buffer, max)) ==
            Then(Parsed(frames + [front.frame], [], false), ParseAll(buffer[front.size..], max))
  {
  }

  lemma NothingMore(frames: seq<Frame>, buffer: seq<Byte>, max: nat)
    requires !ParseFront(buffer, max).Complete?
    ensures Then(Parsed(frames, [], false), ParseAll(buffer, max)) ==
            Parsed(frames, buffer, ParseFront(buffer, max).TooLong?)
  {
  }

  lemma NothingYet(second: Parsed)
    ensures Then(Parsed([], [], false), second) == second
  {
  }

  /** `FrameDecoder`: buffers partial frames and emits complete ones in order. */
  class FrameDecoder {
    var buffer: seq<Byte>
    var failed: bool
    const maxPayload: nat

    constructor (maxPayload: nat)
      ensures this.maxPayload == maxPayload && buffer == [] && !failed
    {
      this.maxPayload := maxPayload;
      buffer := [];
      failed := false;
    }

    method Push(data: seq<Byte>) returns (ok: bool, frames: seq<Frame>)
      modifies this
      ensures old(failed) ==> !ok && frames == [] && failed && buffer == old(buffer)
      ensures !old(failed) ==> frames == ParseAll(old(buffer) + data, maxPayload).frames
      ensures !old(failed) ==> ok == !ParseAll(old(buffer) + data, maxPayload).failed == !failed
      ensures !old(failed) && ok ==> buffer == ParseAll(old(buffer) + data, maxPayload).rest
    {
      frames := [];
      if failed {
        return false, [];
      }
      hide ParseFront, ParseAll, Then;
      buffer := buffer + data;
      var pos := 0;
      NothingYet(ParseAll(buffer, maxPayload));
      var front := ParseFront(buffer, maxPayload);
      assert buffer[pos..] == buffer;
      while front.Complete?
        invariant 0 <= pos <= |buffer|
        invariant buffer == old(buffer) + data && !failed
        invariant front == ParseFront(buffer[pos..], maxPayload)
        invariant ParseAll(buffer, maxPayload) == Then(Parsed(frames, [], false), ParseAll(buffer[pos..], maxPayload))
        decreases |buffer| - pos
      {
        hide ParseFront, ParseAll, Then;
        EmitFront(frames, buffer[pos..], maxPayload);
        assert buffer[pos..][front.size..] == buffer[pos + front.size..];
        frames := frames + [front.frame];
        pos := pos + front.size;
        front := ParseFront(buffer[pos..], maxPayload);
      }
      NothingMore(frames, buffer[pos..], maxPayload);
      if front.TooLong? {
        failed := true;
        return false, frames;
      }
      if pos > 0 {
        buffer := buffer[pos..];
      }
      ok := true;
    }
  }
}
