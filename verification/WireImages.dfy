/** What the bytes on the wire are, as the protocol document fixes them: byte order, and the image of each message. */
module WireImages {
  import opened Wire
  import opened FrameCodec
  import opened OpenPayload
  import opened ControlPayloads
  import opened Messages

  /** Alphabetical order of byte strings of one length. */
  predicate Precedes(a: seq<Byte>, b: seq<Byte>)
    requires |a| == |b|
  {
    |a| > 0 && (a[0] < b[0] || (a[0] == b[0] && Precedes(a[1..], b[1..])))
  }

  lemma FourInOrder(a: seq<Byte>, b: seq<Byte>)
    requires |a| == |b| == 4
    ensures Precedes(a, b) <==>
            || a[0] < b[0]
            || (a[0] == b[0] && (a[1] < b[1] || (a[1] == b[1] && (a[2] < b[2] || (a[2] == b[2] && a[3] < b[3])))))
  {
    PrecedesOne(a[3..], b[3..]);
    assert a[2..][1..] == a[3..] && b[2..][1..] == b[3..];
    assert Precedes(a[2..], b[2..]) <==> a[2] < b[2] || (a[2] == b[2] && a[3] < b[3]);
    assert a[1..][1..] == a[2..] && b[1..][1..] == b[2..];
  }

  lemma PrecedesOne(a: seq<Byte>, b: seq<Byte>)
    requires |a| == |b| == 1
    ensures Precedes(a, b) <==> a[0] < b[0]
  {
    assert a[1..] == [] && b[1..] == [];
    assert !Precedes(a[1..], b[1..]);
  }

  /** Numbers are written most significant byte first: they stand in the order of their images. */
  lemma NumbersInOrder(v: U32, w: U32)
    ensures v < w <==> Precedes(EncodeU32(v), EncodeU32(w))
  {
    hide EncodeU32;
    FourInOrder(EncodeU32(v), EncodeU32(w));
    U32RoundTrip(v);
    U32RoundTrip(w);
    DigitsInOrder(EncodeU32(v), EncodeU32(w));
  }

  lemma DigitsInOrder(a: seq<Byte>, b: seq<Byte>)
    requires |a| == |b| == 4
    ensures DecodeU32(a) < DecodeU32(b) <==>
            || a[0] < b[0]
            || (a[0] == b[0] && (a[1] < b[1] || (a[1] == b[1] && (a[2] < b[2] || (a[2] == b[2] && a[3] < b[3])))))
  {
  }

  /** A frame is its type, its flags, its stream, its length and its payload, at the documented offsets. */
  lemma EnvelopeImage(f: Frame)
    requires |f.payload| < U32_LIMIT
    ensures EncodeFrame(f) == [f.kind, f.flags] + EncodeU32(f.id) + EncodeU32(|f.payload|) + f.payload
  {
    assert |f.payload| % U32_LIMIT == |f.payload|;
  }

  lemma SmallNumber(n: nat)
    requires n < 256
    ensures EncodeU32(n) == [0, 0, 0, n as Byte]
  {
  }

  lemma MixedNumber()
    ensures EncodeU32(0x0102_0304) == [1, 2, 3, 4]
  {
  }

  /** The header in front of a short payload on a stream with a small number. */
  lemma ShortFrame(f: Frame)
    requires f.id < 256 && |f.payload| < 256
    ensures EncodeFrame(f) == [f.kind, f.flags, 0, 0, 0, f.id as Byte, 0, 0, 0, |f.payload| as Byte] + f.payload
  {
    hide EncodeU32;
    SmallNumber(f.id);
    SmallNumber(|f.payload|);
    assert |f.payload| % U32_LIMIT == |f.payload|;
  }

  /** DATA: flag 1 is the half-close, flag 2 selects stderr. */
  lemma DataImage(end: bool, channel: Channel, bytes: seq<Byte>)
    requires |bytes| < 256
    ensures EncodeMsg(DataMsg(1, end, channel, bytes)) ==
            [2, if end && channel.Stderr? then 3 else if channel.Stderr? then 2 else if end then 1 else 0, 0, 0, 0, 1, 0, 0, 0, |bytes| as Byte] + bytes
  {
    hide EncodeFrame;
    ShortFrame(ToFrame(DataMsg(1, end, channel, bytes)));
  }

  lemma CreditImage()
    ensures EncodeMsg(CreditMsg(1, 0x0102_0304)) == [3, 0, 0, 0, 0, 1, 0, 0, 0, 4] + [1, 2, 3, 4]
  {
    hide EncodeFrame, EncodeU32;
    MixedNumber();
    ShortFrame(ToFrame(CreditMsg(1, 0x0102_0304)));
  }

  /** EXIT: kind, then the code as big-endian two's complement. */
  lemma ExitImages()
    ensures EncodeMsg(ExitMsg(1, ExitStatus(Exited, 0x0102_0304))) == [4, 1, 0, 0, 0, 1, 0, 0, 0, 5] + [0, 1, 2, 3, 4]
    ensures EncodeMsg(ExitMsg(1, ExitStatus(Signaled, 9))) == [4, 1, 0, 0, 0, 1, 0, 0, 0, 5] + [1, 0, 0, 0, 9]
    ensures EncodeMsg(ExitMsg(1, ExitStatus(Terminated, -2))) == [4, 1, 0, 0, 0, 1, 0, 0, 0, 5] + [2, 255, 255, 255, 254]
  {
    ExitPayloads();
    hide EncodeFrame, EncodeExit, EncodeU32;
    ShortFrame(ToFrame(ExitMsg(1, ExitStatus(Exited, 0x0102_0304))));
    ShortFrame(ToFrame(ExitMsg(1, ExitStatus(Signaled, 9))));
    ShortFrame(ToFrame(ExitMsg(1, ExitStatus(Terminated, -2))));
  }

  lemma ExitPayloads()
    ensures EncodeExit(ExitStatus(Exited, 0x0102_0304)) == [0, 1, 2, 3, 4]
    ensures EncodeExit(ExitStatus(Signaled, 9)) == [1, 0, 0, 0, 9]
    ensures EncodeExit(ExitStatus(Terminated, -2)) == [2, 255, 255, 255, 254]
  {
  }

  lemma ConnectionImages()
    ensures EncodeMsg(PingMsg) == [5, 0, 0, 0, 0, 0, 0, 0, 0, 0]
    ensures EncodeMsg(PongMsg) == [6, 0, 0, 0, 0, 0, 0, 0, 0, 0]
    ensures EncodeMsg(GoAwayMsg) == [7, 0, 0, 0, 0, 0, 0, 0, 0, 0]
  {
    hide EncodeFrame;
    ShortFrame(ToFrame(PingMsg));
    ShortFrame(ToFrame(PongMsg));
    ShortFrame(ToFrame(GoAwayMsg));
  }

  /** OPEN: version, argument count, each argument with its length, the working directory with its length. */
  lemma OpenImage()
    ensures EncodeMsg(OpenMsg(1, OpenRequest([[104, 105], []], [47]))) ==
            [1, 0, 0, 0, 0, 1, 0, 0, 0, 20] + [1, 0, 0, 0, 2, 0, 0, 0, 2, 104, 105, 0, 0, 0, 0, 0, 0, 0, 1, 47]
  {
    hide EncodeFrame;
    SampleOpen();
    ShortFrame(ToFrame(OpenMsg(1, OpenRequest([[104, 105], []], [47]))));
  }

  lemma SampleOpen()
    ensures EncodeOpen(OpenRequest([[104, 105], []], [47])) == [1, 0, 0, 0, 2, 0, 0, 0, 2, 104, 105, 0, 0, 0, 0, 0, 0, 0, 1, 47]
  {
    var argv: seq<seq<Byte>> := [[104, 105], []];
    SmallNumber(0);
    SmallNumber(1);
    SmallNumber(2);
    hide EncodeU32;
    assert argv[1..] == [[]] && argv[1..][1..] == [];
    assert EncodeStrings(argv[1..]) == EncodeString([]) + EncodeStrings([]);
    assert EncodeStrings(argv) == [0, 0, 0, 2, 104, 105, 0, 0, 0, 0];
  }
}
