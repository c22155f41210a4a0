/** The version-1 OPEN payload: bounds, encoder and bounds-checked decoder. */
module OpenPayload {
  import opened Wire
  import opened Options

  const MAX_ARGC := 1024
  const MAX_ARGUMENT_BYTES := 128 * 1024
  const MAX_CWD_BYTES := 32 * 1024
  const OPEN_VERSION: Byte := 1

  /** What a controller asks a node to start; `argv[0]` is the program. */
  datatype OpenRequest = OpenRequest(argv: seq<seq<Byte>>, cwd: seq<Byte>)

  predicate ValidString(s: seq<Byte>, max: nat) {
    |s| <= max && 0 !in s
  }

  /** `validateOpenRequest`. */
  predicate Valid(r: OpenRequest) {
    && 0 < |r.argv| <= MAX_ARGC
    && r.argv[0] != []
    && (forall i | 0 <= i < |r.argv| :: ValidString(r.argv[i], MAX_ARGUMENT_BYTES))
    && ValidString(r.cwd, MAX_CWD_BYTES)
  }

  function EncodeString(s: seq<Byte>): seq<Byte> {
    EncodeU32(|s| % U32_LIMIT) + s
  }

  function EncodeStrings(argv: seq<seq<Byte>>): seq<Byte> {
    if argv == [] then [] else EncodeString(argv[0]) + EncodeStrings(argv[1..])
  }

  /** `encodeOpen`. */
  function EncodeOpen(r: OpenRequest): seq<Byte> {
    [OPEN_VERSION] + EncodeCounted(r)
  }

  function EncodeCounted(r: OpenRequest): seq<Byte> {
    EncodeU32(|r.argv| % U32_LIMIT) + (EncodeStrings(r.argv) + EncodeString(r.cwd))
  }

  /** What a cursor read yields: the value and the unread remainder. */
  datatype Taken<T> = Taken(value: T, rest: seq<Byte>)

  function TakeU32(s: seq<Byte>): Option<Taken<U32>> {
    if |s| < 4 then None else Some(Taken(DecodeU32(s[..4]), s[4..]))
  }

  function TakeString(s: seq<Byte>, max: nat): Option<Taken<seq<Byte>>> {
    match TakeU32(s)
    case None => None
    case Some(Taken(len, rest)) =>
      if len > max || |rest| < len then None else Some(Taken(rest[..len], rest[len..]))
  }

  function TakeStrings(s: seq<Byte>, count: nat): Option<Taken<seq<seq<Byte>>>>
    decreases count
  {
    if count == 0 then Some(Taken([], s))
    else
      match TakeString(s, MAX_ARGUMENT_BYTES)
      case None => None
      case Some(Taken(arg, rest)) =>
        match TakeStrings(rest, count - 1)
        case None => None
        case Some(Taken(args, rest')) => Some(Taken([arg] + args, rest'))
  }

  /** What follows the version byte and the argument count. */
  function DecodeBody(s: seq<Byte>, argc: nat): Option<OpenRequest> {
    match TakeStrings(s, argc)
    case None => None
    case Some(Taken(argv, rest)) =>
      match TakeString(rest, MAX_CWD_BYTES)
      case None => None
      case Some(Taken(cwd, rest')) =>
        if rest' == [] && Valid(OpenRequest(argv, cwd)) then Some(OpenRequest(argv, cwd)) else None
  }

  function DecodeCounted(s: seq<Byte>): Option<OpenRequest> {
    match TakeU32(s)
    case None => None
    case Some(Taken(argc, rest)) => if argc > MAX_ARGC then None else DecodeBody(rest, argc)
  }

  /** `decodeOpen` as a function of the payload. */
  function DecodeOpen(payload: seq<Byte>): Option<OpenRequest> {
    if payload == [] || payload[0] != OPEN_VERSION then None else DecodeCounted(payload[1..])
  }

  lemma TakeEncodedU32(v: U32, tail: seq<Byte>)
    ensures TakeU32(EncodeU32(v) + tail) == Some(Taken(v, tail))
  {
    U32RoundTrip(v);
    assert (EncodeU32(v) + tail)[..4] == EncodeU32(v);
    assert (EncodeU32(v) + tail)[4..] == tail;
  }

  lemma TakenU32IsEncoded(s: seq<Byte>)
    requires TakeU32(s).Some?
    ensures s == EncodeU32(TakeU32(s).value.value) + TakeU32(s).value.rest
  {
    U32Canonical(s[..4]);
  }

  lemma EncodedStringFront(x: seq<Byte>, tail: seq<Byte>)
    requires |x| < U32_LIMIT
    ensures EncodeString(x) + tail == EncodeU32(|x|) + (x + tail)
  {
    hide EncodeU32;
  }

  lemma TakeEncodedString(max: nat, x: seq<Byte>, tail: seq<Byte>)
    requires |x| <= max < U32_LIMIT
    ensures TakeString(EncodeString(x) + tail, max) == Some(Taken(x, tail))
  {
    hide EncodeString, EncodeU32, DecodeU32, TakeU32;
    EncodedStringFront(x, tail);
    TakeEncodedU32(|x|, x + tail);
    assert (x + tail)[..|x|] == x && (x + tail)[|x|..] == tail;
  }

  lemma TakenStringIsEncoded(s: seq<Byte>, max: nat)
    requires max < U32_LIMIT && TakeString(s, max).Some?
    ensures |TakeString(s, max).value.value| <= max
    ensures s == EncodeString(TakeString(s, max).value.value) + TakeString(s, max).value.rest
  {
    hide EncodeString, EncodeU32, DecodeU32, TakeU32;
    var n, rest := TakeU32(s).value.value, TakeU32(s).value.rest;
    TakenU32IsEncoded(s);
    EncodedStringFront(rest[..n], rest[n..]);
    assert rest[..n] + rest[n..] == rest;
  }

  /** A string is read back exactly when the input starts with its bounded encoding. */
  lemma TakeStringIff(s: seq<Byte>, max: nat, x: seq<Byte>, tail: seq<Byte>)
    requires max < U32_LIMIT
    ensures TakeString(s, max) == Some(Taken(x, tail)) <==> |x| <= max && s == EncodeString(x) + tail
  {
    hide EncodeString, TakeString;
    if |x| <= max && s == EncodeString(x) + tail {
      TakeEncodedString(max, x, tail);
    }
    if TakeString(s, max) == Some(Taken(x, tail)) {
      TakenStringIsEncoded(s, max);
    }
  }

  /** A length prefix per string. */
  function EncodedLength(argv: seq<seq<Byte>>): nat {
    if argv == [] then 0 else 4 + |argv[0]| + EncodedLength(argv[1..])
  }

  lemma {:induction false} StringsLength(argv: seq<seq<Byte>>)
    ensures |EncodeStrings(argv)| == EncodedLength(argv)
  {
    if argv != [] { StringsLength(argv[1..]); }
  }

  lemma {:induction false} LengthIsBounded(argv: seq<seq<Byte>>)
    requires forall i | 0 <= i < |argv| :: |argv[i]| <= MAX_ARGUMENT_BYTES
    ensures EncodedLength(argv) <= |argv| * (4 + MAX_ARGUMENT_BYTES)
  {
    if argv != [] { LengthIsBounded(argv[1..]); }
  }

  /** The payload's length, and that a valid request's payload has a 32-bit one. */
  lemma OpenLength(r: OpenRequest)
    ensures |EncodeOpen(r)| == 9 + EncodedLength(r.argv) + |r.cwd|
    ensures Valid(r) ==> |EncodeOpen(r)| < U32_LIMIT
  {
    hide EncodeStrings, EncodedLength, EncodeU32;
    StringsLength(r.argv);
    if Valid(r) {
      forall i | 0 <= i < |r.argv| ensures |r.argv[i]| <= MAX_ARGUMENT_BYTES {
        assert ValidString(r.argv[i], MAX_ARGUMENT_BYTES);
      }
      LengthIsBounded(r.argv);
    }
  }

  predicate AllFit(argv: seq<seq<Byte>>) {
    forall i | 0 <= i < |argv| :: |argv[i]| <= MAX_ARGUMENT_BYTES
  }

  lemma AllFitCons(x: seq<Byte>, xs: seq<seq<Byte>>)
    requires |x| <= MAX_ARGUMENT_BYTES && AllFit(xs)
    ensures AllFit([x] + xs)
  {
  }

  lemma StringsFromParts(s: seq<Byte>, x: seq<Byte>, rest: seq<Byte>, xs: seq<seq<Byte>>, tail: seq<Byte>)
    requires s == EncodeString(x) + rest && rest == EncodeStrings(xs) + tail
    ensures s == EncodeStrings([x] + xs) + tail
  {
    assert ([x] + xs)[1..] == xs;
  }

  lemma {:induction false} TakeEncodedStrings(argv: seq<seq<Byte>>, tail: seq<Byte>)
    requires AllFit(argv)
    ensures TakeStrings(EncodeStrings(argv) + tail, |argv|) == Some(Taken(argv, tail))
    decreases |argv|
  {
    if argv == [] {
      assert EncodeStrings(argv) + tail == tail;
    } else {
      var rest := EncodeStrings(argv[1..]) + tail;
      assert argv == [argv[0]] + argv[1..];
      StringsFromParts(EncodeString(argv[0]) + rest, argv[0], rest, argv[1..], tail);
      TakeStringIff(EncodeString(argv[0]) + rest, MAX_ARGUMENT_BYTES, argv[0], rest);
      TakeEncodedStrings(argv[1..], tail);
    }
  }

  lemma {:induction false} TakenStringsAreEncoded(s: seq<Byte>, count: nat)
    requires TakeStrings(s, count).Some?
    ensures |TakeStrings(s, count).value.value| == count
    ensures AllFit(TakeStrings(s, count).value.value)
    ensures s == EncodeStrings(TakeStrings(s, count).value.value) + TakeStrings(s, count).value.rest
    decreases count
  {
    if count > 0 {
      var first := TakeString(s, MAX_ARGUMENT_BYTES).value;
      TakeStringIff(s, MAX_ARGUMENT_BYTES, first.value, first.rest);
      TakenStringsAreEncoded(first.rest, count - 1);
      var others := TakeStrings(first.rest, count - 1).value;
      AllFitCons(first.value, others.value);
      StringsFromParts(s, first.value, first.rest, others.value, others.rest);
    }
  }

  lemma DecodeBodyIff(s: seq<Byte>, argc: nat, r: OpenRequest)
    ensures DecodeBody(s, argc) == Some(r) <==>
            Valid(r) && argc == |r.argv| && s == EncodeStrings(r.argv) + EncodeString(r.cwd)
  {
    if DecodeBody(s, argc) == Some(r) {
      var rest := TakeStrings(s, argc).value.rest;
      TakenStringsAreEncoded(s, argc);
      TakeStringIff(rest, MAX_CWD_BYTES, r.cwd, []);
      assert rest == EncodeString(r.cwd);
    }
    if Valid(r) && argc == |r.argv| && s == EncodeStrings(r.argv) + EncodeString(r.cwd) {
      TakeEncodedStrings(r.argv, EncodeString(r.cwd));
      assert EncodeString(r.cwd) + [] == EncodeString(r.cwd);
      TakeStringIff(EncodeString(r.cwd), MAX_CWD_BYTES, r.cwd, []);
    }
  }

  lemma DecodeCountedSound(s: seq<Byte>, r: OpenRequest)
    requires DecodeCounted(s) == Some(r)
    ensures Valid(r) && s == EncodeCounted(r)
  {
    var counted := TakeU32(s).value;
    DecodeBodyIff(counted.rest, counted.value, r);
    TakenU32IsEncoded(s);
    CountedFromParts(s, counted.value, counted.rest, r);
  }

  lemma CountedFromParts(s: seq<Byte>, argc: U32, rest: seq<Byte>, r: OpenRequest)
    requires argc == |r.argv| && s == EncodeU32(argc) + rest && rest == EncodeStrings(r.argv) + EncodeString(r.cwd)
    ensures s == EncodeCounted(r)
  {
    assert |r.argv| % U32_LIMIT == argc;
  }

  lemma DecodeCountedComplete(r: OpenRequest)
    requires Valid(r)
    ensures DecodeCounted(EncodeCounted(r)) == Some(r)
  {
    var body := EncodeStrings(r.argv) + EncodeString(r.cwd);
    assert |r.argv| % U32_LIMIT == |r.argv|;
    TakeEncodedU32(|r.argv|, body);
    DecodeBodyIff(body, |r.argv|, r);
  }

  /** A payload is accepted exactly when it is the encoding of a valid request, and then decodes to that request. */
  lemma DecodeOpenIff(payload: seq<Byte>, r: OpenRequest)
    ensures DecodeOpen(payload) == Some(r) <==> Valid(r) && payload == EncodeOpen(r)
  {
    if payload != [] {
      assert payload == [payload[0]] + payload[1..];
      assert EncodeOpen(r)[1..] == EncodeCounted(r);
      if DecodeOpen(payload) == Some(r) {
        DecodeCountedSound(payload[1..], r);
      }
      if Valid(r) && payload == EncodeOpen(r) {
        DecodeCountedComplete(r);
      }
    }
  }

  /** The argument loop of `decodeOpen`, advancing one cursor. */
  method ReadArguments(s: seq<Byte>, argc: nat) returns (result: Option<Taken<seq<seq<Byte>>>>)
    ensures result == TakeStrings(s, argc)
  {
    var cursor, i := s, 0;
    var argv: seq<seq<Byte>> := [];
    PrependNothing(TakeStrings(s, argc));
    while i < argc
      invariant 0 <= i <= argc
      invariant TakeStrings(s, argc) == Prepend(argv, TakeStrings(cursor, argc - i))
    {
      var arg := TakeString(cursor, MAX_ARGUMENT_BYTES);
      if arg.None? {
        return None;
      }
      PrependOne(argv, arg.value.value, TakeStrings(arg.value.rest, argc - i - 1));
      argv := argv + [arg.value.value];
      cursor := arg.value.rest;
      i := i + 1;
    }
    assert argv + [] == argv;
    result := Some(Taken(argv, cursor));
  }

  function Prepend(argv: seq<seq<Byte>>, r: Option<Taken<seq<seq<Byte>>>>): Option<Taken<seq<seq<Byte>>>> {
    if r.None? then None else Some(Taken(argv + r.value.value, r.value.rest))
  }

  lemma PrependNothing(r: Option<Taken<seq<seq<Byte>>>>)
    ensures Prepend([], r) == r
  {
    if r.Some? {
      assert [] + r.value.value == r.value.value;
    }
  }

  lemma PrependOne(argv: seq<seq<Byte>>, arg: seq<Byte>, r: Option<Taken<seq<seq<Byte>>>>)
    ensures Prepend(argv + [arg], r) == Prepend(argv, Prepend([arg], r))
  {
    if r.Some? {
      assert argv + [arg] + r.value.value == argv + ([arg] + r.value.value);
    }
  }
}

/** The EXIT and WINDOW_UPDATE payloads. */
module ControlPayloads {
  import opened Wire
  import opened Options

  datatype ExitKind = Exited | Signaled | Terminated

  type I32 = n: int | -0x8000_0000 <= n < 0x8000_0000

  /** A stage's outcome. */
  datatype ExitStatus = ExitStatus(kind: ExitKind, code: I32)

  function KindByte(k: ExitKind): Byte {
    match k case Exited => 0 case Signaled => 1 case Terminated => 2
  }

  /** Two's-complement bits of a 32-bit signed integer, and back. */
  function ToBits(code: I32): U32 {
    if code < 0 then code + U32_LIMIT else code
  }

  function FromBits(bits: U32): I32 {
    if bits >= 0x8000_0000 then bits - U32_LIMIT else bits
  }

  function EncodeExit(s: ExitStatus): seq<Byte> {
    [KindByte(s.kind)] + EncodeU32(ToBits(s.code))
  }

  function DecodeExit(payload: seq<Byte>): Option<ExitStatus> {
    if |payload| != 5 || payload[0] > 2 then None
    else
      var kind := if payload[0] == 0 then Exited else if payload[0] == 1 then Signaled else Terminated;
      Some(ExitStatus(kind, FromBits(DecodeU32(payload[1..]))))
  }

  function EncodeWindowUpdate(delta: U32): seq<Byte> {
    EncodeU32(delta)
  }

  function DecodeWindowUpdate(payload: seq<Byte>): Option<U32> {
    if |payload| != 4 || DecodeU32(payload) == 0 then None else Some(DecodeU32(payload))
  }

  /** EXIT payloads are accepted exactly when they encode a status. */
  lemma DecodeExitIff(payload: seq<Byte>, s: ExitStatus)
    ensures DecodeExit(payload) == Some(s) <==> payload == EncodeExit(s)
  {
    if DecodeExit(payload) == Some(s) {
      U32Canonical(payload[1..]);
      assert payload == [payload[0]] + payload[1..];
    }
    if payload == EncodeExit(s) {
      U32RoundTrip(ToBits(s.code));
      assert payload[1..] == EncodeU32(ToBits(s.code));
    }
  }

  /** Credit grants are accepted exactly when they encode a nonzero delta. */
  lemma DecodeWindowUpdateIff(payload: seq<Byte>, delta: U32)
    ensures DecodeWindowUpdate(payload) == Some(delta) <==> delta != 0 && payload == EncodeWindowUpdate(delta)
  {
    U32RoundTrip(delta);
    if |payload| == 4 {
      U32Canonical(payload);
    }
  }
}
