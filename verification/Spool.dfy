/** The spill file as a byte sequence. Appends may fail unless it is `reliable`, and one failed append poisons it. Reads may
    come back short unless it is `readable`. */
module SpoolFile {
  import opened Wire
  import opened RingBuffer

  /** How many of `n` stored bytes come back when at most `got` can be read. */
  function Back(readable: bool, got: nat, n: nat): nat {
    if readable then n else Least(got, n)
  }

  class SpoolBuffer {
    const reliable: bool
    const readable: bool
    var isOpen: bool
    var file: seq<Byte>
    var size: nat
    var readOffset: nat
    var failed: bool

    constructor (reliable: bool, readable: bool)
      ensures Valid() && Stored() == [] && Unread() == [] && !failed
      ensures this.reliable == reliable && this.readable == readable
    {
      this.reliable, this.readable := reliable, readable;
      isOpen, file, size, readOffset, failed := false, [], 0, 0, false;
    }

    /** Bytes beyond `size` are the remains of a failed write. */
    ghost predicate Valid()
      reads this
    {
      && readOffset <= size <= |file| && (!failed ==> size == |file|) && (!isOpen ==> file == [])
      && (reliable ==> !failed)
    }

    function Stored(): (s: seq<Byte>)
      requires Valid()
      reads this
      ensures |s| == size
    {
      file[..size]
    }

    function Unread(): (s: seq<Byte>)
      requires Valid()
      reads this
      ensures |s| == size - readOffset
    {
      file[readOffset..size]
    }

    predicate Empty()
      reads this
    {
      size == readOffset
    }

    method Append(bytes: seq<Byte>) returns (ok: bool)
      requires Valid()
      modifies this
      ensures Valid() && readOffset == old(readOffset)
      ensures ok ==> Stored() == old(Stored()) + bytes && Unread() == old(Unread()) + bytes
      ensures !ok ==> Stored() == old(Stored()) && Unread() == old(Unread()) && failed
      ensures ok && bytes != [] ==> !old(failed)
      ensures reliable || bytes == [] ==> ok
      ensures old(failed) ==> failed
    {
      if bytes == [] {
        return true;
      }
      if failed {
        return false;
      }
      var works: bool := *;
      if !reliable && !works {
        var partial: nat := *;
        file := file + bytes[..Least(partial, |bytes|)];
        isOpen, failed := true, true;
        return false;
      }
      isOpen := true;
      file := file + bytes;
      size := size + |bytes|;
      ok := true;
    }

    /** Reads and consumes up to `n` bytes: exactly as many as there are, nothing from a poisoned file, or fewer if the
        read itself comes back short. */
    method Read(n: nat) returns (bytes: seq<Byte>)
      requires Valid()
      modifies this`readOffset
      ensures Valid() && Stored() == old(Stored())
      ensures |bytes| <= n && old(Unread()) == bytes + Unread()
      ensures failed ==> bytes == []
      ensures readable && !failed ==> |bytes| == Least(n, |old(Unread())|)
    {
      if !isOpen || n == 0 || Empty() || failed {
        return [];
      }
      var count := Least(n, size - readOffset);
      var got: nat := *;
      if !readable {
        count := Least(got, count);
      }
      bytes := file[readOffset..readOffset + count];
      readOffset := readOffset + count;
    }

    /** Everything stored, or as much of it as comes back: at most `got` bytes unless the file is readable. A poisoned
        file is read all the same. */
    method ReadAll(got: nat) returns (bytes: seq<Byte>)
      requires Valid()
      ensures bytes == Stored()[..Back(readable, got, |Stored()|)]
    {
      if !isOpen || size == 0 {
        return [];
      }
      bytes := file[..if readable then size else Least(got, size)];
    }

    method Reset()
      requires Valid()
      modifies this
      ensures Valid() && Stored() == [] && Unread() == [] && !failed
    {
      isOpen, file, size, readOffset, failed := false, [], 0, 0, false;
    }
  }
}

/** Bounded capture of one output channel. */
module Capture {
  import opened Wire
  import opened RingBuffer
  import opened SpoolFile

  lemma FirstOfFirst(a: seq<Byte>, b: seq<Byte>, cap: nat)
    ensures First(First(a, cap) + b, cap) == First(a + b, cap)
  {
  }

  lemma LastOfLast(a: seq<Byte>, b: seq<Byte>, cap: nat)
    ensures Last(Last(a, cap) + b, cap) == Last(a + b, cap)
  {
  }

  /** What is kept of `all`: the spilled prefix, a gap of `lost` bytes, and the ring as suffix. */
  predicate Gapped(all: seq<Byte>, spilled: seq<Byte>, lost: nat, ring: seq<Byte>) {
    && |spilled| + lost + |ring| == |all|
    && spilled == all[..|spilled|] && ring == all[|all| - |ring|..]
  }

  lemma GrowGap(all: seq<Byte>, spilled: seq<Byte>, lost: nat, ring: seq<Byte>, chunk: seq<Byte>)
    requires Gapped(all, spilled, lost, ring)
    ensures Gapped(all + chunk, spilled, lost, ring + chunk)
  {
  }

  /** Evicting the oldest `n` bytes kept in memory: the spill takes them all, or they join the gap. */
  lemma Evict(all: seq<Byte>, spilled: seq<Byte>, lost: nat, kept: seq<Byte>, n: nat, taken: bool)
    requires Gapped(all, spilled, lost, kept) && n <= |kept| && (taken && n > 0 ==> lost == 0)
    ensures if taken then Gapped(all, spilled + kept[..n], lost, kept[n..]) else Gapped(all, spilled, lost + n, kept[n..])
  {
    if taken && n > 0 {
      assert spilled + kept[..n] == all[..|spilled| + n];
    }
  }

  /** The bytes that overflow are the front of the ring, then the front of the chunk. */
  lemma Overflow(ring: seq<Byte>, chunk: seq<Byte>, cap: nat, fromRing: nat, fromChunk: nat)
    requires |ring| <= cap && fromRing <= |ring|
    requires fromRing + fromChunk == if |chunk| > cap - |ring| then |chunk| - (cap - |ring|) else 0
    requires fromRing == Least(fromRing + fromChunk, |ring|)
    ensures fromChunk <= |chunk| && (fromChunk > 0 ==> fromRing == |ring|)
    ensures (ring + chunk)[..fromRing] == ring[..fromRing]
    ensures (ring + chunk)[fromRing..][..fromChunk] == chunk[..fromChunk]
    ensures (ring + chunk)[fromRing..][fromChunk..] == ring[fromRing..] + chunk[fromChunk..] == Last(ring + chunk, cap)
  {
    hide Last;
    DropTwice(ring + chunk, fromRing, fromChunk);
    DropFront(ring, chunk, fromRing, fromChunk);
    DropToLast(ring + chunk, fromRing + fromChunk, cap);
    OldestOfRing(ring, chunk, fromRing);
  }

  lemma DropToLast(s: seq<Byte>, n: nat, cap: nat)
    requires n <= |s| && |s| - n == Least(|s|, cap)
    ensures s[n..] == Last(s, cap)
  {
  }

  lemma OldestOfRing(ring: seq<Byte>, chunk: seq<Byte>, n: nat)
    requires n <= |ring|
    ensures (ring + chunk)[..n] == ring[..n]
  {
  }

  lemma DropTwice(s: seq<Byte>, a: nat, b: nat)
    requires a + b <= |s|
    ensures s[a..][b..] == s[a + b..] && s[a..][..b] == s[a..a + b]
  {
  }

  lemma DropFront(ring: seq<Byte>, chunk: seq<Byte>, a: nat, b: nat)
    requires a <= |ring| && b <= |chunk| && (b > 0 ==> a == |ring|)
    ensures (ring + chunk)[a + b..] == ring[a..] + chunk[b..] && (ring + chunk)[a..a + b] == chunk[..b]
  {
  }

  /** What is kept of `all` under each policy. */
  predicate Kept(policy: OverflowPolicy, cap: nat, all: seq<Byte>, ring: seq<Byte>, dropped: nat, stored: seq<Byte>, failed: bool) {
    && (cap == 0 ==> ring == all && dropped == 0 && stored == [])
    && (cap > 0 && policy.DropNewest? ==> ring == First(all, cap) && dropped + |ring| == |all| && stored == [])
    && (cap > 0 && !policy.DropNewest? ==> ring == Last(all, cap))
    && (cap > 0 && policy.DropOldest? ==> dropped + |ring| == |all| && stored == [])
    && (cap > 0 && policy.Spool? ==> Gapped(all, stored, dropped, ring) && (!failed ==> dropped == 0))
    && (cap > 0 ==> !policy.Block?)
  }

  lemma NothingYet(policy: OverflowPolicy, cap: nat)
    requires cap > 0 ==> !policy.Block?
    ensures Kept(policy, cap, [], [], 0, [], false)
  {
  }

  class CaptureChannel {
    const policy: OverflowPolicy
    const cap: nat
    const spool: SpoolBuffer
    var ring: seq<Byte>
    var dropped: nat
    ghost var all: seq<Byte>

    /** Block captures everything, as does a zero ring. */
    constructor (policy: OverflowPolicy, ringBytes: nat, reliable: bool, readable: bool)
      ensures Valid() && fresh(spool) && all == [] && spool.reliable == reliable && spool.readable == readable && dropped == 0
      ensures this.policy == policy && cap == if policy.Block? then 0 else ringBytes
    {
      hide Kept, SpoolBuffer.Stored, SpoolBuffer.Unread;
      NothingYet(policy, if policy.Block? then 0 else ringBytes);
      this.policy := policy;
      cap := if policy.Block? then 0 else ringBytes;
      var spill := new SpoolBuffer(reliable, readable);
      spool := spill;
      ring, dropped := [], 0;
      all := [];
    }

    ghost predicate Valid()
      reads this, spool
    {
      spool.Valid() && spool.readOffset == 0 && Kept(policy, cap, all, ring, dropped, spool.Stored(), spool.failed)
    }

    /** `capture`: one chunk as it was read. */
    method Add(chunk: seq<Byte>)
      requires Valid()
      modifies this`ring, this`dropped, this`all, spool
      ensures Valid() && all == old(all) + chunk
    {
      hide Gapped, Last, First;
      if cap == 0 {
        ring := ring + chunk;
        all := all + chunk;
        return;
      }
      LastOfLast(all, chunk, cap);
      FirstOfFirst(all, chunk, cap);
      if policy.DropNewest? {
        var retained := Least(cap - |ring|, |chunk|);
        FirstFits(ring, chunk, cap, retained);
        ring := ring + chunk[..retained];
        dropped := dropped + (|chunk| - retained);
        all := all + chunk;
        return;
      }
      var available := cap - |ring|;
      var overflow := if |chunk| > available then |chunk| - available else 0;
      var fromRing := Least(overflow, |ring|);
      var fromChunk := overflow - fromRing;
      Overflow(ring, chunk, cap, fromRing, fromChunk);
      if policy.Spool? {
        SpillOver(ring[..fromRing], chunk[..fromChunk], chunk);
      } else {
        dropped := dropped + overflow;
      }
      ring := ring[fromRing..] + chunk[fromChunk..];
      all := all + chunk;
    }

    /** Sends what overflows to the spill file, or counts it as dropped. */
    method SpillOver(older: seq<Byte>, newer: seq<Byte>, ghost chunk: seq<Byte>)
      requires spool.Valid() && Gapped(all, spool.Stored(), dropped, ring) && (!spool.failed ==> dropped == 0)
      requires var joined := ring + chunk;
               && |older| + |newer| <= |joined| && joined[..|older|] == older && joined[|older|..][..|newer|] == newer
      modifies this`dropped, spool
      ensures spool.Valid() && spool.readOffset == old(spool.readOffset) && (!spool.failed ==> dropped == 0)
      ensures Gapped(all + chunk, spool.Stored(), dropped, (ring + chunk)[|older|..][|newer|..])
    {
      hide Gapped;
      ghost var whole, joined := all + chunk, ring + chunk;
      GrowGap(all, spool.Stored(), dropped, ring, chunk);
      SpillPart(older, whole, joined);
      SpillPart(newer, whole, joined[|older|..]);
    }

    method SpillPart(bytes: seq<Byte>, ghost whole: seq<Byte>, ghost kept: seq<Byte>)
      requires spool.Valid() && Gapped(whole, spool.Stored(), dropped, kept) && (!spool.failed ==> dropped == 0)
      requires |bytes| <= |kept| && kept[..|bytes|] == bytes
      modifies this`dropped, spool
      ensures spool.Valid() && spool.readOffset == old(spool.readOffset) && (!spool.failed ==> dropped == 0)
      ensures Gapped(whole, spool.Stored(), dropped, kept[|bytes|..])
    {
      if bytes == [] {
        return;
      }
      ghost var spilled, lost := spool.Stored(), dropped;
      var ok := spool.Append(bytes);
      if !ok {
        dropped := dropped + |bytes|;
      }
      Evict(whole, spilled, lost, kept, |bytes|, ok);
    }

    /** The captured output: what comes back of the spill, then the ring; `got` is how much can be read back. The count of
        dropped bytes is exact if and only if the spill comes back whole: nobody counts what cannot be read back. */
    method Finish(got: nat) returns (output: seq<Byte>)
      requires Valid()
      ensures cap == 0 ==> output == all && dropped == 0
      ensures cap > 0 && policy.DropNewest? ==> output == First(all, cap) && dropped == |all| - |output|
      ensures cap > 0 && policy.DropOldest? ==> output == Last(all, cap) && dropped == |all| - |output|
      ensures cap > 0 && policy.Spool? ==> |spool.Stored()| == Spilled(all, dropped, cap)
      ensures cap > 0 && policy.Spool? ==> SpoolOutput(all, dropped, cap, Back(spool.readable, got, |spool.Stored()|), output)
      ensures cap > 0 && policy.Spool? ==>
                (|output| + dropped == |all| <==> Back(spool.readable, got, |spool.Stored()|) == |spool.Stored()|)
      ensures cap > 0 && policy.Spool? && !spool.failed ==> dropped == 0
    {
      hide Kept, First, Last, SpoolOutput, SpoolBuffer.Stored;
      ghost var back := Back(spool.readable, got, |spool.Stored()|);
      if spool.Empty() {
        output := ring;
        assert [] + ring == ring;
      } else {
        var older := spool.ReadAll(got);
        output := older + ring;
      }
      KeptShows(policy, cap, all, ring, dropped, spool.Stored(), spool.failed, output, back);
    }
  }

  lemma KeptShows(policy: OverflowPolicy, cap: nat, all: seq<Byte>, ring: seq<Byte>, dropped: nat, stored: seq<Byte>, failed: bool, output: seq<Byte>, back: nat)
    requires Kept(policy, cap, all, ring, dropped, stored, failed) && back <= |stored| && output == stored[..back] + ring
    ensures cap == 0 ==> output == all && dropped == 0
    ensures cap > 0 && policy.DropNewest? ==> output == First(all, cap) && dropped == |all| - |output|
    ensures cap > 0 && policy.DropOldest? ==> output == Last(all, cap) && dropped == |all| - |output|
    ensures cap > 0 && policy.Spool? ==> |stored| == Spilled(all, dropped, cap) && SpoolOutput(all, dropped, cap, back, output)
    ensures cap > 0 && policy.Spool? ==> (|output| + dropped == |all| <==> back == |stored|)
    ensures cap > 0 && policy.Spool? && !failed ==> dropped == 0
  {
    if cap == 0 || !policy.Spool? {
      assert stored == [] && [] + ring == ring;
    } else {
      hide First;
      assert stored[..back] == all[..back];
    }
  }

  /** How much of the stream went to the spill file: all of it but what was dropped and what the ring holds. */
  function Spilled(all: seq<Byte>, dropped: nat, cap: nat): int {
    |all| - dropped - Least(|all|, cap)
  }

  /** The first `back` of the spilled bytes, then the last `cap` bytes of the stream, or all of it if it is shorter. */
  predicate SpoolOutput(all: seq<Byte>, dropped: nat, cap: nat, back: nat, output: seq<Byte>) {
    && back <= Spilled(all, dropped, cap) && output == all[..back] + Last(all, cap)
  }

  /** With a spill that never fails to write: all of the stream exactly if the spill comes back whole. */
  lemma WholeIffReadBack(all: seq<Byte>, cap: nat, back: nat, output: seq<Byte>)
    requires SpoolOutput(all, 0, cap, back, output)
    ensures output == all <==> back == Spilled(all, 0, cap)
  {
    if back == Spilled(all, 0, cap) {
      assert all == all[..back] + all[back..];
    }
  }

  function Flat(chunks: seq<seq<Byte>>): seq<Byte> {
    if |chunks| == 0 then [] else Flat(chunks[..|chunks| - 1]) + chunks[|chunks| - 1]
  }

  /** A spill file: whether writing to it always works, whether all of it can be read back, and how much if not. */
  datatype Disk = Disk(reliable: bool, readable: bool, got: nat)

  /** What a channel's capture comes to: the kept part of `all`, and how much of it is reported missing. Under Spool that is
      all that is missing, and nothing if writing never fails, exactly when the spill comes back whole. */
  predicate Captured(policy: OverflowPolicy, ringBytes: nat, disk: Disk, all: seq<Byte>, output: seq<Byte>, dropped: nat) {
    if policy.Block? || ringBytes == 0 then output == all && dropped == 0
    else if policy.DropNewest? then output == First(all, ringBytes) && |output| + dropped == |all|
    else if policy.DropOldest? then output == Last(all, ringBytes) && |output| + dropped == |all|
    else
      var spilled := Spilled(all, dropped, ringBytes);
      && spilled >= 0 && (disk.reliable ==> dropped == 0)
      && SpoolOutput(all, dropped, ringBytes, Back(disk.readable, disk.got, spilled), output)
      && (|output| + dropped == |all| <==> Back(disk.readable, disk.got, spilled) == spilled)
  }

  /** With a disk that works, a spooled capture loses nothing. */
  lemma SpoolKeepsAll(ringBytes: nat, disk: Disk, all: seq<Byte>, output: seq<Byte>, dropped: nat)
    requires Captured(Spool, ringBytes, disk, all, output, dropped) && disk.reliable && disk.readable
    ensures output == all && dropped == 0
  {
    if ringBytes > 0 {
      WholeIffReadBack(all, ringBytes, Spilled(all, 0, ringBytes), output);
    }
  }

  /** The capture of a whole stream, however it was cut into chunks and wherever the spill file fails. */
  method CaptureAll(policy: OverflowPolicy, ringBytes: nat, disk: Disk, chunks: seq<seq<Byte>>)
    returns (output: seq<Byte>, dropped: nat)
    ensures Captured(policy, ringBytes, disk, Flat(chunks), output, dropped)
  {
    var channel := new CaptureChannel(policy, ringBytes, disk.reliable, disk.readable);
    for i := 0 to |chunks|
      invariant channel.Valid() && channel.all == Flat(chunks[..i]) && fresh(channel) && fresh(channel.spool)
    {
      hide Gapped, First, Last;
      assert chunks[..i + 1][..i] == chunks[..i];
      channel.Add(chunks[i]);
    }
    assert chunks[..|chunks|] == chunks;
    output := Report(channel, disk, ringBytes);
    dropped := channel.dropped;
  }

  /** It happens: a two-byte output through a ring of one, spilled without error, but the file cannot be read back. The
      first byte is missing and nothing is reported dropped. */
  method SomeByteGoesUncounted(a: Byte, b: Byte) returns (output: seq<Byte>, dropped: nat)
    ensures output == [b] && dropped == 0
  {
    output, dropped := CaptureAll(Spool, 1, Disk(true, false, 0), [[a], [b]]);
    FlatTwo([a], [b]);
    assert Last([a, b], 1) == [b];
  }

  lemma FlatTwo(a: seq<Byte>, b: seq<Byte>)
    ensures Flat([a, b]) == a + b
  {
    assert [a, b][..1] == [a] && [a][..0] == [];
    assert Flat([a]) == [] + a;
  }

  // A worker's two channels share one count of dropped bytes.

  datatype Chunk = Chunk(isStdout: bool, bytes: seq<Byte>)

  function Side(chunks: seq<Chunk>, isStdout: bool): seq<Byte> {
    if |chunks| == 0 then []
    else
      var last := chunks[|chunks| - 1];
      Side(chunks[..|chunks| - 1], isStdout) + if last.isStdout == isStdout then last.bytes else []
  }

  lemma SideMore(chunks: seq<Chunk>, i: nat, isStdout: bool)
    requires i < |chunks|
    ensures Side(chunks[..i + 1], isStdout) == Side(chunks[..i], isStdout) + if chunks[i].isStdout == isStdout then chunks[i].bytes else []
  {
    assert chunks[..i + 1][..i] == chunks[..i];
  }

  class WorkerCapture {
    const stdout: CaptureChannel
    const stderr: CaptureChannel
    var droppedBytes: nat

    constructor (policy: OverflowPolicy, ringBytes: nat, reliable: bool, readable: bool)
      ensures Valid() && fresh(stdout) && fresh(stderr) && fresh(stdout.spool) && fresh(stderr.spool)
      ensures Set(stdout, policy, ringBytes, reliable, readable) && Set(stderr, policy, ringBytes, reliable, readable)
      ensures stdout.all == [] && stderr.all == []
    {
      hide CaptureChannel.Valid;
      var out := new CaptureChannel(policy, ringBytes, reliable, readable);
      var err := new CaptureChannel(policy, ringBytes, reliable, readable);
      stdout, stderr := out, err;
      droppedBytes := 0;
    }

    ghost predicate Valid()
      reads this, stdout, stdout.spool, stderr, stderr.spool
    {
      && stdout != stderr && stdout.spool != stderr.spool && stdout.Valid() && stderr.Valid()
      && droppedBytes == stdout.dropped + stderr.dropped
    }

    /** One chunk of one of the outputs; the other is left alone. */
    method Capture(chunk: Chunk)
      requires Valid()
      modifies this, stdout, stdout.spool, stderr, stderr.spool
      ensures Valid()
      ensures stdout.all == old(stdout.all) + if chunk.isStdout then chunk.bytes else []
      ensures stderr.all == old(stderr.all) + if chunk.isStdout then [] else chunk.bytes
    {
      hide CaptureChannel.Valid;
      var before := stdout.dropped + stderr.dropped;
      if chunk.isStdout {
        stdout.Add(chunk.bytes);
      } else {
        stderr.Add(chunk.bytes);
      }
      droppedBytes := droppedBytes + (stdout.dropped + stderr.dropped - before);
    }
  }

  predicate Set(channel: CaptureChannel, policy: OverflowPolicy, ringBytes: nat, reliable: bool, readable: bool) {
    && channel.policy == policy && channel.cap == (if policy.Block? then 0 else ringBytes)
    && channel.spool.reliable == reliable && channel.spool.readable == readable
  }

  /** Each output is captured as if it were alone, however the two are interleaved, and the count is the sum. `gotErr` is
      how much of the second output's spill comes back. */
  method CaptureWorker(policy: OverflowPolicy, ringBytes: nat, disk: Disk, gotErr: nat, chunks: seq<Chunk>)
    returns (out: seq<Byte>, err: seq<Byte>, dropped: nat)
    ensures exists fromOut: nat, fromErr: nat ::
              && Captured(policy, ringBytes, disk, Side(chunks, true), out, fromOut)
              && Captured(policy, ringBytes, disk.(got := gotErr), Side(chunks, false), err, fromErr)
              && dropped == fromOut + fromErr
  {
    hide CaptureChannel.Valid, Captured;
    var worker := new WorkerCapture(policy, ringBytes, disk.reliable, disk.readable);
    for i := 0 to |chunks|
      invariant worker.Valid() && worker.stdout.all == Side(chunks[..i], true) && worker.stderr.all == Side(chunks[..i], false)
    {
      hide CaptureChannel.Valid, Captured;
      SideMore(chunks, i, true);
      SideMore(chunks, i, false);
      worker.Capture(chunks[i]);
    }
    assert chunks[..|chunks|] == chunks;
    out := Report(worker.stdout, disk, ringBytes);
    err := Report(worker.stderr, disk.(got := gotErr), ringBytes);
    dropped := worker.droppedBytes;
  }

  method Report(channel: CaptureChannel, disk: Disk, ringBytes: nat) returns (output: seq<Byte>)
    requires channel.Valid() && Set(channel, channel.policy, ringBytes, disk.reliable, disk.readable)
    ensures Captured(channel.policy, ringBytes, disk, channel.all, output, channel.dropped)
  {
    output := channel.Finish(disk.got);
  }
}
