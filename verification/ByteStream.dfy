/** A unidirectional byte channel: the pipe state machine over a ring with an optional spill. */
module ByteStream {
  import opened Wire
  import opened RingBuffer
  import opened SpoolFile

  datatype StreamState = Open | HalfClosedRemote | HalfClosedLocal | Closed | Error

  const CHUNK := 64 * 1024

  class PipeStream {
    const buffer: BoundedBuffer
    const spool: SpoolBuffer
    var state: StreamState
    ghost var accepted: seq<Byte>
    ghost var delivered: seq<Byte>
    ghost var discarded: bool

    constructor (capacity: nat, policy: OverflowPolicy, reliable: bool, readable: bool)
      ensures Valid() && fresh(buffer) && fresh(buffer.storage) && fresh(spool)
      ensures buffer.capacity == capacity && buffer.policy == policy && spool.reliable == reliable && spool.readable == readable
      ensures state == Open && accepted == [] && delivered == [] && !discarded
    {
      hide Window, BoundedBuffer.Contents, SpoolBuffer.Unread, SpoolBuffer.Stored;
      var ring := new BoundedBuffer(capacity, policy);
      var spill := new SpoolBuffer(reliable, readable);
      buffer, spool := ring, spill;
      state := Open;
      accepted, delivered, discarded := [], [], false;
    }

    /** A spill that has been read to its end is given back at once. */
    ghost predicate Parts()
      reads buffer, buffer.storage, spool
    {
      && buffer.Valid() && spool.Valid()
      && (!buffer.policy.Spool? ==> spool.Unread() == [])
      && (spool.Unread() == [] ==> spool.Stored() == [])
    }

    /** Neither writing nor reading the spill ever fails. */
    predicate Dependable() {
      spool.reliable && spool.readable
    }

    /** Ring first, then the unread spill. */
    ghost function Contents(): seq<Byte>
      requires Parts()
      reads buffer, buffer.storage, spool
    {
      buffer.Contents() + spool.Unread()
    }

    /** Unless bytes were discarded on purpose, what was accepted is what was read followed by what is held. */
    ghost predicate Valid()
      reads this, buffer, buffer.storage, spool
    {
      && Parts()
      && (!DropsOnOverflow(buffer.policy) && !discarded ==> accepted == delivered + Contents())
      && (state.Closed? && !discarded ==> Contents() == [])
      && (state.HalfClosedLocal? ==> discarded)
    }

    /** `fillFromSpool`: refills an empty ring; the contents stay the same. The ring stays empty only when there is nothing
        unread, or the spill cannot be read. */
    method FillFromSpool()
      requires Parts()
      modifies buffer, buffer.storage, spool
      ensures Parts() && Contents() == old(Contents())
      ensures buffer.Contents() == [] && buffer.capacity > 0 ==> spool.Unread() == [] || !Dependable()
      ensures old(spool.failed && spool.Unread() != []) ==> spool.failed && spool.Unread() == old(spool.Unread())
      ensures old(spool.failed && spool.Unread() != []) ==> buffer.Contents() == old(buffer.Contents())
    {
      hide Window, BoundedBuffer.Contents, SpoolBuffer.Unread, SpoolBuffer.Stored;
      if buffer.size != 0 || buffer.capacity == 0 || spool.Empty() {
        return;
      }
      var chunk := spool.Read(Least(CHUNK, buffer.capacity));
      if chunk == [] {
        return;
      }
      var kept := buffer.Append(chunk);
      if spool.Empty() {
        spool.Reset();
      }
    }

    /** Takes bytes while the write side is open and returns how many; under Spool that is all of them, unless the spill has
        failed. */
    method Write(data: seq<Byte>) returns (n: nat)
      requires Valid()
      modifies this`accepted, buffer, buffer.storage, spool
      ensures Valid() && n <= |data| && state == old(state) && accepted == old(accepted) + data[..n]
      ensures !state.Open? ==> n == 0
      ensures state.Open? && buffer.policy.Spool? && n < |data| ==> spool.failed && !spool.reliable
    {
      hide Window, BoundedBuffer.Contents, SpoolBuffer.Unread, SpoolBuffer.Stored;
      if !state.Open? {
        assert data[..0] == [];
        return 0;
      }
      if buffer.policy.Spool? {
        n := AppendSpool(data);
      } else {
        n := buffer.Append(data);
      }
      accepted := accepted + data[..n];
      if !DropsOnOverflow(buffer.policy) && !discarded {
        Joined(old(accepted), delivered, old(Contents()), data[..n]);
      }
    }

    /** `appendSpool`: once something is spilled everything goes to the spill, so order is kept; what it cannot take is not
        accepted. */
    method AppendSpool(data: seq<Byte>) returns (n: nat)
      requires Parts() && buffer.policy.Spool?
      modifies buffer, buffer.storage, spool
      ensures Parts() && n <= |data| && Contents() == old(Contents()) + data[..n]
      ensures n < |data| ==> spool.failed && !spool.reliable
    {
      hide Window, BoundedBuffer.Contents, SpoolBuffer.Unread, SpoolBuffer.Stored;
      assert data[..|data|] == data && data[..0] == [];
      if data == [] {
        return 0;
      }
      ghost var ring, spill := buffer.Contents(), spool.Unread();
      if !spool.Empty() {
        var ok := spool.Append(data);
        assert ring + (spill + data) == (ring + spill) + data && (ring + spill) + [] == ring + spill;
        return if ok then |data| else 0;
      }
      var kept := buffer.Append(data);
      assert (ring + data[..kept]) + [] == (ring + []) + data[..kept];
      if kept == |data| {
        return kept;
      }
      var ok := spool.Append(data[kept..]);
      assert data == data[..kept] + data[kept..];
      assert (ring + data[..kept]) + ([] + data[kept..]) == (ring + []) + data;
      n := if ok then |data| else kept;
    }

    /** Reads up to `n` bytes from the front: all there are, unless the spill cannot be read. Behind a failed spill only the
        ring can be read any more. Draining the last byte after the writer's end closes the stream. */
    method Read(n: nat) returns (bytes: seq<Byte>)
      requires Valid()
      modifies this`state, this`delivered, buffer, buffer.storage, spool
      ensures Valid() && delivered == old(delivered) + bytes
      ensures old(state.Error?) ==> bytes == [] && state == old(state)
      ensures !old(state.Error?) ==> |bytes| <= n && old(Contents()) == bytes + Contents()
      ensures !old(state.Error?) && |bytes| < n ==> buffer.Contents() == []
      ensures !old(state.Error?) && Dependable() ==> bytes == First(old(Contents()), n)
      ensures !old(state.Error?) && old(spool.failed && spool.Unread() != []) ==>
                bytes == First(old(buffer.Contents()), n) && spool.failed && spool.Unread() == old(spool.Unread())
      ensures !old(state.Error?) ==>
                state == if old(state.HalfClosedRemote?) && Contents() == [] then Closed else old(state)
    {
      hide Window, BoundedBuffer.Contents, SpoolBuffer.Unread, SpoolBuffer.Stored, PipeStream.Contents, Parts, First;
      bytes := [];
      if state.Error? {
        return;
      }
      ghost var before := Contents();
      bytes := Take(n);
      delivered := delivered + bytes;
      ghost var rest := Contents();
      Moved(accepted, old(delivered), before, bytes, rest);
      MaybeCloseAfterDrain();
      assert Contents() == rest;
    }

    /** The loop of `read`, and of `drop`, which throws the bytes away. */
    method Take(n: nat) returns (bytes: seq<Byte>)
      requires Parts()
      modifies buffer, buffer.storage, spool
      ensures Parts() && |bytes| <= n && old(Contents()) == bytes + Contents()
      ensures |bytes| < n ==> buffer.Contents() == []
      ensures Dependable() ==> bytes == First(old(Contents()), n)
      ensures old(spool.failed && spool.Unread() != []) ==>
                bytes == First(old(buffer.Contents()), n) && spool.failed && spool.Unread() == old(spool.Unread())
    {
      hide Window, BoundedBuffer.Contents, SpoolBuffer.Unread, SpoolBuffer.Stored, PipeStream.Contents, First;
      bytes := [];
      ghost var before, ring, spill := Contents(), buffer.Contents(), spool.Unread();
      ghost var stuck := spool.failed && spill != [];
      while |bytes| < n
        invariant Parts() && |bytes| <= n && before == bytes + Contents()
        invariant stuck ==> spool.failed && spool.Unread() == spill && ring == bytes + buffer.Contents()
        decreases n - |bytes|
      {
        hide Window, BoundedBuffer.Contents, SpoolBuffer.Unread, SpoolBuffer.Stored, PipeStream.Contents, First;
        var more := ReadSome(n - |bytes|);
        if more == [] {
          break;
        }
        Regroup(bytes, more, Contents());
        Regroup(bytes, more, buffer.Contents());
        bytes := bytes + more;
      }
      if Dependable() { Taken(before, bytes, Contents(), n); }
      if stuck { Taken(ring, bytes, buffer.Contents(), n); }
    }

    /** One turn of the loops of `read` and `drop`. */
    method ReadSome(n: nat) returns (bytes: seq<Byte>)
      requires Parts() && n > 0
      modifies buffer, buffer.storage, spool
      ensures Parts() && |bytes| <= n && old(Contents()) == bytes + Contents()
      ensures bytes == [] ==> buffer.Contents() == [] && (Dependable() ==> Contents() == [])
      ensures old(spool.failed && spool.Unread() != []) ==>
                && spool.failed && spool.Unread() == old(spool.Unread()) && old(buffer.Contents()) == bytes + buffer.Contents()
    {
      hide Window, BoundedBuffer.Contents, SpoolBuffer.Unread, SpoolBuffer.Stored;
      FillFromSpool();
      if buffer.size == 0 {
        bytes := [];
        if buffer.capacity == 0 && !spool.Empty() {
          bytes := spool.Read(n);
          if spool.Empty() {
            spool.Reset();
          }
        }
        return;
      }
      ghost var ring, spill := buffer.Contents(), spool.Unread();
      bytes := buffer.Consume(n);
      assert ring == bytes + buffer.Contents();
      assert (bytes + buffer.Contents()) + spill == bytes + (buffer.Contents() + spill);
    }

    /** Discards up to `n` bytes as if they had been read. */
    method Drop(n: nat) returns (ghost gone: seq<Byte>)
      requires Valid()
      modifies this`state, this`delivered, buffer, buffer.storage, spool
      ensures Valid() && |gone| <= n && old(Contents()) == gone + Contents() && delivered == old(delivered) + gone
      ensures Dependable() ==> gone == First(old(Contents()), n)
      ensures state == if old(state.HalfClosedRemote?) && Contents() == [] then Closed else old(state)
    {
      hide Window, BoundedBuffer.Contents, SpoolBuffer.Unread, SpoolBuffer.Stored, PipeStream.Contents, Parts, First;
      ghost var before := Contents();
      gone := Take(n);
      delivered := delivered + gone;
      ghost var rest := Contents();
      Moved(accepted, old(delivered), before, gone, rest);
      MaybeCloseAfterDrain();
      assert Contents() == rest;
    }

    /** The run at the front, refilled from the spill first: empty only when nothing is held, there is no ring or
        the spill cannot be read. */
    method Peek() returns (run: seq<Byte>)
      requires Valid()
      modifies buffer, buffer.storage, spool
      ensures Valid() && Contents() == old(Contents()) && run <= Contents()
      ensures buffer.capacity > 0 && run == [] ==> buffer.Contents() == [] && (Dependable() ==> Contents() == [])
    {
      hide Window, BoundedBuffer.Contents, SpoolBuffer.Unread, SpoolBuffer.Stored;
      FillFromSpool();
      run := buffer.Peek();
    }

    method MaybeCloseAfterDrain()
      requires Parts()
      modifies this`state
      ensures state == if old(state.HalfClosedRemote?) && Contents() == [] then Closed else old(state)
    {
      hide Window, BoundedBuffer.Contents, SpoolBuffer.Unread, SpoolBuffer.Stored;
      if state.HalfClosedRemote? && buffer.size == 0 && spool.Empty() {
        state := Closed;
      }
    }

    /** The writer is at its end. */
    method CloseRemote()
      requires Valid()
      modifies this`state
      ensures Valid() && Contents() == old(Contents())
      ensures state == match old(state) case Open => HalfClosedRemote case HalfClosedLocal => Closed case other => other
    {
      hide Window, BoundedBuffer.Contents, SpoolBuffer.Unread, SpoolBuffer.Stored;
      match state
      case Open => state := HalfClosedRemote;
      case HalfClosedLocal => state := Closed;
      case _ =>
    }

    /** The reader is done: what is held is discarded. */
    method CloseLocal()
      requires Valid()
      modifies this`state, this`discarded, buffer, spool
      ensures Valid()
      ensures state == match old(state) case Open => HalfClosedLocal case HalfClosedRemote => Closed case other => other
      ensures old(state.Open? || state.HalfClosedRemote?) ==> Contents() == []
    {
      hide Window, BoundedBuffer.Contents, SpoolBuffer.Unread, SpoolBuffer.Stored;
      if state.Open? || state.HalfClosedRemote? {
        state := if state.Open? then HalfClosedLocal else Closed;
        discarded := true;
        buffer.Clear();
        spool.Reset();
      }
    }

    /** A clean close is never downgraded to an error. */
    method Fail()
      requires Valid()
      modifies this`state
      ensures Valid() && Contents() == old(Contents())
      ensures state == if old(state.Closed?) then Closed else Error
    {
      if state.Closed? || state.Error? {
        return;
      }
      state := Error;
    }
  }

  lemma Joined(accepted: seq<Byte>, delivered: seq<Byte>, held: seq<Byte>, data: seq<Byte>)
    requires accepted == delivered + held
    ensures accepted + data == delivered + (held + data)
  {
  }

  lemma Regroup(a: seq<Byte>, b: seq<Byte>, c: seq<Byte>)
    ensures (a + b) + c == a + (b + c)
  {
  }

  lemma Taken(before: seq<Byte>, bytes: seq<Byte>, rest: seq<Byte>, n: nat)
    requires before == bytes + rest && |bytes| <= n && (|bytes| < n ==> rest == [])
    ensures bytes == First(before, n) && rest == before[|bytes|..] && |bytes| == Least(n, |before|)
  {
  }

  lemma Moved(accepted: seq<Byte>, delivered: seq<Byte>, before: seq<Byte>, bytes: seq<Byte>, rest: seq<Byte>)
    requires before == bytes + rest
    ensures accepted == delivered + before ==> accepted == (delivered + bytes) + rest
  {
    assert delivered + (bytes + rest) == (delivered + bytes) + rest;
  }
}
