/** What the steps of Stream add up to when nothing is lost: in either direction a chunk comes out at the other end and its
    credit comes back, and a half-close is passed on once everything before it is out. */
module StreamOutcomes {
  import opened Bytes
  import opened Stream
  import Frames

  /** Nothing is under way, and both ends still have the stream. */
  ghost predicate Quiet(s: State) {
    && s.pipe.wire == [] && s.pipe.queue == [] && s.pipe.current == [] && s.taken == [] && s.owed == 0 && s.updates == []
    && s.senderHolds && s.pipe.receiverHolds && s.available <= WINDOW
  }

  /** From the sender's window to the receiver's queue. */
  lemma ChunkIsQueued(d: Direction, s: State, chunk: seq<byte>) returns (s1: State, s2: State, s3: State)
    requires Quiet(s) && 1 <= |chunk| <= Frames.MAX_DATA_SIZE && |chunk| <= s.available
    ensures Take(d, s, s1, chunk) && Send(s1, s2, 0) && Arrives(d, s2, s3)
    ensures s3.available == s.available - |chunk| && s3.taken == [] && s3.owed == 0 && s3.updates == [] && s3.senderHolds
    ensures s3.lost == s.lost && s3.shortfall == s.shortfall && s3.refused == s.refused
    ensures s3.pipe == s.pipe.(queue := [Data(chunk)], accepted := s.pipe.accepted + chunk)
  {
    assert chunk[..|chunk|] == chunk;
    s1 := s.(available := s.available - |chunk|, taken := [chunk]);
    s2 := s1.(taken := [], pipe := s.pipe.(wire := [Data(chunk)], accepted := s.pipe.accepted + chunk));
    s3 := s2.(pipe := s.pipe.(queue := [Data(chunk)], accepted := s.pipe.accepted + chunk));
  }

  /** From the queue to the socket, and the credit back to the sender. */
  lemma QueuedIsDelivered(s: State, chunk: seq<byte>) returns (s1: State, s2: State, s3: State, s4: State)
    requires s.pipe.queue == [Data(chunk)] && s.pipe.current == [] && s.owed == 0 && s.updates == [] && s.senderHolds
    requires chunk != [] && s.available + |chunk| <= WINDOW
    ensures Begin(s, s1) && Deliver(s1, s2, |chunk|) && SendUpdate(s2, s3) && UpdateArrives(s3, s4)
    ensures s4 == s.(available := s.available + |chunk|, pipe := s.pipe.(queue := [], delivered := s.pipe.delivered + chunk))
  {
    s1 := s.(pipe := s.pipe.(queue := [], current := chunk));
    assert chunk[..|chunk|] == chunk && chunk[|chunk|..] == [];
    s2 := s1.(pipe := s.pipe.(queue := [], current := [], delivered := s.pipe.delivered + chunk), owed := |chunk|);
    s3 := s2.(updates := [|chunk|], owed := 0);
    s4 := s3.(updates := [], available := s.available + |chunk|);
  }

  /** The whole way there and back. */
  lemma ChunkGoesThrough(d: Direction, s: State, chunk: seq<byte>)
      returns (s1: State, s2: State, s3: State, s4: State, s5: State, s6: State, s7: State)
    requires Quiet(s) && 1 <= |chunk| <= Frames.MAX_DATA_SIZE && |chunk| <= s.available
    ensures Take(d, s, s1, chunk) && Send(s1, s2, 0) && Arrives(d, s2, s3)
    ensures Begin(s3, s4) && Deliver(s4, s5, |chunk|) && SendUpdate(s5, s6) && UpdateArrives(s6, s7)
    ensures Quiet(s7) && s7.available == s.available && s7.lost == s.lost && s7.shortfall == s.shortfall && s7.refused == s.refused
    ensures s7.pipe.accepted == s.pipe.accepted + chunk && s7.pipe.delivered == s.pipe.delivered + chunk
    ensures s7.pipe.closedAt == s.pipe.closedAt && s7.pipe.finished == s.pipe.finished && s7.pipe.intact == s.pipe.intact
  {
    s1, s2, s3 := ChunkIsQueued(d, s, chunk);
    s4, s5, s6, s7 := QueuedIsDelivered(s3, chunk);
  }

  /** With less credit than bytes the client sends what it was granted, and copyToClient all it has. */
  lemma ShortTakeSends(d: Direction, s: State, chunk: seq<byte>) returns (s1: State)
    requires 1 <= |chunk| <= Frames.MAX_DATA_SIZE && 0 < s.available < |chunk|
    ensures Take(d, s, s1, chunk)
    ensures s1.available == 0 && s1.taken == s.taken + [if d.Up? then chunk[..s.available] else chunk]
    ensures s1.shortfall == if d.Up? then s.shortfall else s.shortfall + |chunk| - s.available
  {
    s1 := s.(available := 0, taken := s.taken + [if d.Up? then chunk[..s.available] else chunk],
             shortfall := if d.Up? then s.shortfall else s.shortfall + |chunk| - s.available);
  }

  /** A half-close: the server passes it on from its queue, the client from its flag. */
  lemma HalfCloseIsPassedOn(d: Direction, s: State) returns (s1: State, s2: State, s3: State)
    requires Quiet(s) && s.pipe.closedAt.None?
    ensures CloseWrite(s, s1) && Arrives(d, s1, s2) && Finish(d, s2, s3)
    ensures Quiet(s3) && s3.pipe.finished && s3.pipe.closedAt == Some(|s.pipe.accepted|) && s3.available == s.available
    ensures s3.pipe.accepted == s.pipe.accepted && s3.pipe.delivered == s.pipe.delivered
  {
    var p := s.pipe.(closedAt := Some(|s.pipe.accepted|));
    s1 := s.(pipe := p.(wire := [HalfClose]));
    s2 := s.(pipe := if d.Up? then p.(queue := [HalfClose]) else p.(ended := true));
    s3 := s.(pipe := (if d.Up? then p else p.(ended := true)).(finished := true));
  }

  /** Data that finds the receiver's queue full is lost with its credit, and the stream is broken for good: the server
      forgets it, the client's copy is no longer whole. */
  lemma OverflowBreaks(d: Direction, s: State, s': State)
    requires Arrives(d, s, s') && s.pipe.receiverHolds && s.pipe.wire[0].Data? && |s.pipe.queue| == QUEUE
    ensures s'.lost == s.lost + |s.pipe.wire[0].bytes| && s'.pipe.queue == s.pipe.queue
    ensures if d.Up? then !s'.pipe.receiverHolds else !s'.pipe.intact
  {
  }
}
