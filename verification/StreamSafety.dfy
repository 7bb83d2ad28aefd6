/** What holds over whole runs of Stream: credit is conserved, bytes come out in order, and every frame is valid. */
module StreamSafety {
  import opened Bytes
  import opened Stream
  import opened StreamPipe
  import Frames

  // ----- Credit -----

  lemma InitLawful(d: Direction, s: State)
    requires Init(s)
    ensures Lawful(d, s)
  {
  }

  lemma {:induction false} RunLawful(d: Direction, run: seq<State>, i: nat)
    requires Run(d, run) && i < |run|
    ensures Lawful(d, run[i])
  {
    if i == 0 {
      InitLawful(d, run[0]);
    } else {
      RunLawful(d, run, i - 1);
      assert Next(d, run, i - 1);
      StepLawful(d, run[i - 1], run[i]);
    }
  }

  /** Client to server the credit never exceeds the window, is exactly the window while nothing is lost, and no
      honest update is refused. */
  lemma UpstreamCreditIsConserved(run: seq<State>, i: nat)
    requires Run(Up, run) && i < |run|
    ensures Total(run[i]) + run[i].lost == WINDOW && run[i].lost >= 0
    ensures !run[i].refused
    ensures 0 <= run[i].available <= WINDOW
  {
    RunLawful(Up, run, i);
    SumPositive(run[i].updates);
  }

  ghost predicate ShortAt(run: seq<State>, j: int) { 0 <= j < |run| - 1 && ShortTake(run[j], run[j + 1]) }

  ghost predicate AllInFull(run: seq<State>, i: int) { forall j :: 0 <= j < i ==> !ShortAt(run, j) }

  lemma InFullNext(run: seq<State>, j: nat)
    requires j + 1 < |run|
    ensures AllInFull(run, j + 1) <==> AllInFull(run, j) && !ShortTake(run[j], run[j + 1])
  {
    assert ShortAt(run, j) <==> ShortTake(run[j], run[j + 1]);
  }

  lemma {:induction false} ShortRun(run: seq<State>, i: nat)
    requires Run(Down, run) && i < |run|
    ensures Lawful(Down, run[i])
    ensures run[i].shortfall == 0 <==> AllInFull(run, i)
  {
    if i > 0 {
      ShortRun(run, i - 1);
      assert Next(Down, run, i - 1);
      StepLawful(Down, run[i - 1], run[i]);
      InFullNext(run, i - 1);
    }
  }

  /** Server to client the credit is conserved exactly on the runs whose takes were all granted in full; on those
      no honest update is refused. */
  lemma DownstreamCreditIsConservedIff(run: seq<State>, i: nat)
    requires Run(Down, run) && i < |run|
    ensures Total(run[i]) + run[i].lost == WINDOW <==> AllInFull(run, i)
    ensures AllInFull(run, i) ==> !run[i].refused
  {
    ShortRun(run, i);
  }

  // ----- Bytes -----

  lemma InitPiped(d: Direction, s: State)
    requires Init(s)
    ensures Piped(s.pipe)
  {
  }

  lemma {:induction false} RunPiped(d: Direction, run: seq<State>, i: nat)
    requires Run(d, run) && i < |run|
    ensures Piped(run[i].pipe)
  {
    if i == 0 {
      InitPiped(d, run[0]);
    } else {
      RunPiped(d, run, i - 1);
      assert Next(d, run, i - 1);
      StepPiped(d, run[i - 1], run[i]);
    }
  }

  /** A FIFO byte pipe: what came out is a prefix of what went in, and the end of the stream is passed on only
      once everything sent before the half-close has come out. */
  lemma StreamIsFifo(d: Direction, run: seq<State>, i: nat)
    requires Run(d, run) && i < |run| && run[i].pipe.intact
    ensures run[i].pipe.delivered <= run[i].pipe.accepted
    ensures var p := run[i].pipe;
            p.finished ==>
              && p.closedAt.Some? && 0 <= p.closedAt.value <= |p.accepted|
              && p.accepted[..p.closedAt.value] <= p.delivered
  {
    RunPiped(d, run, i);
    var p := run[i].pipe;
    assert p.delivered <= Before(p);
    if p.finished {
      assert p.accepted[..p.closedAt.value] == p.delivered[..p.closedAt.value];
    }
  }

  // ----- Frames -----

  ghost predicate AllSized(s: State) {
    && (forall i :: 0 <= i < |s.taken| ==> Sized(Data(s.taken[i])))
    && (forall i :: 0 <= i < |s.pipe.wire| ==> Sized(s.pipe.wire[i]))
    && (forall i :: 0 <= i < |s.pipe.queue| ==> Sized(s.pipe.queue[i]))
    && |s.pipe.current| <= Frames.MAX_DATA_SIZE && s.owed <= Frames.MAX_DATA_SIZE
    && (forall i :: 0 <= i < |s.updates| ==> s.updates[i] <= Frames.MAX_DATA_SIZE)
  }

  function FrameOf(id: uint32, x: Item): Frames.Frame {
    if x.Data? then Frames.Frame(Frames.DATA, id, x.bytes) else Frames.Frame(Frames.HALF_CLOSE, id, [])
  }

  /** EncodeWindowUpdate and DecodeWindowUpdate. */
  function UpdatePayload(n: nat): seq<byte> { BE(n, 4) }
  function UpdateCount(payload: seq<byte>): nat { if |payload| != 4 then 0 else FromBE(payload) }

  lemma StepSized(d: Direction, s: State, s': State)
    requires AllSized(s) && Step(d, s, s')
    ensures AllSized(s')
  {
    if chunk: seq<byte> :| Take(d, s, s', chunk) {
    } else if SenderStep(s, s') {
      SenderSized(s, s');
    } else if LinkStep(s, s') {
      LinkSized(s, s');
    } else {
      ReceiverSized(d, s, s');
    }
  }

  lemma LinkSized(s: State, s': State)
    requires AllSized(s) && LinkStep(s, s')
    ensures AllSized(s')
  {
    if i: int :| LoseItem(s, s', i) { }
  }

  lemma SenderSized(s: State, s': State)
    requires AllSized(s) && SenderStep(s, s')
    ensures AllSized(s')
  {
    if i: int :| Send(s, s', i) {
    } else if UpdateArrives(s, s') {
      assert forall i :: 0 <= i < |s'.updates| ==> s'.updates[i] == s.updates[i + 1];
    }
  }

  lemma ReceiverSized(d: Direction, s: State, s': State)
    requires AllSized(s) && ReceiverStep(d, s, s')
    ensures AllSized(s')
  {
    if Arrives(d, s, s') {
    } else if Begin(s, s') {
      assert Sized(s.pipe.queue[0]);
    } else if n: int :| Deliver(s, s', n) {
    }
  }

  lemma InitSized(d: Direction, s: State)
    requires Init(s)
    ensures AllSized(s)
  {
  }

  lemma {:induction false} RunSized(d: Direction, run: seq<State>, i: nat)
    requires Run(d, run) && i < |run|
    ensures AllSized(run[i])
  {
    if i == 0 {
      InitSized(d, run[0]);
    } else {
      RunSized(d, run, i - 1);
      assert Next(d, run, i - 1);
      StepSized(d, run[i - 1], run[i]);
    }
  }

  /** Every frame a stream puts on the wire is valid, and the peer reads back the count of every update. */
  lemma FramesAreValid(d: Direction, run: seq<State>, i: nat, id: uint32)
    requires Run(d, run) && i < |run| && id != 0
    ensures forall j :: 0 <= j < |run[i].pipe.wire| ==> Frames.Valid(FrameOf(id, run[i].pipe.wire[j]))
    ensures forall j :: 0 <= j < |run[i].updates| ==>
              && run[i].updates[j] > 0
              && Frames.Valid(Frames.Frame(Frames.WINDOW_UPDATE, id, UpdatePayload(run[i].updates[j])))
              && UpdateCount(UpdatePayload(run[i].updates[j])) == run[i].updates[j]
  {
    RunSized(d, run, i);
    RunLawful(d, run, i);
    forall j | 0 <= j < |run[i].pipe.wire| ensures Frames.Valid(FrameOf(id, run[i].pipe.wire[j])) {
      assert Sized(run[i].pipe.wire[j]);
    }
    forall j | 0 <= j < |run[i].updates|
      ensures UpdateCount(UpdatePayload(run[i].updates[j])) == run[i].updates[j]
    {
      Fixed(run[i].updates[j], []);
    }
  }
}
