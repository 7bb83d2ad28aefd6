/** The byte pipe inside Stream: what each step does to the order of the bytes and the place of the half-close. */
module StreamPipe {
  import opened Bytes
  import opened Stream

  /** What reached the receiver. */
  function Before(p: Pipe): seq<byte> { p.delivered + p.current + Flat(p.queue) }

  /** Nothing is reordered, made up or skipped. */
  ghost predicate InOrder(before: seq<byte>, wire: seq<Item>, accepted: seq<byte>, holds: bool) {
    before <= accepted && (holds ==> before + Flat(wire) == accepted)
  }

  /** Every half-close has the bytes sent before it, and no others, ahead of it. */
  ghost predicate Marked(xs: seq<Item>, base: int, at: Option<int>) {
    xs == [] || ((xs[0].HalfClose? ==> at == Some(base)) && Marked(xs[1..], base + |Payload(xs[0])|, at))
  }

  ghost predicate Ends(at: Option<int>, reached: int, passed: bool) { passed ==> at.Some? && 0 <= at.value <= reached }

  ghost predicate Ordered(p: Pipe) { InOrder(Before(p), p.wire, p.accepted, p.receiverHolds) }

  ghost predicate CloseInPlace(p: Pipe) {
    && (p.receiverHolds ==> Marked(p.wire, |p.delivered| + |p.current| + Size(p.queue), p.closedAt))
    && Marked(p.queue, |p.delivered| + |p.current|, p.closedAt)
    && Ends(p.closedAt, |p.delivered| + |p.current| + Size(p.queue), p.ended)
    && Ends(p.closedAt, |p.delivered|, p.finished)
    && (p.closedAt.None? || p.closedAt.value <= |p.accepted|)
  }

  ghost predicate Piped(p: Pipe) { p.intact ==> Ordered(p) && CloseInPlace(p) }

  lemma {:induction false} MarkedSnoc(xs: seq<Item>, x: Item, base: int, at: Option<int>)
    requires Marked(xs, base, at) && (x.HalfClose? ==> at == Some(base + Size(xs)))
    ensures Marked(xs + [x], base, at)
  {
    if xs == [] {
      assert xs + [x] == [x];
    } else {
      SizeHead(xs);
      MarkedSnoc(xs[1..], x, base + |Payload(xs[0])|, at);
      assert (xs + [x])[1..] == xs[1..] + [x];
    }
  }

  /** Before the half-close is sent there is none anywhere. */
  lemma {:induction false} MarkedNone(xs: seq<Item>, base: int, at: Option<int>)
    requires Marked(xs, base, None)
    ensures Marked(xs, base, at)
  {
    if xs != [] { MarkedNone(xs[1..], base + |Payload(xs[0])|, at); }
  }

  lemma SentOrder(p: Pipe, chunk: seq<byte>)
    requires Ordered(p)
    ensures Ordered(Sent(p, chunk))
  {
    FlatSnoc(p.wire, Data(chunk));
    assert Before(Sent(p, chunk)) == Before(p);
    assert Before(p) + (Flat(p.wire) + chunk) == Before(p) + Flat(p.wire) + chunk;
  }

  lemma SentClose(p: Pipe, chunk: seq<byte>)
    requires CloseInPlace(p)
    ensures CloseInPlace(Sent(p, chunk))
  {
    if p.receiverHolds { MarkedSnoc(p.wire, Data(chunk), |p.delivered| + |p.current| + Size(p.queue), p.closedAt); }
  }

  lemma SentPiped(p: Pipe, chunk: seq<byte>)
    requires Piped(p)
    ensures Piped(Sent(p, chunk))
  {
    if p.intact {
      SentOrder(p, chunk);
      SentClose(p, chunk);
    }
  }

  lemma CloseMarks(wire: seq<Item>, queue: seq<Item>, base: int, at: int, holds: bool)
    requires Marked(queue, base, None) && (holds ==> Marked(wire, base + Size(queue), None) && at == base + Size(queue) + Size(wire))
    ensures Marked(queue, base, Some(at)) && (holds ==> Marked(wire + [HalfClose], base + Size(queue), Some(at)))
  {
    MarkedNone(queue, base, Some(at));
    if holds {
      MarkedNone(wire, base + Size(queue), Some(at));
      MarkedSnoc(wire, HalfClose, base + Size(queue), Some(at));
    }
  }

  lemma ClosedPiped(p: Pipe)
    requires Piped(p) && p.closedAt.None?
    ensures Piped(Closed(p))
  {
    if p.intact {
      FlatSnoc(p.wire, HalfClose);
      assert Before(Closed(p)) == Before(p);
      FlatSize(p.queue);
      FlatSize(p.wire);
      CloseMarks(p.wire, p.queue, |p.delivered| + |p.current|, |p.accepted|, p.receiverHolds);
    }
  }

  lemma ArriveOrder(before: seq<byte>, wire: seq<Item>, accepted: seq<byte>)
    requires wire != [] && InOrder(before, wire, accepted, true)
    ensures InOrder(before + Payload(wire[0]), wire[1..], accepted, true)
  {
    FlatHead(wire);
    assert before + (Payload(wire[0]) + Flat(wire[1..])) == before + Payload(wire[0]) + Flat(wire[1..]);
  }

  lemma EnqueueMarks(wire: seq<Item>, queue: seq<Item>, base: int, at: Option<int>)
    requires wire != [] && Marked(wire, base + Size(queue), at) && Marked(queue, base, at)
    ensures Marked(wire[1..], base + Size(queue + [wire[0]]), at) && Marked(queue + [wire[0]], base, at)
  {
    SizeSnoc(queue, wire[0]);
    MarkedSnoc(queue, wire[0], base, at);
  }

  /** The frame joins the queue. */
  lemma EnqueueOrder(d: Direction, p: Pipe)
    requires Ordered(p) && p.wire != [] && Fits(d, p)
    ensures Ordered(Arrived(d, p))
  {
    FlatSnoc(p.queue, p.wire[0]);
    ArriveOrder(Before(p), p.wire, p.accepted);
    assert Before(Arrived(d, p)) == Before(p) + Payload(p.wire[0]);
  }

  lemma EnqueueClose(d: Direction, p: Pipe)
    requires CloseInPlace(p) && p.wire != [] && Fits(d, p)
    ensures CloseInPlace(Arrived(d, p))
  {
    EnqueueMarks(p.wire, p.queue, |p.delivered| + |p.current|, p.closedAt);
    SizeSnoc(p.queue, p.wire[0]);
  }

  lemma ArrivedPiped(d: Direction, p: Pipe)
    requires Piped(p) && p.wire != []
    ensures Piped(Arrived(d, p))
  {
    var q := Arrived(d, p);
    if q.intact {
      if Fits(d, p) {
        EnqueueOrder(d, p);
        EnqueueClose(d, p);
      } else if q.receiverHolds {
        ArriveOrder(Before(p), p.wire, p.accepted);
        assert Before(p) + [] == Before(p);
      }
    }
  }

  lemma BegunPiped(p: Pipe)
    requires Piped(p) && p.current == [] && p.queue != [] && p.queue[0].Data?
    ensures Piped(Begun(p))
  {
    if p.intact {
      FlatHead(p.queue);
      SizeHead(p.queue);
      assert Before(Begun(p)) == Before(p);
    }
  }

  lemma DeliveredPiped(p: Pipe, n: nat)
    requires Piped(p) && n <= |p.current|
    ensures Piped(Delivered(p, n))
  {
    assert p.current == p.current[..n] + p.current[n..];
    assert Before(Delivered(p, n)) == Before(p);
  }

  lemma FinishedPiped(d: Direction, p: Pipe)
    requires Piped(p) && MayFinish(d, p)
    ensures Piped(Finished(d, p))
  {
    if p.intact && d.Up? {
      FlatHead(p.queue);
      SizeHead(p.queue);
      assert Before(Finished(d, p)) == Before(p);
      FlatSize(p.queue);
    }
  }

  lemma SenderStepPiped(s: State, s': State)
    requires Piped(s.pipe) && SenderStep(s, s')
    ensures Piped(s'.pipe)
  {
    if i: int :| Send(s, s', i) {
      SentPiped(s.pipe, s.taken[i]);
    } else if CloseWrite(s, s') {
      ClosedPiped(s.pipe);
    } else {
      assert s'.pipe == s.pipe;
    }
  }

  lemma ReceiverStepPiped(d: Direction, s: State, s': State)
    requires Piped(s.pipe) && ReceiverStep(d, s, s')
    ensures Piped(s'.pipe)
  {
    if Arrives(d, s, s') {
      ArrivedPiped(d, s.pipe);
    } else if Begin(s, s') {
      BegunPiped(s.pipe);
    } else if n: int :| Deliver(s, s', n) {
      DeliveredPiped(s.pipe, n);
    } else if Finish(d, s, s') {
      FinishedPiped(d, s.pipe);
    } else {
      assert s'.pipe == s.pipe || s'.pipe == s.pipe.(receiverHolds := false);
      LetGoPiped(s.pipe);
    }
  }

  lemma LetGoPiped(p: Pipe)
    requires Piped(p)
    ensures Piped(p.(receiverHolds := false))
  {
    assert Before(p.(receiverHolds := false)) == Before(p);
  }

  lemma StepPiped(d: Direction, s: State, s': State)
    requires Piped(s.pipe) && Step(d, s, s')
    ensures Piped(s'.pipe)
  {
    if chunk: seq<byte> :| Take(d, s, s', chunk) {
      TakePiped(d, s, s', chunk);
    } else if SenderStep(s, s') {
      SenderStepPiped(s, s');
    } else if LinkStep(s, s') {
      LinkStepPiped(s, s');
    } else {
      ReceiverStepPiped(d, s, s');
    }
  }

  lemma TakePiped(d: Direction, s: State, s': State, chunk: seq<byte>)
    requires Piped(s.pipe) && Take(d, s, s', chunk)
    ensures Piped(s'.pipe)
  {
    assert s'.pipe == s.pipe;
  }

  lemma LinkStepPiped(s: State, s': State)
    requires Piped(s.pipe) && LinkStep(s, s')
    ensures Piped(s'.pipe)
  {
    if i: int :| LoseItem(s, s', i) { assert !s'.pipe.intact; } else { assert s'.pipe == s.pipe; }
  }
}
