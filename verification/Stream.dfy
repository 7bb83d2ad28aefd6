/** One direction of a relay stream: the send window, the frames in transit, the receive queue and the window
    updates that come back (internal/relay/window.go, client.go and server.go). `Up` is client to server, `Down`
    is server to client. The link may lose any frame when it is re-attached. */
module Stream {
  import opened Bytes
  import opened Sequences
  import Frames

  const WINDOW := Frames.INITIAL_STREAM_WINDOW
  const QUEUE := Frames.INITIAL_STREAM_WINDOW / Frames.MAX_DATA_SIZE + 2

  datatype Direction = Up | Down

  datatype Item = Data(bytes: seq<byte>) | HalfClose

  /** What carries bytes. `accepted` and `delivered` are the bytes sent and the bytes handed to the receiving
      socket or reader; `closedAt` is how much had been sent when the half-close was; `intact` says that no frame
      was lost under way. */
  datatype Pipe = Pipe(
    wire: seq<Item>,
    queue: seq<Item>,
    current: seq<byte>,
    receiverHolds: bool,
    intact: bool,
    accepted: seq<byte>,
    delivered: seq<byte>,
    closedAt: Option<int>,
    ended: bool,
    finished: bool)

  /** `lost` is the credit that went with lost frames or failed sends, `shortfall` what was sent beyond the credit
      granted. */
  datatype State = State(
    pipe: Pipe,
    available: int,
    taken: seq<seq<byte>>,
    owed: int,
    updates: seq<int>,
    lost: int,
    shortfall: int,
    refused: bool,
    senderHolds: bool)

  ghost predicate Init(s: State) {
    s == State(Pipe([], [], [], true, true, [], [], None, false, false), WINDOW, [], 0, [], 0, 0, false, true)
  }

  function Min(a: int, b: int): int { if a <= b then a else b }

  function Sum(xs: seq<int>): int { if xs == [] then 0 else Sum(xs[..|xs| - 1]) + xs[|xs| - 1] }

  function Payload(x: Item): seq<byte> { if x.Data? then x.bytes else [] }

  function Flat(xs: seq<Item>): seq<byte> { if xs == [] then [] else Flat(xs[..|xs| - 1]) + Payload(xs[|xs| - 1]) }

  function Size(xs: seq<Item>): nat { if xs == [] then 0 else Size(xs[..|xs| - 1]) + |Payload(xs[|xs| - 1])| }

  function Length(xs: seq<seq<byte>>): nat { if xs == [] then 0 else Length(xs[..|xs| - 1]) + |xs[|xs| - 1]| }

  // ----- What the pipe does -----

  function Sent(p: Pipe, chunk: seq<byte>): Pipe { p.(wire := p.wire + [Data(chunk)], accepted := p.accepted + chunk) }

  function Closed(p: Pipe): Pipe { p.(wire := p.wire + [HalfClose], closedAt := Some(|p.accepted|)) }

  function Dropped(p: Pipe, i: nat): Pipe
    requires i < |p.wire|
  {
    p.(wire := Without(p.wire, i), intact := false)
  }

  /** Only the client keeps a half-close beside the queue, as a flag. */
  predicate Flags(d: Direction, p: Pipe)
    requires p.wire != []
  {
    p.receiverHolds && d.Down? && p.wire[0].HalfClose?
  }

  predicate Fits(d: Direction, p: Pipe)
    requires p.wire != []
  {
    p.receiverHolds && !Flags(d, p) && |p.queue| < QUEUE
  }

  predicate Overflows(d: Direction, p: Pipe)
    requires p.wire != []
  {
    p.receiverHolds && !Flags(d, p) && |p.queue| >= QUEUE
  }

  /** A frame for a stream that is gone is dropped. Data that finds the queue full resets the stream: the server
      forgets it at once, the client keeps it until Close. */
  function Arrived(d: Direction, p: Pipe): Pipe
    requires p.wire != []
  {
    p.(wire := p.wire[1..], queue := if Fits(d, p) then p.queue + [p.wire[0]] else p.queue, ended := p.ended || Flags(d, p),
       receiverHolds := p.receiverHolds && !(Overflows(d, p) && d.Up?), intact := p.intact && !(Overflows(d, p) && d.Down?))
  }

  function Begun(p: Pipe): Pipe
    requires p.queue != [] && p.queue[0].Data?
  {
    p.(queue := p.queue[1..], current := p.queue[0].bytes)
  }

  /** The socket, or the reader's buffer, takes n bytes. */
  function Delivered(p: Pipe, n: nat): Pipe
    requires n <= |p.current|
  {
    p.(delivered := p.delivered + p.current[..n], current := p.current[n..])
  }

  /** May CloseWrite be called on the socket, or Read report EOF? */
  predicate MayFinish(d: Direction, p: Pipe) {
    p.current == [] && if d.Up? then p.queue != [] && p.queue[0].HalfClose? else p.ended && p.queue == []
  }

  function Finished(d: Direction, p: Pipe): Pipe
    requires MayFinish(d, p)
  {
    p.(queue := if d.Up? then p.queue[1..] else [], finished := true)
  }

  // ----- Steps -----

  /** take grants what there is. A client's Write then cuts the chunk down; copyToClient does not. */
  ghost predicate Take(d: Direction, s: State, s': State, chunk: seq<byte>) {
    && 1 <= |chunk| <= Frames.MAX_DATA_SIZE && s.available > 0
    && var grant := Min(|chunk|, s.available);
       var cut := if d.Up? then chunk[..grant] else chunk;
       s' == s.(available := s.available - grant, taken := s.taken + [cut], shortfall := s.shortfall + |cut| - grant)
  }

  ghost predicate Send(s: State, s': State, i: int) {
    0 <= i < |s.taken| && s' == s.(taken := Without(s.taken, i), pipe := Sent(s.pipe, s.taken[i]))
  }

  ghost predicate SendFails(s: State, s': State, i: int) {
    0 <= i < |s.taken| && s' == s.(taken := Without(s.taken, i), lost := s.lost + |s.taken[i]|)
  }

  ghost predicate CloseWrite(s: State, s': State) {
    s.pipe.closedAt.None? && s' == s.(pipe := Closed(s.pipe))
  }

  /** add refuses zero and anything that would lift the window above its start; the stream then fails. */
  ghost predicate UpdateArrives(s: State, s': State) {
    && s.updates != []
    && var n := s.updates[0];
       var fits := n != 0 && s.available + n <= WINDOW;
       var add := s.senderHolds && fits;
       s' == s.(updates := s.updates[1..], available := s.available + (if add then n else 0),
                lost := s.lost + (if add then 0 else n), refused := s.refused || (s.senderHolds && !fits))
  }

  ghost predicate LoseItem(s: State, s': State, i: int) {
    && 0 <= i < |s.pipe.wire|
    && s' == s.(pipe := Dropped(s.pipe, i), lost := s.lost + |Payload(s.pipe.wire[i])|)
  }

  ghost predicate LoseUpdate(s: State, s': State, i: int) {
    0 <= i < |s.updates| && s' == s.(updates := Without(s.updates, i), lost := s.lost + s.updates[i])
  }

  /** A half-close that finds the server's queue full waits. */
  ghost predicate Arrives(d: Direction, s: State, s': State) {
    && s.pipe.wire != [] && (Overflows(d, s.pipe) ==> s.pipe.wire[0].Data?)
    && s' == s.(pipe := Arrived(d, s.pipe), lost := s.lost + if Fits(d, s.pipe) then 0 else |Payload(s.pipe.wire[0])|)
  }

  ghost predicate Begin(s: State, s': State) {
    && s.pipe.current == [] && s.owed == 0 && s.pipe.queue != [] && s.pipe.queue[0].Data?
    && s' == s.(pipe := Begun(s.pipe))
  }

  ghost predicate Deliver(s: State, s': State, n: int) {
    s.owed == 0 && 1 <= n <= |s.pipe.current| && s' == s.(pipe := Delivered(s.pipe, n), owed := n)
  }

  ghost predicate SendUpdate(s: State, s': State) { s.owed > 0 && s' == s.(updates := s.updates + [s.owed], owed := 0) }

  ghost predicate UpdateFails(s: State, s': State) { s.owed > 0 && s' == s.(lost := s.lost + s.owed, owed := 0) }

  ghost predicate Finish(d: Direction, s: State, s': State) {
    MayFinish(d, s.pipe) && s.owed == 0 && s' == s.(pipe := Finished(d, s.pipe))
  }

  ghost predicate Release(s: State, s': State) {
    s' == s.(senderHolds := false) || s' == s.(pipe := s.pipe.(receiverHolds := false))
  }

  ghost predicate SenderStep(s: State, s': State) {
    || (exists i: int :: Send(s, s', i))
    || (exists i: int :: SendFails(s, s', i))
    || CloseWrite(s, s') || UpdateArrives(s, s')
  }

  ghost predicate LinkStep(s: State, s': State) {
    || (exists i: int :: LoseItem(s, s', i))
    || (exists i: int :: LoseUpdate(s, s', i))
  }

  ghost predicate ReceiverStep(d: Direction, s: State, s': State) {
    || Arrives(d, s, s') || Begin(s, s')
    || (exists n: int :: Deliver(s, s', n))
    || SendUpdate(s, s') || UpdateFails(s, s') || Finish(d, s, s') || Release(s, s')
  }

  ghost predicate Step(d: Direction, s: State, s': State) {
    || (exists chunk: seq<byte> :: Take(d, s, s', chunk))
    || SenderStep(s, s') || LinkStep(s, s') || ReceiverStep(d, s, s')
  }

  ghost predicate Next(d: Direction, run: seq<State>, i: int) { 0 <= i < |run| - 1 && Step(d, run[i], run[i + 1]) }

  ghost predicate Run(d: Direction, run: seq<State>) {
    |run| > 0 && Init(run[0]) && forall i :: 0 <= i < |run| - 1 ==> Next(d, run, i)
  }

  // ----- Sums -----

  lemma SumSnoc(xs: seq<int>, x: int)
    ensures Sum(xs + [x]) == Sum(xs) + x
  {
    assert (xs + [x])[..|xs|] == xs;
  }

  lemma SizeSnoc(xs: seq<Item>, x: Item)
    ensures Size(xs + [x]) == Size(xs) + |Payload(x)|
  {
    assert (xs + [x])[..|xs|] == xs;
  }

  lemma FlatSnoc(xs: seq<Item>, x: Item)
    ensures Flat(xs + [x]) == Flat(xs) + Payload(x)
  {
    assert (xs + [x])[..|xs|] == xs;
  }

  lemma {:induction false} FlatSize(xs: seq<Item>)
    ensures |Flat(xs)| == Size(xs)
  {
    if xs != [] { FlatSize(xs[..|xs| - 1]); }
  }

  lemma {:induction false} FlatHead(xs: seq<Item>)
    requires xs != []
    ensures Flat(xs) == Payload(xs[0]) + Flat(xs[1..])
  {
    var n := |xs| - 1;
    if n > 0 {
      FlatHead(xs[..n]);
      assert xs[..n][1..] == xs[1..][..n - 1];
    }
  }

  lemma {:induction false} SumWithout(xs: seq<int>, i: nat)
    requires i < |xs|
    ensures Sum(Without(xs, i)) == Sum(xs) - xs[i]
  {
    var n := |xs| - 1;
    if i == n {
      assert Without(xs, i) == xs[..n];
    } else {
      SumWithout(xs[..n], i);
      assert Without(xs, i)[..n - 1] == Without(xs[..n], i);
    }
  }

  lemma {:induction false} LengthWithout(xs: seq<seq<byte>>, i: nat)
    requires i < |xs|
    ensures Length(Without(xs, i)) == Length(xs) - |xs[i]|
  {
    var n := |xs| - 1;
    if i == n {
      assert Without(xs, i) == xs[..n];
    } else {
      LengthWithout(xs[..n], i);
      assert Without(xs, i)[..n - 1] == Without(xs[..n], i);
    }
  }

  lemma {:induction false} SizeHead(xs: seq<Item>)
    requires xs != []
    ensures Size(xs[1..]) == Size(xs) - |Payload(xs[0])|
  {
    var n := |xs| - 1;
    if n > 0 {
      SizeHead(xs[..n]);
      assert xs[..n][1..] == xs[1..][..n - 1];
    }
  }

  lemma {:induction false} SizeMid(a: seq<Item>, x: Item, c: seq<Item>)
    ensures Size(a + [x] + c) == Size(a + c) + |Payload(x)|
  {
    if c == [] {
      assert a + [x] + c == a + [x] && a + c == a;
      SizeSnoc(a, x);
    } else {
      var front, last := c[..|c| - 1], c[|c| - 1];
      SizeMid(a, x, front);
      assert a + [x] + c == a + [x] + front + [last] && a + c == a + front + [last];
      SizeSnoc(a + [x] + front, last);
      SizeSnoc(a + front, last);
    }
  }

  lemma SizeWithout(xs: seq<Item>, i: nat)
    requires i < |xs|
    ensures Size(Without(xs, i)) == Size(xs) - |Payload(xs[i])|
  {
    var a, x, c := xs[..i], xs[i], xs[i + 1..];
    SizeMid(a, x, c);
    assert xs == a + [x] + c;
  }

  lemma SumHead(xs: seq<int>)
    requires xs != []
    ensures Sum(xs[1..]) == Sum(xs) - xs[0]
  {
    assert Without(xs, 0) == xs[1..];
    SumWithout(xs, 0);
  }

  lemma {:induction false} SumPositive(xs: seq<int>)
    requires forall i :: 0 <= i < |xs| ==> xs[i] > 0
    ensures Sum(xs) >= 0 && (xs != [] ==> xs[0] <= Sum(xs))
  {
    if xs != [] {
      SumPositive(xs[..|xs| - 1]);
    }
  }

  // ----- Credit -----

  function Held(p: Pipe): nat { Size(p.wire) + Size(p.queue) + |p.current| }

  /** All credit, wherever it is. */
  function Total(s: State): int { s.available + Length(s.taken) + Held(s.pipe) + s.owed + Sum(s.updates) }

  ghost predicate Positive(s: State) {
    && 0 <= s.available && 0 <= s.owed && 0 <= s.lost && 0 <= s.shortfall
    && forall i :: 0 <= i < |s.updates| ==> s.updates[i] > 0
  }

  /** The law of the window: credit is only ever lost, or made by sending beyond what was granted. */
  ghost predicate Lawful(d: Direction, s: State) {
    && Positive(s) && Total(s) + s.lost == WINDOW + s.shortfall
    && (d.Up? ==> s.shortfall == 0) && (s.shortfall == 0 ==> !s.refused)
  }

  lemma SendHolds(p: Pipe, chunk: seq<byte>)
    ensures Held(Sent(p, chunk)) == Held(p) + |chunk| && Held(Closed(p)) == Held(p)
  {
    SizeSnoc(p.wire, Data(chunk));
    SizeSnoc(p.wire, HalfClose);
  }

  lemma ArriveHolds(d: Direction, p: Pipe)
    requires p.wire != []
    ensures Held(Arrived(d, p)) == Held(p) - if Fits(d, p) then 0 else |Payload(p.wire[0])|
  {
    SizeHead(p.wire);
    if Fits(d, p) { SizeSnoc(p.queue, p.wire[0]); }
  }

  lemma QueueHolds(d: Direction, p: Pipe)
    ensures p.queue != [] && p.queue[0].Data? && p.current == [] ==> Held(Begun(p)) == Held(p)
    ensures MayFinish(d, p) ==> Held(Finished(d, p)) == Held(p)
  {
    if p.queue != [] { SizeHead(p.queue); }
  }

  lemma TakeLawful(d: Direction, s: State, s': State, chunk: seq<byte>)
    requires Lawful(d, s) && Take(d, s, s', chunk)
    ensures Lawful(d, s')
    ensures s'.shortfall >= s.shortfall && (d.Down? ==> (s'.shortfall > s.shortfall <==> |chunk| > s.available))
  {
    assert s'.taken[..|s.taken|] == s.taken;
  }

  lemma SendLawful(d: Direction, s: State, s': State, i: int)
    requires Lawful(d, s) && (Send(s, s', i) || SendFails(s, s', i))
    ensures Lawful(d, s') && s'.shortfall == s.shortfall
  {
    LengthWithout(s.taken, i);
    SendHolds(s.pipe, s.taken[i]);
  }

  lemma CloseLawful(d: Direction, s: State, s': State)
    requires Lawful(d, s) && CloseWrite(s, s')
    ensures Lawful(d, s') && s'.shortfall == s.shortfall
  {
    SendHolds(s.pipe, []);
  }

  lemma LoseLawful(d: Direction, s: State, s': State, i: int)
    requires Lawful(d, s) && (LoseItem(s, s', i) || LoseUpdate(s, s', i))
    ensures Lawful(d, s') && s'.shortfall == s.shortfall
  {
    if LoseItem(s, s', i) { SizeWithout(s.pipe.wire, i); } else { SumWithout(s.updates, i); }
  }

  lemma UpdateLawful(d: Direction, s: State, s': State)
    requires Lawful(d, s) && UpdateArrives(s, s')
    ensures Lawful(d, s') && s'.shortfall == s.shortfall
  {
    UpdateFits(d, s);
    SumHead(s.updates);
    assert forall i :: 0 <= i < |s'.updates| ==> s'.updates[i] == s.updates[i + 1];
  }

  /** An update in transit is not zero, and fits the window unless more was sent than granted. */
  lemma UpdateFits(d: Direction, s: State)
    requires Lawful(d, s) && s.updates != []
    ensures s.updates[0] > 0 && (s.shortfall == 0 ==> s.available + s.updates[0] <= WINDOW)
  {
    SumPositive(s.updates);
  }

  lemma ReceiverLawful(d: Direction, s: State, s': State)
    requires Lawful(d, s) && (Arrives(d, s, s') || Begin(s, s') || Finish(d, s, s'))
    ensures Lawful(d, s') && s'.shortfall == s.shortfall
  {
    if Arrives(d, s, s') { ArriveHolds(d, s.pipe); } else { QueueHolds(d, s.pipe); }
  }

  lemma SendUpdateLawful(d: Direction, s: State, s': State)
    requires Lawful(d, s) && SendUpdate(s, s')
    ensures Lawful(d, s') && s'.shortfall == s.shortfall
  {
    SumSnoc(s.updates, s.owed);
  }

  lemma OwedLawful(d: Direction, s: State, s': State)
    requires Lawful(d, s) && (SendUpdate(s, s') || UpdateFails(s, s') || Release(s, s'))
    ensures Lawful(d, s') && s'.shortfall == s.shortfall
  {
    if SendUpdate(s, s') {
      SendUpdateLawful(d, s, s');
    } else {
      assert Held(s'.pipe) == Held(s.pipe);
    }
  }

  lemma SenderStepLawful(d: Direction, s: State, s': State)
    requires Lawful(d, s) && SenderStep(s, s')
    ensures Lawful(d, s') && s'.shortfall == s.shortfall
  {
    if i: int :| Send(s, s', i) {
      SendLawful(d, s, s', i);
    } else if i: int :| SendFails(s, s', i) {
      SendLawful(d, s, s', i);
    } else if CloseWrite(s, s') {
      CloseLawful(d, s, s');
    } else {
      UpdateLawful(d, s, s');
    }
  }

  lemma LinkStepLawful(d: Direction, s: State, s': State)
    requires Lawful(d, s) && LinkStep(s, s')
    ensures Lawful(d, s') && s'.shortfall == s.shortfall
  {
    if i: int :| LoseItem(s, s', i) {
      LoseLawful(d, s, s', i);
    } else {
      var i :| LoseUpdate(s, s', i);
      LoseLawful(d, s, s', i);
    }
  }

  lemma ReceiverStepLawful(d: Direction, s: State, s': State)
    requires Lawful(d, s) && ReceiverStep(d, s, s')
    ensures Lawful(d, s') && s'.shortfall == s.shortfall
  {
    if Arrives(d, s, s') || Begin(s, s') || Finish(d, s, s') {
      ReceiverLawful(d, s, s');
    } else if n: int :| Deliver(s, s', n) {
    } else {
      OwedLawful(d, s, s');
    }
  }

  /** Only a take makes a shortfall. */
  lemma StepLawful(d: Direction, s: State, s': State)
    requires Lawful(d, s) && Step(d, s, s')
    ensures Lawful(d, s')
    ensures s'.shortfall >= s.shortfall && (d.Down? ==> (s'.shortfall > s.shortfall <==> ShortTake(s, s')))
  {
    if chunk: seq<byte> :| Take(d, s, s', chunk) {
      TakeLawful(d, s, s', chunk);
      if d.Down? && ShortTake(s, s') {
        var other :| Take(Down, s, s', other) && |other| > s.available;
        TakeLawful(d, s, s', other);
      }
    } else if SenderStep(s, s') {
      SenderStepLawful(d, s, s');
    } else if LinkStep(s, s') {
      LinkStepLawful(d, s, s');
    } else {
      ReceiverStepLawful(d, s, s');
    }
  }

  /** A take that was granted less than was sent. */
  ghost predicate ShortTake(s: State, s': State) {
    exists chunk: seq<byte> :: Take(Down, s, s', chunk) && |chunk| > s.available
  }

  /** What a Data frame may carry. */
  predicate Sized(x: Item) { x.Data? ==> 1 <= |x.bytes| <= Frames.MAX_DATA_SIZE }
}
