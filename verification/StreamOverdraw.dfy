/** Why the server-to-client direction needs its condition: a concrete run in which copyToClient sends more than it
    was granted (internal/relay/server.go:723-726) and an honest window update is then refused. */
module StreamOverdraw {
  import opened Bytes
  import opened Sequences
  import opened Stream
  import Frames

  lemma Extend(run: seq<State>, s': State) returns (more: seq<State>)
    requires Run(Down, run) && Step(Down, Last(run), s')
    ensures Run(Down, more) && Last(more) == s'
  {
    more := run + [s'];
    forall i | 0 <= i < |more| - 1 ensures Next(Down, more, i) {
      if i < |run| - 1 {
        assert Next(Down, run, i) && more[i] == run[i] && more[i + 1] == run[i + 1];
      } else {
        assert more[i] == Last(run) && more[i + 1] == s';
      }
    }
  }

  /** Nothing is under way but window updates. */
  ghost predicate Quiet(s: State, available: int, updates: seq<int>) {
    && s.pipe.wire == [] && s.pipe.queue == [] && s.pipe.current == [] && s.taken == [] && s.owed == 0
    && s.senderHolds && s.pipe.receiverHolds && !s.refused
    && s.available == available && s.updates == updates
  }

  /** n bytes go the whole way, and the update for them is in transit. */
  lemma Transfer(run: seq<State>, available: int, updates: seq<int>, n: int) returns (more: seq<State>)
    requires Run(Down, run) && Quiet(Last(run), available, updates) && available > 0 && 1 <= n <= Frames.MAX_DATA_SIZE
    ensures Run(Down, more) && Quiet(Last(more), available - Min(n, available), updates + [n])
  {
    var chunk: seq<byte> := seq(n, _ => 0);
    var s0 := Last(run);
    var s1 := s0.(available := available - Min(n, available), taken := [chunk], shortfall := s0.shortfall + n - Min(n, available));
    assert Take(Down, s0, s1, chunk);
    more := Extend(run, s1);
    var s2 := s1.(taken := [], pipe := Sent(s1.pipe, chunk));
    assert Send(s1, s2, 0) && SenderStep(s1, s2);
    more := Extend(more, s2);
    var s3 := s2.(pipe := Arrived(Down, s2.pipe));
    assert Arrives(Down, s2, s3);
    more := Extend(more, s3);
    more := Consume(more, chunk, updates);
  }

  lemma Consume(run: seq<State>, chunk: seq<byte>, updates: seq<int>) returns (more: seq<State>)
    requires Run(Down, run) && chunk != []
    requires var s := Last(run);
             && s.pipe.wire == [] && s.pipe.queue == [Data(chunk)] && s.pipe.current == [] && s.taken == [] && s.owed == 0
             && s.senderHolds && s.pipe.receiverHolds && !s.refused && s.updates == updates
    ensures Run(Down, more) && Quiet(Last(more), Last(run).available, updates + [|chunk|])
  {
    var s3 := Last(run);
    var s4 := s3.(pipe := Begun(s3.pipe));
    assert Begin(s3, s4);
    more := Extend(run, s4);
    var s5 := s4.(pipe := Delivered(s4.pipe, |chunk|), owed := |chunk|);
    assert Deliver(s4, s5, |chunk|);
    more := Extend(more, s5);
    var s6 := s5.(updates := updates + [|chunk|], owed := 0);
    assert SendUpdate(s5, s6);
    more := Extend(more, s6);
  }

  /** An update arrives and is added. */
  lemma Add(run: seq<State>, available: int, updates: seq<int>) returns (more: seq<State>)
    requires Run(Down, run) && Quiet(Last(run), available, updates) && updates != []
    requires 0 < updates[0] <= WINDOW - available
    ensures Run(Down, more) && Quiet(Last(more), available + updates[0], updates[1..])
  {
    var s := Last(run);
    var s' := s.(available := available + updates[0], updates := updates[1..]);
    assert UpdateArrives(s, s') && SenderStep(s, s');
    more := Extend(run, s');
  }

  lemma {:induction false} TransferMany(run: seq<State>, k: nat) returns (more: seq<State>)
    requires Run(Down, run) && Quiet(Last(run), WINDOW, []) && k <= 7
    ensures Run(Down, more) && Quiet(Last(more), WINDOW - k * Frames.MAX_DATA_SIZE, seq(k, _ => Frames.MAX_DATA_SIZE))
  {
    if k == 0 {
      more := run;
    } else {
      more := TransferMany(run, k - 1);
      more := Transfer(more, WINDOW - (k - 1) * Frames.MAX_DATA_SIZE, seq(k - 1, _ => Frames.MAX_DATA_SIZE), Frames.MAX_DATA_SIZE);
      assert seq(k - 1, _ => Frames.MAX_DATA_SIZE) + [Frames.MAX_DATA_SIZE] == seq(k, _ => Frames.MAX_DATA_SIZE);
    }
  }

  lemma {:induction false} AddMany(run: seq<State>, available: int, k: nat, rest: seq<int>) returns (more: seq<State>)
    requires Run(Down, run) && Quiet(Last(run), available, seq(k, _ => Frames.MAX_DATA_SIZE) + rest)
    requires available + k * Frames.MAX_DATA_SIZE <= WINDOW
    ensures Run(Down, more) && Quiet(Last(more), available + k * Frames.MAX_DATA_SIZE, rest)
    decreases k
  {
    if k == 0 {
      more := run;
    } else {
      var updates := seq(k, _ => Frames.MAX_DATA_SIZE) + rest;
      more := Add(run, available, updates);
      assert updates[1..] == seq(k - 1, _ => Frames.MAX_DATA_SIZE) + rest;
      more := AddMany(more, available + Frames.MAX_DATA_SIZE, k - 1, rest);
    }
  }

  /** Seven full chunks, one of 32767 bytes, and a full one granted a single byte: the last update is refused. */
  lemma HonestUpdateIsRefused() returns (run: seq<State>)
    ensures Run(Down, run) && Last(run).refused
  {
    var m := Frames.MAX_DATA_SIZE;
    var full := seq(7, _ => m);
    run := [State(Pipe([], [], [], true, true, [], [], None, false, false), WINDOW, [], 0, [], 0, 0, false, true)];
    run := TransferMany(run, 7);
    run := Transfer(run, m, full, m - 1);
    run := Transfer(run, 1, full + [m - 1], m);
    assert full + [m - 1] + [m] == full + [m - 1, m];
    run := AddMany(run, 0, 7, [m - 1, m]);
    run := Add(run, 7 * m, [m - 1, m]);
    var s := Last(run);
    assert Quiet(s, 8 * m - 1, [m]);
    var s' := s.(updates := [], lost := s.lost + m, refused := true);
    assert UpdateArrives(s, s') && SenderStep(s, s');
    run := Extend(run, s');
  }
}
