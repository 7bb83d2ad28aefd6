/** The two ends of a stream as they run: the send window, the client's Write loop and the server's writer loop
    (internal/relay/window.go, client.go:1293-1325, server.go:738-774). */
module StreamEnds {
  import opened Bytes
  import Frames
  import Stream

  /** What wakes a sender that waits for credit: an update, with the level other senders left by the time the
      window is locked again; the end of the stream; a new deadline; or the deadline itself. */
  datatype Wake = Notify(level: nat) | Done | DeadlineChanged | Timeout

  predicate InRange(wakes: seq<Wake>) { forall i :: 0 <= i < |wakes| && wakes[i].Notify? ==> wakes[i].level <= Stream.WINDOW }

  datatype Taken = Granted(count: int) | Ended | Changed | TimedOut | StillWaiting

  class FlowWindow {
    var available: int

    constructor ()
      ensures available == Stream.WINDOW
    {
      available := Stream.WINDOW;
    }

    ghost predicate Valid()
      reads this
    {
      0 <= available <= Stream.WINDOW
    }

    /** Refuses zero and anything beyond the initial window, and then changes nothing. */
    method Add(count: uint32) returns (ok: bool)
      requires Valid()
      modifies this
      ensures Valid()
      ensures ok <==> count > 0 && old(available) + count <= Stream.WINDOW
      ensures available == old(available) + if ok then count else 0
    {
      if count == 0 { return false; }
      if available + count > Stream.WINDOW { return false; }
      available := available + count;
      return true;
    }

    /** The level the window had when it was last locked. */
    static function LevelAt(first: int, wakes: seq<Wake>, used: nat): int
      requires used <= |wakes|
    {
      if used > 0 && wakes[used - 1].Notify? then wakes[used - 1].level else first
    }

    /** Waits through the wake-ups until there is credit. The grant is the whole request or all there is, and only
        a grant takes credit. */
    method Take(max: nat, wakes: seq<Wake>) returns (r: Taken, used: nat)
      requires Valid() && max > 0 && InRange(wakes)
      modifies this
      ensures Valid() && used <= |wakes|
      ensures old(available) > 0 ==> used == 0 && r.Granted?
      ensures old(available) > 0 ==> r.count == (if max <= old(available) then max else old(available)) && available == old(available) - r.count
      ensures old(available) == 0 && r.Granted? ==> used > 0 && wakes[used - 1].Notify? && wakes[used - 1].level > 0
      ensures old(available) == 0 && r.Granted? ==>
                var level := wakes[used - 1].level;
                r.count == (if max <= level then max else level) && available == level - r.count
      ensures !r.Granted? ==> available == 0
      ensures r.Ended? ==> used > 0 && wakes[used - 1].Done?
      ensures r.Changed? ==> used > 0 && wakes[used - 1].DeadlineChanged?
      ensures r.TimedOut? ==> used > 0 && wakes[used - 1].Timeout?
      ensures r.StillWaiting? ==> used == |wakes|
      ensures forall i :: 0 <= i < used - 1 ==> wakes[i] == Notify(0)
    {
      used := 0;
      while true
        invariant Valid() && used <= |wakes|
        invariant available == LevelAt(old(available), wakes, used)
        invariant used > 0 ==> old(available) == 0
        invariant forall i :: 0 <= i < used ==> wakes[i].Notify?
        invariant forall i :: 0 <= i < used - 1 ==> wakes[i] == Notify(0)
        decreases |wakes| - used
      {
        if available > 0 {
          var count := max;
          if count > available { count := available; }
          available := available - count;
          return Granted(count), used;
        }
        if used == |wakes| { return StillWaiting, used; }
        var wake := wakes[used];
        used := used + 1;
        match wake
        case Notify(level) => available := level;
        case Done => return Ended, used;
        case DeadlineChanged => return Changed, used;
        case Timeout => return TimedOut, used;
      }
    }
  }

  /** One round of Write: the wake-ups its take goes through, and whether the link took the frame. */
  datatype Round = Round(wakes: seq<Wake>, sent: bool)

  datatype Written = Complete | CreditError(why: Taken) | SendError | Unfinished

  ghost predicate Chunks(xs: seq<Stream.Item>) { forall i :: 0 <= i < |xs| ==> xs[i].Data? && Stream.Sized(xs[i]) }

  /** How much each grant was, in order. */
  ghost function Grants(takes: seq<Taken>): seq<int> {
    if takes == [] then []
    else Grants(takes[..|takes| - 1]) + (if takes[|takes| - 1].Granted? then [takes[|takes| - 1].count] else [])
  }

  lemma GrantsSnoc(takes: seq<Taken>, r: Taken)
    ensures Grants(takes + [r]) == if r.Granted? then Grants(takes) + [r.count] else Grants(takes)
  {
    assert (takes + [r])[..|takes|] == takes;
  }

  ghost function Sizes(frames: seq<Stream.Item>): seq<int> { seq(|frames|, i requires 0 <= i < |frames| => |Stream.Payload(frames[i])|) }

  /** What a take answers comes from one of the wake-ups it went through. */
  ghost predicate Explained(r: Taken, wakes: seq<Wake>) {
    && (r.Ended? ==> Done in wakes) && (r.TimedOut? ==> Timeout in wakes) && (r.Changed? ==> DeadlineChanged in wakes)
  }

  /** Every round so far ended in a new deadline or in a grant whose frame the link took. */
  ghost predicate WentOn(takes: seq<Taken>, rounds: seq<Round>) {
    && |takes| <= |rounds|
    && forall i :: 0 <= i < |takes| ==>
         Explained(takes[i], rounds[i].wakes) && (takes[i].Changed? || (takes[i].Granted? && rounds[i].sent))
  }

  lemma GoesOn(takes: seq<Taken>, rounds: seq<Round>, r: Taken)
    requires WentOn(takes, rounds) && |takes| < |rounds| && Explained(r, rounds[|takes|].wakes)
    requires r.Changed? || (r.Granted? && rounds[|takes|].sent)
    ensures WentOn(takes + [r], rounds)
  {
  }

  /** The frames are the granted pieces of what is written so far. */
  ghost predicate Carried(p: seq<byte>, written: int, frames: seq<Stream.Item>, takes: seq<Taken>) {
    0 <= written <= |p| && Stream.Flat(frames) == p[..written] && Chunks(frames) && Grants(takes) == Sizes(frames)
  }

  lemma CarriesMore(p: seq<byte>, written: nat, frames: seq<Stream.Item>, takes: seq<Taken>, r: Taken)
    requires Carried(p, written, frames, takes) && r.Granted? && 1 <= r.count <= |p| - written && r.count <= Frames.MAX_DATA_SIZE
    ensures Carried(p, written + r.count, frames + [Stream.Data(p[written..written + r.count])], takes + [r])
  {
    var x := Stream.Data(p[written..written + r.count]);
    GrantsSnoc(takes, r);
    Stream.FlatSnoc(frames, x);
    assert p[..written] + p[written..written + r.count] == p[..written + r.count];
    assert Sizes(frames + [x]) == Sizes(frames) + [r.count];
  }

  lemma CarriesOn(p: seq<byte>, written: nat, frames: seq<Stream.Item>, takes: seq<Taken>, r: Taken)
    requires Carried(p, written, frames, takes)
    ensures !r.Granted? ==> Carried(p, written, frames, takes + [r])
    ensures r.Granted? ==> Grants(takes + [r]) == Sizes(frames) + [r.count]
  {
    GrantsSnoc(takes, r);
  }

  /** Every round but the last went on. */
  ghost predicate Stopped(takes: seq<Taken>, rounds: seq<Round>) {
    && 0 < |takes| <= |rounds| && WentOn(takes[..|takes| - 1], rounds)
    && Explained(takes[|takes| - 1], rounds[|takes| - 1].wakes)
  }

  lemma Stops(takes: seq<Taken>, rounds: seq<Round>, r: Taken)
    requires WentOn(takes, rounds) && |takes| < |rounds| && Explained(r, rounds[|takes|].wakes)
    ensures Stopped(takes + [r], rounds)
  {
    assert (takes + [r])[..|takes|] == takes;
  }

  /** There is credit for everything, the link takes every frame, and there are rounds enough. */
  ghost predicate EnoughFor(p: seq<byte>, available: int, rounds: seq<Round>) {
    |p| <= available && |p| <= |rounds| * Frames.MAX_DATA_SIZE && forall i :: 0 <= i < |rounds| ==> rounds[i].sent
  }

  /** Every round so far carried a full frame, or the end. */
  ghost predicate OnPace(size: nat, written: int, n: nat) { written == size || written == n * Frames.MAX_DATA_SIZE }

  lemma KeepsPace(size: nat, written: nat, n: nat)
    requires written < size
    ensures OnPace(size, written, n) ==>
              OnPace(size, written + (if size - written <= Frames.MAX_DATA_SIZE then size - written else Frames.MAX_DATA_SIZE), n + 1)
  {
  }

  lemma NotOnPace(p: seq<byte>, written: nat, available: int, rounds: seq<Round>)
    requires written < |p|
    ensures EnoughFor(p, available, rounds) ==> !OnPace(|p|, written, |rounds|)
  {
  }

  lemma WentOnSays(takes: seq<Taken>, rounds: seq<Round>)
    requires WentOn(takes, rounds)
    ensures |takes| <= |rounds| && forall i :: 0 <= i < |takes| ==> Explained(takes[i], rounds[i].wakes)
    ensures forall i :: 0 <= i < |takes| ==> takes[i].Changed? || (takes[i].Granted? && rounds[i].sent)
  {
  }

  lemma StoppedSays(takes: seq<Taken>, rounds: seq<Round>)
    requires Stopped(takes, rounds)
    ensures |takes| <= |rounds| && forall i :: 0 <= i < |takes| ==> Explained(takes[i], rounds[i].wakes)
    ensures forall i :: 0 <= i < |takes| - 1 ==> takes[i].Changed? || (takes[i].Granted? && rounds[i].sent)
  {
    forall i | 0 <= i < |takes| - 1 ensures Explained(takes[i], rounds[i].wakes) && (takes[i].Changed? || (takes[i].Granted? && rounds[i].sent)) {
      assert takes[..|takes| - 1][i] == takes[i];
    }
  }

  /** The take of one round: for all that is left, but at most one frame. */
  method TakeFrame(w: FlowWindow, left: nat, wakes: seq<Wake>) returns (r: Taken)
    requires w.Valid() && left > 0 && InRange(wakes)
    modifies w
    ensures w.Valid() && Explained(r, wakes)
    ensures r.Granted? ==> 1 <= r.count <= left && r.count <= Frames.MAX_DATA_SIZE
    ensures old(w.available) >= left ==>
              r == Granted(if left <= Frames.MAX_DATA_SIZE then left else Frames.MAX_DATA_SIZE) && w.available == old(w.available) - r.count
  {
    var max := left;
    if max > Frames.MAX_DATA_SIZE { max := Frames.MAX_DATA_SIZE; }
    var used;
    r, used := w.Take(max, wakes);
  }

  /** clientStream.Write. The frames carry exactly the bytes it reports as written, in order, each a valid Data
      frame, and only complete writing reports no error. `stranded` bytes were granted but never sent. `takes` holds the
      answers of the takes, one for each round gone through. */
  method Write(w: FlowWindow, p: seq<byte>, rounds: seq<Round>)
      returns (written: nat, frames: seq<Stream.Item>, outcome: Written, stranded: nat, ghost takes: seq<Taken>)
    requires w.Valid() && forall i :: 0 <= i < |rounds| ==> InRange(rounds[i].wakes)
    modifies w
    ensures w.Valid() && written <= |p| && Stream.Flat(frames) == p[..written] && Chunks(frames)
    ensures outcome.Complete? <==> written == |p|
    ensures stranded > 0 <==> outcome.SendError?
    ensures written + stranded <= |p| && stranded <= Frames.MAX_DATA_SIZE
    ensures |takes| <= |rounds| && forall i :: 0 <= i < |takes| ==> Explained(takes[i], rounds[i].wakes)
    ensures forall i :: 0 <= i < |takes| - 1 ==> takes[i].Changed? || (takes[i].Granted? && rounds[i].sent)
    ensures Grants(takes) == if outcome.SendError? then Sizes(frames) + [stranded] else Sizes(frames)
    ensures outcome.Complete? && p != [] ==> |takes| > 0 && takes[|takes| - 1].Granted? && rounds[|takes| - 1].sent
    ensures outcome.SendError? ==> |takes| > 0 && takes[|takes| - 1] == Granted(stranded) && !rounds[|takes| - 1].sent
    ensures outcome.Unfinished? ==> |takes| == |rounds|
    ensures outcome.Unfinished? && takes != [] ==> takes[|takes| - 1].Changed? || (takes[|takes| - 1].Granted? && rounds[|takes| - 1].sent)
    ensures outcome.CreditError? ==> |takes| > 0 && takes[|takes| - 1] == outcome.why && !outcome.why.Granted? && !outcome.why.Changed?
    ensures EnoughFor(p, old(w.available), rounds) ==> outcome.Complete? && w.available == old(w.available) - |p|
  {
    written, frames, outcome, stranded := 0, [], Complete, 0;
    takes := [];
    var n := 0;
    ghost var credit := w.available;
    while written < |p|
      invariant w.Valid() && n == |takes| && outcome.Complete? && stranded == 0
      invariant WentOn(takes, rounds) && Carried(p, written, frames, takes)
      invariant 0 < |p| == written ==> n > 0 && takes[n - 1].Granted?
      invariant EnoughFor(p, credit, rounds) ==> w.available == credit - written && OnPace(|p|, written, n)
      decreases |rounds| - n
    {
      if n == |rounds| {
        outcome := Unfinished;
        NotOnPace(p, written, credit, rounds);
        break;
      }
      var r := TakeFrame(w, |p| - written, rounds[n].wakes);
      ghost var was := takes;
      CarriesOn(p, written, frames, was, r);
      takes := was + [r];
      n := n + 1;
      if r.Changed? {
        GoesOn(was, rounds, r);
        continue;
      }
      if !r.Granted? {
        outcome := CreditError(r);
        Stops(was, rounds, r);
        break;
      }
      if !rounds[n - 1].sent {
        outcome, stranded := SendError, r.count;
        Stops(was, rounds, r);
        break;
      }
      GoesOn(was, rounds, r);
      CarriesMore(p, written, frames, was, r);
      KeepsPace(|p|, written, n - 1);
      frames := frames + [Stream.Data(p[written..written + r.count])];
      written := written + r.count;
    }
    if !outcome.CreditError? && !outcome.SendError? { WentOnSays(takes, rounds); } else { StoppedSays(takes, rounds); }
  }

  /** What one conn.Write returned; it never takes more than it was given. */
  datatype SocketWrite = SocketWrite(count: nat, failed: bool)

  datatype Drained = AllWritten | Reset | Gone | Blocked

  /** One update for each write so far, for what it moved: all it took, or what was left. */
  ghost predicate Moved(size: int, writes: seq<SocketWrite>, updates: seq<int>, written: int) {
    if updates == [] then written == 0
    else
      var n := |updates| - 1;
      && n < |writes| && 0 < updates[n] && written <= size && Moved(size, writes, updates[..n], written - updates[n])
      && updates[n] == if writes[n].count <= size - (written - updates[n]) then writes[n].count else size - (written - updates[n])
  }

  lemma {:induction false} MovedSays(size: nat, writes: seq<SocketWrite>, updates: seq<int>, written: int)
    requires Moved(size, writes, updates, written)
    ensures |updates| <= |writes| && 0 <= written <= size && Stream.Sum(updates) == written
    ensures forall i :: 0 <= i < |updates| ==> 0 < updates[i] <= size
    ensures forall i :: 0 <= i < |updates| - 1 ==> updates[i] == writes[i].count
    ensures updates != [] ==> updates[|updates| - 1] == writes[|updates| - 1].count
                              || (written == size && updates[|updates| - 1] < writes[|updates| - 1].count)
  {
    if updates != [] {
      var n := |updates| - 1;
      MovedSays(size, writes, updates[..n], written - updates[n]);
    }
  }

  /** The first n writes moved something without an error, and their updates were sent. */
  ghost predicate Fine(writes: seq<SocketWrite>, updateFails: Option<int>, n: int) {
    n <= |writes| && forall i :: 0 <= i < n ==> writes[i].count > 0 && !writes[i].failed && updateFails != Some(i)
  }

  lemma MovesMore(size: nat, writes: seq<SocketWrite>, updates: seq<int>, written: nat, count: nat)
    requires Moved(size, writes, updates, written) && |updates| < |writes| && written < size && count > 0
    requires count == if writes[|updates|].count <= size - written then writes[|updates|].count else size - written
    ensures Moved(size, writes, updates + [count], written + count)
  {
    assert (updates + [count])[..|updates|] == updates;
  }

  /** Where the loop can stop: at its guard, without another write, at a refused update, or at a failed or empty write. */
  ghost predicate StoppedAt(
      data: seq<byte>, writes: seq<SocketWrite>, updateFails: Option<int>, updates: seq<int>, written: int, n: int, outcome: Drained)
  {
    && 0 <= written <= |data| && 0 <= n <= |writes|
    && match outcome
       case AllWritten => n == |updates| && written == |data| && Moved(|data|, writes, updates, written) && Fine(writes, updateFails, n)
       case Blocked => n == |updates| == |writes| && written < |data| && Moved(|data|, writes, updates, written) && Fine(writes, updateFails, n)
       case Gone =>
         && n == |updates| + 1 && Fine(writes, updateFails, n - 1) && updateFails == Some(n - 1) && writes[n - 1].count > 0
         && exists acked :: acked < written && Moved(|data|, writes, updates, acked)
       case Reset =>
         && n > 0 && Fine(writes, updateFails, n - 1) && Moved(|data|, writes, updates, written)
         && (writes[n - 1].failed || writes[n - 1].count == 0)
         && |updates| == (if writes[n - 1].count > 0 then n else n - 1) && (writes[n - 1].count > 0 ==> updateFails != Some(n - 1))
  }

  lemma UpdateRefused(
      data: seq<byte>, writes: seq<SocketWrite>, updateFails: Option<int>, updates: seq<int>, written: nat, n: nat, count: nat)
    requires Moved(|data|, writes, updates, written) && Fine(writes, updateFails, |updates|) && n == |updates| + 1 <= |writes|
    requires updateFails == Some(n - 1) && 0 < count <= writes[n - 1].count && written + count <= |data|
    ensures StoppedAt(data, writes, updateFails, updates, written + count, n, Gone)
  {
  }

  lemma StopSays(
      data: seq<byte>, writes: seq<SocketWrite>, updateFails: Option<int>, updates: seq<int>, written: int, n: int, outcome: Drained)
    requires StoppedAt(data, writes, updateFails, updates, written, n, outcome)
    ensures forall i :: 0 <= i < |updates| ==> 0 < updates[i] <= |data|
    ensures if outcome.Gone? then Stream.Sum(updates) < written else Stream.Sum(updates) == written
    ensures forall i :: 0 <= i < n - 1 ==> writes[i].count > 0 && !writes[i].failed && updateFails != Some(i)
    ensures |updates| <= n && forall i :: 0 <= i < |updates| - 1 ==> updates[i] == writes[i].count
    ensures updates != [] ==> updates[|updates| - 1] == writes[|updates| - 1].count
                              || (written == |data| && !outcome.Gone? && updates[|updates| - 1] < writes[|updates| - 1].count)
  {
    var acked :| Moved(|data|, writes, updates, acked) && (if outcome.Gone? then acked < written else acked == written);
    MovedSays(|data|, writes, updates, acked);
  }

  /** The loop itself. */
  method Drain(data: seq<byte>, writes: seq<SocketWrite>, updateFails: Option<int>)
      returns (written: nat, updates: seq<int>, outcome: Drained, n: nat)
    ensures StoppedAt(data, writes, updateFails, updates, written, n, outcome)
  {
    written, updates, outcome, n := 0, [], AllWritten, 0;
    while written < |data|
      invariant outcome.AllWritten? && n == |updates| && written <= |data|
      invariant Moved(|data|, writes, updates, written) && Fine(writes, updateFails, n)
      decreases |writes| - n
    {
      if n == |writes| {
        outcome := Blocked;
        break;
      }
      var r := writes[n];
      var count := if r.count <= |data| - written then r.count else |data| - written;
      n := n + 1;
      if count > 0 {
        if updateFails == Some(n - 1) {
          outcome := Gone;
          UpdateRefused(data, writes, updateFails, updates, written, n, count);
          written := written + count;
          break;
        }
        MovesMore(|data|, writes, updates, written, count);
        written, updates := written + count, updates + [count];
      }
      if r.failed || count == 0 {
        outcome := Reset;
        break;
      }
    }
  }

  /** The writer's loop over one Data event: what reached the socket is a prefix of the event, and the updates sent
      back add up to it, one for every write that moved something. `updateFails` is the round whose update the link
      refuses; `used` counts the writes. */
  method WriteToRemote(data: seq<byte>, writes: seq<SocketWrite>, updateFails: Option<int>)
      returns (out: seq<byte>, updates: seq<int>, outcome: Drained, used: nat)
    ensures |out| <= |data| && out == data[..|out|] && used <= |writes| && (outcome.AllWritten? ==> |out| == |data|)
    ensures forall i :: 0 <= i < |updates| ==> 0 < updates[i] <= |data|
    ensures if outcome.Gone? then Stream.Sum(updates) < |out| else Stream.Sum(updates) == |out|
    ensures forall i :: 0 <= i < used - 1 ==> writes[i].count > 0 && !writes[i].failed && updateFails != Some(i)
    ensures |updates| <= used && forall i :: 0 <= i < |updates| - 1 ==> updates[i] == writes[i].count
    ensures updates != [] ==> updates[|updates| - 1] == writes[|updates| - 1].count
                              || (|out| == |data| && updates[|updates| - 1] < writes[|updates| - 1].count)
    ensures outcome.AllWritten? && used > 0 ==> writes[used - 1].count > 0 && !writes[used - 1].failed && updateFails != Some(used - 1)
    ensures outcome.Blocked? ==> used == |writes| && |updates| == used && |out| < |data|
    ensures outcome.Blocked? && used > 0 ==> !writes[used - 1].failed && updateFails != Some(used - 1)
    ensures outcome.Gone? ==> used > 0 && updateFails == Some(used - 1) && writes[used - 1].count > 0 && |updates| == used - 1
    ensures outcome.Reset? ==> used > 0 && (writes[used - 1].failed || writes[used - 1].count == 0)
    ensures outcome.Reset? ==> |updates| == (if writes[used - 1].count > 0 then used else used - 1)
    ensures outcome.Reset? && writes[used - 1].count > 0 ==> updateFails != Some(used - 1)
  {
    var written;
    written, updates, outcome, used := Drain(data, writes, updateFails);
    StopSays(data, writes, updateFails, updates, written, used, outcome);
    out := data[..written];
  }

  /** What the client's receive queue holds: data, or the error that ended the stream. */
  datatype Event = Chunk(bytes: seq<byte>) | Fault(eof: bool)

  /** What a waiting Read wakes up to; a full queue does not keep the end of the stream from being picked. */
  datatype Choice = Incoming | Timer | Woken | StreamDone

  datatype ReadOutcome = Nothing | Received(data: seq<byte>) | Drained | Broken(eof: bool) | Expired | Over | Pending

  function Content(buffer: seq<byte>, events: seq<Event>): seq<byte> {
    if events == [] then buffer else Content(buffer, events[..|events| - 1]) + (if events[|events| - 1].Chunk? then events[|events| - 1].bytes else [])
  }

  lemma {:induction false} ContentHead(events: seq<Event>)
    requires events != []
    ensures Content([], events) == if events[0].Chunk? then Content(events[0].bytes, events[1..]) else Content([], events[1..])
  {
    var n := |events| - 1;
    if n > 0 {
      ContentHead(events[..n]);
      assert events[..n][1..] == events[1..][..n - 1];
    }
  }

  lemma {:induction false} ContentCut(buffer: seq<byte>, events: seq<Event>, n: nat)
    requires n <= |buffer|
    ensures Content(buffer, events) == buffer[..n] + Content(buffer[n..], events)
  {
    if events == [] {
      assert buffer == buffer[..n] + buffer[n..];
    } else {
      ContentCut(buffer, events[..|events| - 1], n);
    }
  }

  /** The receiving half of clientStream (internal/relay/client.go:1141-1177, 1207-1291). */
  class Receiver {
    var buffer: seq<byte>
    var incoming: seq<Event>
    var readEOF: bool

    ghost predicate Valid()
      reads this
    {
      |incoming| <= Stream.QUEUE && forall i :: 0 <= i < |incoming| && incoming[i].Chunk? ==> incoming[i].bytes != []
    }

    constructor ()
      ensures Valid() && buffer == [] && incoming == [] && !readEOF
    {
      buffer, incoming, readEOF := [], [], false;
    }

    /** handle for Data and HalfClose: a full queue refuses the data and breaks the stream. */
    method Handle(x: Stream.Item) returns (ok: bool)
      requires Valid() && Stream.Sized(x)
      modifies this
      ensures Valid() && buffer == old(buffer)
      ensures x.HalfClose? ==> ok && readEOF && incoming == old(incoming)
      ensures x.Data? ==> readEOF == old(readEOF) && (ok <==> |old(incoming)| < Stream.QUEUE)
      ensures x.Data? ==> incoming == old(incoming) + if ok then [Chunk(x.bytes)] else []
      ensures x.Data? ==> Content(buffer, incoming) == old(Content(buffer, incoming)) + if ok then x.bytes else []
    {
      if x.HalfClose? {
        readEOF := true;
        return true;
      }
      ok := |incoming| < Stream.QUEUE;
      if ok {
        incoming := incoming + [Chunk(x.bytes)];
        assert incoming[..|incoming| - 1] == old(incoming);
      }
    }

    /** The copy into the caller's slice. */
    method CopyOut(max: nat) returns (data: seq<byte>)
      requires Valid() && buffer != [] && max > 0
      modifies this`buffer
      ensures data + buffer == old(buffer) && 1 <= |data| <= max && (buffer != [] ==> |data| == max)
      ensures old(Content(buffer, incoming)) == data + Content(buffer, incoming)
    {
      var count := if max < |buffer| then max else |buffer|;
      ContentCut(buffer, incoming, count);
      data := buffer[..count];
      assert buffer == buffer[..count] + buffer[count..];
      buffer := buffer[count..];
    }

    /** The receive from the queue. */
    method NextEvent() returns (event: Event)
      requires Valid() && incoming != []
      modifies this`incoming
      ensures Valid() && old(incoming) == [event] + incoming && (event.Chunk? ==> event.bytes != [])
      ensures old(Content([], incoming)) == if event.Chunk? then Content(event.bytes, incoming) else Content([], incoming)
    {
      ContentHead(incoming);
      event := incoming[0];
      assert incoming == [event] + incoming[1..];
      incoming := incoming[1..];
    }

    /** The buffer is the first chunk of the queue. */
    ghost predicate FromQueue(buffer0: seq<byte>, incoming0: seq<Event>)
      reads this
    {
      buffer0 == [] && buffer != [] && incoming0 != [] && incoming0[0] == Chunk(buffer) && incoming == incoming0[1..]
    }

    /** Read hands out the queued bytes in order and without loss, owes the sender a window update for exactly what
        it handed out, and reports a drained stream only after the half-close when nothing is left. */
    method Read(max: nat, choices: seq<Choice>) returns (r: ReadOutcome, update: nat, used: nat)
      requires Valid()
      modifies this
      ensures Valid() && used <= |choices|
      ensures max == 0 <==> r.Nothing?
      ensures r.Nothing? ==> used == 0 && buffer == old(buffer)
      ensures r.Received? ==> 1 <= |r.data| <= max && old(Content(buffer, incoming)) == r.data + Content(buffer, incoming)
      ensures r.Received? ==> update == |r.data|
      ensures !r.Received? ==> update == 0 && Content(buffer, incoming) == old(Content(buffer, incoming))
      ensures r.Drained? ==> readEOF && incoming == [] && Content(buffer, incoming) == []
      ensures max > 0 && old(buffer) != [] ==> r.Received? && used == 0 && incoming == old(incoming) && r.data + buffer == old(buffer)
      ensures old(buffer) == [] && r.Received? ==> old(incoming) != [] && incoming == old(incoming)[1..] && old(incoming)[0] == Chunk(r.data + buffer)
      ensures r.Received? && buffer != [] ==> |r.data| == max
      ensures r.Broken? ==> old(incoming) != [] && old(incoming)[0] == Fault(r.eof) && incoming == old(incoming)[1..] && buffer == []
      ensures readEOF == (old(readEOF) || (r.Broken? && r.eof))
      ensures !r.Received? && !r.Broken? ==> incoming == old(incoming) && buffer == old(buffer)
      ensures old(readEOF) ==> used == 0 && (r.Drained? <==> max > 0 && old(buffer) == [] && old(incoming) == [])
      ensures r.Drained? ==> old(readEOF)
      ensures r.Expired? || r.Over? || r.Pending? ==> !old(readEOF)
      ensures r.Expired? ==> used > 0 && choices[used - 1].Timer?
      ensures r.Over? ==> used > 0 && choices[used - 1].StreamDone?
      ensures r.Pending? ==> used == |choices|
      ensures old(buffer) == [] && !old(readEOF) && (r.Received? || r.Broken?) ==> used > 0 && choices[used - 1].Incoming?
      ensures forall i :: 0 <= i < used - 1 ==> choices[i].Woken? || (choices[i].Incoming? && old(incoming) == [])
    {
      update, used := 0, 0;
      if max == 0 { return Nothing, 0, 0; }
      while true
        invariant Valid() && update == 0 && used <= |choices| && readEOF == old(readEOF)
        invariant Content(buffer, incoming) == old(Content(buffer, incoming))
        invariant (buffer == old(buffer) && incoming == old(incoming)) || FromQueue(old(buffer), old(incoming))
        invariant old(buffer) == [] && buffer != [] && !old(readEOF) ==> used > 0 && choices[used - 1].Incoming?
        invariant old(buffer) != [] || old(readEOF) ==> used == 0
        invariant buffer == [] ==> forall i :: 0 <= i < used ==> choices[i].Woken? || (choices[i].Incoming? && old(incoming) == [])
        invariant forall i :: 0 <= i < used - 1 ==> choices[i].Woken? || (choices[i].Incoming? && old(incoming) == [])
        decreases |choices| - used, |incoming|, |buffer| == 0
      {
        if buffer != [] {
          var data := CopyOut(max);
          return Received(data), |data|, used;
        }
        if readEOF && incoming == [] { return Drained, 0, used; }
        if !readEOF {
          if used == |choices| { return Pending, 0, used; }
          used := used + 1;
          match choices[used - 1] {
            case Timer => return Expired, 0, used;
            case StreamDone => return Over, 0, used;
            case Woken => continue;
            case Incoming => if incoming == [] { continue; }
          }
        }
        var event := NextEvent();
        match event {
          case Chunk(bytes) => buffer := bytes;
          case Fault(eof) =>
            readEOF := readEOF || eof;
            return Broken(eof), 0, used;
        }
      }
    }
  }
}
