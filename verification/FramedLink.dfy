/** The replaceable frame link (internal/transport/framed/link.go) between a sending and a receiving
    process, with the retrying writer of internal/relay/client.go.

    Connections are numbered in the order they are made, and each Link installs connections in that
    order (it may skip some). A connection is a FIFO byte pipe: it delivers a prefix of what it
    accepted, and once a write on it has failed it accepts nothing more. */
module FramedLink {
  import opened Bytes
  import opened SelfDelimiting

  /** A Link's own state. `next` is one more than the newest connection it ever installed. */
  datatype End = End(current: Option<nat>, closed: bool, next: nat)

  predicate EndOk(e: End) {
    && (e.current.Some? ==> e.current.value + 1 == e.next)
    && (e.closed ==> e.current.None?)
  }

  function Attached(e: End, c: nat): End {
    if e.closed then e else e.(current := Some(c), next := c + 1)
  }

  function DetachedIfCurrent(e: End, c: nat): End {
    if e.current == Some(c) then e.(current := None) else e
  }

  datatype LinkError = ErrNil | ErrClosed | ErrStale

  class Link {
    var current: Option<nat>
    var closed: bool
    var next: nat
    var results: map<nat, Option<LinkError>>

    ghost function View(): End
      reads this
    {
      End(current, closed, next)
    }

    ghost predicate Valid()
      reads this
    {
      EndOk(View())
    }

    constructor ()
      ensures Valid() && View() == End(None, false, 0) && results == map[]
    {
      current, closed, next, results := None, false, 0, map[];
    }

    /** A newer endpoint takes the place of whatever was current; the old one is for the caller to close. */
    method Attach(rw: Option<nat>) returns (error: Option<LinkError>, replaced: Option<nat>)
      requires Valid() && (rw.Some? ==> next <= rw.value)
      modifies this
      ensures Valid() && results == old(results)
      ensures error == if rw.None? then Some(ErrNil) else if old(closed) then Some(ErrClosed) else None
      ensures rw.Some? && !old(closed) ==> current == rw && next == rw.value + 1 && !closed && replaced == old(current)
      ensures rw.None? || old(closed) ==> current == old(current) && next == old(next) && closed == old(closed) && replaced == None
      ensures rw.Some? ==> View() == Attached(old(View()), rw.value)
    {
      if rw.None? { return Some(ErrNil), None; }
      if closed { return Some(ErrClosed), None; }
      replaced := current;
      current, next := rw, rw.value + 1;
      error := None;
    }

    method DetachIfCurrent(a: nat)
      requires Valid()
      modifies this
      ensures Valid() && results == old(results)
      ensures View() == DetachedIfCurrent(old(View()), a)
      ensures current == if old(current) == Some(a) then None else old(current)
      ensures next == old(next) && closed == old(closed)
    {
      if current != Some(a) { return; }
      current := None;
    }

    /** Attachment.Detach: it acts once and answers the same ever after, and a stale attachment cannot detach a
        newer one. */
    method Detach(a: nat) returns (error: Option<LinkError>)
      requires Valid()
      modifies this
      ensures Valid() && a in results && error == results[a]
      ensures a in old(results) ==> View() == old(View()) && results == old(results)
      ensures a !in old(results) ==>
                && View() == DetachedIfCurrent(old(View()), a)
                && current == (if old(current) == Some(a) then None else old(current))
                && results == old(results)[a := if old(current) == Some(a) then None else Some(ErrStale)]
      ensures next == old(next) && closed == old(closed)
    {
      if a !in results {
        if current == Some(a) {
          current, results := None, results[a := None];
        } else {
          results := results[a := Some(ErrStale)];
        }
      }
      return results[a];
    }

    method Close() returns (endpoint: Option<nat>)
      requires Valid()
      modifies this
      ensures Valid() && closed && current == None && next == old(next) && results == old(results)
      ensures endpoint == old(current)
    {
      endpoint := current;
      closed, current := true, None;
    }
  }

  /** A frame format: which frames are valid, and how they are written and read. */
  datatype Format<!F> = Format(valid: F -> bool, enc: Encoder<F>, dec: Decoder<F>, head: nat)

  ghost predicate Sound<F(!new)>(fmt: Format<F>) { Codec(fmt.valid, fmt.enc, fmt.dec, fmt.head) && exists f: F :: fmt.valid(f) }

  /** One WriteFrame call: the frame it submits is retried by the caller until it is written. */
  datatype Sent<F> = Sent(call: nat, frame: F)

  /** `done` and `got` are history: the frames completely accepted, and how many of them were returned. */
  datatype Conn<F> = Conn(accepted: seq<byte>, broken: bool, taken: nat, done: seq<Sent<F>>, got: nat)

  /** Where a WriteFrame call stands: waiting for an attachment, holding a snapshot of one, inside the
      write mutex, or failed and about to detach. */
  datatype Writer<F> =
    | Idle
    | Waiting(msg: Sent<F>)
    | Holding(msg: Sent<F>, at: nat)
    | Inside(msg: Sent<F>)
    | Failing(msg: Sent<F>, at: nat)

  /** What the holder of the write mutex is doing: `pushed` bytes of its frame are accepted. */
  datatype Job<F> = Job(w: nat, msg: Sent<F>, at: nat, pushed: nat)

  datatype State<F> = State(
    conns: seq<Conn<F>>,
    tx: End,
    rx: End,
    writers: map<nat, Writer<F>>,
    lock: Option<Job<F>>,
    reader: Option<nat>,
    written: seq<Sent<F>>,
    returned: seq<F>,
    calls: nat)

  ghost predicate Init<F>(s: State<F>) {
    s == State([], End(None, false, 0), End(None, false, 0), map[], None, None, [], [], 0)
  }

  function WriterOf<F>(s: State<F>, w: nat): Writer<F> { if w in s.writers then s.writers[w] else Idle }

  // ----- Steps -----

  ghost predicate Dial<F>(s: State<F>, s': State<F>) {
    s' == s.(conns := s.conns + [Conn([], false, 0, [], 0)])
  }

  ghost predicate AttachTx<F>(s: State<F>, s': State<F>, c: nat) {
    s.tx.next <= c < |s.conns| && s' == s.(tx := Attached(s.tx, c))
  }

  ghost predicate AttachRx<F>(s: State<F>, s': State<F>, c: nat) {
    s.rx.next <= c < |s.conns| && s' == s.(rx := Attached(s.rx, c))
  }

  /** Detach, a failure of the opposite direction, or Close. */
  ghost predicate DropTx<F>(s: State<F>, s': State<F>, close: bool) {
    s' == s.(tx := s.tx.(current := None, closed := s.tx.closed || close))
  }

  ghost predicate DropRx<F>(s: State<F>, s': State<F>, close: bool) {
    s' == s.(rx := s.rx.(current := None, closed := s.rx.closed || close))
  }

  ghost predicate Break<F>(s: State<F>, s': State<F>, c: nat) {
    c < |s.conns| && s' == s.(conns := s.conns[c := s.conns[c].(broken := true)])
  }

  ghost predicate Submit<F>(s: State<F>, s': State<F>, w: nat, f: F) {
    WriterOf(s, w).Idle? && s' == s.(writers := s.writers[w := Waiting(Sent(s.calls, f))], calls := s.calls + 1)
  }

  ghost predicate Snapshot<F>(s: State<F>, s': State<F>, w: nat) {
    && WriterOf(s, w).Waiting? && s.tx.current.Some?
    && s' == s.(writers := s.writers[w := Holding(WriterOf(s, w).msg, s.tx.current.value)])
  }

  /** Under the write mutex a stale snapshot starts over. */
  ghost predicate Stale<F>(s: State<F>, s': State<F>, w: nat) {
    var v := WriterOf(s, w);
    && v.Holding? && s.lock.None? && s.tx.current != Some(v.at)
    && s' == s.(writers := s.writers[w := Waiting(v.msg)])
  }

  /** An invalid frame is refused before anything is written. */
  ghost predicate Refuse<F>(fmt: Format<F>, s: State<F>, s': State<F>, w: nat) {
    var v := WriterOf(s, w);
    && v.Holding? && s.lock.None? && s.tx.current == Some(v.at) && !fmt.valid(v.msg.frame)
    && s' == s.(writers := s.writers[w := Failing(v.msg, v.at)])
  }

  ghost predicate Enter<F>(fmt: Format<F>, s: State<F>, s': State<F>, w: nat) {
    var v := WriterOf(s, w);
    && v.Holding? && s.lock.None? && s.tx.current == Some(v.at) && fmt.valid(v.msg.frame)
    && s' == s.(writers := s.writers[w := Inside(v.msg)], lock := Some(Job(w, v.msg, v.at, 0)))
  }

  /** The connection takes some more bytes, but not yet the last one. */
  ghost predicate Push<F>(fmt: Format<F>, s: State<F>, s': State<F>, k: nat) {
    && s.lock.Some?
    && var j := s.lock.value;
       && j.at < |s.conns| && !s.conns[j.at].broken && j.pushed + k < |fmt.enc(j.msg.frame)|
       && var c := s.conns[j.at];
          s' == s.(lock := Some(j.(pushed := j.pushed + k)),
                   conns := s.conns[j.at := c.(accepted := c.accepted + fmt.enc(j.msg.frame)[j.pushed..j.pushed + k])])
  }

  /** The connection takes the rest of the frame: the write succeeds. */
  ghost predicate Finish<F>(fmt: Format<F>, s: State<F>, s': State<F>) {
    && s.lock.Some?
    && var j := s.lock.value;
       && j.at < |s.conns| && !s.conns[j.at].broken && j.pushed <= |fmt.enc(j.msg.frame)|
       && var c := s.conns[j.at];
          s' == s.(writers := s.writers[j.w := Idle], lock := None, written := s.written + [j.msg],
                   conns := s.conns[j.at := c.(accepted := c.accepted + fmt.enc(j.msg.frame)[j.pushed..],
                                               done := c.done + [j.msg])])
  }

  /** The write fails with the frame incomplete. */
  ghost predicate Fail<F>(s: State<F>, s': State<F>) {
    && s.lock.Some?
    && var j := s.lock.value;
       && j.at < |s.conns|
       && s' == s.(writers := s.writers[j.w := Failing(j.msg, j.at)], lock := None,
                   conns := s.conns[j.at := s.conns[j.at].(broken := true)])
  }

  /** detachIfCurrent, and the caller's retry of the same frame. */
  ghost predicate Retry<F>(s: State<F>, s': State<F>, w: nat) {
    var v := WriterOf(s, w);
    && v.Failing?
    && s' == s.(writers := s.writers[w := Waiting(v.msg)], tx := DetachedIfCurrent(s.tx, v.at))
  }

  ghost predicate GiveUp<F>(s: State<F>, s': State<F>, w: nat) {
    WriterOf(s, w).Waiting? && s' == s.(writers := s.writers[w := Idle])
  }

  ghost predicate ReadStart<F>(s: State<F>, s': State<F>) {
    s.reader.None? && s.rx.current.Some? && s' == s.(reader := s.rx.current)
  }

  /** protocol.Read on the attachment snapshotted at ReadStart, which may by now be stale. */
  ghost predicate ReadDone<F>(fmt: Format<F>, s: State<F>, s': State<F>) {
    && s.reader.Some? && s.reader.value < |s.conns|
    && var a := s.reader.value;
       var c := s.conns[a];
       && c.taken <= |c.accepted| && fmt.dec(c.accepted[c.taken..]).Got?
       && var r := fmt.dec(c.accepted[c.taken..]);
          && |r.rest| <= |c.accepted|
          && s' == s.(reader := None, returned := s.returned + [r.item],
                      conns := s.conns[a := c.(taken := |c.accepted| - |r.rest|, got := c.got + 1)])
  }

  ghost predicate ReadFail<F>(s: State<F>, s': State<F>) {
    s.reader.Some? && s' == s.(reader := None, rx := DetachedIfCurrent(s.rx, s.reader.value))
  }

  ghost predicate EndStep<F>(s: State<F>, s': State<F>) {
    || (exists c: nat :: AttachTx(s, s', c))
    || (exists c: nat :: AttachRx(s, s', c))
    || (exists b: bool :: DropTx(s, s', b))
    || (exists b: bool :: DropRx(s, s', b))
    || ReadStart(s, s')
    || ReadFail(s, s')
  }

  ghost predicate WriterStep<F(!new)>(fmt: Format<F>, s: State<F>, s': State<F>, w: nat) {
    || (exists f: F :: Submit(s, s', w, f))
    || Snapshot(s, s', w) || Stale(s, s', w) || Refuse(fmt, s, s', w) || Enter(fmt, s, s', w)
    || Retry(s, s', w) || GiveUp(s, s', w)
  }

  ghost predicate Step<F(!new)>(fmt: Format<F>, s: State<F>, s': State<F>) {
    || Dial(s, s') || EndStep(s, s') || ReadDone(fmt, s, s')
    || (exists c: nat :: Break(s, s', c))
    || (exists w: nat :: WriterStep(fmt, s, s', w))
    || (exists k: nat :: Push(fmt, s, s', k))
    || Finish(fmt, s, s')
    || Fail(s, s')
  }

  ghost predicate Run<F(!new)>(fmt: Format<F>, run: seq<State<F>>) {
    && |run| > 0 && Init(run[0])
    && forall i :: 0 <= i < |run| - 1 ==> Step(fmt, run[i], run[i + 1])
  }

  // ----- History -----

  ghost function FramesOf<F>(msgs: seq<Sent<F>>): (r: seq<F>)
    ensures |r| == |msgs|
    ensures forall i :: 0 <= i < |r| ==> r[i] == msgs[i].frame
  {
    seq(|msgs|, i requires 0 <= i < |msgs| => msgs[i].frame)
  }

  /** Everything written, connection by connection. */
  ghost function Sends<F>(cs: seq<Conn<F>>): seq<Sent<F>> {
    if cs == [] then [] else Sends(cs[..|cs| - 1]) + cs[|cs| - 1].done
  }

  ghost function Returned<F>(c: Conn<F>): seq<Sent<F>> { if c.got <= |c.done| then c.done[..c.got] else c.done }

  /** Everything returned, connection by connection. */
  ghost function Receipts<F>(cs: seq<Conn<F>>): seq<Sent<F>> {
    if cs == [] then [] else Receipts(cs[..|cs| - 1]) + Returned(cs[|cs| - 1])
  }

  lemma {:induction false} SameSends<F>(cs: seq<Conn<F>>, cs': seq<Conn<F>>)
    requires |cs| == |cs'| && forall i :: 0 <= i < |cs| ==> cs[i].done == cs'[i].done
    ensures Sends(cs) == Sends(cs')
  {
    if cs != [] { SameSends(cs[..|cs| - 1], cs'[..|cs| - 1]); }
  }

  lemma {:induction false} SameReceipts<F>(cs: seq<Conn<F>>, cs': seq<Conn<F>>)
    requires |cs| == |cs'| && forall i :: 0 <= i < |cs| ==> Returned(cs[i]) == Returned(cs'[i])
    ensures Receipts(cs) == Receipts(cs')
  {
    if cs != [] { SameReceipts(cs[..|cs| - 1], cs'[..|cs| - 1]); }
  }

  lemma {:induction false} SendsGrow<F>(cs: seq<Conn<F>>, a: nat, c: Conn<F>, m: Sent<F>)
    requires a < |cs| && c.done == cs[a].done + [m]
    requires forall i :: a < i < |cs| ==> cs[i].done == []
    ensures Sends(cs[a := c]) == Sends(cs) + [m]
  {
    var n := |cs| - 1;
    if a == n {
      assert cs[a := c][..n] == cs[..n];
    } else {
      assert cs[a := c][..n] == cs[..n][a := c];
      SendsGrow(cs[..n], a, c, m);
    }
  }

  lemma {:induction false} ReceiptsGrow<F>(cs: seq<Conn<F>>, a: nat, c: Conn<F>, m: Sent<F>)
    requires a < |cs| && Returned(c) == Returned(cs[a]) + [m]
    requires forall i :: a < i < |cs| ==> Returned(cs[i]) == []
    ensures Receipts(cs[a := c]) == Receipts(cs) + [m]
  {
    var n := |cs| - 1;
    if a == n {
      assert cs[a := c][..n] == cs[..n];
    } else {
      assert cs[a := c][..n] == cs[..n][a := c];
      ReceiptsGrow(cs[..n], a, c, m);
    }
  }

  /** idx embeds a into b in order. */
  ghost predicate Embeds<T>(idx: seq<int>, a: seq<T>, b: seq<T>) {
    && |idx| == |a|
    && (forall i, j :: 0 <= i < j < |idx| ==> idx[i] < idx[j])
    && (forall i :: 0 <= i < |idx| ==> 0 <= idx[i] < |b| && a[i] == b[idx[i]])
  }

  ghost predicate Subsequence<T>(a: seq<T>, b: seq<T>) { exists idx: seq<int> :: Embeds(idx, a, b) }

  lemma EmbedMore<T>(idx: seq<int>, a: seq<T>, b: seq<T>, c: seq<T>, n: nat)
    requires Embeds(idx, a, b) && n <= |c|
    ensures Subsequence(a + c[..n], b + c)
  {
    var more := seq(n, i requires 0 <= i < n => |b| + i);
    assert Embeds(idx + more, a + c[..n], b + c);
  }

  lemma {:induction false} ReceiptsAreASubsequence<F>(cs: seq<Conn<F>>)
    ensures Subsequence(Receipts(cs), Sends(cs))
  {
    if cs == [] {
      assert Embeds([], Receipts(cs), Sends(cs));
    } else {
      var base, last := cs[..|cs| - 1], cs[|cs| - 1];
      ReceiptsAreASubsequence(base);
      var idx :| Embeds(idx, Receipts(base), Sends(base));
      EmbedMore(idx, Receipts(base), Sends(base), last.done, |Returned(last)|);
      assert last.done[..|Returned(last)|] == Returned(last);
    }
  }

  // ----- Invariant -----

  ghost function Base<F>(fmt: Format<F>, c: Conn<F>): seq<byte> { EncodeAll(fmt.enc, FramesOf(c.done)) }

  ghost predicate IsCut<F(!new)>(fmt: Format<F>, base: seq<byte>, s: seq<byte>) {
    exists f: F, k: nat :: fmt.valid(f) && k < |fmt.enc(f)| && s == base + fmt.enc(f)[..k]
  }

  /** What a connection has accepted: the encodings of the frames written on it, then at most one cut frame. */
  ghost predicate BytesOk<F(!new)>(fmt: Format<F>, k: Conn<F>, c: nat, lock: Option<Job<F>>) {
    if k.broken then IsCut(fmt, Base(fmt, k), k.accepted)
    else if lock.Some? && lock.value.at == c then
      var j := lock.value;
      j.pushed <= |fmt.enc(j.msg.frame)| && k.accepted == Base(fmt, k) + fmt.enc(j.msg.frame)[..j.pushed]
    else k.accepted == Base(fmt, k)
  }

  ghost predicate ConnOk<F>(fmt: Format<F>, c: Conn<F>) {
    && c.got <= |c.done|
    && AllValid(fmt.valid, FramesOf(c.done))
    && c.taken == |EncodeAll(fmt.enc, FramesOf(c.done[..c.got]))|
  }

  ghost predicate ConnsOk<F(!new)>(fmt: Format<F>, conns: seq<Conn<F>>, lock: Option<Job<F>>) {
    forall c :: 0 <= c < |conns| ==> ConnOk(fmt, conns[c]) && BytesOk(fmt, conns[c], c, lock)
  }

  ghost predicate NoneWrittenAfter<F>(conns: seq<Conn<F>>, a: int) {
    forall c :: 0 <= c < |conns| && a < c ==> conns[c].done == []
  }

  ghost predicate NoneReturnedAfter<F>(conns: seq<Conn<F>>, a: int) {
    forall c :: 0 <= c < |conns| && a < c ==> conns[c].got == 0
  }

  ghost predicate TxOk<F>(fmt: Format<F>, conns: seq<Conn<F>>, tx: End, lock: Option<Job<F>>) {
    && EndOk(tx) && tx.next <= |conns| && NoneWrittenAfter(conns, tx.next - 1)
    && (lock.Some? ==>
          && lock.value.at < tx.next && NoneWrittenAfter(conns, lock.value.at)
          && fmt.valid(lock.value.msg.frame) && lock.value.pushed < |fmt.enc(lock.value.msg.frame)|)
  }

  ghost predicate RxOk<F>(conns: seq<Conn<F>>, rx: End, reader: Option<nat>) {
    && EndOk(rx) && rx.next <= |conns| && NoneReturnedAfter(conns, rx.next - 1)
    && (reader.Some? ==> reader.value < rx.next && NoneReturnedAfter(conns, reader.value))
  }

  ghost predicate Fresh<F>(call: nat, written: seq<Sent<F>>) {
    forall i :: 0 <= i < |written| ==> written[i].call != call
  }

  ghost predicate CallsOk<F>(writers: map<nat, Writer<F>>, written: seq<Sent<F>>, calls: nat) {
    && (forall i, j :: 0 <= i < j < |written| ==> written[i].call != written[j].call)
    && (forall i :: 0 <= i < |written| ==> written[i].call < calls)
    && (forall w :: w in writers && !writers[w].Idle? ==> writers[w].msg.call < calls && Fresh(writers[w].msg.call, written))
    && (forall v, w :: v in writers && w in writers && v != w && !writers[v].Idle? && !writers[w].Idle? ==>
          writers[v].msg.call != writers[w].msg.call)
  }

  ghost predicate LockOk<F>(writers: map<nat, Writer<F>>, lock: Option<Job<F>>) {
    && (lock.Some? ==> lock.value.w in writers && writers[lock.value.w] == Inside(lock.value.msg))
    && (forall w :: w in writers && writers[w].Inside? ==> lock.Some? && lock.value.w == w)
  }

  ghost predicate LogsOk<F>(conns: seq<Conn<F>>, written: seq<Sent<F>>, returned: seq<F>) {
    written == Sends(conns) && returned == FramesOf(Receipts(conns))
  }

  ghost predicate Inv<F(!new)>(fmt: Format<F>, s: State<F>) {
    && ConnsOk(fmt, s.conns, s.lock)
    && TxOk(fmt, s.conns, s.tx, s.lock)
    && RxOk(s.conns, s.rx, s.reader)
    && CallsOk(s.writers, s.written, s.calls)
    && LockOk(s.writers, s.lock)
    && LogsOk(s.conns, s.written, s.returned)
  }

  lemma DialLogs<F>(conns: seq<Conn<F>>, written: seq<Sent<F>>, returned: seq<F>, k: Conn<F>)
    requires LogsOk(conns, written, returned) && k.done == [] && k.got == 0
    ensures LogsOk(conns + [k], written, returned)
  {
    assert (conns + [k])[..|conns|] == conns;
    assert Sends(conns + [k]) == Sends(conns) + k.done;
    assert Receipts(conns + [k]) == Receipts(conns) + Returned(k);
  }

  lemma DialBytes<F(!new)>(fmt: Format<F>, conns: seq<Conn<F>>, lock: Option<Job<F>>)
    requires ConnsOk(fmt, conns, lock) && (lock.Some? ==> lock.value.at < |conns|)
    ensures ConnsOk(fmt, conns + [Conn([], false, 0, [], 0)], lock)
  {
    var k: Conn<F> := Conn([], false, 0, [], 0);
    assert FramesOf(k.done) == [];
    assert ConnOk(fmt, k) && BytesOk(fmt, k, |conns|, lock);
  }

  lemma DialKeeps<F(!new)>(fmt: Format<F>, s: State<F>, s': State<F>)
    requires Inv(fmt, s) && Dial(s, s')
    ensures Inv(fmt, s')
  {
    DialLogs(s.conns, s.written, s.returned, Conn([], false, 0, [], 0));
    DialBytes(fmt, s.conns, s.lock);
    assert TxOk(fmt, s'.conns, s'.tx, s'.lock);
    assert RxOk(s'.conns, s'.rx, s'.reader);
  }

  lemma TxMoves<F>(fmt: Format<F>, conns: seq<Conn<F>>, tx: End, tx': End, lock: Option<Job<F>>)
    requires TxOk(fmt, conns, tx, lock) && EndOk(tx') && tx.next <= tx'.next <= |conns|
    ensures TxOk(fmt, conns, tx', lock)
  {
  }

  lemma RxMoves<F>(conns: seq<Conn<F>>, rx: End, rx': End, reader: Option<nat>, reader': Option<nat>)
    requires RxOk(conns, rx, reader) && EndOk(rx') && rx.next <= rx'.next <= |conns|
    requires reader' == reader || reader' == None || (reader' == rx.current && rx' == rx)
    ensures RxOk(conns, rx', reader')
  {
  }

  /** What a step of the two Links can change. */
  lemma EndStepShape<F>(s: State<F>, s': State<F>)
    requires EndOk(s.tx) && EndOk(s.rx) && s.tx.next <= |s.conns| && s.rx.next <= |s.conns| && EndStep(s, s')
    ensures s' == s.(tx := s'.tx, rx := s'.rx, reader := s'.reader)
    ensures EndOk(s'.tx) && s.tx.next <= s'.tx.next <= |s.conns|
    ensures EndOk(s'.rx) && s.rx.next <= s'.rx.next <= |s.conns|
    ensures s'.reader == s.reader || s'.reader == None || (s'.reader == s.rx.current && s'.rx == s.rx)
  {
  }

  lemma EndStepKeeps<F(!new)>(fmt: Format<F>, s: State<F>, s': State<F>)
    requires Inv(fmt, s) && EndStep(s, s')
    ensures Inv(fmt, s')
  {
    EndStepShape(s, s');
    TxMoves(fmt, s.conns, s.tx, s'.tx, s.lock);
    RxMoves(s.conns, s.rx, s'.rx, s.reader, s'.reader);
  }

  /** A call that changes its place without starting or ending keeps its number. */
  lemma CallMoves<F>(writers: map<nat, Writer<F>>, written: seq<Sent<F>>, calls: nat, w: nat, v: Writer<F>)
    requires CallsOk(writers, written, calls)
    requires v.Idle? || (w in writers && !writers[w].Idle? && writers[w].msg == v.msg)
    ensures CallsOk(writers[w := v], written, calls)
  {
  }

  lemma CallStarts<F>(writers: map<nat, Writer<F>>, written: seq<Sent<F>>, calls: nat, w: nat, f: F)
    requires CallsOk(writers, written, calls)
    ensures CallsOk(writers[w := Waiting(Sent(calls, f))], written, calls + 1)
  {
    var writers' := writers[w := Waiting(Sent(calls, f))];
    forall v | v in writers' && !writers'[v].Idle?
      ensures writers'[v].msg.call < calls + 1 && Fresh(writers'[v].msg.call, written)
    {
      if v == w { assert forall i :: 0 <= i < |written| ==> written[i].call < calls; }
    }
  }

  lemma SubmitKeeps<F(!new)>(fmt: Format<F>, s: State<F>, s': State<F>, w: nat, f: F)
    requires Inv(fmt, s) && Submit(s, s', w, f)
    ensures Inv(fmt, s')
  {
    CallStarts(s.writers, s.written, s.calls, w, f);
    LockFrame(s.writers, s.lock, w, s'.writers[w]);
  }

  lemma LockFrame<F>(writers: map<nat, Writer<F>>, lock: Option<Job<F>>, w: nat, v: Writer<F>)
    requires LockOk(writers, lock) && !v.Inside? && !(w in writers && writers[w].Inside?)
    ensures LockOk(writers[w := v], lock)
  {
  }

  lemma WriterStepKeeps<F(!new)>(fmt: Format<F>, s: State<F>, s': State<F>, w: nat)
    requires Inv(fmt, s) && Sound(fmt) && WriterStep(fmt, s, s', w)
    ensures Inv(fmt, s')
  {
    if f :| Submit(s, s', w, f) {
      SubmitKeeps(fmt, s, s', w, f);
    } else if Enter(fmt, s, s', w) {
      EnterKeeps(fmt, s, s', w);
    } else {
      CallMoves(s.writers, s.written, s.calls, w, s'.writers[w]);
      TxMoves(fmt, s.conns, s.tx, s'.tx, s.lock);
      LockFrame(s.writers, s.lock, w, s'.writers[w]);
    }
  }

  lemma EnterKeeps<F(!new)>(fmt: Format<F>, s: State<F>, s': State<F>, w: nat)
    requires Inv(fmt, s) && Sound(fmt) && Enter(fmt, s, s', w)
    ensures Inv(fmt, s')
  {
    CallMoves(s.writers, s.written, s.calls, w, s'.writers[w]);
    EnterKeepsBytes(fmt, s.conns, s'.lock.value);
  }

  lemma EnterKeepsBytes<F(!new)>(fmt: Format<F>, conns: seq<Conn<F>>, j: Job<F>)
    requires ConnsOk(fmt, conns, None) && j.pushed == 0
    ensures ConnsOk(fmt, conns, Some(j))
  {
    forall c | 0 <= c < |conns| ensures BytesOk(fmt, conns[c], c, Some(j)) {
      assert BytesOk(fmt, conns[c], c, None);
    }
  }

  /** Wherever a connection breaks, what it took ends in a cut frame. */
  lemma BreaksInACut<F(!new)>(fmt: Format<F>, s: State<F>, c: nat)
    requires Inv(fmt, s) && Sound(fmt) && c < |s.conns|
    ensures IsCut(fmt, Base(fmt, s.conns[c]), s.conns[c].accepted)
  {
    var k := s.conns[c];
    assert BytesOk(fmt, k, c, s.lock);
    if !k.broken && !(s.lock.Some? && s.lock.value.at == c) {
      var f :| fmt.valid(f);
      assert k.accepted == Base(fmt, k) + fmt.enc(f)[..0];
    }
  }

  lemma BreakBytes<F(!new)>(fmt: Format<F>, s: State<F>, c: nat, lock: Option<Job<F>>)
    requires Inv(fmt, s) && Sound(fmt) && c < |s.conns|
    requires lock == s.lock || (lock.None? && s.lock.Some? && s.lock.value.at == c)
    ensures ConnsOk(fmt, s.conns[c := s.conns[c].(broken := true)], lock)
  {
    BreaksInACut(fmt, s, c);
    var conns := s.conns[c := s.conns[c].(broken := true)];
    forall i | 0 <= i < |conns| ensures ConnOk(fmt, conns[i]) && BytesOk(fmt, conns[i], i, lock) {
      assert BytesOk(fmt, s.conns[i], i, s.lock);
    }
  }

  lemma SameLogs<F>(cs: seq<Conn<F>>, cs': seq<Conn<F>>, written: seq<Sent<F>>, returned: seq<F>)
    requires LogsOk(cs, written, returned) && |cs| == |cs'|
    requires forall i :: 0 <= i < |cs| ==> cs[i].done == cs'[i].done && cs[i].got == cs'[i].got
    ensures LogsOk(cs', written, returned)
  {
    SameSends(cs, cs');
    SameReceipts(cs, cs');
  }

  lemma BreakKeeps<F(!new)>(fmt: Format<F>, s: State<F>, s': State<F>, c: nat)
    requires Inv(fmt, s) && Sound(fmt) && Break(s, s', c)
    ensures Inv(fmt, s')
  {
    SameLogs(s.conns, s'.conns, s.written, s.returned);
    BreakBytes(fmt, s, c, s.lock);
  }

  lemma FailKeeps<F(!new)>(fmt: Format<F>, s: State<F>, s': State<F>)
    requires Inv(fmt, s) && Sound(fmt) && Fail(s, s')
    ensures Inv(fmt, s')
  {
    var j := s.lock.value;
    SameLogs(s.conns, s'.conns, s.written, s.returned);
    BreakBytes(fmt, s, j.at, None);
    CallMoves(s.writers, s.written, s.calls, j.w, s'.writers[j.w]);
  }

  lemma Append<T>(base: seq<T>, e: seq<T>, m: nat, n: nat)
    requires m <= n <= |e|
    ensures base + e[..m] + e[m..n] == base + e[..n]
  {
    assert e[..m] + e[m..n] == e[..n];
  }

  lemma PushKeeps<F(!new)>(fmt: Format<F>, s: State<F>, s': State<F>, k: nat)
    requires Inv(fmt, s) && Push(fmt, s, s', k)
    ensures Inv(fmt, s')
  {
    var j := s.lock.value;
    SameLogs(s.conns, s'.conns, s.written, s.returned);
    Append(Base(fmt, s.conns[j.at]), fmt.enc(j.msg.frame), j.pushed, j.pushed + k);
    forall i | 0 <= i < |s'.conns| ensures ConnOk(fmt, s'.conns[i]) && BytesOk(fmt, s'.conns[i], i, s'.lock) {
      assert BytesOk(fmt, s.conns[i], i, s.lock);
    }
  }

  lemma FinishBytes<F(!new)>(fmt: Format<F>, s: State<F>, s': State<F>)
    requires Inv(fmt, s) && Finish(fmt, s, s')
    ensures ConnsOk(fmt, s'.conns, None)
  {
    var j := s.lock.value;
    var c, c' := s.conns[j.at], s'.conns[j.at];
    assert ConnOk(fmt, c) && BytesOk(fmt, c, j.at, s.lock);
    assert c'.done[..c'.got] == c.done[..c.got];
    assert FramesOf(c'.done) == FramesOf(c.done) + [j.msg.frame];
    EncodeAllSnoc(fmt.enc, FramesOf(c.done), j.msg.frame);
    var e := fmt.enc(j.msg.frame);
    Append(Base(fmt, c), e, j.pushed, |e|);
    assert e[..|e|] == e && e[j.pushed..|e|] == e[j.pushed..];
    forall i | 0 <= i < |s'.conns| ensures ConnOk(fmt, s'.conns[i]) && BytesOk(fmt, s'.conns[i], i, None) {
      if i != j.at { assert ConnOk(fmt, s.conns[i]) && BytesOk(fmt, s.conns[i], i, s.lock); }
    }
  }

  lemma FinishLogs<F(!new)>(fmt: Format<F>, s: State<F>, s': State<F>)
    requires Inv(fmt, s) && Finish(fmt, s, s')
    ensures LogsOk(s'.conns, s'.written, s'.returned)
  {
    var j := s.lock.value;
    var c, c' := s.conns[j.at], s'.conns[j.at];
    assert ConnOk(fmt, c);
    SendsGrow(s.conns, j.at, c', j.msg);
    assert c'.done[..c'.got] == c.done[..c.got];
    SameReceipts(s.conns, s'.conns);
  }

  lemma FinishTx<F(!new)>(fmt: Format<F>, s: State<F>, s': State<F>)
    requires Inv(fmt, s) && Finish(fmt, s, s')
    ensures TxOk(fmt, s'.conns, s'.tx, s'.lock) && RxOk(s'.conns, s'.rx, s'.reader)
  {
  }

  lemma FinishCalls<F(!new)>(fmt: Format<F>, s: State<F>, s': State<F>)
    requires Inv(fmt, s) && Finish(fmt, s, s')
    ensures CallsOk(s'.writers, s'.written, s'.calls)
  {
  }

  lemma FinishLock<F(!new)>(fmt: Format<F>, s: State<F>, s': State<F>)
    requires Inv(fmt, s) && Finish(fmt, s, s')
    ensures LockOk(s'.writers, s'.lock)
  {
  }

  lemma FinishKeeps<F(!new)>(fmt: Format<F>, s: State<F>, s': State<F>)
    requires Inv(fmt, s) && Finish(fmt, s, s')
    ensures Inv(fmt, s')
  {
    FinishBytes(fmt, s, s');
    FinishLogs(fmt, s, s');
    FinishTx(fmt, s, s');
    FinishCalls(fmt, s, s');
    FinishLock(fmt, s, s');
  }

  /** The reader, at the boundary where it stands, can only get the next frame written on that connection. */
  lemma ReaderGetsNext<F(!new)>(fmt: Format<F>, s: State<F>, a: nat)
    requires Inv(fmt, s) && Sound(fmt) && a < |s.conns|
    requires var c := s.conns[a]; c.taken <= |c.accepted| && fmt.dec(c.accepted[c.taken..]).Got?
    ensures var c := s.conns[a];
            var r := fmt.dec(c.accepted[c.taken..]);
            && c.got < |c.done| && r.item == c.done[c.got].frame
            && |c.accepted| - |r.rest| == |EncodeAll(fmt.enc, FramesOf(c.done[..c.got + 1]))|
  {
    var c := s.conns[a];
    assert ConnOk(fmt, c);
    BreaksInACut(fmt, s, a);
    var f: F, k: nat :| fmt.valid(f) && k < |fmt.enc(f)| && c.accepted == Base(fmt, c) + fmt.enc(f)[..k];
    var fs := FramesOf(c.done);
    assert FramesOf(c.done[..c.got]) == fs[..c.got];
    if c.got == |c.done| {
      assert fs[..c.got] == fs;
      ReadPastEnd(fmt.valid, fmt.enc, fmt.dec, fmt.head, fs, f, k);
    } else {
      ReadNext(fmt.valid, fmt.enc, fmt.dec, fmt.head, fs, c.got, fmt.enc(f)[..k]);
      assert FramesOf(c.done[..c.got + 1]) == fs[..c.got + 1];
    }
  }

  lemma LogReturn<F>(conns: seq<Conn<F>>, a: nat, c: Conn<F>, written: seq<Sent<F>>, returned: seq<F>)
    requires LogsOk(conns, written, returned) && a < |conns| && NoneReturnedAfter(conns, a)
    requires c.done == conns[a].done && c.got == conns[a].got + 1 <= |c.done|
    ensures LogsOk(conns[a := c], written, returned + [c.done[conns[a].got].frame])
  {
    var m := c.done[conns[a].got];
    assert Returned(c) == Returned(conns[a]) + [m];
    forall i | a < i < |conns| ensures Returned(conns[i]) == [] { assert conns[i].got == 0; }
    ReceiptsGrow(conns, a, c, m);
    SameSends(conns, conns[a := c]);
    assert FramesOf(Receipts(conns) + [m]) == FramesOf(Receipts(conns)) + [m.frame];
  }

  lemma ReadDoneKeeps<F(!new)>(fmt: Format<F>, s: State<F>, s': State<F>)
    requires Inv(fmt, s) && Sound(fmt) && ReadDone(fmt, s, s')
    ensures Inv(fmt, s')
  {
    var a := s.reader.value;
    ReaderGetsNext(fmt, s, a);
    LogReturn(s.conns, a, s'.conns[a], s.written, s.returned);
    ReadDoneBytes(fmt, s, s');
  }

  lemma ReadDoneBytes<F(!new)>(fmt: Format<F>, s: State<F>, s': State<F>)
    requires Inv(fmt, s) && ReadDone(fmt, s, s')
    requires var c := s.conns[s.reader.value];
             var r := fmt.dec(c.accepted[c.taken..]);
             && r.Got? && c.got < |c.done| && |c.accepted| - |r.rest| == |EncodeAll(fmt.enc, FramesOf(c.done[..c.got + 1]))|
    ensures ConnsOk(fmt, s'.conns, s'.lock)
  {
    forall i | 0 <= i < |s'.conns| ensures ConnOk(fmt, s'.conns[i]) && BytesOk(fmt, s'.conns[i], i, s'.lock) {
      assert BytesOk(fmt, s.conns[i], i, s.lock) && ConnOk(fmt, s.conns[i]);
    }
  }

  lemma StepKeeps<F(!new)>(fmt: Format<F>, s: State<F>, s': State<F>)
    requires Inv(fmt, s) && Sound(fmt) && Step(fmt, s, s')
    ensures Inv(fmt, s')
  {
    if Dial(s, s') {
      DialKeeps(fmt, s, s');
    } else if EndStep(s, s') {
      EndStepKeeps(fmt, s, s');
    } else if ReadDone(fmt, s, s') {
      ReadDoneKeeps(fmt, s, s');
    } else if c: nat :| Break(s, s', c) {
      BreakKeeps(fmt, s, s', c);
    } else if w: nat :| WriterStep(fmt, s, s', w) {
      WriterStepKeeps(fmt, s, s', w);
    } else if k: nat :| Push(fmt, s, s', k) {
      PushKeeps(fmt, s, s', k);
    } else if Finish(fmt, s, s') {
      FinishKeeps(fmt, s, s');
    } else {
      FailKeeps(fmt, s, s');
    }
  }
}
