/** What the steps of FramedLink add up to: a new connection is the one that is used, a frame handed to an intact link comes
    out at the other end, and one whose write failed goes out on the next connection. */
module LinkOutcomes {
  import opened Bytes
  import opened SelfDelimiting
  import opened FramedLink

  /** Whatever was current, the next writer uses the connection attached last. */
  lemma NewestIsWritten<F>(s: State<F>, s1: State<F>, s2: State<F>, c: nat, w: nat)
    requires AttachTx(s, s1, c) && !s.tx.closed && Snapshot(s1, s2, w)
    ensures w in s2.writers && s2.writers[w] == Holding(WriterOf(s, w).msg, c)
  {
  }

  /** And so does the next reader. */
  lemma NewestIsRead<F>(s: State<F>, s1: State<F>, s2: State<F>, c: nat)
    requires AttachRx(s, s1, c) && !s.rx.closed && ReadStart(s1, s2)
    ensures s2.reader == Some(c)
  {
  }

  /** A closed link takes no new connection, and nothing is written or read on it from then on. */
  lemma ClosedIsUnused<F>(s: State<F>, s1: State<F>, s2: State<F>, c: nat, w: nat)
    requires (AttachTx(s, s1, c) || AttachRx(s, s1, c)) && EndOk(s.tx) && EndOk(s.rx)
    ensures s.tx.closed ==> s1.tx == s.tx && !Snapshot(s1, s2, w)
    ensures s.rx.closed ==> s1.rx == s.rx && !ReadStart(s1, s2)
  {
  }

  // ----- Writing -----

  /** A valid frame waiting at a link with an intact connection is written on it. */
  lemma WaitingFrameIsWritten<F(!new)>(fmt: Format<F>, s: State<F>, w: nat, c: nat)
      returns (s1: State<F>, s2: State<F>, s3: State<F>)
    requires w in s.writers && s.writers[w].Waiting? && fmt.valid(s.writers[w].msg.frame)
    requires s.tx.current == Some(c) && c < |s.conns| && !s.conns[c].broken && s.lock.None?
    ensures Snapshot(s, s1, w) && Enter(fmt, s1, s2, w) && Finish(fmt, s2, s3)
    ensures var m := s.writers[w].msg;
            && s3.written == s.written + [m] && s3.writers == s.writers[w := Idle] && s3.lock.None?
            && s3.conns == s.conns[c := s.conns[c].(accepted := s.conns[c].accepted + fmt.enc(m.frame), done := s.conns[c].done + [m])]
            && s3.tx == s.tx && s3.rx == s.rx && s3.reader == s.reader && s3.returned == s.returned
  {
    var m, k := s.writers[w].msg, s.conns[c];
    s1 := s.(writers := s.writers[w := Holding(m, c)]);
    s2 := s1.(writers := s1.writers[w := Inside(m)], lock := Some(Job(w, m, c, 0)));
    assert fmt.enc(m.frame)[0..] == fmt.enc(m.frame);
    s3 := s2.(writers := s2.writers[w := Idle], lock := None, written := s.written + [m],
              conns := s.conns[c := k.(accepted := k.accepted + fmt.enc(m.frame), done := k.done + [m])]);
    assert s3.writers == s.writers[w := Idle];
  }

  /** A frame whose write failed is retried on the next connection, as the same call. */
  lemma FailedFrameIsRetried<F(!new)>(fmt: Format<F>, s: State<F>, w: nat, c: nat)
      returns (s1: State<F>, s2: State<F>, s3: State<F>, s4: State<F>, s5: State<F>)
    requires w in s.writers && s.writers[w].Failing? && fmt.valid(s.writers[w].msg.frame)
    requires !s.tx.closed && s.tx.next <= c < |s.conns| && !s.conns[c].broken && s.lock.None?
    ensures Retry(s, s1, w) && AttachTx(s1, s2, c) && Snapshot(s2, s3, w) && Enter(fmt, s3, s4, w) && Finish(fmt, s4, s5)
    ensures s1.tx.current == (if s.tx.current == Some(s.writers[w].at) then None else s.tx.current)
    ensures s1.writers == s.writers[w := Waiting(s.writers[w].msg)]
    ensures s5.written == s.written + [s.writers[w].msg] && w in s5.writers && s5.writers[w] == Idle
    ensures s5.conns[c].done == s.conns[c].done + [s.writers[w].msg]
  {
    var v := s.writers[w];
    s1 := s.(writers := s.writers[w := Waiting(v.msg)], tx := DetachedIfCurrent(s.tx, v.at));
    s2 := s1.(tx := End(Some(c), false, c + 1));
    s3, s4, s5 := WaitingFrameIsWritten(fmt, s2, w, c);
  }

  /** A writer whose attachment was replaced before it got the write mutex starts over and uses the new one. */
  lemma StaleWriterStartsOver<F(!new)>(fmt: Format<F>, s: State<F>, w: nat, c: nat)
      returns (s1: State<F>, s2: State<F>, s3: State<F>, s4: State<F>)
    requires w in s.writers && s.writers[w].Holding? && s.writers[w].at != c && fmt.valid(s.writers[w].msg.frame)
    requires s.tx.current == Some(c) && c < |s.conns| && !s.conns[c].broken && s.lock.None?
    ensures Stale(s, s1, w) && Snapshot(s1, s2, w) && Enter(fmt, s2, s3, w) && Finish(fmt, s3, s4)
    ensures (forall s' :: !Enter(fmt, s, s', w)) && s4.written == s.written + [s.writers[w].msg]
    ensures s4.conns[c].done == s.conns[c].done + [s.writers[w].msg]
  {
    s1 := s.(writers := s.writers[w := Waiting(s.writers[w].msg)]);
    s2, s3, s4 := WaitingFrameIsWritten(fmt, s1, w, c);
  }

  // ----- Reading -----

  /** A read that fails detaches the attachment it read from, and no newer one. */
  lemma FailedReadDetaches<F>(s: State<F>, s': State<F>)
    requires ReadFail(s, s')
    ensures s.rx.current == s.reader ==> s'.rx.current == None
    ensures s.rx.current != s.reader ==> s'.rx == s.rx
    ensures s'.reader.None? && s'.returned == s.returned && s'.conns == s.conns
  {
  }


  /** On an intact connection on which everything written was read, the bytes written and read are the same. */
  lemma ReadUpToDate<F(!new)>(fmt: Format<F>, s: State<F>, c: nat)
    requires Inv(fmt, s) && c < |s.conns| && !s.conns[c].broken && s.lock.None? && s.conns[c].got == |s.conns[c].done|
    ensures s.conns[c].taken == |s.conns[c].accepted|
  {
    var k := s.conns[c];
    assert ConnOk(fmt, k) && BytesOk(fmt, k, c, s.lock);
    assert k.done[..k.got] == k.done;
  }

  /** A written frame that is next on the reader's connection is read. */
  lemma WrittenFrameIsRead<F(!new)>(fmt: Format<F>, s: State<F>, c: nat, f: F) returns (s1: State<F>, s2: State<F>)
    requires Sound(fmt) && fmt.valid(f) && s.rx.current == Some(c) && s.reader.None? && c < |s.conns|
    requires s.conns[c].taken <= |s.conns[c].accepted| && s.conns[c].accepted[s.conns[c].taken..] == fmt.enc(f)
    ensures ReadStart(s, s1) && ReadDone(fmt, s1, s2)
    ensures s2.returned == s.returned + [f] && s2.reader.None? && s2.written == s.written
    ensures s2.conns[c].taken == |s.conns[c].accepted| && s2.conns[c].got == s.conns[c].got + 1
  {
    var k := s.conns[c];
    assert fmt.enc(f) + [] == fmt.enc(f);
    assert fmt.dec(fmt.enc(f) + []) == Got(f, []);
    s1 := s.(reader := Some(c));
    s2 := s1.(reader := None, returned := s.returned + [f], conns := s.conns[c := k.(taken := |k.accepted|, got := k.got + 1)]);
  }

  /** The whole way: on a connection that is intact, current at both ends and read up to date, a frame that waits to be
      written is written and then returned by the other end. */
  lemma FrameGoesThrough<F(!new)>(fmt: Format<F>, s: State<F>, w: nat, c: nat)
      returns (s1: State<F>, s2: State<F>, s3: State<F>, s4: State<F>, s5: State<F>)
    requires Sound(fmt) && Inv(fmt, s) && w in s.writers && s.writers[w].Waiting? && fmt.valid(s.writers[w].msg.frame)
    requires s.tx.current == Some(c) && s.rx.current == Some(c) && c < |s.conns| && !s.conns[c].broken && s.lock.None?
    requires s.reader.None? && s.conns[c].got == |s.conns[c].done|
    ensures Snapshot(s, s1, w) && Enter(fmt, s1, s2, w) && Finish(fmt, s2, s3) && ReadStart(s3, s4) && ReadDone(fmt, s4, s5)
    ensures s5.written == s.written + [s.writers[w].msg] && s5.returned == s.returned + [s.writers[w].msg.frame]
    ensures s5.conns[c].got == |s5.conns[c].done|
  {
    ReadUpToDate(fmt, s, c);
    s1, s2, s3 := WaitingFrameIsWritten(fmt, s, w, c);
    var f := s.writers[w].msg.frame;
    assert s3.conns[c].accepted[s3.conns[c].taken..] == fmt.enc(f);
    s4, s5 := WrittenFrameIsRead(fmt, s3, c, f);
  }
}
