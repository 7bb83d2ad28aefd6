/** What the steps of RelayOpen add up to when nothing gets in between: an open ends with its socket in its own entry, a
    committed listener announces what it accepts, and whatever fails or is removed leaves nothing behind. */
module RelayOutcomes {
  import opened Bytes
  import opened RelayOpen

  /** RelayOpen.Register and the dial. */
  lemma RegistersAndDials(s: State, o: int, k: Key, sock: int) returns (s1: State, s2: State)
    requires o !in s.keyOf && k !in s.registry && |OfKind(s.registry.Keys, k.kind)| < Limit(k.kind) && sock !in s.home
    ensures Register(s, s1, o, k) && Dial(s1, s2, o, sock) && Known(s2, o, Dialed(sock))
    ensures s2.keyOf == s.keyOf[o := k] && s2.conns == s.conns[o := None] && s2.registry == s.registry[k := o]
    ensures s2.canceled == s.canceled && s2.down == s.down && s2.closed == s.closed && s2.serves == s.serves
    ensures s2.opens == s.opens[o := Dialed(sock)]
  {
    s1 := Go(s, o, Dialing).(keyOf := s.keyOf[o := k], conns := s.conns[o := None], registry := s.registry[k := o]);
    s2 := Go(s1, o, Dialed(sock)).(home := s.home[sock := AtOpen(o)]);
    assert s2.opens == s.opens[o := Dialed(sock)];
  }

  /** The store and the answer, for an entry registered under its id. */
  lemma StoresAndAnswers(s: State, o: int, k: Key, sock: int) returns (s1: State, s2: State)
    requires Known(s, o, Dialed(sock)) && s.keyOf[o] == k && k in s.registry && s.registry[k] == o && !s.down && o !in s.canceled
    ensures Store(s, s1, o, sock) && Answer(s1, s2, o, true)
    ensures s2.keyOf == s.keyOf && s2.conns == s.conns[o := Some(sock)] && s2.registry == s.registry && s2.closed == s.closed
    ensures s2.opens == s.opens[o := Ended] && s2.serves == (if k.kind.Listener? then s.serves[o := Waiting] else s.serves)
  {
    s1 := Go(s, o, Stored).(conns := s.conns[o := Some(sock)], home := s.home[sock := AtEntry(o)]);
    s2 := Go(s1, o, Ended).(serves := if k.kind.Listener? then s.serves[o := Waiting] else s.serves);
    assert s2.opens == s.opens[o := Ended];
  }

  /** An open of any kind with a free id, room and a dial that succeeds: afterwards the id leads to the entry and the entry
      has the open socket. */
  lemma OpenSucceeds(s: State, o: int, k: Key, sock: int) returns (s1: State, s2: State, s3: State, s4: State)
    requires o !in s.keyOf && k !in s.registry && |OfKind(s.registry.Keys, k.kind)| < Limit(k.kind)
    requires !s.down && o !in s.canceled && sock !in s.home && sock !in s.closed
    ensures Register(s, s1, o, k) && Dial(s1, s2, o, sock) && Store(s2, s3, o, sock) && Answer(s3, s4, o, true)
    ensures k in s4.registry && s4.registry[k] == o && o in s4.conns && s4.conns[o] == Some(sock) && sock !in s4.closed
    ensures s4.opens == s.opens[o := Ended] && s4.serves == (if k.kind.Listener? then s.serves[o := Waiting] else s.serves)
  {
    s1, s2 := RegistersAndDials(s, o, k, sock);
    s3, s4 := StoresAndAnswers(s2, o, k, sock);
    assert s4.opens == s.opens[o := Ended];
  }

  /** An open whose OK cannot be sent: the entry is gone and the socket closed. */
  lemma UnansweredOpenLeavesNothing(s: State, o: int, k: Key, sock: int, t: int) returns (s1: State, s2: State, s3: State)
    requires Known(s, o, Stored) && s.keyOf[o] == k && k in s.registry && s.registry[k] == o && o in s.conns && s.conns[o] == Some(sock)
    requires t !in s.hands
    ensures Answer(s, s1, o, false) && TakeOwn(s1, s2, t, o, false) && CloseTaken(s2, s3, t)
    ensures k !in s3.registry && sock in s3.closed && o in s3.canceled && s3.opens[o] == Ended && s3.hands == s.hands
  {
    s1 := Go(s, o, Failing(false));
    s2 := TakenOut(Go(s1, o, Ended), t, k);
    s3 := s2.(hands := s2.hands - {t}, canceled := s.canceled + {o}, closed := s.closed + {sock});
    assert s3.hands == s.hands;
  }

  /** An open whose dial fails: whatever the kind, its entry is gone. */
  lemma FailedDialLeavesNothing(s: State, o: int, k: Key, t: int) returns (s1: State, s2: State, s3: State)
    requires Known(s, o, Dialing) && s.keyOf[o] == k && k in s.registry && s.registry[k] == o && o in s.conns && t !in s.hands
    ensures exists own: bool :: DialFails(s, s1, o) && TakeOwn(s1, s2, t, o, own) && CloseTaken(s2, s3, t)
    ensures k !in s3.registry && o in s3.canceled && s3.opens[o] == Ended && s3.hands == s.hands
    ensures s.conns[o].Some? ==> s.conns[o].value in s3.closed
  {
    s1 := Go(s, o, Failing(k.kind.Listener?));
    s2 := TakenOut(Go(s1, o, Ended), t, k);
    s3 := s2.(hands := s2.hands - {t}, canceled := s.canceled + {o},
              closed := if s.conns[o].Some? then s.closed + {s.conns[o].value} else s.closed);
    assert s3.hands == s.hands;
    assert DialFails(s, s1, o) && TakeOwn(s1, s2, t, o, k.kind.Listener?) && CloseTaken(s2, s3, t);
  }

  /** An open whose dial fails after its id went to another entry: a listener leaves the other entry alone, every other kind
      takes it out. */
  lemma FailedDialAndTheOther(s: State, o: int, k: Key, other: int, t: int) returns (s1: State, s2: State)
    requires Known(s, o, Dialing) && s.keyOf[o] == k && k in s.registry && s.registry[k] == other != o && t !in s.hands
    ensures exists own: bool :: DialFails(s, s1, o) && TakeOwn(s1, s2, t, o, own)
    ensures k.kind.Listener? <==> k in s2.registry && s2.registry[k] == other && s2.hands == s.hands
    ensures !k.kind.Listener? ==> k !in s2.registry && t in s2.hands && s2.hands[t] == other
  {
    s1 := Go(s, o, Failing(k.kind.Listener?));
    s2 := if k.kind.Listener? then Go(s1, o, Ended) else TakenOut(Go(s1, o, Ended), t, k);
    assert DialFails(s, s1, o) && TakeOwn(s1, s2, t, o, k.kind.Listener?);
  }

  /** CLOSE while an open dials: the entry is gone, and the open closes the socket it then gets. */
  lemma ClosedOpenClosesItsSocket(s: State, o: int, k: Key, sock: int, t: int)
      returns (s1: State, s2: State, s3: State, s4: State, s5: State)
    requires Known(s, o, Dialing) && s.keyOf[o] == k && k in s.registry && s.registry[k] == o && o in s.conns && sock !in s.home
    requires t !in s.hands
    ensures TakeOut(s, s1, t, k) && CloseTaken(s1, s2, t) && Dial(s2, s3, o, sock) && Store(s3, s4, o, sock) && CloseLate(s4, s5, o, sock)
    ensures k !in s5.registry && sock in s5.closed && s5.conns == s.conns && s5.opens[o] == Ended
  {
    s1 := TakenOut(s, t, k);
    s2 := s1.(hands := s1.hands - {t}, canceled := s.canceled + {o},
              closed := if s.conns[o].Some? then s.closed + {s.conns[o].value} else s.closed);
    s3 := Go(s2, o, Dialed(sock)).(home := s.home[sock := AtOpen(o)]);
    s4 := Go(s3, o, Late(sock));
    s5 := Go(s4, o, Ended).(closed := s2.closed + {sock});
  }

  /** A listener that is committed accepts a connection, registers it as a stream of its own and announces it. */
  lemma CommittedListenerAnnounces(s: State, o: int, id: int, conn: int, stream: int, entry: int, t: int)
      returns (s1: State, s2: State, s3: State, s4: State, s5: State)
    requires Serving(s, o, Waiting) && Key(Listener, id) in s.registry && s.registry[Key(Listener, id)] == o
    requires conn !in s.home && conn !in s.closed && entry !in s.keyOf
    requires Key(Stream, stream) !in s.registry && |OfKind(s.registry.Keys, Stream)| < Limit(Stream)
    ensures Commit(s, s1, id) && StartAccepting(s1, s2, o) && Accept(s2, s3, o, conn)
    ensures RegisterInbound(s3, s4, o, conn, stream, entry) && Announce(s4, s5, o, entry, true, t)
    ensures o in s5.announced && s5.serves[o] == Accepting
    ensures s5.registry == s.registry[Key(Stream, stream) := entry] && s5.conns == s.conns[entry := Some(conn)] && conn !in s5.closed
  {
    var k := Key(Stream, stream);
    s1 := s.(commits := s.commits + {o});
    s2 := Turn(s1, o, Accepting);
    s3 := Turn(s2, o, Accepted(conn)).(home := s.home[conn := AtServe(o)]);
    s4 := Turn(s3, o, Announcing(entry)).(keyOf := s.keyOf[entry := k], conns := s.conns[entry := Some(conn)],
                                          registry := s.registry[k := entry], home := s3.home[conn := AtEntry(entry)]);
    s5 := Turn(s4, o, Accepting).(announced := s.announced + {o});
  }

  /** A listener whose accept fails: it is removed, its socket closed and its loop over. */
  lemma FailedAcceptEndsListener(s: State, o: int, k: Key, sock: int, t: int) returns (s1: State, s2: State)
    requires Serving(s, o, Accepting) && s.keyOf[o] == k && k in s.registry && s.registry[k] == o && o in s.conns && s.conns[o] == Some(sock)
    requires t !in s.hands
    ensures AcceptFails(s, s1, o, t) && CloseTaken(s1, s2, t)
    ensures k !in s2.registry && sock in s2.closed && o in s2.canceled && s2.serves[o] == Over && s2.hands == s.hands
  {
    s1 := TakenOut(Turn(s, o, Over), t, k);
    s2 := s1.(hands := s1.hands - {t}, canceled := s.canceled + {o}, closed := s.closed + {sock});
    assert s2.hands == s.hands;
  }

  /** A connection that cannot be announced: its stream is removed and it is closed, and the listener's loop is over. */
  lemma UnannouncedConnectionIsClosed(s: State, o: int, entry: int, k: Key, conn: int, t: int) returns (s1: State, s2: State)
    requires Serving(s, o, Announcing(entry)) && entry in s.keyOf && s.keyOf[entry] == k && k in s.registry && s.registry[k] == entry
    requires entry in s.conns && s.conns[entry] == Some(conn) && t !in s.hands
    ensures Announce(s, s1, o, entry, false, t) && CloseTaken(s1, s2, t)
    ensures k !in s2.registry && conn in s2.closed && s2.serves[o] == Over && s2.announced == s.announced && s2.hands == s.hands
  {
    s1 := TakenOut(Turn(s, o, Over), t, k);
    s2 := s1.(hands := s1.hands - {t}, canceled := s.canceled + {entry}, closed := s.closed + {conn});
    assert s2.hands == s.hands;
  }

  /** Shutdown ends a listener that waits for its commit, and its watcher closes the socket. */
  lemma ShutdownEndsWaitingListener(s: State, o: int, sock: int) returns (s1: State, s2: State, s3: State)
    requires Serving(s, o, Waiting) && o in s.conns && s.conns[o] == Some(sock) && o !in s.commits
    ensures Shutdown(s, s1) && StartAccepting(s1, s2, o) && ContextCloses(s2, s3, o)
    ensures s3.serves[o] == Over && sock in s3.closed && (forall s' :: StartAccepting(s1, s', o) ==> s'.serves == s2.serves)
  {
    s1 := s.(down := true);
    s2 := Turn(s1, o, Over);
    s3 := s2.(closed := s.closed + {sock});
  }

  // ----- An open is only late for a reason -----

  /** The entry is still the one registered under its id, and neither canceled nor shut down. */
  ghost predicate Healthy(s: State, o: int) {
    o in s.keyOf && s.keyOf[o] in s.registry && s.registry[s.keyOf[o]] == o && !s.down && o !in s.canceled
  }

  lemma HealthyStores(s: State, s': State, o: int, sock: int)
    requires Healthy(s, o) && Store(s, s', o, sock)
    ensures s'.opens[o] == Stored && s'.conns == s.conns[o := Some(sock)]
  {
  }

  /** The open p moves on to something that is not Late. */
  lemma OtherStays(s: State, s': State, o: int, p: int, x: Open)
    requires s'.opens == s.opens[p := x] && !x.Late? && (o in s.opens ==> !s.opens[o].Late?)
    ensures o in s'.opens ==> !s'.opens[o].Late?
  {
  }

  lemma StoreStays(s: State, s': State, o: int, p: int, sock: int)
    requires Store(s, s', p, sock) && (o in s.opens ==> Healthy(s, o) && !s.opens[o].Late?)
    ensures o in s'.opens ==> !s'.opens[o].Late?
  {
    if p == o { HealthyStores(s, s', o, sock); }
  }

  lemma AnswerStays(s: State, s': State, o: int, p: int, ok: bool)
    requires Answer(s, s', p, ok) && (o in s.opens ==> !s.opens[o].Late?)
    ensures o in s'.opens ==> !s'.opens[o].Late?
  {
    OtherStays(s, s', o, p, if ok then Ended else Failing(false));
  }

  lemma BeginStays(s: State, s': State, o: int, p: int)
    requires || (exists k: Key :: Register(s, s', p, k)) || (exists sock: int :: Dial(s, s', p, sock)) || DialFails(s, s', p)
             || (exists sock: int :: CloseLate(s, s', p, sock))
    requires o in s.opens ==> !s.opens[o].Late?
    ensures o in s'.opens ==> !s'.opens[o].Late?
  {
    if k: Key :| Register(s, s', p, k) {
      OtherStays(s, s', o, p, Dialing);
    } else if sock: int :| Dial(s, s', p, sock) {
      OtherStays(s, s', o, p, Dialed(sock));
    } else if DialFails(s, s', p) {
      OtherStays(s, s', o, p, Failing(s.keyOf[p].kind.Listener?));
    } else {
      OtherStays(s, s', o, p, Ended);
    }
  }

  lemma OpenStays(s: State, s': State, o: int, p: int)
    requires OpenStep(s, s', p) && (o in s.opens ==> Healthy(s, o) && !s.opens[o].Late?)
    ensures o in s'.opens ==> !s'.opens[o].Late?
  {
    if sock: int :| Store(s, s', p, sock) {
      StoreStays(s, s', o, p, sock);
    } else if ok: bool :| Answer(s, s', p, ok) {
      AnswerStays(s, s', o, p, ok);
    } else {
      BeginStays(s, s', o, p);
    }
  }

  lemma TakeOwnStays(s: State, s': State, o: int, t: int, p: int, own: bool)
    requires TakeOwn(s, s', t, p, own) && (o in s.opens ==> !s.opens[o].Late?)
    ensures o in s'.opens ==> !s'.opens[o].Late?
  {
    OtherStays(s, s', o, p, Ended);
  }

  lemma RemoveStays(s: State, s': State, o: int, t: int)
    requires RemoveStep(s, s', t) && (o in s.opens ==> !s.opens[o].Late?)
    ensures o in s'.opens ==> !s'.opens[o].Late?
  {
    if p: int, own: bool :| TakeOwn(s, s', t, p, own) { TakeOwnStays(s, s', o, t, p, own); } else { assert s'.opens == s.opens; }
  }

  lemma TurnStays(s: State, s': State, p: int, x: Serve)
    requires s' == Turn(s, p, x).(home := s'.home)
    ensures s'.opens == s.opens
  {
  }

  lemma AcceptFailsStays(s: State, s': State, p: int, t: int)
    requires AcceptFails(s, s', p, t)
    ensures s'.opens == s.opens
  {
  }

  lemma StartStays(s: State, s': State, p: int)
    requires StartAccepting(s, s', p)
    ensures s'.opens == s.opens
  {
  }

  lemma InboundStays(s: State, s': State, p: int, conn: int, stream: int, entry: int)
    requires RegisterInbound(s, s', p, conn, stream, entry)
    ensures s'.opens == s.opens
  {
  }

  lemma AnnounceStays(s: State, s': State, p: int, stream: int, ok: bool, t: int)
    requires Announce(s, s', p, stream, ok, t)
    ensures s'.opens == s.opens
  {
  }

  /** A listener's steps touch no open. */
  lemma ListenStays(s: State, s': State, p: int)
    requires ListenStep(s, s', p)
    ensures s'.opens == s.opens
  {
    if conn: int, stream: int, entry: int :| RegisterInbound(s, s', p, conn, stream, entry) {
      InboundStays(s, s', p, conn, stream, entry);
    } else if stream: int, ok: bool, t: int :| Announce(s, s', p, stream, ok, t) {
      AnnounceStays(s, s', p, stream, ok, t);
    } else if conn: int :| Accept(s, s', p, conn) {
      TurnStays(s, s', p, Accepted(conn));
    } else if t: int :| AcceptFails(s, s', p, t) {
      AcceptFailsStays(s, s', p, t);
    } else if StartAccepting(s, s', p) {
      StartStays(s, s', p);
    } else {
      assert ContextCloses(s, s', p) || Commit(s, s', p);
    }
  }

  lemma StaysInTime(s: State, s': State, o: int)
    requires Step(s, s') && (o in s.opens ==> Healthy(s, o) && !s.opens[o].Late?)
    ensures o in s'.opens ==> !s'.opens[o].Late?
  {
    if p: int :| OpenStep(s, s', p) {
      OpenStays(s, s', o, p);
    } else if t: int :| RemoveStep(s, s', t) {
      RemoveStays(s, s', o, t);
    } else {
      var p :| ListenStep(s, s', p);
      ListenStays(s, s', p);
    }
  }

  /** As long as the entry is healthy its open is never told to throw its socket away, whatever everyone else does. */
  lemma {:induction false} HealthyOpenIsNeverLate(run: seq<State>, o: int, i: nat)
    requires Run(run) && i < |run|
    requires forall j :: 0 <= j < i && o in run[j].opens ==> Healthy(run[j], o)
    ensures o in run[i].opens ==> !run[i].opens[o].Late?
  {
    if i > 0 {
      HealthyOpenIsNeverLate(run, o, i - 1);
      assert Next(run, i - 1);
      StaysInTime(run[i - 1], run[i], o);
    }
  }
}
