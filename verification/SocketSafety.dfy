/** What holds over whole runs of RelayOpen: no socket leaks as long as no open of a stream overwrites another's socket, and
    listeners announce only after their commit. */
module SocketSafety {
  import opened Bytes
  import opened RelayOpen

  /** The step stores no stream's socket over another. */
  ghost predicate Calm(s: State, s': State) { forall o, sock :: Store(s, s', o, sock) ==> !Overwrites(s, o) }

  ghost predicate CalmAt(run: seq<State>, j: int) { 0 <= j < |run| - 1 && Calm(run[j], run[j + 1]) }

  ghost predicate CalmUntil(run: seq<State>, i: int) { forall j :: 0 <= j < i ==> CalmAt(run, j) }

  lemma StepKeeps(s: State, s': State)
    requires Inv(s) && Step(s, s') && Calm(s, s')
    ensures Inv(s')
  {
    if o: int :| OpenStep(s, s', o) {
      OpenStepKeeps(s, s', o);
    } else if t: int :| RemoveStep(s, s', t) {
      RemoveStepKeeps(s, s', t);
    } else {
      var o :| ListenStep(s, s', o);
      ListenStepKeeps(s, s', o);
    }
  }

  lemma InitKeeps(s: State)
    requires Init(s)
    ensures Inv(s)
  {
    forall kind: Kind ensures |OfKind(s.registry.Keys, kind)| <= Limit(kind) { assert OfKind(s.registry.Keys, kind) == {}; }
  }

  lemma {:induction false} RunKeeps(run: seq<State>, i: nat)
    requires Run(run) && i < |run| && CalmUntil(run, i)
    ensures Inv(run[i])
  {
    if i == 0 {
      InitKeeps(run[0]);
    } else {
      RunKeeps(run, i - 1);
      assert Next(run, i - 1) && CalmAt(run, i - 1);
      StepKeeps(run[i - 1], run[i]);
    }
  }

  // ----- Main results -----

  /** Once no open and no accept holds it, a socket is closed, or belongs to an entry that is registered or that a
      remover is about to close. */
  lemma SocketsAreOwnedOrClosed(run: seq<State>, i: nat, sock: int)
    requires Run(run) && i < |run| && CalmUntil(run, i) && sock in run[i].home
    requires forall o :: o in run[i].opens ==> InOpen(run[i].opens[o]) != Some(sock)
    requires forall o :: o in run[i].serves ==> InServe(run[i].serves[o]) != Some(sock)
    ensures sock in run[i].closed || exists o :: Owned(run[i], o, sock)
  {
    RunKeeps(run, i);
    assert Accounted(run[i], sock);
  }

  /** A registered entry's socket is open, except a listener's after its context ended, and no two entries share one. */
  lemma RegisteredSocketsAreOpen(run: seq<State>, i: nat, k: Key)
    requires Run(run) && i < |run| && CalmUntil(run, i) && k in run[i].registry
    ensures var s, o := run[i], run[i].registry[k];
            && o in s.conns
            && (s.conns[o].Some? && !(k.kind.Listener? && Expired(s, o)) ==> s.conns[o].value !in s.closed)
            && forall other :: other in s.conns && other != o && s.conns[o].Some? ==> s.conns[other] != s.conns[o]
  {
    RunKeeps(run, i);
    var s, o := run[i], run[i].registry[k];
    forall other | other in s.conns && s.conns[other].Some? ensures s.home[s.conns[other].value] == AtEntry(other) {
      assert At(s.home, s.conns[other], AtEntry(other));
    }
  }

  /** No InboundOpen before the ListenCommit of that very listener, and the registries stay within their limits. */
  lemma InboundOpensFollowCommit(run: seq<State>, i: nat)
    requires Run(run) && i < |run| && CalmUntil(run, i)
    ensures run[i].announced <= run[i].commits
    ensures forall kind: Kind :: |OfKind(run[i].registry.Keys, kind)| <= Limit(kind)
  {
    RunKeeps(run, i);
  }

  /** When nothing is in progress and the registries are empty, every socket ever obtained is closed. */
  lemma QuietServerHasNoSockets(run: seq<State>, i: nat)
    requires Run(run) && i < |run| && CalmUntil(run, i) && run[i].registry == map[] && run[i].hands == map[]
    requires forall o :: o in run[i].opens ==> run[i].opens[o].Ended?
    requires forall o :: o in run[i].serves ==> !run[i].serves[o].Accepted?
    ensures run[i].home.Keys == run[i].closed
  {
    RunKeeps(run, i);
    var s := run[i];
    forall sock | sock in s.home ensures sock in s.closed { SocketsAreOwnedOrClosed(run, i, sock); }
    assert s.home.Keys <= s.closed;
  }

  // ----- The condition -----

  /** A store that overwrites loses the socket that was there: it was open, and now nobody will close it. One that does not
      loses nothing. Only streams overwrite. */
  lemma StoreLosesIff(s: State, s': State, o: int, sock: int)
    requires Inv(s) && Store(s, s', o, sock)
    ensures AllAccounted(s') <==> !Overwrites(s, o)
    ensures Overwrites(s, o) ==> s.keyOf[o].kind.Stream?
  {
    if Overwrites(s, o) {
      var e := Target(s, o).value;
      var x := s.conns[e].value;
      assert At(s.home, s.conns[e], AtEntry(e)) && At(s.home, InOpen(s.opens[o]), AtOpen(o));
      assert s'.home[x] == AtEntry(e) && s'.conns[e] != Some(x);
      assert s.keyOf[o].kind.Stream?;
      assert x !in s.closed;
      assert x in s'.home && !Accounted(s', x);
    } else {
      StoreKeeps(s, s', o, sock);
    }
  }

  /** Every stream id is used for one entry only. */
  ghost predicate OnceOnly(keyOf: map<int, Key>) {
    forall a, b :: a in keyOf && b in keyOf && keyOf[a].kind.Stream? && keyOf[a] == keyOf[b] ==> a == b
  }

  ghost predicate EmptyBefore(conns: map<int, Option<int>>, opens: map<int, Open>) {
    forall o :: o in opens && (opens[o].Dialing? || opens[o].Dialed?) ==> o in conns && conns[o].None?
  }

  lemma OnceIsCalm(s: State, s': State)
    requires Inv(s) && OnceOnly(s.keyOf) && EmptyBefore(s.conns, s.opens)
    ensures Calm(s, s')
  {
  }

  /** The open moves on; no entry gets a socket. */
  lemma MoveEmpty(s: State, s': State, o: int, x: Open)
    requires EmptyBefore(s.conns, s.opens) && o in s.opens && s'.conns == s.conns && s'.opens == s.opens[o := x]
    requires x.Dialing? || x.Dialed? ==> s.opens[o].Dialing?
    ensures EmptyBefore(s'.conns, s'.opens)
  {
  }

  lemma RegisterEmpty(s: State, s': State, o: int, k: Key)
    requires EmptyBefore(s.conns, s.opens) && Register(s, s', o, k)
    ensures EmptyBefore(s'.conns, s'.opens)
  {
  }

  lemma StoreEmpty(s: State, s': State, o: int, sock: int)
    requires Inv(s) && OnceOnly(s.keyOf) && EmptyBefore(s.conns, s.opens) && Store(s, s', o, sock)
    ensures EmptyBefore(s'.conns, s'.opens)
  {
    assert Target(s, o).Some? ==> Target(s, o).value == o;
  }

  lemma OpenOnce(s: State, s': State, o: int)
    requires Inv(s) && OnceOnly(s.keyOf) && EmptyBefore(s.conns, s.opens) && OpenStep(s, s', o)
    ensures EmptyBefore(s'.conns, s'.opens)
  {
    if k: Key :| Register(s, s', o, k) {
      RegisterEmpty(s, s', o, k);
    } else if sock: int :| Dial(s, s', o, sock) {
      DialEmpty(s, s', o, sock);
    } else if sock: int :| Store(s, s', o, sock) {
      StoreEmpty(s, s', o, sock);
    } else if sock: int :| CloseLate(s, s', o, sock) {
      CloseLateEmpty(s, s', o, sock);
    } else if ok: bool :| Answer(s, s', o, ok) {
      AnswerEmpty(s, s', o, ok);
    } else {
      DialFailsEmpty(s, s', o);
    }
  }

  lemma DialEmpty(s: State, s': State, o: int, sock: int)
    requires EmptyBefore(s.conns, s.opens) && Dial(s, s', o, sock)
    ensures EmptyBefore(s'.conns, s'.opens)
  {
    MoveEmpty(s, s', o, Dialed(sock));
  }

  lemma DialFailsEmpty(s: State, s': State, o: int)
    requires EmptyBefore(s.conns, s.opens) && DialFails(s, s', o)
    ensures EmptyBefore(s'.conns, s'.opens)
  {
    MoveEmpty(s, s', o, Failing(s.keyOf[o].kind.Listener?));
  }

  lemma CloseLateEmpty(s: State, s': State, o: int, sock: int)
    requires EmptyBefore(s.conns, s.opens) && CloseLate(s, s', o, sock)
    ensures EmptyBefore(s'.conns, s'.opens)
  {
    MoveEmpty(s, s', o, Ended);
  }

  lemma AnswerEmpty(s: State, s': State, o: int, ok: bool)
    requires EmptyBefore(s.conns, s.opens) && Answer(s, s', o, ok)
    ensures EmptyBefore(s'.conns, s'.opens)
  {
    MoveEmpty(s, s', o, if ok then Ended else Failing(false));
  }

  lemma TakeOwnEmpty(s: State, s': State, t: int, o: int, own: bool)
    requires EmptyBefore(s.conns, s.opens) && TakeOwn(s, s', t, o, own)
    ensures EmptyBefore(s'.conns, s'.opens)
  {
    MoveEmpty(s, s', o, Ended);
  }

  lemma RemoveOnce(s: State, s': State, t: int)
    requires EmptyBefore(s.conns, s.opens) && RemoveStep(s, s', t)
    ensures EmptyBefore(s'.conns, s'.opens)
  {
    if o: int, own: bool :| TakeOwn(s, s', t, o, own) {
      TakeOwnEmpty(s, s', t, o, own);
    } else if k: Key :| TakeOut(s, s', t, k) {
    } else if CloseTaken(s, s', t) {
    }
  }

  lemma InboundEmpty(s: State, s': State, o: int, conn: int, stream: int, entry: int)
    requires Inv(s) && EmptyBefore(s.conns, s.opens) && RegisterInbound(s, s', o, conn, stream, entry)
    ensures EmptyBefore(s'.conns, s'.opens)
  {
    assert entry !in s.opens;
  }

  lemma ListenOnce(s: State, s': State, o: int)
    requires Inv(s) && EmptyBefore(s.conns, s.opens) && ListenStep(s, s', o)
    ensures EmptyBefore(s'.conns, s'.opens)
  {
    if conn: int, stream: int, entry: int :| RegisterInbound(s, s', o, conn, stream, entry) {
      InboundEmpty(s, s', o, conn, stream, entry);
    } else {
      TurnOnce(s, s', o);
    }
  }

  /** The other steps of a listener touch no open and no entry's socket. */
  lemma TurnOnce(s: State, s': State, o: int)
    requires EmptyBefore(s.conns, s.opens)
    requires || ContextCloses(s, s', o) || Commit(s, s', o) || StartAccepting(s, s', o)
             || (exists conn: int :: Accept(s, s', o, conn))
             || (exists t: int :: AcceptFails(s, s', o, t))
             || (exists stream: int, ok: bool, t: int :: Announce(s, s', o, stream, ok, t))
    ensures EmptyBefore(s'.conns, s'.opens)
  {
    if conn: int :| Accept(s, s', o, conn) {
    } else if t: int :| AcceptFails(s, s', o, t) {
    } else if stream: int, ok: bool, t: int :| Announce(s, s', o, stream, ok, t) {
      AnnounceEmpty(s, s', o, stream, ok, t);
    } else if StartAccepting(s, s', o) {
    }
  }

  lemma AnnounceEmpty(s: State, s': State, o: int, stream: int, ok: bool, t: int)
    requires EmptyBefore(s.conns, s.opens) && Announce(s, s', o, stream, ok, t)
    ensures EmptyBefore(s'.conns, s'.opens)
  {
  }

  lemma StepOnce(s: State, s': State)
    requires Inv(s) && OnceOnly(s.keyOf) && EmptyBefore(s.conns, s.opens) && Step(s, s')
    ensures EmptyBefore(s'.conns, s'.opens)
  {
    if o: int :| OpenStep(s, s', o) {
      OpenOnce(s, s', o);
    } else if t: int :| RemoveStep(s, s', t) {
      RemoveOnce(s, s', t);
    } else {
      var o :| ListenStep(s, s', o);
      ListenOnce(s, s', o);
    }
  }

  lemma CalmFurther(run: seq<State>, i: nat)
    requires i + 1 < |run| && CalmUntil(run, i) && Calm(run[i], run[i + 1])
    ensures CalmUntil(run, i + 1)
  {
    assert CalmAt(run, i);
  }

  lemma SingleUseStep(run: seq<State>, i: nat)
    requires Run(run) && i + 1 < |run| && OnceOnly(run[i].keyOf) && CalmUntil(run, i) && EmptyBefore(run[i].conns, run[i].opens)
    ensures Calm(run[i], run[i + 1]) && EmptyBefore(run[i + 1].conns, run[i + 1].opens)
  {
    RunKeeps(run, i);
    assert Next(run, i);
    StepOnce(run[i], run[i + 1]);
    OnceIsCalm(run[i], run[i + 1]);
  }

  /** As long as no stream id is used twice nothing is overwritten. The other kinds may use ids again. */
  lemma {:induction false} SingleUseIsCalm(run: seq<State>, i: nat)
    requires Run(run) && i < |run| && forall j :: 0 <= j <= i ==> OnceOnly(run[j].keyOf)
    ensures CalmUntil(run, i) && EmptyBefore(run[i].conns, run[i].opens)
  {
    if i > 0 {
      SingleUseIsCalm(run, i - 1);
      SingleUseStep(run, i - 1);
      CalmFurther(run, i - 1);
    }
  }
}
