/** What holds over whole runs of Ownership: no lease dies while a tracked descriptor lives, as long as no dup races a
    verdict of the reaper. ReaperRace shows that the condition is needed. */
module LeaseSafety {
  import opened Bytes
  import opened Owners
  import opened Ownership
  import opened Reaping

  ghost predicate CalmAt(run: seq<State>, j: int) { 0 <= j < |run| - 1 && Calm(run[j], run[j + 1]) }

  /** No verdict before i was raced. */
  ghost predicate CalmUntil(run: seq<State>, i: int) { forall j :: 0 <= j < i ==> CalmAt(run, j) }

  lemma InitKeeps(s: State)
    requires Init(s)
    ensures Inv(s) && Watched(s)
  {
  }

  lemma NextKeeps(run: seq<State>, i: nat)
    requires Run(run) && i + 1 < |run| && CalmAt(run, i) && Inv(run[i]) && Watched(run[i])
    ensures Inv(run[i + 1]) && Watched(run[i + 1])
  {
    assert Next(run, i);
    StepKeeps(run[i], run[i + 1]);
  }

  lemma {:induction false} RunKeeps(run: seq<State>, i: nat)
    requires Run(run) && i < |run| && CalmUntil(run, i)
    ensures Inv(run[i]) && Watched(run[i])
  {
    if i == 0 {
      InitKeeps(run[0]);
    } else {
      RunKeeps(run, i - 1);
      assert CalmAt(run, i - 1);
      NextKeeps(run, i - 1);
    }
  }

  /** In every run without a raced verdict: while a process that is past its fork gate tracks an open descriptor for a
      lease, the lease is in the server's book with that very process as an owner. So no lease dies, by RELEASE, by ABORT
      of another call, by the server or by the reaper, while a tracked descriptor lives. */
  lemma TrackedDescriptorKeepsItsLease(run: seq<State>, i: nat, p: int, k: nat)
    requires Run(run) && i < |run| && CalmUntil(run, i)
    requires p in run[i].procs && !run[i].procs[p].pc.Gated?
    requires k < |run[i].procs[p].tr.tracked| && run[i].procs[p].tr.tracked[k].fd in run[i].procs[p].fds
    ensures var pr := run[i].procs[p];
            var e := pr.tr.tracked[k];
            && e.cell in pr.tr.cells
            && OwnedBy(run[i].book, pr.tr.cells[e.cell].id, p, pr.identity)
  {
    RunKeeps(run, i);
    var pr := run[i].procs[p];
    assert OwnedOk(p, pr, run[i].book) && LocalOk(pr, run[i].socketOf);
    assert pr.tr.tracked[k] in pr.tr.tracked;
  }

  /** Outside close_range every tracked descriptor is open, so there the claim covers all of them. */
  lemma TrackedDescriptorsAreOpen(run: seq<State>, i: nat, p: int, k: nat)
    requires Run(run) && i < |run| && CalmUntil(run, i)
    requires p in run[i].procs && k < |run[i].procs[p].tr.tracked|
    ensures var pr := run[i].procs[p];
            pr.tr.tracked[k].fd in pr.fds <==> !InClosedRange(pr, pr.tr.tracked[k])
  {
    RunKeeps(run, i);
    assert LocalOk(run[i].procs[p], run[i].socketOf);
    assert run[i].procs[p].tr.tracked[k] in run[i].procs[p].tr.tracked;
  }

  /** An owner recorded without a link is never looked at, so no verdict on it is ever raced. */
  lemma UnlinkedOwnerIsNeverRaced(run: seq<State>, i: nat, r: Rec)
    requires Run(run) && i < |run| && CalmUntil(run, i) && r.target.None?
    ensures !Raced(run[i], r)
  {
    RunKeeps(run, i);
  }

  // ----- The condition in terms of dup -----

  predicate LooksFor(pr: Proc, r: Rec, fd: int) { pr.identity == r.identity && fd in pr.fds && r.target == Some(pr.fds[fd]) }

  /** No descriptor of a look's target was made since the look began. */
  ghost predicate Unraced(procs: map<int, Proc>, scans: map<Rec, Scan>) {
    forall r, fd :: r in scans && r.pid in procs && fd in procs[r.pid].fds && LooksFor(procs[r.pid], r, fd) ==>
      MadeAt(procs[r.pid], fd) < scans[r].since
  }

  /** A process duplicates a descriptor of the very socket the reaper looks for in it. */
  ghost predicate DupUnderLook(s: State, s': State) {
    exists p: int, o: int, n: int, r: Rec ::
      Dup(s, s', p, o, n) && r in s.scans && r.pid == p && r.identity == s.procs[p].identity && r.target == Some(s.procs[p].fds[o])
  }

  /** Apart from dup a process comes by a descriptor only with a new socket. */
  ghost predicate Steady(pr: Proc, pr': Proc, nextSocket: int) {
    forall fd :: fd in pr'.fds ==>
      (fd in pr.fds && pr'.fds[fd] == pr.fds[fd] && MadeAt(pr', fd) == MadeAt(pr, fd)) || pr'.fds[fd] >= nextSocket
  }

  lemma SteadyUnraced(s: State, s': State)
    requires Watched(s) && Unraced(s.procs, s.scans) && s'.scans == s.scans
    requires forall q :: q in s'.procs ==> if q in s.procs && s'.procs[q].identity == s.procs[q].identity
                                           then Steady(s.procs[q], s'.procs[q], s.nextSocket) else (q, s'.procs[q].identity) !in s.used
    ensures Unraced(s'.procs, s'.scans)
  {
    forall r, fd | r in s.scans && r.pid in s'.procs && fd in s'.procs[r.pid].fds && LooksFor(s'.procs[r.pid], r, fd)
      ensures MadeAt(s'.procs[r.pid], fd) < s.scans[r].since
    {
      assert RecOk(r, s.socketOf, s.used) && s.socketOf[r.id] < s.nextSocket;
    }
  }

  lemma DupUnraced(s: State, s': State, p: int, o: int, n: int)
    requires Watched(s) && Unraced(s.procs, s.scans) && Dup(s, s', p, o, n) && !DupUnderLook(s, s')
    ensures Unraced(s'.procs, s'.scans)
  {
    var pr, pr' := s.procs[p], s'.procs[p];
    forall r, fd | r in s.scans && r.pid == p && LooksFor(pr', r, fd)
      ensures MadeAt(pr', fd) < s.scans[r].since
    {
      assert fd != n;
    }
  }

  /** One process changes, and gets no descriptor of an old socket. */
  lemma OneUnraced(s: State, s': State, p: int)
    requires Watched(s) && Unraced(s.procs, s.scans) && s'.scans == s.scans
    requires p in s.procs && p in s'.procs && s'.procs == s.procs[p := s'.procs[p]]
    requires s'.procs[p].identity == s.procs[p].identity && Steady(s.procs[p], s'.procs[p], s.nextSocket)
    ensures Unraced(s'.procs, s'.scans)
  {
    SteadyUnraced(s, s');
  }

  lemma FewerUnraced(s: State, s': State, p: int)
    requires Watched(s) && Unraced(s.procs, s.scans) && OneFewer(s, s', p)
    ensures Unraced(s'.procs, s'.scans)
  {
    OneUnraced(s, s', p);
  }

  lemma LifeUnraced(s: State, s': State, p: int)
    requires Watched(s) && Unraced(s.procs, s.scans) && LifeStep(s, s', p)
    ensures Unraced(s'.procs, s'.scans)
  {
    if fd: int :| Socket(s, s', p, fd) { OneUnraced(s, s', p); } else { SteadyUnraced(s, s'); }
  }

  lemma ReserveUnraced(s: State, s': State, p: int, fd: int, udp: bool, linked: bool, answered: bool)
    requires Watched(s) && Unraced(s.procs, s.scans) && DoReserve(s, s', p, fd, udp, linked, answered)
    ensures Unraced(s'.procs, s'.scans)
  {
    OneUnraced(s, s', p);
  }

  lemma ForkUnraced(s: State, s': State, p: int, child: int, identity: int)
    requires Watched(s) && Unraced(s.procs, s.scans) && Fork(s, s', p, child, identity)
    ensures Unraced(s'.procs, s'.scans)
  {
    SteadyUnraced(s, s');
  }

  lemma OpenGateUnraced(s: State, s': State, p: int)
    requires Inv(s) && Watched(s) && Unraced(s.procs, s.scans) && OpenGate(s, s', p)
    ensures Unraced(s'.procs, s'.scans)
  {
    var pr := s.procs[p];
    var s1 := Put(s, p, pr.(pc := Running));
    assert OneFewer(s, s1, p);
    FewerUnraced(s, s1, p);
    OneFewerWatched(s, s1, p);
    if Waits(s, pr.pc.child, pr.pc.identity) {
      assert OneFewer(s1, s', pr.pc.child);
      FewerUnraced(s1, s', pr.pc.child);
    }
  }

  lemma AbortForkUnraced(s: State, s': State, p: int)
    requires Watched(s) && Unraced(s.procs, s.scans) && AbortFork(s, s', p)
    ensures Unraced(s'.procs, s'.scans)
  {
    SteadyUnraced(s, s');
  }

  lemma ListenUnraced(s: State, s': State, p: int)
    requires Inv(s) && Watched(s) && Unraced(s.procs, s.scans) && ListenStep(s, s', p)
    ensures Unraced(s'.procs, s'.scans)
  {
    if fd: int, udp: bool, linked: bool, answered: bool :| DoReserve(s, s', p, fd, udp, linked, answered) {
      ReserveUnraced(s, s', p, fd, udp, linked, answered);
    } else {
      ListenFewer(s, s', p);
      FewerUnraced(s, s', p);
    }
  }

  lemma DupStepUnraced(s: State, s': State, p: int)
    requires Inv(s) && Watched(s) && Unraced(s.procs, s.scans) && DupStep(s, s', p) && !DupUnderLook(s, s')
    ensures Unraced(s'.procs, s'.scans)
  {
    if o: int, n: int :| Dup(s, s', p, o, n) {
      DupUnraced(s, s', p, o, n);
    } else {
      var memory :| DupTrack(s, s', p, memory);
      DupTrackFewer(s, s', p, memory);
      FewerUnraced(s, s', p);
    }
  }

  lemma ForkStepUnraced(s: State, s': State, p: int)
    requires Inv(s) && Watched(s) && Unraced(s.procs, s.scans) && ForkStep(s, s', p)
    ensures Unraced(s'.procs, s'.scans)
  {
    if child: int, n: int :| Fork(s, s', p, child, n) {
      ForkUnraced(s, s', p, child, n);
    } else if adopted: bool, answered: bool, linked: bool :| AdoptNext(s, s', p, adopted, answered, linked) {
      AdoptNextFewer(s, s', p, adopted, answered, linked);
      FewerUnraced(s, s', p);
    } else if OpenGate(s, s', p) {
      OpenGateUnraced(s, s', p);
    } else {
      AbortForkUnraced(s, s', p);
    }
  }

  lemma ProcUnraced(s: State, s': State, p: int)
    requires Inv(s) && Watched(s) && Unraced(s.procs, s.scans) && ProcStep(s, s', p) && !DupUnderLook(s, s')
    ensures Unraced(s'.procs, s'.scans)
  {
    if LifeStep(s, s', p) {
      LifeUnraced(s, s', p);
    } else if ListenStep(s, s', p) {
      ListenUnraced(s, s', p);
    } else if DupStep(s, s', p) {
      DupStepUnraced(s, s', p);
    } else if CloseStep(s, s', p) {
      CloseStepFewer(s, s', p);
      FewerUnraced(s, s', p);
    } else {
      ForkStepUnraced(s, s', p);
    }
  }

  lemma LookUnraced(s: State, s': State, r: Rec)
    requires Watched(s) && Unraced(s.procs, s.scans) && LookStep(s, s', r)
    ensures Unraced(s'.procs, s'.scans)
  {
    if BeginScan(s, s', r) { assert StampOk(s.procs[r.pid], s.now, s.nextSocket); }
  }

  lemma StepUnraced(s: State, s': State)
    requires Inv(s) && Watched(s) && Unraced(s.procs, s.scans) && Step(s, s') && !DupUnderLook(s, s')
    ensures Unraced(s'.procs, s'.scans)
  {
    if p: int :| ProcStep(s, s', p) {
      ProcUnraced(s, s', p);
    } else if r: Rec :| LookStep(s, s', r) {
      LookUnraced(s, s', r);
    } else if r: Rec :| Condemn(s, s', r) {
      CondemnUnraced(s, s', r);
    } else {
      assert s'.procs == s.procs && s'.scans == s.scans;
    }
  }

  lemma CondemnUnraced(s: State, s': State, r: Rec)
    requires Unraced(s.procs, s.scans) && Condemn(s, s', r)
    ensures Unraced(s'.procs, s'.scans)
  {
  }

  lemma UnracedIsCalm(s: State, s': State)
    requires Inv(s) && Watched(s) && Unraced(s.procs, s.scans)
    ensures Calm(s, s')
  {
    forall r | r in s.scans && Living(s, r) ensures !Raced(s, r) {
      assert LocalOk(s.procs[r.pid], s.socketOf) && RecOk(r, s.socketOf, s.used);
    }
  }

  ghost predicate NoDupUnderLook(run: seq<State>, j: int) { 0 <= j < |run| - 1 && !DupUnderLook(run[j], run[j + 1]) }

  lemma CalmFurther(run: seq<State>, i: nat)
    requires i + 1 < |run| && CalmUntil(run, i) && Calm(run[i], run[i + 1])
    ensures CalmUntil(run, i + 1)
  {
    assert CalmAt(run, i);
  }

  lemma QuietStep(run: seq<State>, i: nat)
    requires Run(run) && i + 1 < |run| && NoDupUnderLook(run, i) && CalmUntil(run, i) && Unraced(run[i].procs, run[i].scans)
    ensures Calm(run[i], run[i + 1]) && Unraced(run[i + 1].procs, run[i + 1].scans)
  {
    RunKeeps(run, i);
    assert Next(run, i);
    StepUnraced(run[i], run[i + 1]);
    UnracedIsCalm(run[i], run[i + 1]);
  }

  /** As long as no process duplicates a descriptor of the socket the reaper is looking for in it, no verdict is raced. */
  lemma {:induction false} QuietLooksAreCalm(run: seq<State>, i: nat)
    requires Run(run) && i < |run| && forall j :: 0 <= j < i ==> NoDupUnderLook(run, j)
    ensures CalmUntil(run, i) && Unraced(run[i].procs, run[i].scans)
  {
    if i > 0 {
      QuietLooksAreCalm(run, i - 1);
      QuietStep(run, i - 1);
      CalmFurther(run, i - 1);
    }
  }
}
