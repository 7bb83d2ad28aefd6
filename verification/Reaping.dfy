/** The reaper's look at a living process (internal/listencontrol/server.go:705-745) against what the process does
    meanwhile: when its verdict is right, and what every step keeps. */
module Reaping {
  import opened Bytes
  import opened Tracking
  import opened Owners
  import opened Ownership

  /** When a dup made the descriptor; before all looks if none did. */
  function MadeAt(pr: Proc, fd: int): int { if fd in pr.made then pr.made[fd] else -1 }

  ghost predicate StampOk(pr: Proc, now: int, nextSocket: int) {
    (forall fd :: fd in pr.made ==> pr.made[fd] < now) && (forall fd :: fd in pr.fds ==> pr.fds[fd] < nextSocket)
  }

  ghost predicate StampsOk(procs: map<int, Proc>, now: int, nextSocket: int) {
    now >= 0 && forall p :: p in procs ==> StampOk(procs[p], now, nextSocket)
  }

  ghost predicate SocketsOk(socketOf: map<int, int>, nextSocket: int) { forall id :: id in socketOf ==> socketOf[id] < nextSocket }

  /** Nobody has, or is about to have, a lease whose RESERVE was not answered. */
  ghost predicate OrphansOk(procs: map<int, Proc>, orphans: set<int>, socketOf: map<int, int>) {
    && orphans <= socketOf.Keys
    && forall p, id :: p in procs && id in orphans ==> !Knows(procs[p].tr, id) && Private(procs[p].pc) != id
  }

  /** A descriptor of the socket was made since the look began, or the listing has not come to it, or its link is still to
      be read. */
  ghost predicate ToCome(pr: Proc, scan: Scan, fd: int) {
    MadeAt(pr, fd) >= scan.since || (scan.listing && fd !in scan.visited) || (fd in scan.listed && fd !in scan.tested)
  }

  predicate Holding(pc: Pc) { pc.Reserved? || pc.Committed? }

  ghost predicate ScanOk(pr: Proc, r: Rec, scan: Scan) {
    && (forall fd :: fd in pr.fds && r.target == Some(pr.fds[fd]) ==> ToCome(pr, scan, fd))
    && (Holding(pr.pc) && pr.pc.id == r.id ==> MadeAt(pr, pr.pc.fd) < scan.since)
  }

  ghost predicate ScansOk(procs: map<int, Proc>, scans: map<Rec, Scan>, now: int) {
    forall r :: r in scans ==>
      && 0 <= scans[r].since <= now && r.target.Some? && (scans[r].listing ==> scans[r].tested == {})
      && (r.pid in procs && procs[r.pid].identity == r.identity ==> ScanOk(procs[r.pid], r, scans[r]))
  }

  ghost predicate Watched(s: State) {
    && StampsOk(s.procs, s.now, s.nextSocket) && SocketsOk(s.socketOf, s.nextSocket)
    && OrphansOk(s.procs, s.orphans, s.socketOf)
    && ScansOk(s.procs, s.scans, s.now) && RecsOk(s.scans.Keys, s.socketOf, s.used)
  }

  // ----- The verdict -----

  /** A descriptor that a dup made since the look began is tracked for the lease and open. */
  ghost predicate Raced(s: State, r: Rec) {
    && Living(s, r) && r in s.scans
    && var pr := s.procs[r.pid];
       exists e :: e in pr.tr.tracked && e.fd in pr.fds && IdOf(pr.tr, e) == r.id && MadeAt(pr, e.fd) >= s.scans[r].since
  }

  /** When the look ends without a find, taking the owner off the lease is right exactly when no dup raced it. */
  lemma VerdictIsRightIff(s: State, r: Rec)
    requires Inv(s) && Watched(s) && Living(s, r) && r in s.scans && Complete(s.scans[r])
    ensures Harmless(s.procs[r.pid], r.id) <==> !Raced(s, r)
  {
    var pr, scan := s.procs[r.pid], s.scans[r];
    assert LocalOk(pr, s.socketOf) && RecOk(r, s.socketOf, s.used) && ScanOk(pr, r, scan);
    forall e | e in pr.tr.tracked && e.fd in pr.fds && IdOf(pr.tr, e) == r.id ensures MadeAt(pr, e.fd) >= scan.since {
      assert ToCome(pr, scan, e.fd);
    }
    assert Holding(pr.pc) && pr.pc.id == r.id ==> ToCome(pr, scan, pr.pc.fd);
  }

  /** A wrong verdict costs the lease: carried out at once, it takes the owner away under a tracked open descriptor. */
  lemma WrongVerdictLosesOwner(s: State, r: Rec) returns (s1: State, s2: State, e: Entry)
    requires Inv(s) && Living(s, r) && r in s.scans && Complete(s.scans[r]) && Raced(s, r)
    ensures Condemn(s, s1, r) && Reap(s1, s2, r) && s2.procs == s.procs
    ensures var pr := s.procs[r.pid];
            e in pr.tr.tracked && e.fd in pr.fds && IdOf(pr.tr, e) == r.id && !OwnedBy(s2.book, r.id, r.pid, pr.identity)
  {
    var pr := s.procs[r.pid];
    e :| e in pr.tr.tracked && e.fd in pr.fds && IdOf(pr.tr, e) == r.id && MadeAt(pr, e.fd) >= s.scans[r].since;
    s1 := s.(doomed := s.doomed + {r}, scans := s.scans - {r});
    s2 := s1.(book := RemoveOwner(s.book, r.id, r.pid, r.identity), doomed := s1.doomed - {r});
    RemoveOwnerOwned(s.book, r.id, r.pid, r.identity);
  }

  // ----- What a step keeps -----

  /** The process gains no descriptor, no lease and no reservation. */
  ghost predicate Fewer(pr: Proc, pr': Proc) {
    && pr'.identity == pr.identity && pr'.made == pr.made
    && (forall fd :: fd in pr'.fds ==> fd in pr.fds && pr'.fds[fd] == pr.fds[fd])
    && (Holding(pr'.pc) ==> Holding(pr.pc) && pr'.pc.fd == pr.pc.fd && pr'.pc.id == pr.pc.id)
    && (Private(pr'.pc) == 0 || Private(pr'.pc) == Private(pr.pc))
    && (forall id :: Knows(pr'.tr, id) ==> Knows(pr.tr, id) || (id == Private(pr.pc) && id != 0))
  }

  lemma FewerScans(procs: map<int, Proc>, scans: map<Rec, Scan>, now: int, p: int, pr': Proc)
    requires ScansOk(procs, scans, now) && p in procs && Fewer(procs[p], pr')
    ensures ScansOk(procs[p := pr'], scans, now)
  {
    forall r | r in scans && r.pid == p && pr'.identity == r.identity ensures ScanOk(pr', r, scans[r]) {
      assert ScanOk(procs[p], r, scans[r]);
      forall fd | fd in pr'.fds && r.target == Some(pr'.fds[fd]) ensures ToCome(pr', scans[r], fd) {
        assert ToCome(procs[p], scans[r], fd);
      }
    }
  }

  lemma FewerWatched(s: State, s': State, p: int, pr': Proc)
    requires Watched(s) && p in s.procs && Fewer(s.procs[p], pr') && 0 !in s.orphans
    requires s'.procs == s.procs[p := pr'] && s'.now == s.now && s'.nextSocket == s.nextSocket && s'.socketOf == s.socketOf
    requires s'.scans == s.scans && s'.used == s.used && s'.orphans == s.orphans
    ensures Watched(s')
  {
    FewerScans(s.procs, s.scans, s.now, p, pr');
  }

  lemma NoZeroOrphan(s: State)
    requires Inv(s) && Watched(s)
    ensures 0 !in s.orphans
  {
  }

  /** Only process p changes, and it gains nothing. */
  ghost predicate OneFewer(s: State, s': State, p: int) {
    && p in s.procs && p in s'.procs && s'.procs == s.procs[p := s'.procs[p]] && Fewer(s.procs[p], s'.procs[p])
    && s'.now == s.now && s'.nextSocket == s.nextSocket && s'.socketOf == s.socketOf
    && s'.scans == s.scans && s'.used == s.used && s'.orphans == s.orphans
  }

  lemma OneFewerWatched(s: State, s': State, p: int)
    requires Inv(s) && Watched(s) && OneFewer(s, s', p)
    ensures Watched(s')
  {
    NoZeroOrphan(s);
    FewerWatched(s, s', p, s'.procs[p]);
  }

  lemma CommitFewer(s: State, s': State, p: int)
    requires Commit(s, s', p)
    ensures OneFewer(s, s', p)
  {
  }

  lemma AbandonFewer(s: State, s': State, p: int, shut: bool, dropped: bool)
    requires Abandon(s, s', p, shut, dropped)
    ensures OneFewer(s, s', p)
  {
  }

  lemma AbortFewer(s: State, s': State, p: int, delivered: bool)
    requires Abort(s, s', p, delivered)
    ensures OneFewer(s, s', p)
  {
  }

  lemma TrackFewer(s: State, s': State, p: int)
    requires Inv(s) && Track(s, s', p)
    ensures OneFewer(s, s', p)
  {
    var pr := s.procs[p];
    assert LocalOk(pr, s.socketOf) && !Knows(pr.tr, Private(pr.pc));
    AddFacts(pr.tr, pr.pc.fd, pr.pc.id);
  }

  /** The steps of listen and bind after RESERVE. */
  lemma ListenFewer(s: State, s': State, p: int)
    requires Inv(s) && ListenStep(s, s', p)
    requires !(exists fd: int, udp: bool, linked: bool, answered: bool :: DoReserve(s, s', p, fd, udp, linked, answered))
    ensures OneFewer(s, s', p)
  {
    if Commit(s, s', p) {
      CommitFewer(s, s', p);
    } else if Track(s, s', p) {
      TrackFewer(s, s', p);
    } else if shut: bool, dropped: bool :| Abandon(s, s', p, shut, dropped) {
      AbandonFewer(s, s', p, shut, dropped);
    } else {
      var delivered :| Abort(s, s', p, delivered);
      AbortFewer(s, s', p, delivered);
    }
  }

  lemma UnlinkFewer(s: State, s': State, p: int, i: nat)
    requires Inv(s) && p in s.procs && i < |s.procs[p].tr.tracked| && CanUnlink(s.procs[p].tr, i) && p in s'.procs
    requires s' == Put(s, p, s.procs[p].(pc := s'.procs[p].pc, tr := Unlink(s.procs[p].tr, i).0))
    requires s'.procs[p].pc.Closing? || s'.procs[p].pc.Ranging?
    ensures OneFewer(s, s', p)
  {
    assert LocalOk(s.procs[p], s.socketOf);
    UnlinkFacts(s.procs[p].tr, i);
  }

  lemma CloseFewer(s: State, s': State, p: int, fd: int)
    requires Inv(s) && Close(s, s', p, fd)
    ensures OneFewer(s, s', p)
  {
    var i := First(s.procs[p].tr.tracked, fd);
    if i < |s.procs[p].tr.tracked| { UnlinkFewer(s, s', p, i); }
  }

  lemma ReleaseFewer(s: State, s': State, p: int, delivered: bool)
    requires Release(s, s', p, delivered)
    ensures OneFewer(s, s', p)
  {
  }

  lemma ClosedFewer(s: State, s': State, p: int)
    requires CloseDone(s, s', p) || RangeDone(s, s', p)
    ensures OneFewer(s, s', p)
  {
  }

  lemma CloseRangeFewer(s: State, s': State, p: int, first: int, last: int)
    requires CloseRange(s, s', p, first, last)
    ensures OneFewer(s, s', p)
  {
  }

  lemma CloseStepFewer(s: State, s': State, p: int)
    requires Inv(s) && CloseStep(s, s', p)
    ensures OneFewer(s, s', p)
  {
    if fd: int :| Close(s, s', p, fd) {
      CloseFewer(s, s', p, fd);
    } else if delivered: bool :| Release(s, s', p, delivered) {
      ReleaseFewer(s, s', p, delivered);
    } else if CloseDone(s, s', p) || RangeDone(s, s', p) {
      ClosedFewer(s, s', p);
    } else if first: int, last: int :| CloseRange(s, s', p, first, last) {
      CloseRangeFewer(s, s', p, first, last);
    } else {
      UnlinkFewer(s, s', p, FirstInRange(s.procs[p].tr.tracked, s.procs[p].pc.first, s.procs[p].pc.last));
    }
  }

  lemma DupTrackFewer(s: State, s': State, p: int, memory: bool)
    requires Inv(s) && DupTrack(s, s', p, memory)
    ensures OneFewer(s, s', p)
  {
    var pr := s.procs[p];
    assert LocalOk(pr, s.socketOf);
    var i := First(pr.tr.tracked, pr.pc.oldfd);
    if i < |pr.tr.tracked| && memory { ShareFacts(pr.tr, i, pr.pc.newfd); }
  }

  lemma AdoptNextFewer(s: State, s': State, p: int, adopted: bool, answered: bool, linked: bool)
    requires AdoptNext(s, s', p, adopted, answered, linked)
    ensures OneFewer(s, s', p)
  {
  }

  /** A dup is stamped, so a look in progress knows it as made meanwhile. */
  lemma DupWatched(s: State, s': State, p: int, oldfd: int, newfd: int)
    requires Inv(s) && Watched(s) && Dup(s, s', p, oldfd, newfd)
    ensures Watched(s')
  {
    var pr, pr' := s.procs[p], s'.procs[p];
    forall r | r in s.scans && r.pid == p && pr'.identity == r.identity ensures ScanOk(pr', r, s.scans[r]) {
      assert ScanOk(pr, r, s.scans[r]);
      forall fd | fd in pr'.fds && r.target == Some(pr'.fds[fd]) ensures ToCome(pr', s.scans[r], fd) {
        assert fd != newfd ==> ToCome(pr, s.scans[r], fd);
      }
    }
    forall q | q in s'.procs ensures StampOk(s'.procs[q], s'.now, s'.nextSocket) { assert q in s.procs && StampOk(s.procs[q], s.now, s.nextSocket); }
  }

  /** A new socket is no look's target. */
  lemma SocketWatched(s: State, s': State, p: int, fd: int)
    requires Inv(s) && Watched(s) && Socket(s, s', p, fd)
    ensures Watched(s')
  {
    var pr, pr' := s.procs[p], s'.procs[p];
    forall r | r in s.scans && r.pid == p && pr'.identity == r.identity ensures ScanOk(pr', r, s.scans[r]) {
      assert ScanOk(pr, r, s.scans[r]) && RecOk(r, s.socketOf, s.used);
      forall n | n in pr'.fds && r.target == Some(pr'.fds[n]) ensures ToCome(pr', s.scans[r], n) {
        assert n != fd && ToCome(pr, s.scans[r], n);
      }
    }
    forall q | q in s'.procs ensures StampOk(s'.procs[q], s'.now, s'.nextSocket) { assert q in s.procs && StampOk(s.procs[q], s.now, s.nextSocket); }
  }

  /** A new lease is in no look and is nobody's. */
  lemma ReserveWatched(s: State, s': State, p: int, fd: int, udp: bool, linked: bool, answered: bool)
    requires Inv(s) && Watched(s) && DoReserve(s, s', p, fd, udp, linked, answered)
    ensures Watched(s')
  {
    var pr, pr', id := s.procs[p], s'.procs[p], s.nextId;
    forall q | q in s.procs ensures !Knows(s.procs[q].tr, id) && Private(s.procs[q].pc) != id {
      assert LocalOk(s.procs[q], s.socketOf);
      UnknownId(s.procs[q], s.socketOf, id);
    }
    forall r | r in s.scans ensures r.id != id && RecOk(r, s'.socketOf, s'.used) { assert RecOk(r, s.socketOf, s.used); }
    forall r | r in s.scans && r.pid == p && pr'.identity == r.identity ensures ScanOk(pr', r, s.scans[r]) {
      assert ScanOk(pr, r, s.scans[r]);
      forall n | n in pr'.fds && r.target == Some(pr'.fds[n]) ensures ToCome(pr', s.scans[r], n) { assert ToCome(pr, s.scans[r], n); }
    }
    ReserveRest(s, s', p, id);
  }

  lemma ReserveRest(s: State, s': State, p: int, id: int)
    requires Inv(s) && Watched(s) && id == s.nextId && p in s.procs
    requires exists fd: int, udp: bool, linked: bool, answered: bool :: DoReserve(s, s', p, fd, udp, linked, answered)
    requires forall q :: q in s.procs ==> !Knows(s.procs[q].tr, id) && Private(s.procs[q].pc) != id
    ensures StampsOk(s'.procs, s'.now, s'.nextSocket) && SocketsOk(s'.socketOf, s'.nextSocket)
    ensures OrphansOk(s'.procs, s'.orphans, s'.socketOf)
  {
    assert StampOk(s.procs[p], s.now, s.nextSocket);
  }

  /** A process that was not there is in no look. */
  lemma BirthWatched(s: State, s': State, p: int, pr: Proc)
    requires Watched(s) && p !in s.procs && (p, pr.identity) !in s.used
    requires s'.procs == s.procs[p := pr] && s'.now == s.now && s'.nextSocket == s.nextSocket && s'.socketOf == s.socketOf
    requires s'.scans == s.scans && s.used <= s'.used && s'.orphans == s.orphans
    requires StampOk(pr, s.now, s.nextSocket) && (forall id :: id in s.orphans ==> !Knows(pr.tr, id) && Private(pr.pc) != id)
    ensures Watched(s')
  {
    forall r | r in s.scans ensures RecOk(r, s'.socketOf, s'.used) && (r.pid == p ==> r.identity != pr.identity) {
      assert RecOk(r, s.socketOf, s.used);
    }
  }

  lemma ExitWatched(s: State, s': State, p: int)
    requires Watched(s) && Exit(s, s', p)
    ensures Watched(s')
  {
  }

  lemma ForkWatched(s: State, s': State, p: int, child: int, identity: int)
    requires Inv(s) && Watched(s) && Fork(s, s', p, child, identity)
    ensures Watched(s')
  {
    var pr := s.procs[p];
    var s1 := Put(s, p, pr.(pc := Forking(child, identity, 0, false)));
    NoZeroOrphan(s);
    FewerWatched(s, s1, p, s1.procs[p]);
    var copy := Proc(identity, pr.fds, pr.tr, Gated, pr.made);
    assert StampOk(pr, s.now, s.nextSocket);
    BirthWatched(s1, s', child, copy);
  }

  lemma GateWatched(s: State, s': State, p: int)
    requires Inv(s) && Watched(s) && (OpenGate(s, s', p) || AbortFork(s, s', p))
    ensures Watched(s')
  {
    var pr := s.procs[p];
    var s1 := Put(s, p, pr.(pc := Running));
    NoZeroOrphan(s);
    FewerWatched(s, s1, p, s1.procs[p]);
    if Waits(s, pr.pc.child, pr.pc.identity) {
      if OpenGate(s, s', p) {
        FewerWatched(s1, s', pr.pc.child, s'.procs[pr.pc.child]);
      } else {
        assert Exit(s1, s', pr.pc.child);
        ExitWatched(s1, s', pr.pc.child);
      }
    }
  }

  lemma BeginScanWatched(s: State, s': State, r: Rec)
    requires Inv(s) && Watched(s) && BeginScan(s, s', r)
    ensures Watched(s')
  {
    assert StampOk(s.procs[r.pid], s.now, s.nextSocket) && RecOk(r, s.socketOf, s.used);
  }

  lemma ListWatched(s: State, s': State, r: Rec)
    requires Watched(s) && (EndListing(s, s', r) || exists numbers: set<int> :: Visit(s, s', r, numbers))
    ensures Watched(s')
  {
    ScanMoves(s, s', r);
  }

  lemma TestWatched(s: State, s': State, r: Rec, numbers: set<int>)
    requires Watched(s) && Test(s, s', r, numbers)
    ensures Watched(s')
  {
    if r in s'.scans { ScanMoves(s, s', r); }
  }

  /** Each step of a look leaves every descriptor of the target accounted for. */
  lemma LookWatched(s: State, s': State, r: Rec)
    requires Inv(s) && Watched(s) && LookStep(s, s', r)
    ensures Watched(s')
  {
    if BeginScan(s, s', r) {
      BeginScanWatched(s, s', r);
    } else if EndListing(s, s', r) || exists numbers: set<int> :: Visit(s, s', r, numbers) {
      ListWatched(s, s', r);
    } else if numbers: set<int> :| Test(s, s', r, numbers) {
      TestWatched(s, s', r, numbers);
    }
  }

  lemma ScanMoves(s: State, s': State, r: Rec)
    requires Watched(s) && r in s.scans && r in s'.scans && s' == Scanned(s, r, s'.scans[r]) && Living(s, r)
    requires s'.scans[r].since == s.scans[r].since && (s'.scans[r].listing ==> s'.scans[r].tested == {})
    requires forall fd :: fd in s.procs[r.pid].fds && r.target == Some(s.procs[r.pid].fds[fd]) && ToCome(s.procs[r.pid], s.scans[r], fd) ==>
               ToCome(s.procs[r.pid], s'.scans[r], fd)
    ensures Watched(s')
  {
    assert ScanOk(s.procs[r.pid], r, s.scans[r]);
  }

  lemma LifeWatched(s: State, s': State, p: int)
    requires Inv(s) && Watched(s) && LifeStep(s, s', p)
    ensures Watched(s')
  {
    if n: int :| Start(s, s', p, n) {
      BirthWatched(s, s', p, s'.procs[p]);
    } else if Exit(s, s', p) {
      ExitWatched(s, s', p);
    } else {
      var fd :| Socket(s, s', p, fd);
      SocketWatched(s, s', p, fd);
    }
  }

  lemma ListenWatched(s: State, s': State, p: int)
    requires Inv(s) && Watched(s) && ListenStep(s, s', p)
    ensures Watched(s')
  {
    if fd: int, udp: bool, linked: bool, answered: bool :| DoReserve(s, s', p, fd, udp, linked, answered) {
      ReserveWatched(s, s', p, fd, udp, linked, answered);
    } else {
      ListenFewer(s, s', p);
      OneFewerWatched(s, s', p);
    }
  }

  lemma DupStepWatched(s: State, s': State, p: int)
    requires Inv(s) && Watched(s) && DupStep(s, s', p)
    ensures Watched(s')
  {
    if o: int, n: int :| Dup(s, s', p, o, n) {
      DupWatched(s, s', p, o, n);
    } else {
      var memory :| DupTrack(s, s', p, memory);
      DupTrackFewer(s, s', p, memory);
      OneFewerWatched(s, s', p);
    }
  }

  lemma ForkStepWatched(s: State, s': State, p: int)
    requires Inv(s) && Watched(s) && ForkStep(s, s', p)
    ensures Watched(s')
  {
    if child: int, n: int :| Fork(s, s', p, child, n) {
      ForkWatched(s, s', p, child, n);
    } else if adopted: bool, answered: bool, linked: bool :| AdoptNext(s, s', p, adopted, answered, linked) {
      AdoptNextFewer(s, s', p, adopted, answered, linked);
      OneFewerWatched(s, s', p);
    } else {
      GateWatched(s, s', p);
    }
  }

  lemma ProcStepWatched(s: State, s': State, p: int)
    requires Inv(s) && Watched(s) && ProcStep(s, s', p)
    ensures Watched(s')
  {
    if LifeStep(s, s', p) {
      LifeWatched(s, s', p);
    } else if ListenStep(s, s', p) {
      ListenWatched(s, s', p);
    } else if DupStep(s, s', p) {
      DupStepWatched(s, s', p);
    } else if CloseStep(s, s', p) {
      CloseStepFewer(s, s', p);
      OneFewerWatched(s, s', p);
    } else {
      ForkStepWatched(s, s', p);
    }
  }

  // ----- The invariant -----

  /** A step that is a verdict on a living process is one no dup raced. */
  ghost predicate Calm(s: State, s': State) { forall r :: Condemn(s, s', r) ==> !Raced(s, r) }

  lemma CalmVerdictKeeps(s: State, s': State, r: Rec)
    requires Inv(s) && Watched(s) && Condemn(s, s', r) && !Raced(s, r)
    ensures Inv(s') && Watched(s')
  {
    assert RecOk(r, s.socketOf, s.used);
    if Living(s, r) { VerdictIsRightIff(s, r); }
    CondemnKeeps(s, s', r);
  }

  lemma OrphanKeeps(s: State, s': State, id: int)
    requires Inv(s) && Watched(s) && DropOrphan(s, s', id)
    ensures Inv(s') && Watched(s')
  {
    NoZeroOrphan(s);
    DropKeeps(s, id);
  }

  lemma ScansOnly(s: State, scans: map<Rec, Scan>)
    requires Inv(s)
    ensures Inv(s.(scans := scans))
  {
  }

  lemma LookLooks(s: State, s': State, r: Rec)
    requires LookStep(s, s', r)
    ensures s' == s.(scans := s'.scans)
  {
    if numbers: set<int> :| Visit(s, s', r, numbers) {
    } else if numbers: set<int> :| Test(s, s', r, numbers) {
    } else if EndListing(s, s', r) {
    } else if BeginScan(s, s', r) {
    }
  }

  lemma LookKeepsAll(s: State, s': State, r: Rec)
    requires Inv(s) && Watched(s) && LookStep(s, s', r)
    ensures Inv(s') && Watched(s')
  {
    LookLooks(s, s', r);
    ScansOnly(s, s'.scans);
    LookWatched(s, s', r);
  }

  lemma StepKeeps(s: State, s': State)
    requires Inv(s) && Watched(s) && Step(s, s') && Calm(s, s')
    ensures Inv(s') && Watched(s')
  {
    if p: int :| ProcStep(s, s', p) {
      ProcStepKeeps(s, s', p);
      ProcStepWatched(s, s', p);
    } else if id: int :| DropOrphan(s, s', id) {
      OrphanKeeps(s, s', id);
    } else if recs: set<Rec> :| Look(s, s', recs) {
      LookKeeps(s, s', recs);
    } else if r: Rec :| LookStep(s, s', r) {
      LookKeepsAll(s, s', r);
    } else if r: Rec :| Condemn(s, s', r) {
      CalmVerdictKeeps(s, s', r);
    } else {
      var r :| Reap(s, s', r);
      ReapKeeps(s, s', r);
    }
  }
}
