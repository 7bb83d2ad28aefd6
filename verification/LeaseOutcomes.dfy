/** What the steps of Ownership add up to when nothing gets in between: listen and bind end with the lease owned, the last
    close gives it back, a fork whose adoptions are answered hands everything over, and the reaper takes away what a process
    left behind. */
module LeaseOutcomes {
  import opened Bytes
  import opened Sequences
  import opened Tracking
  import opened Owners
  import opened Ownership
  import LeaseSafety
  import ReaperRace

  // ----- Listening -----

  /** The entry a new lease gets in the list, and what it says. */
  ghost predicate TracksNew(pr: Proc, pr': Proc, fd: int, id: int) {
    && pr'.identity == pr.identity && pr'.fds == pr.fds && pr'.pc == Running
    && |pr'.tr.tracked| == |pr.tr.tracked| + 1 && pr'.tr.tracked[1..] == pr.tr.tracked
    && pr'.tr.tracked[0].fd == fd && IdOf(pr'.tr, pr'.tr.tracked[0]) == id
  }

  lemma ListenOwns(s: State, p: int, fd: int, linked: bool) returns (s1: State, s2: State, s3: State)
    requires At(s, p, Running) && fd in s.procs[p].fds && !Tracked(s.procs[p].tr, fd)
    ensures DoReserve(s, s1, p, fd, false, linked, true) && Commit(s1, s2, p) && Track(s2, s3, p)
    ensures p in s3.procs && TracksNew(s.procs[p], s3.procs[p], fd, s.nextId)
    ensures OwnedBy(s3.book, s.nextId, p, s.procs[p].identity) && s3.book == s.book[s.nextId := s3.book[s.nextId]]
    ensures s3.book[s.nextId][p].target == if linked then Some(s.procs[p].fds[fd]) else None
  {
    var pr := s.procs[p];
    var owner := Owner(pr.identity, if linked then Some(pr.fds[fd]) else None);
    s1 := Put(s, p, pr.(pc := Pc.Reserved(fd, s.nextId, false)))
            .(book := s.book[s.nextId := map[p := owner]], socketOf := s.socketOf[s.nextId := pr.fds[fd]], nextId := s.nextId + 1);
    s2 := Put(s1, p, pr.(pc := Committed(fd, s.nextId)));
    s3 := Put(s2, p, pr.(tr := AddTracked(pr.tr, fd, s.nextId)));
  }

  /** A UDP bind tracks without a COMMIT. */
  lemma BindOwns(s: State, p: int, fd: int, linked: bool) returns (s1: State, s2: State)
    requires At(s, p, Running) && fd in s.procs[p].fds && !Tracked(s.procs[p].tr, fd)
    ensures DoReserve(s, s1, p, fd, true, linked, true) && Track(s1, s2, p)
    ensures p in s2.procs && TracksNew(s.procs[p], s2.procs[p], fd, s.nextId)
    ensures OwnedBy(s2.book, s.nextId, p, s.procs[p].identity) && s2.book == s.book[s.nextId := s2.book[s.nextId]]
  {
    var pr := s.procs[p];
    var owner := Owner(pr.identity, if linked then Some(pr.fds[fd]) else None);
    s1 := Put(s, p, pr.(pc := Pc.Reserved(fd, s.nextId, true)))
            .(book := s.book[s.nextId := map[p := owner]], socketOf := s.socketOf[s.nextId := pr.fds[fd]], nextId := s.nextId + 1);
    s2 := Put(s1, p, pr.(tr := AddTracked(pr.tr, fd, s.nextId)));
  }

  /** A listen that cannot be finished: the lease is gone, nothing is tracked, and the descriptor is closed if the kernel
      was already listening on it. */
  lemma AbandonedListenLeavesNothing(s: State, p: int, shut: bool) returns (s1: State, s2: State)
    requires p in s.procs && (s.procs[p].pc.Reserved? || s.procs[p].pc.Committed?)
    ensures Abandon(s, s1, p, shut, false) && Abort(s1, s2, p, true)
    ensures s2.book == s.book - {s.procs[p].pc.id} && At(s2, p, Running) && s2.procs[p].tr == s.procs[p].tr
    ensures s2.procs[p].fds == if shut then s.procs[p].fds - {s.procs[p].pc.fd} else s.procs[p].fds
  {
    var pr := s.procs[p];
    s1 := Put(s, p, pr.(pc := Aborting(pr.pc.id, if shut then Some(pr.pc.fd) else None)));
    s2 := Put(s1, p, pr.(pc := Running, fds := if shut then pr.fds - {pr.pc.fd} else pr.fds)).(book := s.book - {pr.pc.id});
  }

  /** A RESERVE whose answer is lost: the server takes the lease back. */
  lemma UnansweredReserveLeavesNothing(s: State, p: int, fd: int, udp: bool, linked: bool) returns (s1: State, s2: State)
    requires At(s, p, Running) && fd in s.procs[p].fds && !Tracked(s.procs[p].tr, fd) && s.nextId !in s.book
    ensures DoReserve(s, s1, p, fd, udp, linked, false) && DropOrphan(s1, s2, s.nextId)
    ensures s2.book == s.book && s2.procs == s.procs
  {
    var pr := s.procs[p];
    var owner := Owner(pr.identity, if linked then Some(pr.fds[fd]) else None);
    s1 := Put(s, p, pr).(book := s.book[s.nextId := map[p := owner]], socketOf := s.socketOf[s.nextId := pr.fds[fd]],
                         nextId := s.nextId + 1, orphans := s.orphans + {s.nextId});
    s2 := s1.(book := s1.book - {s.nextId}, orphans := s1.orphans - {s.nextId});
    assert s2.procs == s.procs;
  }

  // ----- Closing -----

  /** No other descriptor of the process shares the lease. */
  ghost predicate LastOf(tr: Tracker, i: nat) {
    i < |tr.tracked| && forall k :: 0 <= k < |tr.tracked| && k != i ==> tr.tracked[k].cell != tr.tracked[i].cell
  }

  lemma LastComesBack(tr: Tracker, i: nat)
    requires Tracking.Valid(tr) && i < |tr.tracked|
    ensures CanUnlink(tr, i) && Unlink(tr, i).0.tracked == tr.tracked[..i] + tr.tracked[i + 1..]
    ensures Unlink(tr, i).1 == if LastOf(tr, i) then tr.cells[tr.tracked[i].cell].id else 0
  {
    UnlinkKeeps(tr, i);
    var left := Without(tr.tracked, i);
    RefsPositive(left, tr.tracked[i].cell);
    if LastOf(tr, i) {
      forall k | 0 <= k < |left| ensures left[k].cell != tr.tracked[i].cell { assert left[k] == tr.tracked[if k < i then k else k + 1]; }
    } else {
      var k :| 0 <= k < |tr.tracked| && k != i && tr.tracked[k].cell == tr.tracked[i].cell;
      assert left[if k < i then k else k - 1] == tr.tracked[k];
    }
  }

  /** close of the last descriptor of a lease, with its RELEASE delivered: the process no longer owns the lease. */
  lemma LastCloseReleases(s: State, p: int, fd: int) returns (s1: State, s2: State, s3: State)
    requires At(s, p, Running) && Tracking.Valid(s.procs[p].tr)
    requires var tr := s.procs[p].tr; var i := First(tr.tracked, fd); LastOf(tr, i) && IdOf(tr, tr.tracked[i]) != 0
    ensures Close(s, s1, p, fd) && Release(s1, s2, p, true) && CloseDone(s2, s3, p)
    ensures var pr, pr' := s.procs[p], s3.procs[p];
            var i := First(pr.tr.tracked, fd);
            && At(s3, p, Running) && pr'.fds == pr.fds - {fd} && pr'.tr.tracked == pr.tr.tracked[..i] + pr.tr.tracked[i + 1..]
            && !OwnedBy(s3.book, IdOf(pr.tr, pr.tr.tracked[i]), p, pr.identity)
  {
    var pr := s.procs[p];
    var i := First(pr.tr.tracked, fd);
    LastComesBack(pr.tr, i);
    var (tr', id) := Unlink(pr.tr, i);
    var pr1 := pr.(pc := Pc.Closing(fd, id), tr := tr');
    s1 := Put(s, p, pr1);
    s2 := Put(s1, p, pr1.(pc := Pc.Closing(fd, 0))).(book := RemoveOwner(s.book, id, p, pr.identity));
    s3 := Put(s2, p, pr1.(pc := Running, fds := pr.fds - {fd}));
    RemoveOwnerOwned(s.book, id, p, pr.identity);
  }

  /** close of any other descriptor: nothing is sent and the book stays as it is. */
  lemma SharedCloseReleasesNothing(s: State, p: int, fd: int) returns (s1: State, s2: State)
    requires At(s, p, Running) && Tracking.Valid(s.procs[p].tr) && !LastOf(s.procs[p].tr, First(s.procs[p].tr.tracked, fd))
    ensures Close(s, s1, p, fd) && CloseDone(s1, s2, p)
    ensures At(s2, p, Running) && s2.procs[p].fds == s.procs[p].fds - {fd} && s2.book == s.book
  {
    var pr := s.procs[p];
    var i := First(pr.tr.tracked, fd);
    var tr' := pr.tr;
    if i < |pr.tr.tracked| {
      LastComesBack(pr.tr, i);
      tr' := Unlink(pr.tr, i).0;
    }
    s1 := Put(s, p, pr.(pc := Pc.Closing(fd, 0), tr := tr'));
    s2 := Put(s1, p, pr.(tr := tr', fds := pr.fds - {fd}));
  }

  /** close_range closes exactly the numbers of the range, a negative descriptor counting as the kernel counts it. */
  lemma RangeCloses(s: State, s': State, p: int, first: int, last: int)
    requires CloseRange(s, s', p, first, last)
    ensures At(s', p, Ranging(first, last, 0)) && s'.procs[p].tr == s.procs[p].tr
    ensures forall fd :: fd in s'.procs[p].fds <==>
              fd in s.procs[p].fds && !(first <= (if fd < 0 then fd + 0x1_0000_0000 else fd) <= last)
    ensures forall fd :: fd in s'.procs[p].fds ==> s'.procs[p].fds[fd] == s.procs[p].fds[fd]
  {
  }

  // ----- Duplicating -----

  /** dup of a tracked descriptor: the new one is open on the same socket and tracked for the same lease. */
  lemma DupTracks(s: State, p: int, oldfd: int, newfd: int) returns (s1: State, s2: State)
    requires At(s, p, Running) && oldfd in s.procs[p].fds && newfd !in s.procs[p].fds && Tracking.Valid(s.procs[p].tr)
    requires First(s.procs[p].tr.tracked, oldfd) < |s.procs[p].tr.tracked|
    ensures Dup(s, s1, p, oldfd, newfd) && DupTrack(s1, s2, p, true) && At(s2, p, Running) && s2.book == s.book
    ensures var pr, pr' := s.procs[p], s2.procs[p];
            var e := pr.tr.tracked[First(pr.tr.tracked, oldfd)];
            && pr'.fds == pr.fds[newfd := pr.fds[oldfd]] && pr'.tr.tracked == [Entry(newfd, e.cell)] + pr.tr.tracked
            && IdOf(pr'.tr, pr'.tr.tracked[0]) == IdOf(pr.tr, e)
  {
    var pr := s.procs[p];
    var i := First(pr.tr.tracked, oldfd);
    ShareKeeps(pr.tr, i, newfd);
    var pr1 := pr.(pc := Duping(oldfd, newfd), fds := pr.fds[newfd := pr.fds[oldfd]], made := pr.made[newfd := s.now]);
    s1 := Put(s, p, pr1).(now := s.now + 1);
    s2 := Put(s1, p, pr1.(pc := Running, tr := Share(pr.tr, i, newfd)));
  }

  /** Without memory for the entry the new descriptor is closed again. */
  lemma DupWithoutMemory(s: State, p: int, oldfd: int, newfd: int) returns (s1: State, s2: State)
    requires At(s, p, Running) && oldfd in s.procs[p].fds && newfd !in s.procs[p].fds
    requires First(s.procs[p].tr.tracked, oldfd) < |s.procs[p].tr.tracked|
    ensures Dup(s, s1, p, oldfd, newfd) && DupTrack(s1, s2, p, false) && At(s2, p, Running)
    ensures s2.procs[p].fds == s.procs[p].fds && s2.procs[p].tr == s.procs[p].tr && s2.book == s.book
  {
    var pr := s.procs[p];
    var pr1 := pr.(pc := Duping(oldfd, newfd), fds := pr.fds[newfd := pr.fds[oldfd]], made := pr.made[newfd := s.now]);
    s1 := Put(s, p, pr1).(now := s.now + 1);
    s2 := Put(s1, p, pr1.(pc := Running, fds := pr1.fds - {newfd}));
    assert pr1.fds - {newfd} == pr.fds;
  }

  // ----- After close_range -----

  /** One turn of the loop after close_range: the first entry in the range goes, and its lease with it if it was the last. */
  lemma RangeTurn(s: State, p: int, first: int, last: int) returns (s1: State, s2: State)
    requires At(s, p, Ranging(first, last, 0)) && Tracking.Valid(s.procs[p].tr)
    requires FirstInRange(s.procs[p].tr.tracked, first, last) < |s.procs[p].tr.tracked|
    ensures RangeUnlink(s, s1, p) && (s2 == s1 || Release(s1, s2, p, true)) && At(s2, p, Ranging(first, last, 0))
    ensures var tr := s.procs[p].tr;
            var i := FirstInRange(tr.tracked, first, last);
            && s2.procs[p].tr.tracked == tr.tracked[..i] + tr.tracked[i + 1..]
            && (LastOf(tr, i) && IdOf(tr, tr.tracked[i]) != 0 ==> !OwnedBy(s2.book, IdOf(tr, tr.tracked[i]), p, s.procs[p].identity))
            && (!LastOf(tr, i) ==> s2.book == s.book)
  {
    var pr := s.procs[p];
    var i := FirstInRange(pr.tr.tracked, first, last);
    LastComesBack(pr.tr, i);
    var (tr', id) := Unlink(pr.tr, i);
    var pr1 := pr.(pc := Ranging(first, last, id), tr := tr');
    s1 := Put(s, p, pr1);
    s2 := s1;
    if id != 0 {
      s2 := Put(s1, p, pr1.(pc := Ranging(first, last, 0))).(book := RemoveOwner(s.book, id, p, pr.identity));
      RemoveOwnerOwned(s.book, id, p, pr.identity);
    }
  }

  // ----- Forking -----

  /** The fork of p has asked for the first `at` leases; the child waits at its gate as p's copy. */
  ghost predicate Adopting(s: State, p: int, child: int, identity: int, at: nat) {
    && At(s, p, Forking(child, identity, at, false)) && Waits(s, child, identity) && child != p
    && s.procs[child].tr == s.procs[p].tr && s.procs[child].fds == s.procs[p].fds && at <= |s.procs[p].tr.tracked|
  }

  ghost predicate Offered(s: State, pr: Proc) {
    forall k :: 0 <= k < |pr.tr.tracked| ==>
      var e := pr.tr.tracked[k]; e.cell in pr.tr.cells && e.fd in pr.fds && IdOf(pr.tr, e) in s.book
  }

  ghost predicate OwnsFirst(book: Book, tr: Tracker, p: int, identity: int, n: nat) {
    forall k :: 0 <= k < |tr.tracked| && k < n ==> OwnedBy(book, IdOf(tr, tr.tracked[k]), p, identity)
  }

  /** One turn, with the ADOPT answered if one is sent. */
  lemma AdoptTurn(s: State, p: int, child: int, identity: int, at: nat, linked: bool) returns (s': State)
    requires Adopting(s, p, child, identity, at) && Offered(s, s.procs[p]) && OwnsFirst(s.book, s.procs[p].tr, child, identity, at)
    requires at < |s.procs[p].tr.tracked|
    ensures AdoptNext(s, s', p, true, true, linked)
    ensures Adopting(s', p, child, identity, at + 1) && s'.procs[p].tr == s.procs[p].tr && s'.procs[p].fds == s.procs[p].fds
    ensures Offered(s', s'.procs[p]) && OwnsFirst(s'.book, s.procs[p].tr, child, identity, at + 1)
  {
    var pr := s.procs[p];
    var e := pr.tr.tracked[at];
    var pr' := pr.(pc := Forking(child, identity, at + 1, false));
    if k :| 0 <= k < at && pr.tr.tracked[k].cell == e.cell {
      s' := Put(s, p, pr');
      assert OwnedBy(s.book, IdOf(pr.tr, pr.tr.tracked[k]), child, identity);
    } else {
      var id := pr.tr.cells[e.cell].id;
      var owner := Owner(identity, if linked then Some(pr.fds[e.fd]) else None);
      s' := Put(s, p, pr').(book := Adopt(s.book, id, child, owner));
      AdoptOwned(s.book, id, child, owner);
    }
  }

  lemma ByFork(run: seq<State>, s': State, p: int) returns (more: seq<State>)
    requires Run(run) && ForkStep(Last(run), s', p)
    ensures Run(more) && Last(more) == s'
  {
    assert ProcStep(Last(run), s', p);
    more := ReaperRace.Extend(run, s');
  }

  lemma {:induction false} AdoptAll(run: seq<State>, p: int, child: int, identity: int, at: nat, linked: bool) returns (more: seq<State>)
    requires Run(run) && Adopting(Last(run), p, child, identity, at) && Offered(Last(run), Last(run).procs[p])
    requires OwnsFirst(Last(run).book, Last(run).procs[p].tr, child, identity, at)
    ensures Run(more) && Adopting(Last(more), p, child, identity, |Last(run).procs[p].tr.tracked|)
    ensures Last(more).procs[p].tr == Last(run).procs[p].tr && Last(more).procs[p].fds == Last(run).procs[p].fds
    ensures OwnsFirst(Last(more).book, Last(run).procs[p].tr, child, identity, |Last(run).procs[p].tr.tracked|)
    decreases |Last(run).procs[p].tr.tracked| - at
  {
    if at == |Last(run).procs[p].tr.tracked| {
      more := run;
    } else {
      var s' := AdoptTurn(Last(run), p, child, identity, at, linked);
      more := ByFork(run, s', p);
      more := AdoptAll(more, p, child, identity, at + 1, linked);
    }
  }

  /** From every calm run, a fork whose ADOPTs are all answered ends with parent and child running, and the child owning
      the lease of every descriptor it inherited. */
  lemma ForkHandsOver(run: seq<State>, p: int, child: int, identity: int, linked: bool) returns (more: seq<State>)
    requires Run(run) && LeaseSafety.CalmUntil(run, |run| - 1) && At(Last(run), p, Running)
    requires child !in Last(run).procs && (child, identity) !in Last(run).used
    ensures Run(more) && At(Last(more), p, Running) && At(Last(more), child, Running)
    ensures var pr, c := Last(run).procs[p], Last(more).procs[child];
            && c.identity == identity && c.tr == pr.tr && c.fds == pr.fds
            && forall k :: 0 <= k < |c.tr.tracked| ==> OwnedBy(Last(more).book, IdOf(c.tr, c.tr.tracked[k]), child, identity)
  {
    var s, pr := Last(run), Last(run).procs[p];
    LeaseSafety.RunKeeps(run, |run| - 1);
    var s1 := Put(Put(s, p, pr.(pc := Forking(child, identity, 0, false))), child, Proc(identity, pr.fds, pr.tr, Gated, pr.made))
                .(used := s.used + {(child, identity)});
    assert Fork(s, s1, p, child, identity);
    more := ByFork(run, s1, p);
    InheritedIsOffered(s, s1, p);
    more := AdoptAll(more, p, child, identity, 0, linked);
    var s2 := Last(more);
    var s3 := Put(Put(s2, p, s2.procs[p].(pc := Running)), child, s2.procs[child].(pc := Running));
    assert OpenGate(s2, s3, p);
    more := ByFork(more, s3, p);
  }

  lemma InheritedIsOffered(s: State, s1: State, p: int)
    requires Inv(s) && At(s, p, Running) && p in s1.procs && s1.book == s.book
    requires s1.procs[p].tr == s.procs[p].tr && s1.procs[p].fds == s.procs[p].fds
    ensures Offered(s1, s1.procs[p])
  {
    var pr := s.procs[p];
    assert LocalOk(pr, s.socketOf) && OwnedOk(p, pr, s.book);
    forall k | 0 <= k < |pr.tr.tracked|
      ensures pr.tr.tracked[k].cell in pr.tr.cells && pr.tr.tracked[k].fd in pr.fds && IdOf(pr.tr, pr.tr.tracked[k]) in s.book
    {
      var e := pr.tr.tracked[k];
      assert e in pr.tr.tracked && !InClosedRange(pr, e);
      assert OwnedBy(s.book, IdOf(pr.tr, e), p, pr.identity);
    }
  }

  /** One unanswered ADOPT: the gate stays shut for good and the child is killed. */
  lemma FailedForkKillsChild(s: State, s1: State, p: int, child: int, identity: int, at: nat, adopted: bool, linked: bool) returns (s2: State)
    requires Adopting(s, p, child, identity, at) && AdoptNext(s, s1, p, adopted, false, linked)
    requires forall k :: 0 <= k < at ==> s.procs[p].tr.tracked[k].cell != s.procs[p].tr.tracked[at].cell
    ensures (forall s' :: !OpenGate(s1, s', p)) && AbortFork(s1, s2, p)
    ensures child !in s2.procs && At(s2, p, Running) && s2.procs[p].tr == s.procs[p].tr
  {
    var s' := Put(s1, p, s1.procs[p].(pc := Running));
    s2 := s'.(procs := s'.procs - {child});
  }

  // ----- Reaping -----

  /** The reaper finds no such process any more: its ownership goes, and nobody else's. */
  lemma DeadOwnerIsReaped(s: State, r: Rec) returns (s1: State, s2: State, s3: State)
    requires RecIn(s.book, r) && !Living(s, r)
    ensures Look(s, s1, {r}) && Condemn(s1, s2, r) && Reap(s2, s3, r)
    ensures forall i, p, n :: OwnedBy(s3.book, i, p, n) <==> OwnedBy(s.book, i, p, n) && !(i == r.id && p == r.pid && n == r.identity)
  {
    s1 := s.(seen := {r});
    s2 := s1.(doomed := s1.doomed + {r}, scans := s1.scans - {r});
    s3 := s2.(book := RemoveOwner(s.book, r.id, r.pid, r.identity), doomed := s2.doomed - {r});
    RemoveOwnerOwned(s.book, r.id, r.pid, r.identity);
  }

  /** A whole look at a process that has no descriptor of the lease's socket left: its ownership goes as well. */
  lemma IdleOwnerIsReaped(s: State, r: Rec)
      returns (s1: State, s2: State, s3: State, s4: State, s5: State, s6: State, s7: State)
    requires RecIn(s.book, r) && Living(s, r) && r.target.Some?
    requires forall fd :: fd in s.procs[r.pid].fds ==> s.procs[r.pid].fds[fd] != r.target.value
    ensures var keys := s.procs[r.pid].fds.Keys;
            && Look(s, s1, {r}) && BeginScan(s1, s2, r) && Visit(s2, s3, r, keys) && EndListing(s3, s4, r) && Test(s4, s5, r, keys)
            && Condemn(s5, s6, r) && Reap(s6, s7, r)
    ensures !OwnedBy(s7.book, r.id, r.pid, r.identity) && s7.procs == s.procs
  {
    var keys := s.procs[r.pid].fds.Keys;
    s1 := s.(seen := {r});
    s2 := Scanned(s1, r, Scan(s.now, true, {}, {}, {}));
    assert {} + keys == keys && {} + keys * keys == keys;
    s3 := Scanned(s2, r, Scan(s.now, true, keys, keys, {}));
    s4 := Scanned(s3, r, Scan(s.now, false, keys, keys, {}));
    s5 := Scanned(s4, r, Scan(s.now, false, keys, keys, keys));
    s6 := s5.(doomed := s5.doomed + {r}, scans := s5.scans - {r});
    s7 := s6.(book := RemoveOwner(s.book, r.id, r.pid, r.identity), doomed := s6.doomed - {r});
    RemoveOwnerOwned(s.book, r.id, r.pid, r.identity);
  }

  /** A look that reads a link leading to the target is over, and condemns nobody who still runs. */
  lemma BusyOwnerIsSpared(s: State, s': State, r: Rec, numbers: set<int>, fd: int)
    requires Test(s, s', r, numbers) && fd in numbers && fd in s.procs[r.pid].fds && Some(s.procs[r.pid].fds[fd]) == r.target
    ensures forall s'' :: !Condemn(s', s'', r)
  {
  }
}
