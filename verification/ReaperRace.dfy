/** Why LeaseSafety needs its condition: a process that duplicates its descriptor and closes the old one while the reaper
    looks at it loses its lease, although it never stopped tracking an open descriptor of it. */
module ReaperRace {
  import opened Bytes
  import opened Sequences
  import opened Tracking
  import opened Owners
  import opened Ownership
  import opened Reaping
  import opened LeaseSafety

  lemma Extend(run: seq<State>, s': State) returns (more: seq<State>)
    requires Run(run) && Step(Last(run), s')
    ensures Run(more) && Last(more) == s' && run <= more
  {
    more := run + [s'];
    forall i | 0 <= i < |more| - 1 ensures Next(more, i) {
      if i < |run| - 1 {
        assert Next(run, i) && more[i] == run[i] && more[i + 1] == run[i + 1];
      } else {
        assert more[i] == Last(run) && more[i + 1] == s';
      }
    }
  }

  lemma ByLook(run: seq<State>, s': State, r: Rec) returns (more: seq<State>)
    requires Run(run) && LookStep(Last(run), s', r)
    ensures Run(more) && Last(more) == s' && run <= more
  {
    more := Extend(run, s');
  }

  lemma ByDup(run: seq<State>, s': State, p: int, oldfd: int, newfd: int) returns (more: seq<State>)
    requires Run(run) && Dup(Last(run), s', p, oldfd, newfd)
    ensures Run(more) && Last(more) == s' && run <= more
  {
    assert DupStep(Last(run), s', p) && ProcStep(Last(run), s', p);
    more := Extend(run, s');
  }

  lemma ByDupTrack(run: seq<State>, s': State, p: int) returns (more: seq<State>)
    requires Run(run) && DupTrack(Last(run), s', p, true)
    ensures Run(more) && Last(more) == s' && run <= more
  {
    assert DupStep(Last(run), s', p) && ProcStep(Last(run), s', p);
    more := Extend(run, s');
  }

  lemma ByClose(run: seq<State>, s': State, p: int, fd: int) returns (more: seq<State>)
    requires Run(run) && Close(Last(run), s', p, fd)
    ensures Run(more) && Last(more) == s' && run <= more
  {
    assert CloseStep(Last(run), s', p) && ProcStep(Last(run), s', p);
    more := Extend(run, s');
  }

  lemma ByCloseDone(run: seq<State>, s': State, p: int) returns (more: seq<State>)
    requires Run(run) && CloseDone(Last(run), s', p)
    ensures Run(more) && Last(more) == s' && run <= more
  {
    assert CloseStep(Last(run), s', p) && ProcStep(Last(run), s', p);
    more := Extend(run, s');
  }

  /** The list after dup and close of the old descriptor: the new one holds the lease, and nothing is released. */
  lemma MovedEntry(tr: Tracker, i: nat, newfd: int)
    requires Tracking.Valid(tr) && DistinctIds(tr) && DistinctFds(tr.tracked) && i < |tr.tracked| && !Tracked(tr, newfd)
    ensures tr.tracked[i].cell in tr.cells && First(tr.tracked, tr.tracked[i].fd) == i
    ensures var tr1 := Share(tr, i, newfd);
            && First(tr1.tracked, tr.tracked[i].fd) == i + 1 < |tr1.tracked| && CanUnlink(tr1, i + 1)
            && var (tr2, id) := Unlink(tr1, i + 1);
               && id == 0 && Entry(newfd, tr.tracked[i].cell) in tr2.tracked
               && IdOf(tr2, Entry(newfd, tr.tracked[i].cell)) == IdOf(tr, tr.tracked[i])
  {
    ShareFacts(tr, i, newfd);
    var tr1 := Share(tr, i, newfd);
    UnlinkKeeps(tr1, i + 1);
    var (tr2, id) := Unlink(tr1, i + 1);
    assert tr2.tracked[0] == Entry(newfd, tr.tracked[i].cell);
  }

  /** The process is alone on its socket with one tracked descriptor, and its owner record carries the link. */
  ghost predicate Exposed(s: State, p: int, k: nat, newfd: int) {
    && At(s, p, Running) && k < |s.procs[p].tr.tracked|
    && var pr := s.procs[p];
       var e := pr.tr.tracked[k];
       && e.fd in pr.fds && newfd !in pr.fds
       && (forall fd :: fd in pr.fds && pr.fds[fd] == pr.fds[e.fd] ==> fd == e.fd)
       && RecIn(s.book, Rec(IdOf(pr.tr, e), p, pr.identity, Some(pr.fds[e.fd])))
  }

  /** The reaper lists the open numbers. */
  lemma Listing(run: seq<State>, p: int, k: nat, newfd: int, r: Rec) returns (more: seq<State>)
    requires Run(run) && Exposed(Last(run), p, k, newfd)
    requires var pr := Last(run).procs[p];
             r == Rec(IdOf(pr.tr, pr.tr.tracked[k]), p, pr.identity, Some(pr.fds[pr.tr.tracked[k].fd]))
    ensures Run(more) && run <= more
    ensures var s, pr := Last(run), Last(run).procs[p];
            Last(more) == s.(seen := {r}, scans := s.scans[r := Scan(s.now, false, pr.fds.Keys, pr.fds.Keys, {})])
  {
    var s := Last(run);
    var keys := s.procs[p].fds.Keys;
    var s1 := s.(seen := {r});
    assert Look(s, s1, {r});
    more := Extend(run, s1);
    var s2 := Scanned(s1, r, Scan(s.now, true, {}, {}, {}));
    assert BeginScan(s1, s2, r);
    more := ByLook(more, s2, r);
    var s3 := Scanned(s2, r, Scan(s.now, true, keys, keys, {}));
    assert {} + keys == keys && {} + keys * keys == keys;
    assert Visit(s2, s3, r, keys);
    more := ByLook(more, s3, r);
    var s4 := Scanned(s3, r, Scan(s.now, false, keys, keys, {}));
    assert EndListing(s3, s4, r);
    more := ByLook(more, s4, r);
    assert s4.scans == s.scans[r := Scan(s.now, false, keys, keys, {})];
  }

  ghost predicate Ready(s: State, p: int, k: nat, newfd: int) {
    && At(s, p, Running) && k < |s.procs[p].tr.tracked| && s.procs[p].tr.tracked[k].fd in s.procs[p].fds && newfd !in s.procs[p].fds
    && LocalOk(s.procs[p], s.socketOf)
  }

  lemma NewIsUntracked(s: State, p: int, k: nat, newfd: int)
    requires Ready(s, p, k, newfd)
    ensures !Tracked(s.procs[p].tr, newfd)
  {
    var tr := s.procs[p].tr;
    forall i | 0 <= i < |tr.tracked| ensures tr.tracked[i].fd != newfd { assert tr.tracked[i] in tr.tracked; }
  }

  /** dup: the new descriptor is tracked with the old one's cell. */
  lemma Duplicating(run: seq<State>, p: int, k: nat, newfd: int) returns (more: seq<State>)
    requires Run(run) && Ready(Last(run), p, k, newfd)
    ensures Run(more) && run <= more
    ensures var s, pr := Last(run), Last(run).procs[p];
            && pr.tr.tracked[k].cell in pr.tr.cells
            && Last(more) == Put(s, p, pr.(fds := pr.fds[newfd := pr.fds[pr.tr.tracked[k].fd]], tr := Share(pr.tr, k, newfd),
                                           made := pr.made[newfd := s.now])).(now := s.now + 1)
  {
    var s, pr := Last(run), Last(run).procs[p];
    var oldfd := pr.tr.tracked[k].fd;
    NewIsUntracked(s, p, k, newfd);
    MovedEntry(pr.tr, k, newfd);
    var pr1 := pr.(pc := Duping(oldfd, newfd), fds := pr.fds[newfd := pr.fds[oldfd]], made := pr.made[newfd := s.now]);
    var s1 := Put(s, p, pr1).(now := s.now + 1);
    more := ByDup(run, s1, p, oldfd, newfd);
    var s2 := Put(s1, p, pr1.(pc := Running, tr := Share(pr.tr, k, newfd)));
    more := ByDupTrack(more, s2, p);
    assert s2.procs == s.procs[p := s2.procs[p]];
  }

  /** close of a descriptor whose lease has another: nothing is released. */
  lemma Closing(run: seq<State>, p: int, i: nat) returns (more: seq<State>)
    requires Run(run) && At(Last(run), p, Running)
    requires var tr := Last(run).procs[p].tr;
             i < |tr.tracked| && First(tr.tracked, tr.tracked[i].fd) == i && CanUnlink(tr, i) && Unlink(tr, i).1 == 0
    ensures Run(more) && run <= more
    ensures var s, pr := Last(run), Last(run).procs[p];
            Last(more) == Put(s, p, pr.(fds := pr.fds - {pr.tr.tracked[i].fd}, tr := Unlink(pr.tr, i).0))
  {
    var s, pr := Last(run), Last(run).procs[p];
    var fd, tr' := pr.tr.tracked[i].fd, Unlink(pr.tr, i).0;
    var s1 := Put(s, p, pr.(pc := Pc.Closing(fd, 0), tr := tr'));
    more := ByClose(run, s1, p, fd);
    var s2 := Put(s1, p, pr.(pc := Running, tr := tr', fds := pr.fds - {fd}));
    more := ByCloseDone(more, s2, p);
    assert s2.procs == s.procs[p := s2.procs[p]];
  }

  /** The process moves its lease to a new descriptor. */
  lemma Moving(run: seq<State>, p: int, k: nat, newfd: int) returns (more: seq<State>)
    requires Run(run) && Ready(Last(run), p, k, newfd)
    ensures Run(more) && run <= more && Last(more).scans == Last(run).scans && Last(more).book == Last(run).book
    ensures var pr, from := Last(run).procs[p], Last(run).procs[p].tr.tracked[k];
            && At(Last(more), p, Running)
            && var pr' := Last(more).procs[p];
               && pr'.identity == pr.identity && pr'.fds == pr.fds[newfd := pr.fds[from.fd]] - {from.fd}
               && Entry(newfd, from.cell) in pr'.tr.tracked && IdOf(pr'.tr, Entry(newfd, from.cell)) == IdOf(pr.tr, from)
  {
    NewIsUntracked(Last(run), p, k, newfd);
    MovedEntry(Last(run).procs[p].tr, k, newfd);
    more := Duplicating(run, p, k, newfd);
    more := Closing(more, p, k + 1);
  }

  /** From every state in which a process is exposed, the race takes its lease away. */
  lemma RaceLosesLease(run: seq<State>, p: int, k: nat, newfd: int) returns (more: seq<State>, e: Entry)
    requires Run(run) && CalmUntil(run, |run| - 1) && Exposed(Last(run), p, k, newfd)
    ensures Run(more) && run <= more && At(Last(more), p, Running)
    ensures var pr := Last(more).procs[p];
            && e in pr.tr.tracked && e.fd in pr.fds && pr.identity == Last(run).procs[p].identity
            && IdOf(pr.tr, e) == IdOf(Last(run).procs[p].tr, Last(run).procs[p].tr.tracked[k])
            && !OwnedBy(Last(more).book, IdOf(pr.tr, e), p, pr.identity)
  {
    RunKeeps(run, |run| - 1);
    var s := Last(run);
    var pr := s.procs[p];
    assert LocalOk(pr, s.socketOf);
    var from := pr.tr.tracked[k];
    var r := Rec(IdOf(pr.tr, from), p, pr.identity, Some(pr.fds[from.fd]));
    more := Listing(run, p, k, newfd, r);
    more := Moving(more, p, k, newfd);
    more := Verdict(more, r, pr.fds.Keys, s.now);
    e := Entry(newfd, from.cell);
  }

  /** No listed number leads to the target any more, so the owner is taken for dead. */
  lemma Verdict(run: seq<State>, r: Rec, listed: set<int>, since: int) returns (more: seq<State>)
    requires Run(run) && Living(Last(run), r) && r.target.Some? && r in Last(run).scans
    requires Last(run).scans[r] == Scan(since, false, listed, listed, {})
    requires var pr := Last(run).procs[r.pid]; forall fd :: fd in listed && fd in pr.fds ==> pr.fds[fd] != r.target.value
    ensures Run(more) && run <= more && Last(more).procs == Last(run).procs
    ensures !OwnedBy(Last(more).book, r.id, r.pid, r.identity)
  {
    var s := Last(run);
    var s1 := Scanned(s, r, Scan(since, false, listed, listed, listed));
    assert {} + listed == listed;
    assert Test(s, s1, r, listed);
    more := ByLook(run, s1, r);
    var s2 := s1.(doomed := s1.doomed + {r}, scans := s1.scans - {r});
    assert Condemn(s1, s2, r);
    more := Extend(more, s2);
    var s3 := s2.(book := RemoveOwner(s2.book, r.id, r.pid, r.identity), doomed := s2.doomed - {r});
    assert Reap(s2, s3, r);
    more := Extend(more, s3);
    RemoveOwnerOwned(s2.book, r.id, r.pid, r.identity);
  }

  /** A concrete run: process 7 listens on descriptor 3, dups it to 5 and closes 3 while the reaper looks. */
  lemma LeaseDiesUnderTrackedDescriptor() returns (run: seq<State>, e: Entry)
    ensures Run(run) && At(Last(run), 7, Running)
    ensures var pr := Last(run).procs[7];
            e in pr.tr.tracked && e.fd in pr.fds && !OwnedBy(Last(run).book, IdOf(pr.tr, e), 7, pr.identity)
  {
    run := Listener();
    run, e := RaceLosesLease(run, 7, 0, 5);
  }

  /** A step of a process is no verdict. */
  lemma ByProc(run: seq<State>, s': State, p: int) returns (more: seq<State>)
    requires Run(run) && CalmUntil(run, |run| - 1) && ProcStep(Last(run), s', p)
    requires Last(run).scans == map[] && Last(run).seen == {}
    ensures Run(more) && CalmUntil(more, |more| - 1) && Last(more) == s'
  {
    more := run + [s'];
    forall i | 0 <= i < |more| - 1 ensures Next(more, i) && CalmAt(more, i) {
      if i < |run| - 1 { assert Next(run, i) && CalmAt(run, i); }
    }
  }

  /** Process 7 listens on descriptor 3. */
  lemma Listener() returns (run: seq<State>)
    ensures Run(run) && CalmUntil(run, |run| - 1) && Exposed(Last(run), 7, 0, 5)
  {
    var p1 := Proc(1, map[3 := 0], EMPTY, Running, map[]);
    run := Bound(p1);
    var s2 := Last(run);
    var p2 := p1.(pc := Reserved(3, 1, false));
    var s3 := s2.(procs := map[7 := p2], book := map[1 := map[7 := Owner(1, Some(0))]], socketOf := map[1 := 0], nextId := 2);
    assert s3.procs == s2.procs[7 := p2];
    assert DoReserve(s2, s3, 7, 3, false, true, true) && ListenStep(s2, s3, 7);
    run := ByProc(run, s3, 7);
    run := Listened(run, p1);
  }

  /** It has a socket there. */
  lemma Bound(p1: Proc) returns (run: seq<State>)
    requires p1 == Proc(1, map[3 := 0], EMPTY, Running, map[])
    ensures Run(run) && CalmUntil(run, |run| - 1)
    ensures Last(run) == State(map[7 := p1], map[], map[], {(7, 1)}, 1, 1, {}, map[], {}, 0, {})
  {
    var s0 := State(map[], map[], map[], {}, 1, 0, {}, map[], {}, 0, {});
    var p0 := Proc(1, map[], EMPTY, Running, map[]);
    var s1 := s0.(procs := map[7 := p0], used := {(7, 1)});
    run := [s0];
    assert Start(s0, s1, 7, 1) && LifeStep(s0, s1, 7);
    run := ByProc(run, s1, 7);
    var s2 := s1.(procs := map[7 := p1], nextSocket := 1);
    assert p0.made - {3} == p0.made && s2.procs == s1.procs[7 := p1];
    assert Socket(s1, s2, 7, 3) && LifeStep(s1, s2, 7);
    run := ByProc(run, s2, 7);
  }

  /** Its lease is committed and the descriptor tracked. */
  lemma Listened(run: seq<State>, p1: Proc) returns (more: seq<State>)
    requires Run(run) && CalmUntil(run, |run| - 1) && p1 == Proc(1, map[3 := 0], EMPTY, Running, map[])
    requires Last(run).procs == map[7 := p1.(pc := Reserved(3, 1, false))] && Last(run).book == map[1 := map[7 := Owner(1, Some(0))]]
    requires Last(run).scans == map[] && Last(run).seen == {}
    ensures Run(more) && CalmUntil(more, |more| - 1) && Exposed(Last(more), 7, 0, 5)
  {
    var s3 := Last(run);
    var p3 := p1.(pc := Committed(3, 1));
    var s4 := s3.(procs := map[7 := p3]);
    assert s4.procs == s3.procs[7 := p3];
    assert Commit(s3, s4, 7);
    more := ByProc(run, s4, 7);
    var p4 := p1.(tr := AddTracked(EMPTY, 3, 1));
    var s5 := s4.(procs := map[7 := p4]);
    assert s5.procs == s4.procs[7 := p4];
    assert Track(s4, s5, 7);
    more := ByProc(more, s5, 7);
    assert RecIn(s5.book, Rec(1, 7, 1, Some(0)));
  }
}
