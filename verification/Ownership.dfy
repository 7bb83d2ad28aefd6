/** Strict-listen ownership across processes: single-threaded processes using the interposer's listen,
    UDP bind, dup, fcntl-dup, close, close_range and fork (native/listen_interposer.c), the control
    server's lease book and its reaper (internal/listencontrol/server.go).

    Control requests are atomic and may be lost; a process may be killed at any point; a pid may be used
    again, but never with the same start-time identity. The reaper looks at a process's descriptors the way procfs
    lets it: it lists the open numbers, then reads the link of each listed number, and the process runs on meanwhile. */
module Ownership {
  import opened Bytes
  import opened Sequences
  import opened Tracking
  import opened Owners

  /** Where a process stands inside an interposed call. */
  datatype Pc =
    | Running
    | Gated                                             // a forked child waiting for the gate byte
    | Reserved(fd: int, id: int, udp: bool)             // RESERVE answered
    | Committed(fd: int, id: int)                       // COMMIT answered
    | Aborting(id: int, shut: Option<int>)              // about to send ABORT or CLOSE
    | Closing(fd: int, id: int)                         // close: entry unlinked, id still to release
    | Duping(oldfd: int, newfd: int)                    // dup: kernel done, not yet tracked
    | Ranging(first: int, last: int, id: int)           // close_range: kernel done
    | Forking(child: int, identity: int, at: int, failed: bool)

  /** `made` is history: when the descriptors that came from dup were made. */
  datatype Proc = Proc(identity: int, fds: map<int, int>, tr: Tracker, pc: Pc, made: map<int, int>)

  /** An owner record as the reaper sees it. */
  datatype Rec = Rec(id: int, pid: int, identity: int, target: Option<int>)

  /** The reaper's look at one process: the numbers the listing has passed, those it found open, and those whose link
      it has read since. `since` is history: when the look began. */
  datatype Scan = Scan(since: int, listing: bool, visited: set<int>, listed: set<int>, tested: set<int>)

  /** `socketOf`, `used` and `now` are history: the socket each lease was reserved for, every pid with its identity that
      ever existed, and the number of dups so far. `orphans` are leases whose RESERVE was not answered. */
  datatype State = State(
    procs: map<int, Proc>,
    book: Book,
    socketOf: map<int, int>,
    used: set<(int, int)>,
    nextId: int,
    nextSocket: int,
    seen: set<Rec>,
    scans: map<Rec, Scan>,
    doomed: set<Rec>,
    now: int,
    orphans: set<int>)

  ghost predicate Init(s: State) { s == State(map[], map[], map[], {}, 1, 0, {}, map[], {}, 0, {}) }

  predicate Tracked(tr: Tracker, fd: int) { exists i :: 0 <= i < |tr.tracked| && tr.tracked[i].fd == fd }

  /** The interposer knows a lease while it has a cell for it. */
  ghost predicate Knows(tr: Tracker, id: int) { exists c :: c in tr.cells && tr.cells[c].id == id }

  ghost predicate At(s: State, p: int, pc: Pc) { p in s.procs && s.procs[p].pc == pc }

  function Put(s: State, p: int, pr: Proc): State { s.(procs := s.procs[p := pr]) }

  // ----- Steps of processes -----

  /** A process that inherits nothing from a tracked one. */
  ghost predicate Start(s: State, s': State, p: int, identity: int) {
    && p !in s.procs && (p, identity) !in s.used
    && s' == Put(s, p, Proc(identity, map[], EMPTY, Running, map[])).(used := s.used + {(p, identity)})
  }

  ghost predicate Exit(s: State, s': State, p: int) { p in s.procs && s' == s.(procs := s.procs - {p}) }

  ghost predicate Socket(s: State, s': State, p: int, fd: int) {
    && At(s, p, Running) && fd !in s.procs[p].fds
    && s' == Put(s, p, s.procs[p].(fds := s.procs[p].fds[fd := s.nextSocket], made := s.procs[p].made - {fd}))
             .(nextSocket := s.nextSocket + 1)
  }

  /** RESERVE succeeds at the server. If the answer is lost the process stays without the lease, and the server may
      notice. */
  ghost predicate DoReserve(s: State, s': State, p: int, fd: int, udp: bool, linked: bool, answered: bool) {
    && At(s, p, Running) && fd in s.procs[p].fds && !Tracked(s.procs[p].tr, fd)
    && var pr := s.procs[p];
       s' == Put(s, p, pr.(pc := if answered then Reserved(fd, s.nextId, udp) else Running))
             .(book := Reserve(s.book, s.nextId, p, Owner(pr.identity, if linked then Some(pr.fds[fd]) else None)),
               socketOf := s.socketOf[s.nextId := pr.fds[fd]],
               nextId := s.nextId + 1,
               orphans := if answered then s.orphans else s.orphans + {s.nextId})
  }

  /** The server could not write the answer to a RESERVE and removes the lease. */
  ghost predicate DropOrphan(s: State, s': State, id: int) {
    id in s.orphans && s' == s.(book := s.book - {id}, orphans := s.orphans - {id})
  }

  ghost predicate Commit(s: State, s': State, p: int) {
    && p in s.procs && s.procs[p].pc.Reserved? && !s.procs[p].pc.udp
    && s' == Put(s, p, s.procs[p].(pc := Committed(s.procs[p].pc.fd, s.procs[p].pc.id)))
  }

  /** The kernel refused, COMMIT failed (the server may have dropped the lease), or memory ran out. */
  ghost predicate Abandon(s: State, s': State, p: int, shut: bool, dropped: bool) {
    && p in s.procs && (s.procs[p].pc.Reserved? || s.procs[p].pc.Committed?)
    && var pr := s.procs[p];
       s' == Put(s, p, pr.(pc := Aborting(pr.pc.id, if shut then Some(pr.pc.fd) else None)))
             .(book := if dropped then s.book - {pr.pc.id} else s.book)
  }

  ghost predicate Abort(s: State, s': State, p: int, delivered: bool) {
    && p in s.procs && s.procs[p].pc.Aborting?
    && var pr := s.procs[p];
       s' == Put(s, p, pr.(pc := Running, fds := if pr.pc.shut.Some? then pr.fds - {pr.pc.shut.value} else pr.fds))
             .(book := if delivered then s.book - {pr.pc.id} else s.book)
  }

  /** add_tracked at the end of listen, or of a UDP bind. */
  ghost predicate Track(s: State, s': State, p: int) {
    && p in s.procs && (s.procs[p].pc.Committed? || (s.procs[p].pc.Reserved? && s.procs[p].pc.udp))
    && var pr := s.procs[p];
       s' == Put(s, p, pr.(pc := Running, tr := AddTracked(pr.tr, pr.pc.fd, pr.pc.id)))
  }

  ghost predicate Dup(s: State, s': State, p: int, oldfd: int, newfd: int) {
    && At(s, p, Running) && oldfd in s.procs[p].fds && newfd !in s.procs[p].fds
    && var pr := s.procs[p];
       s' == Put(s, p, pr.(pc := Duping(oldfd, newfd), fds := pr.fds[newfd := pr.fds[oldfd]], made := pr.made[newfd := s.now]))
             .(now := s.now + 1)
  }

  ghost predicate DupTrack(s: State, s': State, p: int, memory: bool) {
    && p in s.procs && s.procs[p].pc.Duping?
    && var pr := s.procs[p];
       var i := First(pr.tr.tracked, pr.pc.oldfd);
       if i == |pr.tr.tracked| then s' == Put(s, p, pr.(pc := Running))
       else if memory then
         && pr.tr.tracked[i].cell in pr.tr.cells
         && s' == Put(s, p, pr.(pc := Running, tr := Share(pr.tr, i, pr.pc.newfd)))
       else s' == Put(s, p, pr.(pc := Running, fds := pr.fds - {pr.pc.newfd}))
  }

  ghost predicate CanUnlink(tr: Tracker, i: nat) {
    i < |tr.tracked| && tr.tracked[i].cell in tr.cells && tr.cells[tr.tracked[i].cell].refs > 0
  }

  ghost predicate Close(s: State, s': State, p: int, fd: int) {
    && At(s, p, Running)
    && var pr := s.procs[p];
       var i := First(pr.tr.tracked, fd);
       if i == |pr.tr.tracked| then s' == Put(s, p, pr.(pc := Closing(fd, 0)))
       else
         && CanUnlink(pr.tr, i)
         && s' == Put(s, p, pr.(pc := Closing(fd, Unlink(pr.tr, i).1), tr := Unlink(pr.tr, i).0))
  }

  function Settled(pc: Pc): Pc {
    match pc
    case Closing(fd, _) => Closing(fd, 0)
    case Ranging(first, last, _) => Ranging(first, last, 0)
    case _ => pc
  }

  /** The process's own RELEASE, which may be lost. */
  ghost predicate Release(s: State, s': State, p: int, delivered: bool) {
    && p in s.procs && ((s.procs[p].pc.Closing? || s.procs[p].pc.Ranging?) && s.procs[p].pc.id != 0)
    && var pr := s.procs[p];
       s' == Put(s, p, pr.(pc := Settled(pr.pc)))
             .(book := if delivered then RemoveOwner(s.book, pr.pc.id, p, pr.identity) else s.book)
  }

  ghost predicate CloseDone(s: State, s': State, p: int) {
    && p in s.procs && s.procs[p].pc.Closing? && s.procs[p].pc.id == 0
    && s' == Put(s, p, s.procs[p].(pc := Running, fds := s.procs[p].fds - {s.procs[p].pc.fd}))
  }

  /** The kernel closes the range before the interposer forgets it. */
  ghost predicate CloseRange(s: State, s': State, p: int, first: int, last: int) {
    && At(s, p, Running)
    && s' == Put(s, p, s.procs[p].(pc := Ranging(first, last, 0),
                                   fds := map fd | fd in s.procs[p].fds && !(first <= Unsigned(fd) <= last) :: s.procs[p].fds[fd]))
  }

  ghost predicate RangeUnlink(s: State, s': State, p: int) {
    && p in s.procs && s.procs[p].pc.Ranging? && s.procs[p].pc.id == 0
    && var pr := s.procs[p];
       var i := FirstInRange(pr.tr.tracked, pr.pc.first, pr.pc.last);
       && CanUnlink(pr.tr, i)
       && s' == Put(s, p, pr.(pc := Ranging(pr.pc.first, pr.pc.last, Unlink(pr.tr, i).1), tr := Unlink(pr.tr, i).0))
  }

  ghost predicate RangeDone(s: State, s': State, p: int) {
    && p in s.procs && s.procs[p].pc.Ranging? && s.procs[p].pc.id == 0
    && var pr := s.procs[p];
       && FirstInRange(pr.tr.tracked, pr.pc.first, pr.pc.last) == |pr.tr.tracked|
       && s' == Put(s, p, pr.(pc := Running))
  }

  /** The child starts as a copy of its parent, held at the gate. */
  ghost predicate Fork(s: State, s': State, p: int, child: int, identity: int) {
    && At(s, p, Running) && child !in s.procs && (child, identity) !in s.used
    && var pr := s.procs[p];
       s' == Put(Put(s, p, pr.(pc := Forking(child, identity, 0, false))), child, Proc(identity, pr.fds, pr.tr, Gated, pr.made))
             .(used := s.used + {(child, identity)})
  }

  /** One turn of adopt_tracked_for_pid: a lease met before is skipped, otherwise ADOPT is sent. It may be
      refused, and its answer may be lost. */
  ghost predicate AdoptNext(s: State, s': State, p: int, adopted: bool, answered: bool, linked: bool) {
    && p in s.procs && s.procs[p].pc.Forking? && 0 <= s.procs[p].pc.at < |s.procs[p].tr.tracked|
    && var pr := s.procs[p];
       var e := pr.tr.tracked[pr.pc.at];
       if exists k :: 0 <= k < pr.pc.at && pr.tr.tracked[k].cell == e.cell then
         s' == Put(s, p, pr.(pc := pr.pc.(at := pr.pc.at + 1)))
       else
         && e.cell in pr.tr.cells && e.fd in pr.fds
         && var id := pr.tr.cells[e.cell].id;
            && (adopted ==> pr.pc.child in s.procs && id in s.book)
            && s' == Put(s, p, pr.(pc := pr.pc.(at := pr.pc.at + 1, failed := pr.pc.failed || !adopted || !answered)))
                     .(book := if adopted
                               then Adopt(s.book, id, pr.pc.child,
                                          Owner(s.procs[pr.pc.child].identity, if linked then Some(pr.fds[e.fd]) else None))
                               else s.book)
  }

  /** The gate byte reaches the child itself, never another process that got its pid. */
  ghost predicate Waits(s: State, child: int, identity: int) {
    child in s.procs && s.procs[child].identity == identity && s.procs[child].pc.Gated?
  }

  ghost predicate OpenGate(s: State, s': State, p: int) {
    && p in s.procs && s.procs[p].pc.Forking? && s.procs[p].pc.at == |s.procs[p].tr.tracked| && !s.procs[p].pc.failed
    && var pr := s.procs[p];
       var s1 := Put(s, p, pr.(pc := Running));
       s' == if Waits(s, pr.pc.child, pr.pc.identity)
             then Put(s1, pr.pc.child, s.procs[pr.pc.child].(pc := Running)) else s1
  }

  /** Any failed adoption, or a failed write of the gate byte, kills the child. */
  ghost predicate AbortFork(s: State, s': State, p: int) {
    && p in s.procs && s.procs[p].pc.Forking?
    && var pr := s.procs[p];
       var s1 := Put(s, p, pr.(pc := Running));
       s' == if Waits(s, pr.pc.child, pr.pc.identity) then s1.(procs := s1.procs - {pr.pc.child}) else s1
  }

  // ----- Steps of the reaper -----

  ghost predicate RecIn(book: Book, r: Rec) {
    r.id in book && r.pid in book[r.id] && book[r.id][r.pid] == Owner(r.identity, r.target)
  }

  /** The snapshot the reaper takes under the lock: any part of the book. */
  ghost predicate Look(s: State, s': State, recs: set<Rec>) {
    (forall r :: r in recs ==> RecIn(s.book, r)) && s' == s.(seen := recs)
  }

  /** The process of the record still runs. */
  predicate Living(s: State, r: Rec) { r.pid in s.procs && s.procs[r.pid].identity == r.identity }

  function Scanned(s: State, r: Rec, scan: Scan): State { s.(scans := s.scans[r := scan]) }

  ghost predicate BeginScan(s: State, s': State, r: Rec) {
    r in s.seen && Living(s, r) && r.target.Some? && s' == Scanned(s, r, Scan(s.now, true, {}, {}, {}))
  }

  /** The listing passes some numbers and takes down those open at this moment. */
  ghost predicate Visit(s: State, s': State, r: Rec, numbers: set<int>) {
    && r in s.scans && s.scans[r].listing && Living(s, r)
    && var scan := s.scans[r];
       s' == Scanned(s, r, scan.(visited := scan.visited + numbers, listed := scan.listed + numbers * s.procs[r.pid].fds.Keys))
  }

  /** The listing ends when it has passed every open number. */
  ghost predicate EndListing(s: State, s': State, r: Rec) {
    && r in s.scans && s.scans[r].listing && Living(s, r) && s.procs[r.pid].fds.Keys <= s.scans[r].visited
    && s' == Scanned(s, r, s.scans[r].(listing := false))
  }

  /** The links of some listed numbers are read; one that still leads to the target ends the look in the owner's favour. */
  ghost predicate Test(s: State, s': State, r: Rec, numbers: set<int>) {
    && r in s.scans && !s.scans[r].listing && Living(s, r) && r.target.Some? && numbers <= s.scans[r].listed
    && var pr, scan := s.procs[r.pid], s.scans[r];
       s' == if exists fd :: fd in numbers && fd in pr.fds && pr.fds[fd] == r.target.value then s.(scans := s.scans - {r})
             else Scanned(s, r, scan.(tested := scan.tested + numbers))
  }

  ghost predicate StopScan(s: State, s': State, r: Rec) { s' == s.(scans := s.scans - {r}) }

  predicate Complete(scan: Scan) { !scan.listing && scan.listed <= scan.tested }

  /** What the reaper takes for dead: no such process, another identity, or a look that found no descriptor left. */
  ghost predicate Condemn(s: State, s': State, r: Rec) {
    && (((r in s.seen || r in s.scans) && !Living(s, r)) || (r in s.scans && Complete(s.scans[r])))
    && s' == s.(doomed := s.doomed + {r}, scans := s.scans - {r})
  }

  ghost predicate Reap(s: State, s': State, r: Rec) {
    r in s.doomed && s' == s.(book := RemoveOwner(s.book, r.id, r.pid, r.identity), doomed := s.doomed - {r})
  }

  ghost predicate LifeStep(s: State, s': State, p: int) {
    (exists n: int :: Start(s, s', p, n)) || Exit(s, s', p) || (exists fd: int :: Socket(s, s', p, fd))
  }

  ghost predicate ListenStep(s: State, s': State, p: int) {
    || (exists fd: int, udp: bool, linked: bool, answered: bool :: DoReserve(s, s', p, fd, udp, linked, answered))
    || Commit(s, s', p) || Track(s, s', p)
    || (exists shut: bool, dropped: bool :: Abandon(s, s', p, shut, dropped))
    || (exists delivered: bool :: Abort(s, s', p, delivered))
  }

  ghost predicate DupStep(s: State, s': State, p: int) {
    (exists o: int, n: int :: Dup(s, s', p, o, n)) || (exists memory: bool :: DupTrack(s, s', p, memory))
  }

  ghost predicate CloseStep(s: State, s': State, p: int) {
    || (exists fd: int :: Close(s, s', p, fd))
    || (exists delivered: bool :: Release(s, s', p, delivered))
    || CloseDone(s, s', p)
    || (exists first: int, last: int :: CloseRange(s, s', p, first, last))
    || RangeUnlink(s, s', p) || RangeDone(s, s', p)
  }

  ghost predicate ForkStep(s: State, s': State, p: int) {
    || (exists child: int, n: int :: Fork(s, s', p, child, n))
    || (exists adopted: bool, answered: bool, linked: bool :: AdoptNext(s, s', p, adopted, answered, linked))
    || OpenGate(s, s', p) || AbortFork(s, s', p)
  }

  ghost predicate ProcStep(s: State, s': State, p: int) {
    LifeStep(s, s', p) || ListenStep(s, s', p) || DupStep(s, s', p) || CloseStep(s, s', p) || ForkStep(s, s', p)
  }

  ghost predicate LookStep(s: State, s': State, r: Rec) {
    || BeginScan(s, s', r)
    || (exists numbers: set<int> :: Visit(s, s', r, numbers))
    || EndListing(s, s', r)
    || (exists numbers: set<int> :: Test(s, s', r, numbers))
    || StopScan(s, s', r)
  }

  ghost predicate Step(s: State, s': State) {
    || (exists p: int :: ProcStep(s, s', p))
    || (exists id: int :: DropOrphan(s, s', id))
    || (exists recs: set<Rec> :: Look(s, s', recs))
    || (exists r: Rec :: LookStep(s, s', r))
    || (exists r: Rec :: Condemn(s, s', r))
    || (exists r: Rec :: Reap(s, s', r))
  }

  ghost predicate Next(run: seq<State>, i: int) { 0 <= i < |run| - 1 && Step(run[i], run[i + 1]) }

  ghost predicate Run(run: seq<State>) {
    |run| > 0 && Init(run[0]) && forall i :: 0 <= i < |run| - 1 ==> Next(run, i)
  }

  // ----- Invariant -----

  function IdOf(tr: Tracker, e: Entry): int { if e.cell in tr.cells then tr.cells[e.cell].id else 0 }

  ghost predicate DistinctFds(es: seq<Entry>) { forall i, j :: 0 <= i < j < |es| ==> es[i].fd != es[j].fd }

  /** The lease a process holds outside its list, on the way to tracking it or giving it up. */
  function Private(pc: Pc): int { if pc.Reserved? || pc.Committed? || pc.Aborting? then pc.id else 0 }

  ghost predicate PcOk(pr: Proc, socketOf: map<int, int>) {
    match pr.pc
    case Reserved(fd, id, _) => fd in pr.fds && id in socketOf && pr.fds[fd] == socketOf[id] && !Tracked(pr.tr, fd)
    case Committed(fd, id) => fd in pr.fds && id in socketOf && pr.fds[fd] == socketOf[id] && !Tracked(pr.tr, fd)
    case Aborting(id, shut) => id in socketOf && (shut.Some? ==> !Tracked(pr.tr, shut.value))
    case Closing(fd, id) => !Tracked(pr.tr, fd) && (id != 0 ==> !Knows(pr.tr, id))
    case Duping(o, n) => o in pr.fds && n in pr.fds && pr.fds[o] == pr.fds[n] && !Tracked(pr.tr, n)
    case Ranging(_, _, id) => id != 0 ==> !Knows(pr.tr, id)
    case Forking(_, _, at, _) => 0 <= at <= |pr.tr.tracked|
    case Running => true
    case Gated => true
  }

  ghost predicate InClosedRange(pr: Proc, e: Entry) { pr.pc.Ranging? && InRange(e, pr.pc.first, pr.pc.last) }

  ghost predicate LocalOk(pr: Proc, socketOf: map<int, int>) {
    && Tracking.Valid(pr.tr) && DistinctIds(pr.tr) && DistinctFds(pr.tr.tracked)
    && (forall c :: c in pr.tr.cells ==> pr.tr.cells[c].id in socketOf)
    && (forall e :: e in pr.tr.tracked ==> (e.fd in pr.fds <==> !InClosedRange(pr, e)))
    && (forall e :: e in pr.tr.tracked && e.fd in pr.fds ==>
          IdOf(pr.tr, e) in socketOf && pr.fds[e.fd] == socketOf[IdOf(pr.tr, e)])
    && PcOk(pr, socketOf)
  }

  ghost predicate LocalsOk(procs: map<int, Proc>, socketOf: map<int, int>) {
    forall p :: p in procs ==> LocalOk(procs[p], socketOf)
  }

  /** What the whole machine is for: a descriptor tracked and open means its process owns the lease. */
  ghost predicate OwnedOk(p: int, pr: Proc, book: Book) {
    && (!pr.pc.Gated? ==> forall e :: e in pr.tr.tracked && e.fd in pr.fds ==> OwnedBy(book, IdOf(pr.tr, e), p, pr.identity))
    && (pr.pc.Reserved? || pr.pc.Committed? ==> OwnedBy(book, pr.pc.id, p, pr.identity))
  }

  ghost predicate OwnedAll(procs: map<int, Proc>, book: Book) { forall p :: p in procs ==> OwnedOk(p, procs[p], book) }

  /** While a fork is under way its child, if still there, is the parent's copy, and owns what was adopted. */
  ghost predicate ForkOk(procs: map<int, Proc>, book: Book, p: int)
    requires p in procs && procs[p].pc.Forking?
  {
    var pr := procs[p];
    var c := pr.pc.child;
    c in procs && procs[c].identity == pr.pc.identity ==>
      && procs[c].pc.Gated? && procs[c].tr == pr.tr && procs[c].fds == pr.fds
      && (!pr.pc.failed ==>
            forall k :: 0 <= k < pr.pc.at && k < |pr.tr.tracked| ==> OwnedBy(book, IdOf(pr.tr, pr.tr.tracked[k]), c, pr.pc.identity))
  }

  ghost predicate ForksOk(procs: map<int, Proc>, book: Book, used: set<(int, int)>) {
    && (forall p :: p in procs && procs[p].pc.Forking? ==>
          ForkOk(procs, book, p) && (procs[p].pc.child, procs[p].pc.identity) in used)
    && (forall p, q :: p in procs && q in procs && p != q && procs[p].pc.Forking? && procs[q].pc.Forking? ==>
          (procs[p].pc.child, procs[p].pc.identity) != (procs[q].pc.child, procs[q].pc.identity))
  }

  ghost predicate PrivateOk(procs: map<int, Proc>) {
    && (forall p, q :: p in procs && q in procs && Private(procs[p].pc) != 0 ==> !Knows(procs[q].tr, Private(procs[p].pc)))
    && (forall p, q :: p in procs && q in procs && p != q && Private(procs[p].pc) != 0 ==>
          Private(procs[p].pc) != Private(procs[q].pc))
  }

  ghost predicate RecOk(r: Rec, socketOf: map<int, int>, used: set<(int, int)>) {
    && r.id in socketOf && (r.pid, r.identity) in used
    && (r.target.Some? ==> r.target.value == socketOf[r.id])
  }

  ghost predicate BookOk(book: Book, socketOf: map<int, int>, used: set<(int, int)>) {
    forall r :: RecIn(book, r) ==> RecOk(r, socketOf, used)
  }

  /** Taking the process off the lease cannot hurt: it neither tracks an open descriptor of it nor is about to. */
  ghost predicate Harmless(pr: Proc, id: int) {
    && (forall e :: e in pr.tr.tracked && e.fd in pr.fds ==> IdOf(pr.tr, e) != id)
    && (pr.pc.Reserved? || pr.pc.Committed? ==> pr.pc.id != id)
  }

  ghost predicate DoomOk(procs: map<int, Proc>, doomed: set<Rec>) {
    forall r :: r in doomed && r.pid in procs && procs[r.pid].identity == r.identity ==> Harmless(procs[r.pid], r.id)
  }

  ghost predicate RecsOk(recs: set<Rec>, socketOf: map<int, int>, used: set<(int, int)>) {
    forall r :: r in recs ==> RecOk(r, socketOf, used)
  }

  ghost predicate IdsOk(socketOf: map<int, int>, nextId: int) { nextId > 0 && forall id :: id in socketOf ==> 0 < id < nextId }

  ghost predicate UsedOk(procs: map<int, Proc>, used: set<(int, int)>) {
    forall p :: p in procs ==> (p, procs[p].identity) in used
  }

  ghost predicate Inv(s: State) {
    && LocalsOk(s.procs, s.socketOf)
    && OwnedAll(s.procs, s.book)
    && ForksOk(s.procs, s.book, s.used)
    && PrivateOk(s.procs)
    && BookOk(s.book, s.socketOf, s.used)
    && RecsOk(s.seen, s.socketOf, s.used) && RecsOk(s.doomed, s.socketOf, s.used)
    && DoomOk(s.procs, s.doomed)
    && IdsOk(s.socketOf, s.nextId)
    && UsedOk(s.procs, s.used)
  }

  // ----- A process moves on its own -----

  /** A change of one process that asks nothing new of the book. */
  ghost predicate Quiet(p: int, pr: Proc, pr': Proc, socketOf: map<int, int>, book: Book) {
    && pr'.identity == pr.identity
    && !pr.pc.Gated? && !pr.pc.Forking? && !pr'.pc.Gated? && !pr'.pc.Forking?
    && LocalOk(pr', socketOf)
    && OwnedOk(p, pr', book)
    && (Private(pr'.pc) == 0 || Private(pr'.pc) == Private(pr.pc))
    && (forall id :: Knows(pr'.tr, id) ==> Knows(pr.tr, id) || (id == Private(pr.pc) && Private(pr'.pc) == 0))
    && (forall id :: Harmless(pr, id) ==> Harmless(pr', id))
  }

  lemma QuietForks(procs: map<int, Proc>, book: Book, used: set<(int, int)>, p: int, pr': Proc)
    requires ForksOk(procs, book, used) && p in procs && pr'.identity == procs[p].identity
    requires !procs[p].pc.Gated? && !procs[p].pc.Forking? && !pr'.pc.Gated? && !pr'.pc.Forking?
    ensures ForksOk(procs[p := pr'], book, used)
  {
    var procs' := procs[p := pr'];
    forall q | q in procs' && procs'[q].pc.Forking? ensures ForkOk(procs', book, q) {
      assert q != p && ForkOk(procs, book, q);
    }
  }

  lemma QuietPrivate(procs: map<int, Proc>, p: int, pr': Proc)
    requires PrivateOk(procs) && p in procs
    requires Private(pr'.pc) == 0 || Private(pr'.pc) == Private(procs[p].pc)
    requires forall id :: Knows(pr'.tr, id) ==> Knows(procs[p].tr, id) || (id == Private(procs[p].pc) && Private(pr'.pc) == 0)
    ensures PrivateOk(procs[p := pr'])
  {
    var procs' := procs[p := pr'];
    forall a, b | a in procs' && b in procs' && Private(procs'[a].pc) != 0
      ensures !Knows(procs'[b].tr, Private(procs'[a].pc))
      ensures a != b ==> Private(procs'[a].pc) != Private(procs'[b].pc)
    {
      assert Private(procs[a].pc) == Private(procs'[a].pc);
      assert !Knows(procs[b].tr, Private(procs[a].pc));
    }
  }

  lemma QuietDoom(procs: map<int, Proc>, doomed: set<Rec>, p: int, pr': Proc)
    requires DoomOk(procs, doomed) && p in procs && pr'.identity == procs[p].identity
    requires forall id :: Harmless(procs[p], id) ==> Harmless(pr', id)
    ensures DoomOk(procs[p := pr'], doomed)
  {
  }

  lemma PutKeeps(s: State, p: int, pr': Proc)
    requires Inv(s) && p in s.procs && pr'.identity == s.procs[p].identity
    requires LocalOk(pr', s.socketOf) && OwnedOk(p, pr', s.book) && ForksOk(s.procs[p := pr'], s.book, s.used)
    requires PrivateOk(s.procs[p := pr']) && DoomOk(s.procs[p := pr'], s.doomed)
    ensures Inv(Put(s, p, pr'))
  {
  }

  lemma QuietKeeps(s: State, p: int, pr': Proc)
    requires Inv(s) && p in s.procs && Quiet(p, s.procs[p], pr', s.socketOf, s.book)
    ensures Inv(Put(s, p, pr'))
  {
    QuietForks(s.procs, s.book, s.used, p, pr');
    QuietPrivate(s.procs, p, pr');
    QuietDoom(s.procs, s.doomed, p, pr');
    PutKeeps(s, p, pr');
  }

  /** A step of fork: only the place of the process changes. */
  lemma PcKeeps(s: State, p: int, pc: Pc)
    requires Inv(s) && p in s.procs && Private(pc) == 0
    requires LocalOk(s.procs[p].(pc := pc), s.socketOf) && OwnedOk(p, s.procs[p].(pc := pc), s.book)
    requires ForksOk(s.procs[p := s.procs[p].(pc := pc)], s.book, s.used)
    ensures Inv(Put(s, p, s.procs[p].(pc := pc)))
  {
    var pr, pr' := s.procs[p], s.procs[p].(pc := pc);
    forall id | Harmless(pr, id) ensures Harmless(pr', id) { }
    QuietPrivate(s.procs, p, pr');
    QuietDoom(s.procs, s.doomed, p, pr');
    PutKeeps(s, p, pr');
  }

  // ----- The list operations, seen from outside -----

  lemma UnlinkFacts(tr: Tracker, i: nat)
    requires Tracking.Valid(tr) && DistinctIds(tr) && DistinctFds(tr.tracked) && i < |tr.tracked|
    ensures CanUnlink(tr, i)
    ensures var (tr', id) := Unlink(tr, i);
            && Tracking.Valid(tr') && DistinctIds(tr') && DistinctFds(tr'.tracked)
            && !Tracked(tr', tr.tracked[i].fd)
            && (forall e :: e in tr'.tracked ==> e in tr.tracked && IdOf(tr', e) == IdOf(tr, e))
            && (forall x :: Knows(tr', x) ==> Knows(tr, x))
            && (forall fd :: Tracked(tr', fd) ==> Tracked(tr, fd))
            && (id != 0 ==> !Knows(tr', id))
  {
    UnlinkKeeps(tr, i);
    var (tr', id) := Unlink(tr, i);
    assert tr'.tracked == Without(tr.tracked, i);
    forall k | 0 <= k < |tr'.tracked| ensures tr'.tracked[k] == tr.tracked[if k < i then k else k + 1] {}
    forall e | e in tr'.tracked ensures e in tr.tracked && IdOf(tr', e) == IdOf(tr, e) {
      var k :| 0 <= k < |tr'.tracked| && tr'.tracked[k] == e;
      assert e.cell in tr'.cells;
    }
  }

  lemma ShareFacts(tr: Tracker, i: nat, fd: int)
    requires Tracking.Valid(tr) && DistinctIds(tr) && DistinctFds(tr.tracked) && i < |tr.tracked| && !Tracked(tr, fd)
    ensures tr.tracked[i].cell in tr.cells
    ensures var tr' := Share(tr, i, fd);
            && Tracking.Valid(tr') && DistinctIds(tr') && DistinctFds(tr'.tracked)
            && (forall e :: e in tr'.tracked ==> e == Entry(fd, tr.tracked[i].cell) || e in tr.tracked)
            && (forall e :: IdOf(tr', e) == IdOf(tr, e))
            && (forall x :: Knows(tr', x) ==> Knows(tr, x))
            && (forall c :: c in tr'.cells ==> c in tr.cells && tr'.cells[c].id == tr.cells[c].id)
  {
    ShareKeeps(tr, i, fd);
    var tr' := Share(tr, i, fd);
    assert forall k :: 0 < k < |tr'.tracked| ==> tr'.tracked[k] == tr.tracked[k - 1];
    forall x | Knows(tr', x) ensures Knows(tr, x) {
      var c :| c in tr'.cells && tr'.cells[c].id == x;
      assert c in tr.cells && tr.cells[c].id == x;
    }
  }

  lemma AddFacts(tr: Tracker, fd: int, id: int)
    requires Tracking.Valid(tr) && DistinctIds(tr) && DistinctFds(tr.tracked) && !Tracked(tr, fd) && !Knows(tr, id)
    ensures var tr' := AddTracked(tr, fd, id);
            && Tracking.Valid(tr') && DistinctIds(tr') && DistinctFds(tr'.tracked)
            && (forall e :: e in tr'.tracked ==> e == Entry(fd, tr.next) || (e in tr.tracked && e.cell in tr.cells))
            && (forall e: Entry :: e.cell in tr.cells ==> IdOf(tr', e) == IdOf(tr, e))
            && IdOf(tr', Entry(fd, tr.next)) == id
            && (forall x :: Knows(tr', x) ==> x == id || Knows(tr, x))
            && (forall c :: c in tr'.cells ==> (c == tr.next && tr'.cells[c].id == id)
                                               || (c in tr.cells && tr'.cells[c].id == tr.cells[c].id))
  {
    AddKeeps(tr, fd, id);
    var tr' := AddTracked(tr, fd, id);
    assert tr.next !in tr.cells;
    assert forall k :: 0 < k < |tr'.tracked| ==> tr'.tracked[k] == tr.tracked[k - 1];
    forall x | Knows(tr', x) ensures x == id || Knows(tr, x) {
      var c :| c in tr'.cells && tr'.cells[c].id == x;
      if c != tr.next { assert c in tr.cells && tr.cells[c].id == x; }
    }
    assert forall c :: c in tr.cells ==> tr.cells[c].id != id;
  }

  // ----- Quiet steps -----

  lemma SocketKeeps(s: State, s': State, p: int, fd: int)
    requires Inv(s) && Socket(s, s', p, fd)
    ensures Inv(s')
  {
    var pr := s.procs[p];
    var pr' := pr.(fds := pr.fds[fd := s.nextSocket], made := pr.made - {fd});
    assert LocalOk(pr, s.socketOf) && OwnedOk(p, pr, s.book);
    QuietKeeps(s, p, pr');
  }

  lemma CommitKeeps(s: State, s': State, p: int)
    requires Inv(s) && Commit(s, s', p)
    ensures Inv(s')
  {
    var pr := s.procs[p];
    assert LocalOk(pr, s.socketOf) && OwnedOk(p, pr, s.book);
    QuietKeeps(s, p, pr.(pc := Committed(pr.pc.fd, pr.pc.id)));
  }

  lemma TrackKeeps(s: State, s': State, p: int)
    requires Inv(s) && Track(s, s', p)
    ensures Inv(s')
  {
    var pr := s.procs[p];
    assert LocalOk(pr, s.socketOf) && OwnedOk(p, pr, s.book);
    assert 0 < pr.pc.id;
    assert !Knows(pr.tr, Private(pr.pc));
    AddFacts(pr.tr, pr.pc.fd, pr.pc.id);
    var pr' := pr.(pc := Running, tr := AddTracked(pr.tr, pr.pc.fd, pr.pc.id));
    forall e | e in pr.tr.tracked ensures e in pr'.tr.tracked { }
    QuietKeeps(s, p, pr');
  }

  lemma DupKeeps(s: State, s': State, p: int, oldfd: int, newfd: int)
    requires Inv(s) && Dup(s, s', p, oldfd, newfd)
    ensures Inv(s')
  {
    var pr := s.procs[p];
    assert LocalOk(pr, s.socketOf) && OwnedOk(p, pr, s.book);
    forall i | 0 <= i < |pr.tr.tracked| ensures pr.tr.tracked[i].fd != newfd { assert pr.tr.tracked[i] in pr.tr.tracked; }
    QuietKeeps(s, p, s'.procs[p]);
  }

  lemma ShareIsQuiet(p: int, pr: Proc, i: nat, socketOf: map<int, int>, book: Book)
    requires LocalOk(pr, socketOf) && OwnedOk(p, pr, book) && pr.pc.Duping?
    requires i < |pr.tr.tracked| && pr.tr.tracked[i].fd == pr.pc.oldfd
    ensures pr.tr.tracked[i].cell in pr.tr.cells
    ensures Quiet(p, pr, pr.(pc := Running, tr := Share(pr.tr, i, pr.pc.newfd)), socketOf, book)
  {
    var source := pr.tr.tracked[i];
    assert source in pr.tr.tracked;
    ShareFacts(pr.tr, i, pr.pc.newfd);
    var pr' := pr.(pc := Running, tr := Share(pr.tr, i, pr.pc.newfd));
    assert IdOf(pr'.tr, Entry(pr.pc.newfd, source.cell)) == IdOf(pr.tr, source);
  }

  lemma UnlinkIsQuiet(p: int, pr: Proc, i: nat, pc: Pc, socketOf: map<int, int>, book: Book)
    requires LocalOk(pr, socketOf) && OwnedOk(p, pr, book) && i < |pr.tr.tracked|
    requires pc.Closing? || pc.Ranging?
    requires CanUnlink(pr.tr, i) && pc.id == Unlink(pr.tr, i).1
    requires pc.Closing? ==> pr.pc.Running? && pc.fd == pr.tr.tracked[i].fd
    requires pc.Ranging? ==> pr.pc.Ranging? && pr.pc.first == pc.first && pr.pc.last == pc.last
    ensures Quiet(p, pr, pr.(pc := pc, tr := Unlink(pr.tr, i).0), socketOf, book)
  {
    UnlinkFacts(pr.tr, i);
    var pr' := pr.(pc := pc, tr := Unlink(pr.tr, i).0);
    forall c | c in pr'.tr.cells ensures pr'.tr.cells[c].id in socketOf { assert Knows(pr'.tr, pr'.tr.cells[c].id); }
  }

  /** The duplicate of an untracked descriptor stays untracked; without memory it is closed again. */
  lemma PlainDupIsQuiet(p: int, pr: Proc, pr': Proc, socketOf: map<int, int>, book: Book)
    requires LocalOk(pr, socketOf) && OwnedOk(p, pr, book) && pr.pc.Duping?
    requires pr' == pr.(pc := Running) || pr' == pr.(pc := Running, fds := pr.fds - {pr.pc.newfd})
    ensures Quiet(p, pr, pr', socketOf, book)
  {
    forall e | e in pr.tr.tracked ensures e.fd != pr.pc.newfd { }
  }

  lemma DupTrackKeeps(s: State, s': State, p: int, memory: bool)
    requires Inv(s) && DupTrack(s, s', p, memory)
    ensures Inv(s')
  {
    var pr := s.procs[p];
    assert LocalOk(pr, s.socketOf) && OwnedOk(p, pr, s.book);
    var i := First(pr.tr.tracked, pr.pc.oldfd);
    if i < |pr.tr.tracked| && memory {
      ShareIsQuiet(p, pr, i, s.socketOf, s.book);
    } else {
      PlainDupIsQuiet(p, pr, s'.procs[p], s.socketOf, s.book);
    }
    QuietKeeps(s, p, s'.procs[p]);
  }

  lemma CloseKeeps(s: State, s': State, p: int, fd: int)
    requires Inv(s) && Close(s, s', p, fd)
    ensures Inv(s')
  {
    var pr := s.procs[p];
    assert LocalOk(pr, s.socketOf) && OwnedOk(p, pr, s.book);
    var i := First(pr.tr.tracked, fd);
    if i == |pr.tr.tracked| {
      QuietKeeps(s, p, pr.(pc := Closing(fd, 0)));
    } else {
      UnlinkIsQuiet(p, pr, i, Closing(fd, Unlink(pr.tr, i).1), s.socketOf, s.book);
      QuietKeeps(s, p, s'.procs[p]);
    }
  }

  lemma CloseDoneKeeps(s: State, s': State, p: int)
    requires Inv(s) && CloseDone(s, s', p)
    ensures Inv(s')
  {
    var pr := s.procs[p];
    assert LocalOk(pr, s.socketOf) && OwnedOk(p, pr, s.book);
    forall e | e in pr.tr.tracked ensures e.fd != pr.pc.fd { }
    QuietKeeps(s, p, pr.(pc := Running, fds := pr.fds - {pr.pc.fd}));
  }

  lemma CloseRangeKeeps(s: State, s': State, p: int, first: int, last: int)
    requires Inv(s) && CloseRange(s, s', p, first, last)
    ensures Inv(s')
  {
    var pr := s.procs[p];
    assert LocalOk(pr, s.socketOf) && OwnedOk(p, pr, s.book);
    QuietKeeps(s, p, s'.procs[p]);
  }

  lemma RangeUnlinkKeeps(s: State, s': State, p: int)
    requires Inv(s) && RangeUnlink(s, s', p)
    ensures Inv(s')
  {
    var pr := s.procs[p];
    assert LocalOk(pr, s.socketOf) && OwnedOk(p, pr, s.book);
    var i := FirstInRange(pr.tr.tracked, pr.pc.first, pr.pc.last);
    UnlinkIsQuiet(p, pr, i, s'.procs[p].pc, s.socketOf, s.book);
    QuietKeeps(s, p, s'.procs[p]);
  }

  lemma RangeDoneKeeps(s: State, s': State, p: int)
    requires Inv(s) && RangeDone(s, s', p)
    ensures Inv(s')
  {
    var pr := s.procs[p];
    assert LocalOk(pr, s.socketOf) && OwnedOk(p, pr, s.book);
    QuietKeeps(s, p, s'.procs[p]);
  }

  // ----- The book changes -----

  lemma RemoveOwnerRecs(book: Book, id: int, pid: int, identity: int, r: Rec)
    requires RecIn(RemoveOwner(book, id, pid, identity), r)
    ensures RecIn(book, r)
  {
  }

  /** Whoever goes from the book, RELEASE or reaper, was harmless. */
  lemma RemoveOwnerKeeps(s: State, id: int, pid: int, identity: int)
    requires Inv(s)
    requires pid in s.procs && s.procs[pid].identity == identity ==> Harmless(s.procs[pid], id)
    ensures Inv(s.(book := RemoveOwner(s.book, id, pid, identity)))
  {
    var book' := RemoveOwner(s.book, id, pid, identity);
    RemoveOwnerOwned(s.book, id, pid, identity);
    forall p | p in s.procs ensures OwnedOk(p, s.procs[p], book') { assert OwnedOk(p, s.procs[p], s.book); }
    forall p | p in s.procs && s.procs[p].pc.Forking? ensures ForkOk(s.procs, book', p) {
      assert ForkOk(s.procs, s.book, p);
      ChildKeepsAdopted(s, id, pid, identity, p);
    }
    forall r | RecIn(book', r) ensures RecOk(r, s.socketOf, s.used) { RemoveOwnerRecs(s.book, id, pid, identity, r); }
  }

  lemma ChildKeepsAdopted(s: State, id: int, pid: int, identity: int, p: int)
    requires Inv(s) && p in s.procs && s.procs[p].pc.Forking?
    requires pid in s.procs && s.procs[pid].identity == identity ==> Harmless(s.procs[pid], id)
    ensures ForkOk(s.procs, RemoveOwner(s.book, id, pid, identity), p)
  {
    RemoveOwnerOwned(s.book, id, pid, identity);
    var pr := s.procs[p];
    var c := pr.pc.child;
    assert ForkOk(s.procs, s.book, p) && LocalOk(pr, s.socketOf);
    if c in s.procs && s.procs[c].identity == pr.pc.identity {
      forall k | 0 <= k < |pr.tr.tracked| ensures !(c == pid && pr.pc.identity == identity && IdOf(pr.tr, pr.tr.tracked[k]) == id) {
        var e := pr.tr.tracked[k];
        assert e in pr.tr.tracked && e.fd in pr.fds;
      }
    }
  }

  lemma ReleaseKeeps(s: State, s': State, p: int, delivered: bool)
    requires Inv(s) && Release(s, s', p, delivered)
    ensures Inv(s')
  {
    var pr := s.procs[p];
    var pr' := pr.(pc := Settled(pr.pc));
    assert LocalOk(pr, s.socketOf) && OwnedOk(p, pr, s.book);
    QuietKeeps(s, p, pr');
    if delivered {
      forall e | e in pr.tr.tracked && e.fd in pr.fds ensures IdOf(pr.tr, e) != pr.pc.id {
        assert e.cell in pr.tr.cells;
      }
      RemoveOwnerKeeps(Put(s, p, pr'), pr.pc.id, p, pr.identity);
    }
  }

  lemma ReapKeeps(s: State, s': State, r: Rec)
    requires Inv(s) && Reap(s, s', r)
    ensures Inv(s')
  {
    RemoveOwnerKeeps(s, r.id, r.pid, r.identity);
  }

  /** A harmless record stays harmless: the process cannot come to track the lease again. */
  lemma CondemnKeeps(s: State, s': State, r: Rec)
    requires Inv(s) && Condemn(s, s', r) && RecOk(r, s.socketOf, s.used)
    requires Living(s, r) ==> Harmless(s.procs[r.pid], r.id)
    ensures Inv(s')
  {
  }

  lemma LookKeeps(s: State, s': State, recs: set<Rec>)
    requires Inv(s) && Look(s, s', recs)
    ensures Inv(s')
  {
    assert RecsOk(recs, s.socketOf, s.used);
  }

  /** ABORT and CLOSE drop a lease that no process tracks and no process is about to track. */
  lemma DropOwned(p: int, pr: Proc, book: Book, id: int)
    requires OwnedOk(p, pr, book) && Tracking.Valid(pr.tr) && !Knows(pr.tr, id) && !((pr.pc.Reserved? || pr.pc.Committed?) && pr.pc.id == id)
    ensures OwnedOk(p, pr, book - {id})
  {
    forall e | e in pr.tr.tracked ensures IdOf(pr.tr, e) != id { assert e.cell in pr.tr.cells; }
  }

  lemma DropFork(procs: map<int, Proc>, book: Book, p: int, id: int)
    requires p in procs && procs[p].pc.Forking? && ForkOk(procs, book, p) && Tracking.Valid(procs[p].tr) && !Knows(procs[p].tr, id)
    ensures ForkOk(procs, book - {id}, p)
  {
    var pr := procs[p];
    forall k | 0 <= k < |pr.tr.tracked| ensures IdOf(pr.tr, pr.tr.tracked[k]) != id { assert pr.tr.tracked[k].cell in pr.tr.cells; }
  }

  lemma DropKeeps(s: State, id: int)
    requires Inv(s)
    requires forall p :: p in s.procs ==> !Knows(s.procs[p].tr, id) && !((s.procs[p].pc.Reserved? || s.procs[p].pc.Committed?) && s.procs[p].pc.id == id)
    ensures Inv(s.(book := s.book - {id}))
  {
    var book' := s.book - {id};
    forall p | p in s.procs ensures OwnedOk(p, s.procs[p], book') {
      assert LocalOk(s.procs[p], s.socketOf);
      DropOwned(p, s.procs[p], s.book, id);
    }
    forall p | p in s.procs && s.procs[p].pc.Forking? ensures ForkOk(s.procs, book', p) {
      assert LocalOk(s.procs[p], s.socketOf);
      DropFork(s.procs, s.book, p, id);
    }
    forall r | RecIn(book', r) ensures RecOk(r, s.socketOf, s.used) { assert RecIn(s.book, r); }
  }

  lemma AbandonKeeps(s: State, s': State, p: int, shut: bool, dropped: bool)
    requires Inv(s) && Abandon(s, s', p, shut, dropped)
    ensures Inv(s')
  {
    var pr := s.procs[p];
    assert LocalOk(pr, s.socketOf) && OwnedOk(p, pr, s.book);
    var pr' := pr.(pc := Aborting(pr.pc.id, if shut then Some(pr.pc.fd) else None));
    QuietKeeps(s, p, pr');
    if dropped {
      assert Private(pr.pc) == pr.pc.id != 0;
      DropKeeps(Put(s, p, pr'), pr.pc.id);
    }
  }

  lemma AbortKeeps(s: State, s': State, p: int, delivered: bool)
    requires Inv(s) && Abort(s, s', p, delivered)
    ensures Inv(s')
  {
    var pr := s.procs[p];
    assert LocalOk(pr, s.socketOf) && OwnedOk(p, pr, s.book);
    var pr' := s'.procs[p];
    if pr.pc.shut.Some? {
      forall e | e in pr.tr.tracked ensures e.fd != pr.pc.shut.value { }
    }
    QuietKeeps(s, p, pr');
    if delivered {
      assert Private(pr.pc) == pr.pc.id != 0;
      DropKeeps(Put(s, p, pr'), pr.pc.id);
    }
  }

  lemma GrowOwned(procs: map<int, Proc>, book: Book, socketOf: map<int, int>, id: int, p: int, owner: Owner)
    requires LocalsOk(procs, socketOf) && OwnedAll(procs, book) && id !in socketOf && id != 0
    ensures OwnedAll(procs, Reserve(book, id, p, owner))
  {
    var book' := Reserve(book, id, p, owner);
    forall q | q in procs ensures OwnedOk(q, procs[q], book') {
      assert OwnedOk(q, procs[q], book);
      UnknownId(procs[q], socketOf, id);
    }
  }

  lemma GrowForks(procs: map<int, Proc>, book: Book, socketOf: map<int, int>, used: set<(int, int)>, id: int, p: int, owner: Owner)
    requires LocalsOk(procs, socketOf) && ForksOk(procs, book, used) && id !in socketOf && id != 0
    ensures ForksOk(procs, Reserve(book, id, p, owner), used)
  {
    var book' := Reserve(book, id, p, owner);
    forall q | q in procs && procs[q].pc.Forking? ensures ForkOk(procs, book', q) {
      assert ForkOk(procs, book, q);
      UnknownId(procs[q], socketOf, id);
    }
  }

  lemma GrowLocals(procs: map<int, Proc>, socketOf: map<int, int>, id: int, socket: int)
    requires LocalsOk(procs, socketOf) && id !in socketOf
    ensures LocalsOk(procs, socketOf[id := socket])
  {
    forall q | q in procs ensures LocalOk(procs[q], socketOf[id := socket]) { assert LocalOk(procs[q], socketOf); }
  }

  /** A new lease is known to nobody. */
  lemma GrowKeeps(s: State, p: int, owner: Owner, socket: int)
    requires Inv(s) && p in s.procs && owner.identity == s.procs[p].identity
    requires owner.target.Some? ==> owner.target.value == socket
    ensures Inv(s.(book := Reserve(s.book, s.nextId, p, owner), socketOf := s.socketOf[s.nextId := socket], nextId := s.nextId + 1))
  {
    var id := s.nextId;
    var book', socketOf' := Reserve(s.book, id, p, owner), s.socketOf[id := socket];
    GrowLocals(s.procs, s.socketOf, id, socket);
    GrowOwned(s.procs, s.book, s.socketOf, id, p, owner);
    GrowForks(s.procs, s.book, s.socketOf, s.used, id, p, owner);
    forall r | RecIn(book', r) ensures RecOk(r, socketOf', s.used) {
      if r.id != id { assert RecIn(s.book, r); }
    }
  }

  lemma UnknownId(pr: Proc, socketOf: map<int, int>, id: int)
    requires LocalOk(pr, socketOf) && id !in socketOf && id != 0
    ensures !Knows(pr.tr, id) && Private(pr.pc) != id
    ensures forall k :: 0 <= k < |pr.tr.tracked| ==> IdOf(pr.tr, pr.tr.tracked[k]) != id
  {
    forall k | 0 <= k < |pr.tr.tracked| ensures IdOf(pr.tr, pr.tr.tracked[k]) != id {
      assert pr.tr.tracked[k].cell in pr.tr.cells;
    }
  }

  lemma ReserveKeeps(s: State, s': State, p: int, fd: int, udp: bool, linked: bool, answered: bool)
    requires Inv(s) && DoReserve(s, s', p, fd, udp, linked, answered)
    ensures Inv(s')
  {
    var pr, id := s.procs[p], s.nextId;
    var owner := Owner(pr.identity, if linked then Some(pr.fds[fd]) else None);
    GrowKeeps(s, p, owner, pr.fds[fd]);
    var s1 := s.(book := Reserve(s.book, id, p, owner), socketOf := s.socketOf[id := pr.fds[fd]], nextId := id + 1);
    if answered {
      forall q | q in s.procs ensures !Knows(s.procs[q].tr, id) && Private(s.procs[q].pc) != id {
        UnknownId(s.procs[q], s.socketOf, id);
      }
      forall r | r in s.doomed ensures r.id != id { assert RecOk(r, s.socketOf, s.used); }
      TakePrivate(s1, p, fd, id, udp);
    } else {
      assert s1.procs[p := pr] == s1.procs;
    }
  }

  lemma TakePrivate(s: State, p: int, fd: int, id: int, udp: bool)
    requires Inv(s) && At(s, p, Running) && fd in s.procs[p].fds && !Tracked(s.procs[p].tr, fd)
    requires id in s.socketOf && s.procs[p].fds[fd] == s.socketOf[id] && OwnedBy(s.book, id, p, s.procs[p].identity)
    requires forall q :: q in s.procs ==> !Knows(s.procs[q].tr, id) && Private(s.procs[q].pc) != id
    requires forall r :: r in s.doomed ==> r.id != id
    ensures Inv(Put(s, p, s.procs[p].(pc := Reserved(fd, id, udp))))
  {
    var pr := s.procs[p];
    var pr' := pr.(pc := Reserved(fd, id, udp));
    var s' := Put(s, p, pr');
    assert LocalOk(pr, s.socketOf) && OwnedOk(p, pr, s.book);
    assert LocalOk(pr', s.socketOf) && OwnedOk(p, pr', s.book);
    QuietForks(s.procs, s.book, s.used, p, pr');
    forall a, b | a in s'.procs && b in s'.procs && Private(s'.procs[a].pc) != 0
      ensures !Knows(s'.procs[b].tr, Private(s'.procs[a].pc))
      ensures a != b ==> Private(s'.procs[a].pc) != Private(s'.procs[b].pc)
    {
      if a != p { assert !Knows(s.procs[b].tr, Private(s.procs[a].pc)); }
    }
    forall r | r in s.doomed && r.pid == p && pr.identity == r.identity ensures Harmless(pr', r.id) {
      assert Harmless(pr, r.id);
    }
  }

  // ----- Processes come and go -----

  lemma BirthForks(procs: map<int, Proc>, book: Book, used: set<(int, int)>, p: int, pr: Proc)
    requires ForksOk(procs, book, used) && p !in procs && (p, pr.identity) !in used && !pr.pc.Forking?
    ensures ForksOk(procs[p := pr], book, used + {(p, pr.identity)})
  {
    var procs' := procs[p := pr];
    forall q | q in procs' && procs'[q].pc.Forking? ensures ForkOk(procs', book, q) {
      assert q in procs && ForkOk(procs, book, q);
      assert (procs[q].pc.child, procs[q].pc.identity) in used;
    }
  }

  lemma BirthPrivate(procs: map<int, Proc>, p: int, pr: Proc)
    requires PrivateOk(procs) && p !in procs && Private(pr.pc) == 0
    requires forall q :: q in procs && Private(procs[q].pc) != 0 ==> !Knows(pr.tr, Private(procs[q].pc))
    ensures PrivateOk(procs[p := pr])
  {
    var procs' := procs[p := pr];
    forall a, b | a in procs' && b in procs' && Private(procs'[a].pc) != 0
      ensures !Knows(procs'[b].tr, Private(procs'[a].pc))
      ensures a != b ==> Private(procs'[a].pc) != Private(procs'[b].pc)
    {
      assert a in procs;
    }
  }

  /** A new process, empty or a gated copy: nothing in the book or in any fork can refer to it yet. */
  lemma BirthKeeps(s: State, p: int, pr: Proc)
    requires Inv(s) && p !in s.procs && (p, pr.identity) !in s.used
    requires LocalOk(pr, s.socketOf) && OwnedOk(p, pr, s.book) && (pr.pc.Running? || pr.pc.Gated?)
    requires forall q :: q in s.procs && Private(s.procs[q].pc) != 0 ==> !Knows(pr.tr, Private(s.procs[q].pc))
    ensures Inv(Put(s, p, pr).(used := s.used + {(p, pr.identity)}))
  {
    var s' := Put(s, p, pr).(used := s.used + {(p, pr.identity)});
    BirthForks(s.procs, s.book, s.used, p, pr);
    BirthPrivate(s.procs, p, pr);
    forall r | RecIn(s.book, r) ensures RecOk(r, s'.socketOf, s'.used) { assert RecOk(r, s.socketOf, s.used); }
    forall r | r in s.doomed ensures (r.pid, r.identity) in s.used { assert RecOk(r, s.socketOf, s.used); }
  }

  lemma StartKeeps(s: State, s': State, p: int, identity: int)
    requires Inv(s) && Start(s, s', p, identity)
    ensures Inv(s')
  {
    BirthKeeps(s, p, Proc(identity, map[], EMPTY, Running, map[]));
  }

  lemma ExitKeeps(s: State, s': State, p: int)
    requires Inv(s) && Exit(s, s', p)
    ensures Inv(s')
  {
    forall q | q in s'.procs && s'.procs[q].pc.Forking? ensures ForkOk(s'.procs, s'.book, q) {
      assert ForkOk(s.procs, s.book, q);
    }
    forall a, b | a in s'.procs && b in s'.procs && Private(s'.procs[a].pc) != 0
      ensures !Knows(s'.procs[b].tr, Private(s'.procs[a].pc))
      ensures a != b ==> Private(s'.procs[a].pc) != Private(s'.procs[b].pc)
    {
      assert !Knows(s.procs[b].tr, Private(s.procs[a].pc));
    }
  }

  // ----- Fork -----

  lemma CopyKeeps(s: State, p: int, child: int, identity: int)
    requires Inv(s) && At(s, p, Running) && child !in s.procs && (child, identity) !in s.used
    ensures Inv(Put(s, child, Proc(identity, s.procs[p].fds, s.procs[p].tr, Gated, s.procs[p].made)).(used := s.used + {(child, identity)}))
  {
    var pr := s.procs[p];
    assert LocalOk(pr, s.socketOf);
    var copy := Proc(identity, pr.fds, pr.tr, Gated, pr.made);
    assert LocalOk(copy, s.socketOf);
    forall q | q in s.procs && Private(s.procs[q].pc) != 0 ensures !Knows(pr.tr, Private(s.procs[q].pc)) { }
    BirthKeeps(s, child, copy);
  }

  lemma GateKeeps(s: State, p: int, child: int, identity: int)
    requires Inv(s) && At(s, p, Running) && child in s.procs && child != p && (child, identity) in s.used
    requires s.procs[child] == Proc(identity, s.procs[p].fds, s.procs[p].tr, Gated, s.procs[p].made)
    requires forall q :: q in s.procs && s.procs[q].pc.Forking? ==>
               (s.procs[q].pc.child, s.procs[q].pc.identity) != (child, identity)
    ensures Inv(Put(s, p, s.procs[p].(pc := Forking(child, identity, 0, false))))
  {
    var pr' := s.procs[p].(pc := Forking(child, identity, 0, false));
    assert LocalOk(s.procs[p], s.socketOf) && OwnedOk(p, s.procs[p], s.book);
    BeginForks(s.procs, s.book, s.used, p, pr');
    PcKeeps(s, p, pr'.pc);
  }

  /** No fork in progress waits for a process that did not exist yet. */
  lemma NoForkWaits(s: State, child: int, pr: Proc, procs': map<int, Proc>)
    requires ForksOk(s.procs, s.book, s.used) && child !in s.procs && (child, pr.identity) !in s.used && !pr.pc.Forking?
    requires procs' == s.procs[child := pr]
    ensures forall q :: q in procs' && procs'[q].pc.Forking? ==> (procs'[q].pc.child, procs'[q].pc.identity) != (child, pr.identity)
  {
    forall q | q in procs' && procs'[q].pc.Forking? ensures (procs'[q].pc.child, procs'[q].pc.identity) in s.used { }
  }

  lemma EitherOrder(procs: map<int, Proc>, p: int, a: Proc, c: int, b: Proc)
    requires p != c
    ensures procs[p := a][c := b] == procs[c := b][p := a]
  {
  }

  lemma ForkKeeps(s: State, s': State, p: int, child: int, identity: int)
    requires Inv(s) && Fork(s, s', p, child, identity)
    ensures Inv(s')
  {
    var pr := s.procs[p];
    var copy, forking := Proc(identity, pr.fds, pr.tr, Gated, pr.made), pr.(pc := Forking(child, identity, 0, false));
    CopyKeeps(s, p, child, identity);
    NoForkWaits(s, child, copy, s.procs[child := copy]);
    GateKeeps(Put(s, child, copy).(used := s.used + {(child, identity)}), p, child, identity);
    EitherOrder(s.procs, p, forking, child, copy);
  }

  lemma BeginForks(procs: map<int, Proc>, book: Book, used: set<(int, int)>, p: int, pr': Proc)
    requires ForksOk(procs, book, used) && p in procs && !procs[p].pc.Gated? && pr' == procs[p].(pc := pr'.pc)
    requires pr'.pc.Forking? && pr'.pc.at == 0 && (pr'.pc.child, pr'.pc.identity) in used
    requires var c := pr'.pc.child;
             c in procs && procs[c] == Proc(pr'.pc.identity, pr'.fds, pr'.tr, Gated, pr'.made) && c != p
    requires forall q :: q in procs && procs[q].pc.Forking? ==>
               (procs[q].pc.child, procs[q].pc.identity) != (pr'.pc.child, pr'.pc.identity)
    ensures ForksOk(procs[p := pr'], book, used)
  {
    var procs' := procs[p := pr'];
    forall q | q in procs' && procs'[q].pc.Forking? ensures ForkOk(procs', book, q) {
      if q != p { assert ForkOk(procs, book, q); }
    }
  }

  /** ADOPT on a lease the parent tracks. */
  lemma AdoptBookKeeps(s: State, id: int, c: int, owner: Owner)
    requires Inv(s) && c in s.procs && id in s.book && owner.identity == s.procs[c].identity && id in s.socketOf
    requires owner.target.Some? ==> owner.target.value == s.socketOf[id]
    ensures Inv(s.(book := Adopt(s.book, id, c, owner)))
  {
    var book' := Adopt(s.book, id, c, owner);
    AdoptOwned(s.book, id, c, owner);
    forall p | p in s.procs ensures OwnedOk(p, s.procs[p], book') { assert OwnedOk(p, s.procs[p], s.book); }
    forall p | p in s.procs && s.procs[p].pc.Forking? ensures ForkOk(s.procs, book', p) { assert ForkOk(s.procs, s.book, p); }
    forall r | RecIn(book', r) ensures RecOk(r, s.socketOf, s.used) {
      if !(r.id == id && r.pid == c) { assert RecIn(s.book, r); }
    }
  }

  /** The book after the ADOPT of one turn, if there was one. */
  lemma AdoptTurn(s: State, s': State, p: int, adopted: bool, answered: bool, linked: bool)
    requires Inv(s) && AdoptNext(s, s', p, adopted, answered, linked)
    requires var pr := s.procs[p]; !(exists k :: 0 <= k < pr.pc.at && pr.tr.tracked[k].cell == pr.tr.tracked[pr.pc.at].cell)
    ensures Inv(s.(book := s'.book))
    ensures var pr := s.procs[p];
            adopted ==> OwnedBy(s'.book, IdOf(pr.tr, pr.tr.tracked[pr.pc.at]), pr.pc.child, s.procs[pr.pc.child].identity)
  {
    var pr := s.procs[p];
    var e := pr.tr.tracked[pr.pc.at];
    if adopted {
      assert LocalOk(pr, s.socketOf) && e in pr.tr.tracked;
      AdoptBookKeeps(s, pr.tr.cells[e.cell].id, pr.pc.child,
                     Owner(s.procs[pr.pc.child].identity, if linked then Some(pr.fds[e.fd]) else None));
    }
  }

  lemma SkipAdopted(s: State, p: int)
    requires Inv(s) && p in s.procs && s.procs[p].pc.Forking? && 0 <= s.procs[p].pc.at < |s.procs[p].tr.tracked|
    requires var pr := s.procs[p]; exists k :: 0 <= k < pr.pc.at && pr.tr.tracked[k].cell == pr.tr.tracked[pr.pc.at].cell
    ensures Inv(Put(s, p, s.procs[p].(pc := s.procs[p].pc.(at := s.procs[p].pc.at + 1))))
  {
    assert ForkOk(s.procs, s.book, p);
    AdvanceFork(s, p, s.procs[p].pc.(at := s.procs[p].pc.at + 1));
  }

  lemma AdoptNextKeeps(s: State, s': State, p: int, adopted: bool, answered: bool, linked: bool)
    requires Inv(s) && AdoptNext(s, s', p, adopted, answered, linked)
    ensures Inv(s')
  {
    var pr := s.procs[p];
    if exists k :: 0 <= k < pr.pc.at && pr.tr.tracked[k].cell == pr.tr.tracked[pr.pc.at].cell {
      SkipAdopted(s, p);
    } else {
      AdoptTurn(s, s', p, adopted, answered, linked);
      AdvanceFork(s.(book := s'.book), p, s'.procs[p].pc);
    }
  }

  lemma AdvanceForks(procs: map<int, Proc>, book: Book, used: set<(int, int)>, p: int, pc: Pc)
    requires ForksOk(procs, book, used) && p in procs && procs[p].pc.Forking? && pc.Forking?
    requires procs[p].pc.at < |procs[p].tr.tracked|
    requires var was := procs[p].pc; pc == was.(at := was.at + 1, failed := pc.failed) && (was.failed ==> pc.failed)
    requires var pr := procs[p];
             var c := pr.pc.child;
             !pc.failed && c in procs && procs[c].identity == pc.identity && 0 <= pr.pc.at ==>
               OwnedBy(book, IdOf(pr.tr, pr.tr.tracked[pr.pc.at]), c, pc.identity)
    ensures ForksOk(procs[p := procs[p].(pc := pc)], book, used)
  {
    var procs' := procs[p := procs[p].(pc := pc)];
    forall q | q in procs' && procs'[q].pc.Forking? ensures ForkOk(procs', book, q) { assert ForkOk(procs, book, q); }
  }

  /** The parent goes on to the next entry; unless it failed, the one it leaves is adopted. */
  lemma AdvanceFork(s: State, p: int, pc: Pc)
    requires Inv(s) && p in s.procs && s.procs[p].pc.Forking? && pc.Forking?
    requires s.procs[p].pc.at < |s.procs[p].tr.tracked|
    requires var was := s.procs[p].pc; pc == was.(at := was.at + 1, failed := pc.failed) && (was.failed ==> pc.failed)
    requires var pr := s.procs[p];
             var c := pr.pc.child;
             !pc.failed && c in s.procs && s.procs[c].identity == pc.identity && 0 <= pr.pc.at ==>
               OwnedBy(s.book, IdOf(pr.tr, pr.tr.tracked[pr.pc.at]), c, pc.identity)
    ensures Inv(Put(s, p, s.procs[p].(pc := pc)))
  {
    var pr := s.procs[p];
    assert LocalOk(pr, s.socketOf) && OwnedOk(p, pr, s.book);
    AdvanceForks(s.procs, s.book, s.used, p, pc);
    PcKeeps(s, p, pc);
  }

  lemma EndForks(procs: map<int, Proc>, book: Book, used: set<(int, int)>, p: int)
    requires ForksOk(procs, book, used) && p in procs
    requires forall q :: q in procs && procs[q].pc.Forking? ==> (procs[q].pc.child, procs[q].pc.identity) != (p, procs[p].identity)
    ensures ForksOk(procs[p := procs[p].(pc := Running)], book, used)
  {
    var procs' := procs[p := procs[p].(pc := Running)];
    forall q | q in procs' && procs'[q].pc.Forking? ensures ForkOk(procs', book, q) { assert ForkOk(procs, book, q); }
  }

  lemma EndFork(s: State, p: int)
    requires Inv(s) && p in s.procs && s.procs[p].pc.Forking?
    ensures Inv(Put(s, p, s.procs[p].(pc := Running)))
  {
    assert LocalOk(s.procs[p], s.socketOf) && OwnedOk(p, s.procs[p], s.book);
    forall q | q in s.procs && s.procs[q].pc.Forking?
      ensures (s.procs[q].pc.child, s.procs[q].pc.identity) != (p, s.procs[p].identity)
    {
      assert ForkOk(s.procs, s.book, q);
    }
    EndForks(s.procs, s.book, s.used, p);
    PcKeeps(s, p, Running);
  }

  /** The gate opens only for a child that owns every lease it tracks. */
  lemma OpenGateKeeps(s: State, s': State, p: int)
    requires Inv(s) && OpenGate(s, s', p)
    ensures Inv(s')
  {
    var pr := s.procs[p];
    var c := pr.pc.child;
    assert ForkOk(s.procs, s.book, p) && LocalOk(pr, s.socketOf);
    EndFork(s, p);
    if Waits(s, c, pr.pc.identity) {
      var s1 := Put(s, p, pr.(pc := Running));
      assert c != p;
      Ungate(s1, c);
    }
  }

  lemma Ungate(s: State, c: int)
    requires Inv(s) && c in s.procs && s.procs[c].pc.Gated?
    requires forall k :: 0 <= k < |s.procs[c].tr.tracked| ==>
               OwnedBy(s.book, IdOf(s.procs[c].tr, s.procs[c].tr.tracked[k]), c, s.procs[c].identity)
    requires forall q :: q in s.procs && s.procs[q].pc.Forking? ==>
               (s.procs[q].pc.child, s.procs[q].pc.identity) != (c, s.procs[c].identity)
    ensures Inv(Put(s, c, s.procs[c].(pc := Running)))
  {
    assert LocalOk(s.procs[c], s.socketOf) && OwnedOk(c, s.procs[c], s.book);
    EndForks(s.procs, s.book, s.used, c);
    PcKeeps(s, c, Running);
  }

  lemma AbortForkKeeps(s: State, s': State, p: int)
    requires Inv(s) && AbortFork(s, s', p)
    ensures Inv(s')
  {
    var pr := s.procs[p];
    EndFork(s, p);
    var s1 := Put(s, p, pr.(pc := Running));
    if Waits(s, pr.pc.child, pr.pc.identity) {
      assert Exit(s1, s', pr.pc.child);
      ExitKeeps(s1, s', pr.pc.child);
    }
  }

  // ----- Every run -----

  lemma LifeStepKeeps(s: State, s': State, p: int)
    requires Inv(s) && LifeStep(s, s', p)
    ensures Inv(s')
  {
    if n: int :| Start(s, s', p, n) {
      StartKeeps(s, s', p, n);
    } else if Exit(s, s', p) {
      ExitKeeps(s, s', p);
    } else {
      var fd :| Socket(s, s', p, fd);
      SocketKeeps(s, s', p, fd);
    }
  }

  lemma ListenStepKeeps(s: State, s': State, p: int)
    requires Inv(s) && ListenStep(s, s', p)
    ensures Inv(s')
  {
    if fd: int, udp: bool, linked: bool, answered: bool :| DoReserve(s, s', p, fd, udp, linked, answered) {
      ReserveKeeps(s, s', p, fd, udp, linked, answered);
    } else if Commit(s, s', p) {
      CommitKeeps(s, s', p);
    } else if Track(s, s', p) {
      TrackKeeps(s, s', p);
    } else if shut: bool, dropped: bool :| Abandon(s, s', p, shut, dropped) {
      AbandonKeeps(s, s', p, shut, dropped);
    } else {
      var delivered :| Abort(s, s', p, delivered);
      AbortKeeps(s, s', p, delivered);
    }
  }

  lemma DupStepKeeps(s: State, s': State, p: int)
    requires Inv(s) && DupStep(s, s', p)
    ensures Inv(s')
  {
    if o: int, n: int :| Dup(s, s', p, o, n) {
      DupKeeps(s, s', p, o, n);
    } else {
      var memory :| DupTrack(s, s', p, memory);
      DupTrackKeeps(s, s', p, memory);
    }
  }

  lemma CloseStepKeeps(s: State, s': State, p: int)
    requires Inv(s) && CloseStep(s, s', p)
    ensures Inv(s')
  {
    if fd: int :| Close(s, s', p, fd) {
      CloseKeeps(s, s', p, fd);
    } else if delivered: bool :| Release(s, s', p, delivered) {
      ReleaseKeeps(s, s', p, delivered);
    } else if CloseDone(s, s', p) {
      CloseDoneKeeps(s, s', p);
    } else if first: int, last: int :| CloseRange(s, s', p, first, last) {
      CloseRangeKeeps(s, s', p, first, last);
    } else if RangeUnlink(s, s', p) {
      RangeUnlinkKeeps(s, s', p);
    } else {
      RangeDoneKeeps(s, s', p);
    }
  }

  lemma ForkStepKeeps(s: State, s': State, p: int)
    requires Inv(s) && ForkStep(s, s', p)
    ensures Inv(s')
  {
    if child: int, n: int :| Fork(s, s', p, child, n) {
      ForkKeeps(s, s', p, child, n);
    } else if adopted: bool, answered: bool, linked: bool :| AdoptNext(s, s', p, adopted, answered, linked) {
      AdoptNextKeeps(s, s', p, adopted, answered, linked);
    } else if OpenGate(s, s', p) {
      OpenGateKeeps(s, s', p);
    } else {
      AbortForkKeeps(s, s', p);
    }
  }

  lemma ProcStepKeeps(s: State, s': State, p: int)
    requires Inv(s) && ProcStep(s, s', p)
    ensures Inv(s')
  {
    if LifeStep(s, s', p) {
      LifeStepKeeps(s, s', p);
    } else if ListenStep(s, s', p) {
      ListenStepKeeps(s, s', p);
    } else if DupStep(s, s', p) {
      DupStepKeeps(s, s', p);
    } else if CloseStep(s, s', p) {
      CloseStepKeeps(s, s', p);
    } else {
      ForkStepKeeps(s, s', p);
    }
  }
}
