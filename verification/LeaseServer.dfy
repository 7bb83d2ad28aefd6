/** The control server's lease table (internal/listencontrol/server.go). Every section a request runs under
    the table lock or a lease lock is one step, and the steps of all requests, the reaper, Rebind and
    RetryMissing interleave freely. */
module LeaseServer {
  import opened Bytes
  import opened Owners

  /** A lease object. An object is known by its id, which is never used again. */
  datatype Lease = Lease(reservation: Option<int>, committed: bool, owners: map<int, Owner>)

  /** What one request, reaper pass or rebind holds between its sections. */
  datatype Act =
    | Idle
    | Reserving                                              // has a lease slot, backend call running
    | Inserting(res: int)                                    // the backend returned a reservation
    | Inserted(id: int)                                      // tabled, answer not yet sent
    | Looked(id: int)                                        // COMMIT found the lease
    | Refused(id: int)                                       // COMMIT failed, about to remove
    | Removing(ids: seq<int>)                                // took leases out of the table
    | Closing(was: Option<int>, ids: seq<int>)               // read the reservation of one of them
    | Rebinding(todo: seq<int>, missing: bool)
    | Took(id: int, was: Option<int>, todo: seq<int>, missing: bool)
    | Calling(id: int, todo: seq<int>, missing: bool)
    | Got(id: int, res: int, todo: seq<int>, missing: bool)
    | Locked(id: int, res: int, todo: seq<int>, missing: bool)   // holds the lease lock
    | Checked(id: int, res: int, todo: seq<int>, missing: bool)  // holds it, and saw the lease tabled
    | Dropping(res: int, todo: seq<int>, missing: bool)

  /** `issued`, `spilled`, `closed` and `commits` are history: what the backend returned, what it returned together with
      an error, what was closed at least once, and what was committed. */
  datatype State = State(
    objs: map<int, Lease>,
    tabled: set<int>,
    pending: int,
    next: int,
    acts: map<int, Act>,
    issued: set<int>,
    spilled: set<int>,
    closed: set<int>,
    commits: set<int>)

  datatype Limits = Limits(maxLeases: int, maxOwners: int)

  ghost predicate Init(s: State) { s == State(map[], {}, 0, 1, map[], {}, {}, {}, {}) }

  function Fresh(a: Act): Option<int> {
    if a.Inserting? || a.Got? || a.Locked? || a.Checked? || a.Dropping? then Some(a.res) else None
  }

  function Stale(a: Act): Option<int> { if a.Closing? || a.Took? then a.was else None }

  function Waiting(a: Act): seq<int> { if a.Removing? || a.Closing? then a.ids else [] }

  function Target(a: Act): Option<int> {
    if a.Took? || a.Calling? || a.Got? || a.Locked? || a.Checked? then Some(a.id) else None
  }

  predicate Rebinds(a: Act) { a.Rebinding? || a.Took? || a.Calling? || a.Got? || a.Locked? || a.Checked? || a.Dropping? }

  ghost predicate Held(acts: map<int, Act>, id: int) {
    exists t :: t in acts && (acts[t].Locked? || acts[t].Checked?) && acts[t].id == id
  }

  function Go(s: State, t: int, a: Act): State { s.(acts := s.acts[t := a]) }
  function End(s: State, t: int): State { Go(s, t, Idle) }

  /** A request that is not there, or over, holds nothing. */
  function ActOf(acts: map<int, Act>, t: int): Act { if t in acts then acts[t] else Idle }

  ghost predicate Is(s: State, t: int, a: Act) { ActOf(s.acts, t) == a }

  /** The backend never returns a reservation twice. */
  predicate Unseen(s: State, r: int) { r !in s.issued && r !in s.spilled }

  // ----- RESERVE -----

  ghost predicate AcquireSlot(l: Limits, s: State, s': State, t: int) {
    Is(s, t, Idle) && |s.tabled| + s.pending < l.maxLeases && s' == Go(s, t, Reserving).(pending := s.pending + 1)
  }

  ghost predicate ReserveFail(s: State, s': State, t: int) {
    Is(s, t, Reserving) && s' == End(s, t).(pending := if s.pending > 0 then s.pending - 1 else s.pending)
  }

  /** A reservation that comes with an error is dropped unclosed. */
  ghost predicate ReserveSpill(s: State, s': State, t: int, r: int) {
    && Is(s, t, Reserving) && Unseen(s, r)
    && s' == End(s, t).(pending := if s.pending > 0 then s.pending - 1 else s.pending, spilled := s.spilled + {r})
  }

  ghost predicate ReserveGot(s: State, s': State, t: int, r: int) {
    Is(s, t, Reserving) && Unseen(s, r) && s' == Go(s, t, Inserting(r)).(issued := s.issued + {r})
  }

  ghost predicate Insert(s: State, s': State, t: int, pid: int, owner: Owner) {
    && t in s.acts && s.acts[t].Inserting?
    && s' == Go(s, t, Inserted(s.next))
             .(objs := s.objs[s.next := Lease(Some(s.acts[t].res), false, map[pid := owner])],
               tabled := s.tabled + {s.next}, pending := s.pending - 1, next := s.next + 1)
  }

  ghost predicate Answered(s: State, s': State, t: int) { t in s.acts && s.acts[t].Inserted? && s' == End(s, t) }

  // ----- Removal -----

  /** The table section of remove: after a lost answer, a failed COMMIT, or an ABORT or CLOSE. */
  ghost predicate Remove(s: State, s': State, t: int, id: int) {
    && (Is(s, t, Idle) || Is(s, t, Inserted(id)) || Is(s, t, Refused(id)))
    && s' == if id in s.tabled then Go(s, t, Removing([id])).(tabled := s.tabled - {id}) else End(s, t)
  }

  /** The table section of removeOwner, for RELEASE and for the reaper. */
  ghost predicate DropOwner(s: State, s': State, t: int, id: int, pid: int, identity: int) {
    && Is(s, t, Idle)
    && if id !in s.tabled || id !in s.objs || pid !in s.objs[id].owners || s.objs[id].owners[pid].identity != identity
       then s' == s
       else
         var l := s.objs[id].(owners := s.objs[id].owners - {pid});
         var s1 := s.(objs := s.objs[id := l]);
         s' == if l.owners == map[] then Go(s1, t, Removing([id])).(tabled := s.tabled - {id}) else s1
  }

  /** closeAll takes the whole table. */
  ghost predicate TakeAll(s: State, s': State, t: int, ids: seq<int>) {
    && Is(s, t, Idle) && (forall id :: id in ids <==> id in s.tabled)
    && s' == Go(s, t, Removing(ids)).(tabled := {})
  }

  ghost predicate ReadReservation(s: State, s': State, t: int) {
    && t in s.acts && s.acts[t].Removing?
    && var ids := s.acts[t].ids;
       if ids == [] then s' == End(s, t)
       else ids[0] in s.objs && !Held(s.acts, ids[0]) && s' == Go(s, t, Closing(s.objs[ids[0]].reservation, ids[1..]))
  }

  ghost predicate CloseReservation(s: State, s': State, t: int) {
    && t in s.acts && s.acts[t].Closing?
    && var a := s.acts[t];
       s' == Go(s, t, Removing(a.ids)).(closed := if a.was.Some? then s.closed + {a.was.value} else s.closed)
  }

  // ----- ADOPT and COMMIT -----

  ghost predicate AdoptOwner(l: Limits, s: State, s': State, id: int, pid: int, owner: Owner) {
    && id in s.tabled && id in s.objs
    && (pid in s.objs[id].owners || |s.objs[id].owners| < l.maxOwners)
    && s' == s.(objs := s.objs[id := s.objs[id].(owners := s.objs[id].owners[pid := owner])])
  }

  ghost predicate Lookup(s: State, s': State, t: int, id: int) {
    Is(s, t, Idle) && id in s.tabled && s' == Go(s, t, Looked(id))
  }

  /** The lease-lock section of COMMIT. */
  ghost predicate CommitLease(s: State, s': State, t: int, ok: bool) {
    && t in s.acts && s.acts[t].Looked?
    && var id := s.acts[t].id;
       && id in s.objs && !Held(s.acts, id)
       && var l := s.objs[id];
          if l.reservation.None? then s' == End(s, t)
          else if ok then
            s' == End(s, t).(objs := s.objs[id := l.(committed := true)], commits := s.commits + {l.reservation.value})
          else s' == Go(s, t, Refused(id))
  }

  // ----- Rebind and RetryMissing -----

  ghost predicate StartRebind(s: State, s': State, t: int, todo: seq<int>, missing: bool) {
    && Is(s, t, Idle) && (forall u :: u in s.acts ==> !Rebinds(s.acts[u]))
    && (forall id :: id in todo ==> id in s.tabled)
    && s' == Go(s, t, Rebinding(todo, missing))
  }

  /** A canceled context skips the entry; RetryMissing skips a lease that has a reservation. */
  ghost predicate Skip(s: State, s': State, t: int) {
    && t in s.acts && s.acts[t].Rebinding? && s.acts[t].todo != []
    && s' == Go(s, t, Rebinding(s.acts[t].todo[1..], s.acts[t].missing))
  }

  ghost predicate Take(s: State, s': State, t: int) {
    && t in s.acts && s.acts[t].Rebinding? && s.acts[t].todo != []
    && var a := s.acts[t];
       var id := a.todo[0];
       && id in s.objs && !Held(s.acts, id) && !(a.missing && s.objs[id].reservation.Some?)
       && s' == Go(s, t, Took(id, s.objs[id].reservation, a.todo[1..], a.missing))
                .(objs := s.objs[id := s.objs[id].(reservation := None)])
  }

  ghost predicate CloseOld(s: State, s': State, t: int) {
    && t in s.acts && s.acts[t].Took?
    && var a := s.acts[t];
       s' == Go(s, t, Calling(a.id, a.todo, a.missing)).(closed := if a.was.Some? then s.closed + {a.was.value} else s.closed)
  }

  ghost predicate CallFail(s: State, s': State, t: int) {
    && t in s.acts && s.acts[t].Calling? && s' == Go(s, t, Rebinding(s.acts[t].todo, s.acts[t].missing))
  }

  ghost predicate CallSpill(s: State, s': State, t: int, r: int) {
    && t in s.acts && s.acts[t].Calling? && Unseen(s, r)
    && s' == Go(s, t, Rebinding(s.acts[t].todo, s.acts[t].missing)).(spilled := s.spilled + {r})
  }

  ghost predicate CallGot(s: State, s': State, t: int, r: int) {
    && t in s.acts && s.acts[t].Calling? && Unseen(s, r)
    && var a := s.acts[t];
       s' == Go(s, t, Got(a.id, r, a.todo, a.missing)).(issued := s.issued + {r})
  }

  /** Take the lease lock; a committed lease has its replacement committed first. */
  ghost predicate LockLease(s: State, s': State, t: int, ok: bool) {
    && t in s.acts && s.acts[t].Got?
    && var a := s.acts[t];
       && a.id in s.objs && !Held(s.acts, a.id)
       && if s.objs[a.id].committed && !ok then s' == Go(s, t, Dropping(a.res, a.todo, a.missing))
          else s' == Go(s, t, Locked(a.id, a.res, a.todo, a.missing))
                     .(commits := if s.objs[a.id].committed then s.commits + {a.res} else s.commits)
  }

  /** The nested table section: is the lease still the tabled one? */
  ghost predicate Check(s: State, s': State, t: int) {
    && t in s.acts && s.acts[t].Locked?
    && var a := s.acts[t];
       s' == if a.id in s.tabled then Go(s, t, Checked(a.id, a.res, a.todo, a.missing))
             else Go(s, t, Dropping(a.res, a.todo, a.missing))
  }

  ghost predicate Store(s: State, s': State, t: int) {
    && t in s.acts && s.acts[t].Checked?
    && var a := s.acts[t];
       && a.id in s.objs
       && s' == Go(s, t, Rebinding(a.todo, a.missing)).(objs := s.objs[a.id := s.objs[a.id].(reservation := Some(a.res))])
  }

  ghost predicate Drop(s: State, s': State, t: int) {
    && t in s.acts && s.acts[t].Dropping?
    && var a := s.acts[t];
       s' == Go(s, t, Rebinding(a.todo, a.missing)).(closed := s.closed + {a.res})
  }

  ghost predicate EndRebind(s: State, s': State, t: int) {
    t in s.acts && s.acts[t].Rebinding? && s.acts[t].todo == [] && s' == End(s, t)
  }

  ghost predicate TableStep(l: Limits, s: State, s': State, t: int) {
    || AcquireSlot(l, s, s', t)
    || ReserveFail(s, s', t)
    || (exists r: int :: ReserveSpill(s, s', t, r))
    || (exists r: int :: ReserveGot(s, s', t, r))
    || (exists pid: int, owner: Owner :: Insert(s, s', t, pid, owner))
    || Answered(s, s', t)
    || (exists id: int :: Remove(s, s', t, id))
    || (exists id: int, pid: int, n: int :: DropOwner(s, s', t, id, pid, n))
    || (exists ids: seq<int> :: TakeAll(s, s', t, ids))
    || ReadReservation(s, s', t) || CloseReservation(s, s', t)
    || (exists id: int, pid: int, owner: Owner :: AdoptOwner(l, s, s', id, pid, owner))
    || (exists id: int :: Lookup(s, s', t, id))
    || (exists ok: bool :: CommitLease(s, s', t, ok))
  }

  ghost predicate RebindStep(s: State, s': State, t: int) {
    || (exists todo: seq<int>, missing: bool :: StartRebind(s, s', t, todo, missing))
    || Skip(s, s', t) || Take(s, s', t) || CloseOld(s, s', t) || CallFail(s, s', t)
    || (exists r: int :: CallSpill(s, s', t, r))
    || (exists r: int :: CallGot(s, s', t, r))
    || (exists ok: bool :: LockLease(s, s', t, ok))
    || Check(s, s', t) || Store(s, s', t) || Drop(s, s', t) || EndRebind(s, s', t)
  }

  ghost predicate Step(l: Limits, s: State, s': State) {
    exists t: int :: TableStep(l, s, s', t) || RebindStep(s, s', t)
  }

  ghost predicate Next(l: Limits, run: seq<State>, i: int) { 0 <= i < |run| - 1 && Step(l, run[i], run[i + 1]) }

  ghost predicate Run(l: Limits, run: seq<State>) {
    |run| > 0 && Init(run[0]) && forall i :: 0 <= i < |run| - 1 ==> Next(l, run, i)
  }

  // ----- Invariant -----

  ghost predicate StoredOk(objs: map<int, Lease>, tabled: set<int>, issued: set<int>, closed: set<int>, commits: set<int>) {
    && closed <= issued && (forall id :: id in tabled ==> id in objs)
    && (forall id :: id in objs && objs[id].reservation.Some? ==> objs[id].reservation.value in issued)
    && (forall id :: id in tabled && id in objs && objs[id].reservation.Some? ==>
          && objs[id].reservation.value !in closed
          && (objs[id].reservation.value in commits <==> objs[id].committed))
    && (forall i, j :: i in objs && j in objs && i != j && objs[i].reservation.Some? ==> objs[i].reservation != objs[j].reservation)
  }

  ghost predicate IsStored(objs: map<int, Lease>, r: int) { exists id :: id in objs && objs[id].reservation == Some(r) }

  ghost predicate FreshOk(objs: map<int, Lease>, acts: map<int, Act>, issued: set<int>, closed: set<int>) {
    && (forall t :: t in acts && Fresh(acts[t]).Some? ==>
          Fresh(acts[t]).value in issued && Fresh(acts[t]).value !in closed && !IsStored(objs, Fresh(acts[t]).value))
    && (forall t, u :: t in acts && u in acts && t != u && Fresh(acts[t]).Some? ==>
          Fresh(acts[u]) != Fresh(acts[t]) && Stale(acts[u]) != Fresh(acts[t]))
  }

  ghost predicate StaleOk(objs: map<int, Lease>, tabled: set<int>, acts: map<int, Act>, issued: set<int>) {
    && (forall t :: t in acts && Stale(acts[t]).Some? ==> Stale(acts[t]).value in issued)
    && (forall t, id :: t in acts && Stale(acts[t]).Some? && id in tabled && id in objs ==> objs[id].reservation != Stale(acts[t]))
  }

  ghost predicate CommitsOk(objs: map<int, Lease>, acts: map<int, Act>, commits: set<int>, issued: set<int>) {
    && commits <= issued
    && (forall t :: t in acts && (acts[t].Inserting? || acts[t].Got?) ==> acts[t].res !in commits)
    && (forall t :: t in acts && (acts[t].Locked? || acts[t].Checked?) ==>
          acts[t].id in objs && (acts[t].res in commits <==> objs[acts[t].id].committed))
  }

  ghost predicate RebindOk(objs: map<int, Lease>, acts: map<int, Act>) {
    && (forall t, u :: t in acts && u in acts && Rebinds(acts[t]) && Rebinds(acts[u]) ==> t == u)
    && (forall t :: t in acts && Target(acts[t]).Some? ==>
          Target(acts[t]).value in objs && objs[Target(acts[t]).value].reservation.None?)
  }

  /** Some request took the lease out of the table and has not read its reservation yet. */
  ghost predicate Awaits(acts: map<int, Act>, id: int) { exists t :: t in acts && id in Waiting(acts[t]) }

  ghost predicate WaitOk(objs: map<int, Lease>, tabled: set<int>, acts: map<int, Act>) {
    && (forall t, id :: t in acts && id in Waiting(acts[t]) ==> id in objs && id !in tabled)
    && (forall t :: t in acts && acts[t].Checked? ==> acts[t].id in tabled || Awaits(acts, acts[t].id))
  }

  ghost predicate InHand(acts: map<int, Act>, r: int) {
    exists t :: t in acts && (Fresh(acts[t]) == Some(r) || Stale(acts[t]) == Some(r))
  }

  /** Tabled, in the hands of a step in progress, or closed at least once. */
  ghost predicate Accounted(s: State, r: int) {
    || r in s.closed
    || InHand(s.acts, r)
    || exists id :: id in s.objs && s.objs[id].reservation == Some(r) && (id in s.tabled || Awaits(s.acts, id))
  }

  ghost predicate AllAccounted(s: State) { forall r :: r in s.issued ==> Accounted(s, r) }

  ghost predicate IdsOk(objs: map<int, Lease>, next: int) { forall id :: id in objs ==> id < next }

  /** What was returned with an error is never anything else. */
  ghost predicate SpillOk(issued: set<int>, spilled: set<int>) { issued !! spilled }

  ghost predicate Inv(s: State) {
    && SpillOk(s.issued, s.spilled)
    && StoredOk(s.objs, s.tabled, s.issued, s.closed, s.commits)
    && FreshOk(s.objs, s.acts, s.issued, s.closed)
    && StaleOk(s.objs, s.tabled, s.acts, s.issued)
    && CommitsOk(s.objs, s.acts, s.commits, s.issued)
    && RebindOk(s.objs, s.acts)
    && WaitOk(s.objs, s.tabled, s.acts)
    && IdsOk(s.objs, s.next)
    && AllAccounted(s)
  }

  // ----- How each part moves -----

  ghost predicate SameReservations(objs: map<int, Lease>, objs': map<int, Lease>) {
    objs.Keys == objs'.Keys && forall id :: id in objs ==> objs[id].reservation == objs'[id].reservation
  }

  lemma FreshMoves(objs: map<int, Lease>, acts: map<int, Act>, issued: set<int>, closed: set<int>, t: int, a: Act)
    requires FreshOk(objs, acts, issued, closed)
    requires Fresh(a).None? || Fresh(a) == Fresh(ActOf(acts, t))
    requires Stale(a).None? || Stale(a) == Stale(ActOf(acts, t)) || IsStored(objs, Stale(a).value)
    ensures FreshOk(objs, acts[t := a], issued, closed)
  {
  }

  lemma FreshFrame(objs: map<int, Lease>, objs': map<int, Lease>, acts: map<int, Act>, issued: set<int>, closed: set<int>)
    requires FreshOk(objs, acts, issued, closed) && SameReservations(objs, objs')
    ensures FreshOk(objs', acts, issued, closed)
  {
    forall r | IsStored(objs', r) ensures IsStored(objs, r) {
      var id :| id in objs' && objs'[id].reservation == Some(r);
      assert id in objs && objs[id].reservation == Some(r);
    }
  }

  lemma StaleMoves(objs: map<int, Lease>, tabled: set<int>, tabled': set<int>, acts: map<int, Act>, issued: set<int>, t: int, a: Act)
    requires StaleOk(objs, tabled, acts, issued) && tabled' <= tabled
    requires Stale(a).None? || Stale(a) == Stale(ActOf(acts, t))
    ensures StaleOk(objs, tabled', acts[t := a], issued)
  {
  }

  lemma CommitsMove(objs: map<int, Lease>, acts: map<int, Act>, commits: set<int>, issued: set<int>, t: int, a: Act)
    requires CommitsOk(objs, acts, commits, issued) && !a.Inserting? && !a.Got? && !a.Locked?
    requires a.Checked? ==> ActOf(acts, t).Locked? && a.id == ActOf(acts, t).id && a.res == ActOf(acts, t).res
    ensures CommitsOk(objs, acts[t := a], commits, issued)
  {
  }

  lemma RebindMoves(objs: map<int, Lease>, acts: map<int, Act>, t: int, a: Act)
    requires RebindOk(objs, acts)
    requires Rebinds(a) ==> Rebinds(ActOf(acts, t)) || forall u :: u in acts ==> !Rebinds(acts[u])
    requires Target(a).None? || Target(a) == Target(ActOf(acts, t))
    ensures RebindOk(objs, acts[t := a])
  {
  }

  lemma AwaitsMoves(acts: map<int, Act>, t: int, a: Act, id: int)
    requires Awaits(acts, id) && (id in Waiting(ActOf(acts, t)) ==> id in Waiting(a))
    ensures Awaits(acts[t := a], id)
  {
    var u :| u in acts && id in Waiting(acts[u]);
    if u != t { assert id in Waiting(acts[t := a][u]); } else { assert id in Waiting(acts[t := a][t]); }
  }

  lemma WaitMoves(objs: map<int, Lease>, tabled: set<int>, tabled': set<int>, acts: map<int, Act>, t: int, a: Act)
    requires WaitOk(objs, tabled, acts) && tabled' <= tabled
    requires forall id :: id in Waiting(a) ==> id in objs && id !in tabled'
    requires forall id :: id in tabled ==> id in tabled' || id in Waiting(a)
    requires forall id :: id in Waiting(ActOf(acts, t)) ==> id in Waiting(a) || !Held(acts, id)
    requires a.Checked? ==> a.id in tabled'
    ensures WaitOk(objs, tabled', acts[t := a])
  {
    var acts' := acts[t := a];
    forall u | u in acts' && acts'[u].Checked? ensures acts'[u].id in tabled' || Awaits(acts', acts'[u].id) {
      if u != t {
        var id := acts[u].id;
        assert Held(acts, id);
        if id in tabled {
          if id !in tabled' { assert id in Waiting(acts'[t]); }
        } else {
          AwaitsMoves(acts, t, a, id);
        }
      }
    }
  }

  lemma HandMoves(acts: map<int, Act>, t: int, a: Act, r: int)
    requires InHand(acts, r)
    requires Fresh(ActOf(acts, t)) == Some(r) ==> Fresh(a) == Some(r)
    requires Stale(ActOf(acts, t)) == Some(r) ==> Stale(a) == Some(r)
    ensures InHand(acts[t := a], r)
  {
    var u :| u in acts && (Fresh(acts[u]) == Some(r) || Stale(acts[u]) == Some(r));
    assert acts[t := a][u] == if u == t then a else acts[u];
  }

  /** Where a step may send what was accounted for: on, into the closed set, or from the table to a waiting list. */
  lemma AccountMoves(s: State, s': State, t: int)
    requires AllAccounted(s) && t in s'.acts && s'.acts == s.acts[t := s'.acts[t]]
    requires s'.issued == s.issued && s.closed <= s'.closed && SameReservations(s.objs, s'.objs)
    requires forall id :: id in s.tabled ==> id in s'.tabled || id in Waiting(s'.acts[t])
    requires forall id :: id in Waiting(ActOf(s.acts, t)) ==> id in Waiting(s'.acts[t])
    requires var f := Fresh(ActOf(s.acts, t)); f.None? || f == Fresh(s'.acts[t]) || f.value in s'.closed
    requires var f := Stale(ActOf(s.acts, t)); f.None? || f == Stale(s'.acts[t]) || f.value in s'.closed
    ensures AllAccounted(s')
  {
    forall r | r in s'.issued ensures Accounted(s', r) {
      assert Accounted(s, r);
      if r !in s'.closed {
        if InHand(s.acts, r) {
          HandMoves(s.acts, t, s'.acts[t], r);
        } else {
          var id :| id in s.objs && s.objs[id].reservation == Some(r) && (id in s.tabled || Awaits(s.acts, id));
          if id in s.tabled {
            if id !in s'.tabled { assert id in Waiting(s'.acts[t]); }
          } else {
            AwaitsMoves(s.acts, t, s'.acts[t], id);
          }
          assert s'.objs[id].reservation == Some(r);
        }
      }
    }
  }

  // ----- Steps -----

  /** A request moves on without touching a reservation, a lease or the table. */
  lemma PlainKeeps(s: State, s': State, t: int, a: Act)
    requires Inv(s) && s' == s.(acts := s.acts[t := a], pending := s'.pending, spilled := s'.spilled) && SpillOk(s'.issued, s'.spilled)
    requires var b := ActOf(s.acts, t); Fresh(b).None? && Stale(b).None? && Waiting(b) == []
    requires Fresh(a).None? && Stale(a).None? && Waiting(a) == []
    requires Rebinds(a) ==> Rebinds(ActOf(s.acts, t)) || forall u :: u in s.acts ==> !Rebinds(s.acts[u])
    requires Target(a).None?
    ensures Inv(s')
  {
    FreshMoves(s.objs, s.acts, s.issued, s.closed, t, a);
    StaleMoves(s.objs, s.tabled, s.tabled, s.acts, s.issued, t, a);
    CommitsMove(s.objs, s.acts, s.commits, s.issued, t, a);
    RebindMoves(s.objs, s.acts, t, a);
    WaitMoves(s.objs, s.tabled, s.tabled, s.acts, t, a);
    AccountMoves(s, s', t);
  }

  /** Leases leave the table for a waiting list. */
  lemma UntableKeeps(s: State, s': State, t: int, ids: seq<int>)
    requires Inv(s) && s' == Go(s, t, Removing(ids)).(tabled := s'.tabled)
    requires var b := ActOf(s.acts, t); Fresh(b).None? && Stale(b).None? && Waiting(b) == []
    requires s'.tabled <= s.tabled && (forall id :: id in s.tabled <==> id in s'.tabled || id in ids)
    requires forall id :: id in ids ==> id !in s'.tabled
    ensures Inv(s')
  {
    var a := Removing(ids);
    FreshMoves(s.objs, s.acts, s.issued, s.closed, t, a);
    StaleMoves(s.objs, s.tabled, s'.tabled, s.acts, s.issued, t, a);
    CommitsMove(s.objs, s.acts, s.commits, s.issued, t, a);
    RebindMoves(s.objs, s.acts, t, a);
    WaitMoves(s.objs, s.tabled, s'.tabled, s.acts, t, a);
    AccountMoves(s, s', t);
  }

  /** Only the owners of one lease change. */
  lemma OwnersKeep(s: State, s': State, id: int, owners: map<int, Owner>)
    requires Inv(s) && id in s.objs && s' == s.(objs := s.objs[id := s.objs[id].(owners := owners)])
    ensures Inv(s')
  {
    assert SameReservations(s.objs, s'.objs);
    FreshFrame(s.objs, s'.objs, s.acts, s.issued, s.closed);
    assert StoredOk(s'.objs, s'.tabled, s'.issued, s'.closed, s'.commits);
    AccountFrame(s, s');
  }

  lemma AccountFrame(s: State, s': State)
    requires AllAccounted(s) && s'.acts == s.acts && s'.issued == s.issued && s.closed <= s'.closed
    requires s'.tabled == s.tabled && SameReservations(s.objs, s'.objs)
    ensures AllAccounted(s')
  {
    forall r | r in s'.issued ensures Accounted(s', r) {
      assert Accounted(s, r);
      if r !in s'.closed && !InHand(s.acts, r) {
        var id :| id in s.objs && s.objs[id].reservation == Some(r) && (id in s.tabled || Awaits(s.acts, id));
        assert s'.objs[id].reservation == Some(r);
      }
    }
  }

  lemma AdoptOwnerKeeps(l: Limits, s: State, s': State, id: int, pid: int, owner: Owner)
    requires Inv(s) && AdoptOwner(l, s, s', id, pid, owner)
    ensures Inv(s')
  {
    OwnersKeep(s, s', id, s.objs[id].owners[pid := owner]);
  }

  lemma DropOwnerKeeps(s: State, s': State, t: int, id: int, pid: int, identity: int)
    requires Inv(s) && DropOwner(s, s', t, id, pid, identity)
    ensures Inv(s')
  {
    if s' != s {
      var owners := s.objs[id].owners - {pid};
      var s1 := s.(objs := s.objs[id := s.objs[id].(owners := owners)]);
      OwnersKeep(s, s1, id, owners);
      if owners == map[] { UntableKeeps(s1, s', t, [id]); }
    }
  }

  lemma RemoveKeeps(s: State, s': State, t: int, id: int)
    requires Inv(s) && Remove(s, s', t, id)
    ensures Inv(s')
  {
    if id in s.tabled { UntableKeeps(s, s', t, [id]); } else { PlainKeeps(s, s', t, Idle); }
  }

  lemma TakeAllKeeps(s: State, s': State, t: int, ids: seq<int>)
    requires Inv(s) && TakeAll(s, s', t, ids)
    ensures Inv(s')
  {
    UntableKeeps(s, s', t, ids);
  }

  /** The backend hands a request a reservation it never returned before. */
  lemma IssueKeeps(s: State, s': State, t: int, a: Act, r: int)
    requires Inv(s) && Unseen(s, r) && Fresh(a) == Some(r)
    requires s' == s.(acts := s.acts[t := a], issued := s.issued + {r})
    requires var b := ActOf(s.acts, t); Fresh(b).None? && Stale(b).None? && Waiting(b) == []
    requires a.Inserting? || (a.Got? && ActOf(s.acts, t).Calling? && a.id == ActOf(s.acts, t).id)
    ensures Inv(s')
  {
    IssueFresh(s, a, t, r);
    IssueRest(s, s', a, t, r);
    forall x | x in s'.issued ensures Accounted(s', x) {
      if x == r {
        assert s'.acts[t] == a;
      } else {
        assert Accounted(s, x);
        if x !in s.closed {
          if InHand(s.acts, x) {
            HandMoves(s.acts, t, a, x);
          } else {
            var id :| id in s.objs && s.objs[id].reservation == Some(x) && (id in s.tabled || Awaits(s.acts, id));
            if id !in s.tabled { AwaitsMoves(s.acts, t, a, id); }
          }
        }
      }
    }
  }

  ghost predicate OldOk(s: State) {
    && StoredOk(s.objs, s.tabled, s.issued, s.closed, s.commits)
    && StaleOk(s.objs, s.tabled, s.acts, s.issued)
    && CommitsOk(s.objs, s.acts, s.commits, s.issued)
    && RebindOk(s.objs, s.acts)
    && WaitOk(s.objs, s.tabled, s.acts)
    && IdsOk(s.objs, s.next)
  }

  lemma IssueFresh(s: State, a: Act, t: int, r: int)
    requires Inv(s) && r !in s.issued && r !in s.closed && Fresh(a) == Some(r) && Stale(a).None?
    ensures FreshOk(s.objs, s.acts[t := a], s.issued + {r}, s.closed)
  {
    assert !IsStored(s.objs, r);
  }

  lemma IssueRest(s: State, s': State, a: Act, t: int, r: int)
    requires Inv(s) && r !in s.issued && Fresh(a) == Some(r)
    requires s' == s.(acts := s.acts[t := a], issued := s.issued + {r})
    requires var b := ActOf(s.acts, t); Fresh(b).None? && Stale(b).None? && Waiting(b) == []
    requires a.Inserting? || (a.Got? && ActOf(s.acts, t).Calling? && a.id == ActOf(s.acts, t).id)
    ensures OldOk(s')
  {
    RebindMoves(s.objs, s.acts, t, a);
    WaitMoves(s.objs, s.tabled, s.tabled, s.acts, t, a);
    StaleMoves(s.objs, s.tabled, s.tabled, s.acts, s.issued, t, a);
  }

  /** The new lease, its reservation so far in the hands of the request. */
  lemma InsertKeeps(s: State, s': State, t: int, pid: int, owner: Owner)
    requires Inv(s) && Insert(s, s', t, pid, owner)
    ensures Inv(s')
  {
    var id, r, a := s.next, s.acts[t].res, Inserted(s.next);
    assert Fresh(s.acts[t]) == Some(r);
    InsertFresh(s, s', t);
    InsertRest(s, s', t);
    forall x | x in s'.issued ensures Accounted(s', x) {
      assert Accounted(s, x);
      if x == r {
        assert s'.objs[id].reservation == Some(r);
      } else if x !in s.closed {
        if InHand(s.acts, x) {
          HandMoves(s.acts, t, a, x);
        } else {
          var j :| j in s.objs && s.objs[j].reservation == Some(x) && (j in s.tabled || Awaits(s.acts, j));
          if j !in s.tabled { AwaitsMoves(s.acts, t, a, j); }
          assert s'.objs[j].reservation == Some(x);
        }
      }
    }
  }

  lemma InsertFresh(s: State, s': State, t: int)
    requires Inv(s) && t in s.acts && s.acts[t].Inserting? && s.next !in s.objs && s.next in s'.objs
    requires s'.acts == s.acts[t := Inserted(s.next)] && s'.objs == s.objs[s.next := s'.objs[s.next]]
    requires s'.objs[s.next].reservation == Some(s.acts[t].res)
    ensures FreshOk(s'.objs, s'.acts, s.issued, s.closed)
  {
    FreshMoves(s.objs, s.acts, s.issued, s.closed, t, Inserted(s.next));
    forall x | IsStored(s'.objs, x) && x != s.acts[t].res ensures IsStored(s.objs, x) {
      var id :| id in s'.objs && s'.objs[id].reservation == Some(x);
      assert id in s.objs;
    }
    assert Fresh(s.acts[t]) == Some(s.acts[t].res);
  }

  lemma InsertRest(s: State, s': State, t: int)
    requires Inv(s) && (exists pid: int, owner: Owner :: Insert(s, s', t, pid, owner))
    ensures OldOk(s')
  {
    var a := Inserted(s.next);
    assert Fresh(s.acts[t]) == Some(s.acts[t].res) && !IsStored(s.objs, s.acts[t].res);
    InsertStored(s, s', t);
    StaleMoves(s.objs, s.tabled, s.tabled, s.acts, s.issued, t, a);
    CommitsMove(s.objs, s.acts, s.commits, s.issued, t, a);
    RebindMoves(s.objs, s.acts, t, a);
    WaitMoves(s.objs, s.tabled, s.tabled, s.acts, t, a);
  }

  lemma InsertStored(s: State, s': State, t: int)
    requires Inv(s) && (exists pid: int, owner: Owner :: Insert(s, s', t, pid, owner))
    requires !IsStored(s.objs, s.acts[t].res)
    ensures StoredOk(s'.objs, s'.tabled, s'.issued, s'.closed, s'.commits)
  {
  }

  /** A reservation was closed: one a request had just received, or one it had taken out. */
  lemma CloseKeeps(s: State, s': State, t: int, a: Act)
    requires Inv(s) && t in s.acts && s' == s.(acts := s.acts[t := a], closed := s'.closed)
    requires var b := s.acts[t];
             var gone := if Fresh(b).Some? then Fresh(b) else Stale(b);
             s'.closed == if gone.Some? then s.closed + {gone.value} else s.closed
    requires Fresh(s.acts[t]).None? || Stale(s.acts[t]).None?
    requires Fresh(a).None? && Stale(a).None? && Waiting(a) == Waiting(s.acts[t])
    requires Rebinds(a) ==> Rebinds(s.acts[t])
    requires Target(a).None? || Target(a) == Target(s.acts[t])
    ensures Inv(s')
  {
    FreshMoves(s.objs, s.acts, s.issued, s.closed, t, a);
    StaleMoves(s.objs, s.tabled, s.tabled, s.acts, s.issued, t, a);
    CommitsMove(s.objs, s.acts, s.commits, s.issued, t, a);
    RebindMoves(s.objs, s.acts, t, a);
    WaitMoves(s.objs, s.tabled, s.tabled, s.acts, t, a);
    AccountMoves(s, s', t);
    CloseStored(s, s', t);
  }

  lemma CloseStored(s: State, s': State, t: int)
    requires Inv(s) && t in s.acts
    requires var b := s.acts[t];
             var gone := if Fresh(b).Some? then Fresh(b) else Stale(b);
             s'.closed == if gone.Some? then s.closed + {gone.value} else s.closed
    requires Fresh(s.acts[t]).None? || Stale(s.acts[t]).None?
    ensures StoredOk(s.objs, s.tabled, s.issued, s'.closed, s.commits)
    ensures forall u :: u in s.acts && u != t && Fresh(s.acts[u]).Some? ==> Fresh(s.acts[u]).value !in s'.closed
  {
    if Fresh(s.acts[t]).Some? {
      var r := Fresh(s.acts[t]).value;
      forall id | id in s.objs ensures s.objs[id].reservation != Some(r) { assert !IsStored(s.objs, r); }
    }
  }

  /** The reservation of a lease outside the table passes to whoever took the lease out. */
  lemma ReadReservationKeeps(s: State, s': State, t: int)
    requires Inv(s) && ReadReservation(s, s', t)
    ensures Inv(s')
  {
    var ids := s.acts[t].ids;
    if ids == [] {
      PlainKeeps(s, s', t, Idle);
    } else {
      var id := ids[0];
      var r := s.objs[id].reservation;
      var a := Closing(r, ids[1..]);
      assert id in Waiting(s.acts[t]) && id !in s.tabled;
      FreshMoves(s.objs, s.acts, s.issued, s.closed, t, a);
      CommitsMove(s.objs, s.acts, s.commits, s.issued, t, a);
      RebindMoves(s.objs, s.acts, t, a);
      assert forall j :: j in Waiting(s.acts[t]) ==> j == id || j in Waiting(a);
      WaitMoves(s.objs, s.tabled, s.tabled, s.acts, t, a);
      ReadStale(s, t, id, a);
      ReadAccounts(s, s', t, id);
    }
  }

  lemma ReadStale(s: State, t: int, id: int, a: Act)
    requires Inv(s) && id in s.objs && id !in s.tabled && Stale(a) == s.objs[id].reservation
    ensures StaleOk(s.objs, s.tabled, s.acts[t := a], s.issued)
  {
  }

  lemma ReadAccounts(s: State, s': State, t: int, id: int)
    requires Inv(s) && t in s.acts && s.acts[t].Removing? && id in s.objs
    requires t in s'.acts && s' == s.(acts := s.acts[t := s'.acts[t]])
    requires Stale(s'.acts[t]) == s.objs[id].reservation
    requires forall j :: j in Waiting(s.acts[t]) ==> j == id || j in Waiting(s'.acts[t])
    ensures AllAccounted(s')
  {
    var a := s'.acts[t];
    forall x | x in s'.issued ensures Accounted(s', x) {
      assert Accounted(s, x);
      if x !in s.closed {
        if InHand(s.acts, x) {
          HandMoves(s.acts, t, a, x);
        } else {
          var j :| j in s.objs && s.objs[j].reservation == Some(x) && (j in s.tabled || Awaits(s.acts, j));
          if j == id { assert Stale(s'.acts[t]) == Some(x); } else if j !in s.tabled { AwaitsMoves(s.acts, t, a, j); }
        }
      }
    }
  }

  lemma CommitLeaseKeeps(s: State, s': State, t: int, ok: bool)
    requires Inv(s) && CommitLease(s, s', t, ok)
    ensures Inv(s')
  {
    var id := s.acts[t].id;
    var l := s.objs[id];
    if l.reservation.None? {
      PlainKeeps(s, s', t, Idle);
    } else if !ok {
      PlainKeeps(s, s', t, Refused(id));
    } else {
      var s1 := End(s, t);
      PlainKeeps(s, s1, t, Idle);
      forall u | u in s1.acts && (s1.acts[u].Locked? || s1.acts[u].Checked?) ensures s1.acts[u].id != id {
        assert s.acts[u] == s1.acts[u];
        assert !Held(s.acts, id);
      }
      MarkKeeps(s1, s', id);
    }
  }

  /** A lease's reservation and the lease become committed together. */
  lemma MarkKeeps(s: State, s': State, id: int)
    requires Inv(s) && id in s.objs && s.objs[id].reservation.Some? && !Held(s.acts, id)
    requires s' == s.(objs := s.objs[id := s.objs[id].(committed := true)], commits := s.commits + {s.objs[id].reservation.value})
    ensures Inv(s')
  {
    assert IsStored(s.objs, s.objs[id].reservation.value);
    assert SameReservations(s.objs, s'.objs);
    FreshFrame(s.objs, s'.objs, s.acts, s.issued, s.closed);
    MarkCommits(s.objs, s'.objs, s.acts, s.issued, s.closed, s.commits, id);
    AccountFrame(s, s');
  }

  lemma MarkCommits(
      objs: map<int, Lease>, objs': map<int, Lease>, acts: map<int, Act>, issued: set<int>, closed: set<int>, commits: set<int>, id: int)
    requires FreshOk(objs, acts, issued, closed) && CommitsOk(objs, acts, commits, issued) && !Held(acts, id)
    requires id in objs && objs[id].reservation.Some? && IsStored(objs, objs[id].reservation.value)
    requires objs' == objs[id := objs[id].(committed := true)] && objs[id].reservation.value in issued
    ensures CommitsOk(objs', acts, commits + {objs[id].reservation.value}, issued)
  {
    var r := objs[id].reservation.value;
    forall t | t in acts && Fresh(acts[t]).Some? ensures Fresh(acts[t]).value != r { }
    forall t | t in acts && (acts[t].Locked? || acts[t].Checked?) ensures acts[t].id != id && acts[t].res != r {
      assert Fresh(acts[t]) == Some(acts[t].res);
    }
    forall t | t in acts && (acts[t].Inserting? || acts[t].Got?) ensures acts[t].res != r {
      assert Fresh(acts[t]) == Some(acts[t].res);
    }
  }

  /** Rebind takes the reservation out of a lease. */
  lemma TakeKeeps(s: State, s': State, t: int)
    requires Inv(s) && Take(s, s', t)
    ensures Inv(s')
  {
    var id := s.acts[t].todo[0];
    var a := s'.acts[t];
    var r := s.objs[id].reservation;
    TakeFresh(s, s', t, id, a);
    TakeStale(s, s', t, id, a);
    TakeRebind(s, s', t, id, a);
    CommitsMove(s.objs, s.acts, s.commits, s.issued, t, a);
    WaitMoves(s.objs, s.tabled, s.tabled, s.acts, t, a);
    forall x | x in s'.issued ensures Accounted(s', x) {
      assert Accounted(s, x);
      if x !in s.closed {
        if InHand(s.acts, x) {
          HandMoves(s.acts, t, a, x);
        } else {
          var j :| j in s.objs && s.objs[j].reservation == Some(x) && (j in s.tabled || Awaits(s.acts, j));
          if j == id {
            assert Stale(s'.acts[t]) == Some(x);
          } else {
            if j !in s.tabled { AwaitsMoves(s.acts, t, a, j); }
            assert s'.objs[j].reservation == Some(x);
          }
        }
      }
    }
  }

  lemma TakeFresh(s: State, s': State, t: int, id: int, a: Act)
    requires Inv(s) && id in s.objs && Stale(a) == s.objs[id].reservation && Fresh(a).None?
    requires s'.objs == s.objs[id := s.objs[id].(reservation := None)]
    ensures FreshOk(s'.objs, s.acts[t := a], s.issued, s.closed)
  {
    if Stale(a).Some? { assert IsStored(s.objs, Stale(a).value); }
    FreshMoves(s.objs, s.acts, s.issued, s.closed, t, a);
    forall x | IsStored(s'.objs, x) ensures IsStored(s.objs, x) {
      var j :| j in s'.objs && s'.objs[j].reservation == Some(x);
      assert s.objs[j].reservation == Some(x);
    }
  }

  lemma TakeStale(s: State, s': State, t: int, id: int, a: Act)
    requires Inv(s) && id in s.objs && Stale(a) == s.objs[id].reservation
    requires s'.objs == s.objs[id := s.objs[id].(reservation := None)]
    ensures StaleOk(s'.objs, s.tabled, s.acts[t := a], s.issued)
  {
  }

  lemma TakeRebind(s: State, s': State, t: int, id: int, a: Act)
    requires Inv(s) && t in s.acts && Rebinds(s.acts[t]) && id in s.objs && Target(a) == Some(id)
    requires s'.objs == s.objs[id := s.objs[id].(reservation := None)]
    ensures RebindOk(s'.objs, s.acts[t := a])
  {
  }

  /** Rebind holds the lease lock, the replacement committed if the lease is. */
  lemma LockLeaseKeeps(s: State, s': State, t: int, ok: bool)
    requires Inv(s) && LockLease(s, s', t, ok)
    ensures Inv(s')
  {
    var a := s'.acts[t];
    var r := s.acts[t].res;
    assert Fresh(s.acts[t]) == Some(r) && !IsStored(s.objs, r);
    FreshMoves(s.objs, s.acts, s.issued, s.closed, t, a);
    StaleMoves(s.objs, s.tabled, s.tabled, s.acts, s.issued, t, a);
    RebindMoves(s.objs, s.acts, t, a);
    WaitMoves(s.objs, s.tabled, s.tabled, s.acts, t, a);
    AccountMoves(s, s', t);
    if a.Dropping? {
      CommitsMove(s.objs, s.acts, s.commits, s.issued, t, a);
    } else {
      LockCommits(s.objs, s.acts, s.issued, s.closed, s.commits, t, a);
      forall id | id in s.objs ensures s.objs[id].reservation != Some(r) { }
    }
  }

  lemma LockCommits(objs: map<int, Lease>, acts: map<int, Act>, issued: set<int>, closed: set<int>, commits: set<int>, t: int, a: Act)
    requires FreshOk(objs, acts, issued, closed) && CommitsOk(objs, acts, commits, issued)
    requires t in acts && acts[t].Got? && a.Locked? && a.id == acts[t].id && a.res == acts[t].res && a.id in objs
    ensures CommitsOk(objs, acts[t := a], if objs[a.id].committed then commits + {a.res} else commits, issued)
  {
    assert Fresh(acts[t]) == Some(a.res);
    forall u | u in acts && u != t && (acts[u].Locked? || acts[u].Checked? || acts[u].Inserting? || acts[u].Got?)
      ensures acts[u].res != a.res
    {
      assert Fresh(acts[u]) == Some(acts[u].res);
    }
  }

  lemma CheckKeeps(s: State, s': State, t: int)
    requires Inv(s) && Check(s, s', t)
    ensures Inv(s')
  {
    var a := s'.acts[t];
    FreshMoves(s.objs, s.acts, s.issued, s.closed, t, a);
    StaleMoves(s.objs, s.tabled, s.tabled, s.acts, s.issued, t, a);
    CommitsMove(s.objs, s.acts, s.commits, s.issued, t, a);
    RebindMoves(s.objs, s.acts, t, a);
    WaitMoves(s.objs, s.tabled, s.tabled, s.acts, t, a);
    AccountMoves(s, s', t);
  }

  /** The replacement goes into the lease, which cannot have lost its last reader since the check. */
  lemma StoreKeeps(s: State, s': State, t: int)
    requires Inv(s) && Store(s, s', t)
    ensures Inv(s')
  {
    var a := s'.acts[t];
    var id, r := s.acts[t].id, s.acts[t].res;
    assert Fresh(s.acts[t]) == Some(r) && !IsStored(s.objs, r) && Target(s.acts[t]) == Some(id);
    StoreFresh(s, s', t, a);
    StoreStored(s, s', t);
    StoreRest(s, s', t, a);
    forall x | x in s'.issued ensures Accounted(s', x) {
      assert Accounted(s, x);
      if x == r {
        if id !in s.tabled { AwaitsMoves(s.acts, t, a, id); }
        assert s'.objs[id].reservation == Some(x);
      } else if x !in s.closed {
        if InHand(s.acts, x) {
          HandMoves(s.acts, t, a, x);
        } else {
          var j :| j in s.objs && s.objs[j].reservation == Some(x) && (j in s.tabled || Awaits(s.acts, j));
          if j !in s.tabled { AwaitsMoves(s.acts, t, a, j); }
          assert j != id && s'.objs[j].reservation == Some(x);
        }
      }
    }
  }

  lemma StoreFresh(s: State, s': State, t: int, a: Act)
    requires Inv(s) && Store(s, s', t) && a == s'.acts[t]
    ensures FreshOk(s'.objs, s'.acts, s.issued, s.closed)
  {
    FreshMoves(s.objs, s.acts, s.issued, s.closed, t, a);
    assert Fresh(s.acts[t]) == Some(s.acts[t].res);
    forall x | IsStored(s'.objs, x) && x != s.acts[t].res ensures IsStored(s.objs, x) {
      var id :| id in s'.objs && s'.objs[id].reservation == Some(x);
      assert s.objs[id].reservation == Some(x);
    }
  }

  lemma StoreStored(s: State, s': State, t: int)
    requires Inv(s) && Store(s, s', t) && !IsStored(s.objs, s.acts[t].res) && Fresh(s.acts[t]) == Some(s.acts[t].res)
    ensures StoredOk(s'.objs, s.tabled, s.issued, s.closed, s.commits)
  {
  }

  lemma StoreRest(s: State, s': State, t: int, a: Act)
    requires Inv(s) && Store(s, s', t) && a == s'.acts[t]
    requires Fresh(s.acts[t]) == Some(s.acts[t].res)
    ensures StaleOk(s'.objs, s.tabled, s'.acts, s.issued) && CommitsOk(s'.objs, s'.acts, s.commits, s.issued)
    ensures RebindOk(s'.objs, s'.acts) && WaitOk(s'.objs, s.tabled, s'.acts)
  {
    StoreStale(s, s', t, a);
    CommitsMove(s.objs, s.acts, s.commits, s.issued, t, a);
    RebindMoves(s.objs, s.acts, t, a);
    WaitMoves(s.objs, s.tabled, s.tabled, s.acts, t, a);
    forall u | u in s'.acts && u != t ensures Target(s'.acts[u]).None? { assert !Rebinds(s.acts[u]); }
  }

  lemma StoreStale(s: State, s': State, t: int, a: Act)
    requires Inv(s) && Store(s, s', t) && a == s'.acts[t]
    requires Fresh(s.acts[t]) == Some(s.acts[t].res)
    ensures StaleOk(s'.objs, s.tabled, s'.acts, s.issued)
  {
    StaleMoves(s.objs, s.tabled, s.tabled, s.acts, s.issued, t, a);
    forall u | u in s'.acts && Stale(s'.acts[u]).Some? ensures Stale(s'.acts[u]) != Some(s.acts[t].res) {
      assert u != t;
    }
  }

  lemma ReserveKeeps(l: Limits, s: State, s': State, t: int)
    requires Inv(s)
    requires || AcquireSlot(l, s, s', t) || ReserveFail(s, s', t) || Answered(s, s', t)
             || (exists r: int :: ReserveSpill(s, s', t, r)) || (exists r: int :: ReserveGot(s, s', t, r))
    ensures Inv(s')
  {
    if r: int :| ReserveGot(s, s', t, r) {
      IssueKeeps(s, s', t, Inserting(r), r);
    } else {
      PlainKeeps(s, s', t, s'.acts[t]);
    }
  }

  lemma CloseReservationKeeps(s: State, s': State, t: int)
    requires Inv(s) && CloseReservation(s, s', t)
    ensures Inv(s')
  {
    CloseKeeps(s, s', t, Removing(s.acts[t].ids));
  }

  lemma LookupKeeps(s: State, s': State, t: int, id: int)
    requires Inv(s) && Lookup(s, s', t, id)
    ensures Inv(s')
  {
    PlainKeeps(s, s', t, Looked(id));
  }

  lemma TableStepKeeps(l: Limits, s: State, s': State, t: int)
    requires Inv(s) && TableStep(l, s, s', t)
    ensures Inv(s')
  {
    if || AcquireSlot(l, s, s', t) || ReserveFail(s, s', t) || Answered(s, s', t)
       || (exists r: int :: ReserveSpill(s, s', t, r)) || (exists r: int :: ReserveGot(s, s', t, r)) {
      ReserveKeeps(l, s, s', t);
    } else if pid: int, owner: Owner :| Insert(s, s', t, pid, owner) {
      InsertKeeps(s, s', t, pid, owner);
    } else if id: int :| Remove(s, s', t, id) {
      RemoveKeeps(s, s', t, id);
    } else if id: int, pid: int, n: int :| DropOwner(s, s', t, id, pid, n) {
      DropOwnerKeeps(s, s', t, id, pid, n);
    } else if ids: seq<int> :| TakeAll(s, s', t, ids) {
      TakeAllKeeps(s, s', t, ids);
    } else if ReadReservation(s, s', t) {
      ReadReservationKeeps(s, s', t);
    } else if CloseReservation(s, s', t) {
      CloseReservationKeeps(s, s', t);
    } else if id: int, pid: int, owner: Owner :| AdoptOwner(l, s, s', id, pid, owner) {
      AdoptOwnerKeeps(l, s, s', id, pid, owner);
    } else if id: int :| Lookup(s, s', t, id) {
      LookupKeeps(s, s', t, id);
    } else {
      var ok :| CommitLease(s, s', t, ok);
      CommitLeaseKeeps(s, s', t, ok);
    }
  }

  lemma PassKeeps(s: State, s': State, t: int)
    requires Inv(s) && (Skip(s, s', t) || CallFail(s, s', t) || EndRebind(s, s', t) || exists r: int :: CallSpill(s, s', t, r))
    ensures Inv(s')
  {
    PlainKeeps(s, s', t, s'.acts[t]);
  }

  lemma StartRebindKeeps(s: State, s': State, t: int, todo: seq<int>, missing: bool)
    requires Inv(s) && StartRebind(s, s', t, todo, missing)
    ensures Inv(s')
  {
    PlainKeeps(s, s', t, Rebinding(todo, missing));
  }

  lemma RebindClosesKeep(s: State, s': State, t: int)
    requires Inv(s) && (CloseOld(s, s', t) || Drop(s, s', t))
    ensures Inv(s')
  {
    CloseKeeps(s, s', t, s'.acts[t]);
  }

  lemma CallGotKeeps(s: State, s': State, t: int, r: int)
    requires Inv(s) && CallGot(s, s', t, r)
    ensures Inv(s')
  {
    IssueKeeps(s, s', t, s'.acts[t], r);
  }

  lemma RebindStepKeeps(s: State, s': State, t: int)
    requires Inv(s) && RebindStep(s, s', t)
    ensures Inv(s')
  {
    if todo: seq<int>, missing: bool :| StartRebind(s, s', t, todo, missing) {
      StartRebindKeeps(s, s', t, todo, missing);
    } else if Skip(s, s', t) || CallFail(s, s', t) || EndRebind(s, s', t) || (exists r: int :: CallSpill(s, s', t, r)) {
      PassKeeps(s, s', t);
    } else if Take(s, s', t) {
      TakeKeeps(s, s', t);
    } else if CloseOld(s, s', t) || Drop(s, s', t) {
      RebindClosesKeep(s, s', t);
    } else if r: int :| CallGot(s, s', t, r) {
      CallGotKeeps(s, s', t, r);
    } else if ok: bool :| LockLease(s, s', t, ok) {
      LockLeaseKeeps(s, s', t, ok);
    } else if Check(s, s', t) {
      CheckKeeps(s, s', t);
    } else {
      StoreKeeps(s, s', t);
    }
  }

  // ----- Slots and owners -----

  predicate HasSlot(a: Act) { a.Reserving? || a.Inserting? }

  function Slots(acts: map<int, Act>): set<int> { set t | t in acts && HasSlot(acts[t]) }

  /** The limits hold, and every request that holds a slot is counted once in `pending`. */
  ghost predicate Bounded(l: Limits, s: State) {
    && s.pending == |Slots(s.acts)| && |s.tabled| + s.pending <= l.maxLeases
    && forall id :: id in s.tabled ==> id in s.objs && 1 <= |s.objs[id].owners| <= l.maxOwners
  }

  lemma SlotsMove(acts: map<int, Act>, t: int, a: Act)
    ensures |Slots(acts[t := a])| == |Slots(acts)| + (if HasSlot(a) then 1 else 0) - (if HasSlot(ActOf(acts, t)) then 1 else 0)
  {
    var rest := Slots(acts) - {t};
    assert Slots(acts) == if HasSlot(ActOf(acts, t)) then rest + {t} else rest;
    assert Slots(acts[t := a]) == if HasSlot(a) then rest + {t} else rest;
  }

  /** A step that adds no lease and changes no owners. */
  lemma SlotsKept(l: Limits, s: State, s': State, t: int)
    requires Bounded(l, s) && t in s'.acts && s'.acts == s.acts[t := s'.acts[t]] && s'.tabled <= s.tabled
    requires s'.pending == s.pending + (if HasSlot(s'.acts[t]) then 1 else 0) - (if HasSlot(ActOf(s.acts, t)) then 1 else 0)
    requires |s'.tabled| + s'.pending <= l.maxLeases
    requires forall id :: id in s.objs ==> id in s'.objs && s'.objs[id].owners == s.objs[id].owners
    ensures Bounded(l, s')
  {
    SlotsMove(s.acts, t, s'.acts[t]);
  }

  lemma SmallerTable(l: Limits, s: State, s': State, t: int)
    requires Bounded(l, s) && t in s'.acts && s'.acts == s.acts[t := s'.acts[t]] && s'.tabled <= s.tabled && s'.pending == s.pending
    requires !HasSlot(s'.acts[t]) && !HasSlot(ActOf(s.acts, t))
    requires forall id :: id in s.objs ==> id in s'.objs && s'.objs[id].owners == s.objs[id].owners
    ensures Bounded(l, s')
  {
    Fewer(s'.tabled, s.tabled);
    SlotsKept(l, s, s', t);
  }

  lemma {:induction false} Fewer(a: set<int>, b: set<int>)
    requires a <= b
    ensures |a| <= |b|
  {
    assert b == a + (b - a);
  }

  lemma InsertBounded(l: Limits, s: State, s': State, t: int, pid: int, owner: Owner)
    requires Inv(s) && Bounded(l, s) && l.maxOwners > 0 && Insert(s, s', t, pid, owner)
    ensures Bounded(l, s')
  {
    SlotsMove(s.acts, t, s'.acts[t]);
    assert s'.tabled == s.tabled + {s.next} && s.next !in s.tabled;
    assert map[pid := owner].Keys == {pid};
    assert |map[pid := owner]| == 1;
  }

  /** A slot given back was really held: the guard of releaseLeaseSlot never fails. */
  lemma SlotHeld(l: Limits, s: State, t: int)
    requires Bounded(l, s) && Is(s, t, Reserving)
    ensures s.pending > 0
  {
    assert t in Slots(s.acts);
  }

  lemma DropOwnerBounded(l: Limits, s: State, s': State, t: int, id: int, pid: int, identity: int)
    requires Bounded(l, s) && DropOwner(s, s', t, id, pid, identity)
    ensures Bounded(l, s')
  {
    if s' != s {
      var left := s.objs[id].owners - {pid};
      assert left.Keys == s.objs[id].owners.Keys - {pid};
      assert |left| == |s.objs[id].owners| - 1 by { assert |left| == |left.Keys| && |s.objs[id].owners| == |s.objs[id].owners.Keys|; }
      if left == map[] {
        SlotsMove(s.acts, t, s'.acts[t]);
        Fewer(s'.tabled, s.tabled);
      }
    }
  }

  lemma AdoptOwnerBounded(l: Limits, s: State, s': State, id: int, pid: int, owner: Owner)
    requires Bounded(l, s) && AdoptOwner(l, s, s', id, pid, owner)
    ensures Bounded(l, s')
  {
    var more := s.objs[id].owners[pid := owner];
    assert more.Keys == s.objs[id].owners.Keys + {pid};
    assert |more| == |more.Keys| && |s.objs[id].owners| == |s.objs[id].owners.Keys|;
  }

  lemma TableStepBounded(l: Limits, s: State, s': State, t: int)
    requires Inv(s) && Bounded(l, s) && l.maxOwners > 0 && TableStep(l, s, s', t)
    ensures Bounded(l, s')
  {
    if || AcquireSlot(l, s, s', t) || ReserveFail(s, s', t)
       || (exists r: int :: ReserveSpill(s, s', t, r)) || (exists r: int :: ReserveGot(s, s', t, r)) {
      ReserveBounded(l, s, s', t);
    } else if pid: int, owner: Owner :| Insert(s, s', t, pid, owner) {
      InsertBounded(l, s, s', t, pid, owner);
    } else if id: int, pid: int, n: int :| DropOwner(s, s', t, id, pid, n) {
      DropOwnerBounded(l, s, s', t, id, pid, n);
    } else if id: int, pid: int, owner: Owner :| AdoptOwner(l, s, s', id, pid, owner) {
      AdoptOwnerBounded(l, s, s', id, pid, owner);
    } else if id: int :| Remove(s, s', t, id) {
      RemovalBounded(l, s, s', t, id);
    } else if ids: seq<int> :| TakeAll(s, s', t, ids) {
      TakeAllBounded(l, s, s', t, ids);
    } else if ReadReservation(s, s', t) || CloseReservation(s, s', t) {
      ClosingBounded(l, s, s', t);
    } else {
      CommitBounded(l, s, s', t);
    }
  }

  lemma RemovalBounded(l: Limits, s: State, s': State, t: int, id: int)
    requires Bounded(l, s) && Remove(s, s', t, id)
    ensures Bounded(l, s')
  {
    SmallerTable(l, s, s', t);
  }

  lemma TakeAllBounded(l: Limits, s: State, s': State, t: int, ids: seq<int>)
    requires Bounded(l, s) && TakeAll(s, s', t, ids)
    ensures Bounded(l, s')
  {
    SmallerTable(l, s, s', t);
  }

  lemma ClosingBounded(l: Limits, s: State, s': State, t: int)
    requires Bounded(l, s) && (ReadReservation(s, s', t) || CloseReservation(s, s', t))
    ensures Bounded(l, s')
  {
    SmallerTable(l, s, s', t);
  }

  lemma CommitBounded(l: Limits, s: State, s': State, t: int)
    requires Bounded(l, s)
    requires Answered(s, s', t) || (exists id: int :: Lookup(s, s', t, id)) || (exists ok: bool :: CommitLease(s, s', t, ok))
    ensures Bounded(l, s')
  {
    SmallerTable(l, s, s', t);
  }

  lemma ReserveBounded(l: Limits, s: State, s': State, t: int)
    requires Bounded(l, s)
    requires || AcquireSlot(l, s, s', t) || ReserveFail(s, s', t)
             || (exists r: int :: ReserveSpill(s, s', t, r)) || (exists r: int :: ReserveGot(s, s', t, r))
    ensures Bounded(l, s')
  {
    if ReserveFail(s, s', t) || exists r: int :: ReserveSpill(s, s', t, r) { SlotHeld(l, s, t); }
    SlotsKept(l, s, s', t);
  }

  lemma RebindTakesBounded(l: Limits, s: State, s': State, t: int)
    requires Bounded(l, s)
    requires (exists todo: seq<int>, missing: bool :: StartRebind(s, s', t, todo, missing)) || Skip(s, s', t) || Take(s, s', t) || CloseOld(s, s', t)
    ensures Bounded(l, s')
  {
    SmallerTable(l, s, s', t);
  }

  lemma RebindStoresBounded(l: Limits, s: State, s': State, t: int)
    requires Bounded(l, s) && (Check(s, s', t) || Store(s, s', t) || Drop(s, s', t) || EndRebind(s, s', t))
    ensures Bounded(l, s')
  {
    SmallerTable(l, s, s', t);
  }

  lemma RebindStepBounded(l: Limits, s: State, s': State, t: int)
    requires Bounded(l, s) && RebindStep(s, s', t)
    ensures Bounded(l, s')
  {
    if (exists todo: seq<int>, missing: bool :: StartRebind(s, s', t, todo, missing)) || Skip(s, s', t) || Take(s, s', t) || CloseOld(s, s', t) {
      RebindTakesBounded(l, s, s', t);
    } else if Check(s, s', t) || Store(s, s', t) || Drop(s, s', t) || EndRebind(s, s', t) {
      RebindStoresBounded(l, s, s', t);
    } else {
      SmallerTable(l, s, s', t);
    }
  }

  // ----- Whole runs -----

  lemma InitKeeps(l: Limits, s: State)
    requires Init(s) && l.maxLeases >= 0
    ensures Inv(s) && Bounded(l, s)
  {
    assert Slots(map[]) == {};
  }

  lemma StepKeeps(l: Limits, s: State, s': State)
    requires Inv(s) && Bounded(l, s) && l.maxOwners > 0 && Step(l, s, s')
    ensures Inv(s') && Bounded(l, s')
  {
    var t :| TableStep(l, s, s', t) || RebindStep(s, s', t);
    if TableStep(l, s, s', t) {
      TableStepKeeps(l, s, s', t);
      TableStepBounded(l, s, s', t);
    } else {
      RebindStepKeeps(s, s', t);
      RebindStepBounded(l, s, s', t);
    }
  }

  lemma {:induction false} RunKeeps(l: Limits, run: seq<State>, i: nat)
    requires Run(l, run) && i < |run| && l.maxLeases >= 0 && l.maxOwners > 0
    ensures Inv(run[i]) && Bounded(l, run[i])
  {
    if i == 0 {
      InitKeeps(l, run[0]);
    } else {
      RunKeeps(l, run, i - 1);
      assert Next(l, run, i - 1);
      StepKeeps(l, run[i - 1], run[i]);
    }
  }

  /** In every interleaving, what a tabled lease stores is open, and committed exactly when the lease is. */
  lemma TabledReservationIsOpen(l: Limits, run: seq<State>, i: nat, id: int)
    requires Run(l, run) && i < |run| && l.maxLeases >= 0 && l.maxOwners > 0 && id in run[i].tabled
    ensures id in run[i].objs
    ensures var lease := run[i].objs[id];
            lease.reservation.Some? ==>
              && lease.reservation.value in run[i].issued
              && lease.reservation.value !in run[i].closed
              && (lease.reservation.value in run[i].commits <==> lease.committed)
  {
    RunKeeps(l, run, i);
  }

  /** A reservation is in the table, in the hands of a step in progress, or closed, exactly when the backend returned it
      without an error. One that came with an error is dropped and never closed. */
  lemma ReservationsAreAccountedIff(l: Limits, run: seq<State>, i: nat, r: int)
    requires Run(l, run) && i < |run| && l.maxLeases >= 0 && l.maxOwners > 0 && r in run[i].issued + run[i].spilled
    ensures Accounted(run[i], r) <==> r !in run[i].spilled
  {
    RunKeeps(l, run, i);
    var s := run[i];
    if r in s.spilled && InHand(s.acts, r) {
      var t :| t in s.acts && (Fresh(s.acts[t]) == Some(r) || Stale(s.acts[t]) == Some(r));
    }
  }

  /** Once nothing is in progress and the table is empty, every reservation ever returned is closed. */
  lemma QuietServerHoldsNothing(l: Limits, run: seq<State>, i: nat)
    requires Run(l, run) && i < |run| && l.maxLeases >= 0 && l.maxOwners > 0
    requires run[i].tabled == {} && (forall t :: t in run[i].acts ==> run[i].acts[t].Idle?)
    ensures run[i].issued == run[i].closed && run[i].issued !! run[i].spilled && run[i].pending == 0
  {
    RunKeeps(l, run, i);
    var s := run[i];
    forall r | r in s.issued ensures r in s.closed { assert Accounted(s, r); }
    assert s.issued <= s.closed;
    assert forall t :: t in s.acts ==> !HasSlot(s.acts[t]);
    assert Slots(s.acts) == {};
  }
}
