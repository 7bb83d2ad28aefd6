/** The control server object (internal/listencontrol/server.go). Each locked section is a method that makes
    exactly one step of the machine in LeaseServer, and the rebind pass is the loop over those sections. */
module LeaseTable {
  import opened Bytes
  import opened Owners
  import opened LeaseServer

  /** What the backend answers about one lease during a rebind. */
  datatype Answer = Canceled | NoReservation | Spilled(res: int) | Reserved(res: int, commitOk: bool)

  ghost predicate Path(l: Limits, run: seq<State>, s: State, s': State) {
    && |run| > 0 && run[0] == s && run[|run| - 1] == s'
    && forall i :: 0 <= i < |run| - 1 ==> Step(l, run[i], run[i + 1])
  }

  /** Some steps of the machine lead from one state to the other. */
  ghost predicate Reaches(l: Limits, s: State, s': State) { exists run :: Path(l, run, s, s') }

  lemma Stay(l: Limits, s: State)
    ensures Reaches(l, s, s)
  {
    assert Path(l, [s], s, s);
  }

  lemma Further(l: Limits, s: State, s1: State, s2: State)
    requires Reaches(l, s, s1) && Step(l, s1, s2)
    ensures Reaches(l, s, s2)
  {
    var run :| Path(l, run, s, s1);
    assert Path(l, run + [s2], s, s2);
  }

  lemma Together(l: Limits, s: State, s1: State, s2: State)
    requires Reaches(l, s, s1) && Reaches(l, s1, s2)
    ensures Reaches(l, s, s2)
  {
    var a, b :| Path(l, a, s, s1) && Path(l, b, s1, s2);
    assert Path(l, a + b[1..], s, s2);
  }

  lemma Moves(l: Limits, s0: State, s: State, s': State, t: int)
    requires Reaches(l, s0, s) && RebindStep(s, s', t)
    ensures Reaches(l, s0, s')
  {
    Further(l, s0, s, s');
  }

  lemma TableMoves(l: Limits, s0: State, s: State, s': State, t: int)
    requires Reaches(l, s0, s) && TableStep(l, s, s', t)
    ensures Reaches(l, s0, s')
  {
    Further(l, s0, s, s');
  }

  /** No other request rebinds. */
  ghost predicate Alone(acts: map<int, Act>, t: int) { forall u :: u in acts && u != t ==> !Rebinds(acts[u]) }

  lemma AloneFree(acts: map<int, Act>, t: int, id: int)
    requires Alone(acts, t) && !ActOf(acts, t).Locked? && !ActOf(acts, t).Checked?
    ensures !Held(acts, id)
  {
  }

  /** How one lease came out of its turn. */
  ghost predicate CameOut(l: Lease, l': Lease, closed: set<int>, missing: bool, a: Answer) {
    && l' == l.(reservation := l'.reservation)
    && if a.Canceled? || (missing && l.reservation.Some?) then l' == l
       else
         && (l.reservation.Some? ==> l.reservation.value in closed)
         && l'.reservation == (if a.Reserved? && (l.committed ==> a.commitOk) then Some(a.res) else None)
         && (a.Reserved? && l.committed && !a.commitOk ==> a.res in closed)
  }

  /** The first n leases had their turn and nothing else changed. */
  ghost predicate Turned(objs: map<int, Lease>, objs': map<int, Lease>, closed: set<int>, ids: seq<int>, missing: bool,
                         answers: seq<Answer>, n: int)
    requires |answers| == |ids| && forall i :: 0 <= i < |ids| ==> ids[i] in objs
  {
    && objs'.Keys == objs.Keys
    && (forall i :: 0 <= i < |ids| && i < n ==> CameOut(objs[ids[i]], objs'[ids[i]], closed, missing, answers[i]))
    && (forall i :: n <= i < |ids| && 0 <= i ==> objs'[ids[i]] == objs[ids[i]])
    && (forall id :: id in objs && id !in ids ==> objs'[id] == objs[id])
  }

  lemma TurnNext(objs: map<int, Lease>, was: map<int, Lease>, objs': map<int, Lease>, closed: set<int>, closed': set<int>,
                 ids: seq<int>, missing: bool, answers: seq<Answer>, n: nat)
    requires |answers| == |ids| && n < |ids| && (forall i :: 0 <= i < |ids| ==> ids[i] in objs)
    requires forall i, j :: 0 <= i < j < |ids| ==> ids[i] != ids[j]
    requires Turned(objs, was, closed, ids, missing, answers, n) && closed <= closed' && objs'.Keys == was.Keys
    requires CameOut(was[ids[n]], objs'[ids[n]], closed', missing, answers[n])
    requires forall id :: id in objs' && id != ids[n] ==> objs'[id] == was[id]
    ensures Turned(objs, objs', closed', ids, missing, answers, n + 1)
  {
  }

  predicate Returns(a: Answer) { a.Spilled? || a.Reserved? }

  /** The backend returns only reservations it has not returned before. */
  ghost predicate NewOnes(answers: seq<Answer>, returned: set<int>) {
    && (forall i :: 0 <= i < |answers| && Returns(answers[i]) ==> answers[i].res !in returned)
    && (forall i, j :: 0 <= i < j < |answers| && Returns(answers[i]) && Returns(answers[j]) ==> answers[i].res != answers[j].res)
  }

  lemma StillUnseen(s: State, s': State, answers: seq<Answer>, n: nat)
    requires n < |answers| && NewOnes(answers[n..], s.issued + s.spilled)
    requires s'.issued + s'.spilled <= s.issued + s.spilled + (if Returns(answers[n]) then {answers[n].res} else {})
    ensures NewOnes(answers[n + 1..], s'.issued + s'.spilled)
  {
    var rest, next := answers[n..], answers[n + 1..];
    forall i | 0 <= i < |next| ensures next[i] == rest[i + 1] { }
  }

  lemma Starts(l: Limits, s: State, t: int, ids: seq<int>, missing: bool)
    requires Is(s, t, Idle) && Alone(s.acts, t) && forall i :: 0 <= i < |ids| ==> ids[i] in s.tabled
    ensures Reaches(l, s, Go(s, t, Rebinding(ids, missing)))
  {
    var s' := Go(s, t, Rebinding(ids, missing));
    Stay(l, s);
    assert StartRebind(s, s', t, ids, missing);
    Moves(l, s, s, s', t);
  }

  lemma Ends(l: Limits, s0: State, s: State, t: int)
    requires Reaches(l, s0, s) && t in s.acts && s.acts[t].Rebinding? && s.acts[t].todo == []
    ensures Reaches(l, s0, End(s, t))
  {
    assert EndRebind(s, End(s, t), t);
    Moves(l, s0, s, End(s, t), t);
  }

  class Server {
    const limits: Limits
    var objs: map<int, Lease>
    var tabled: set<int>
    var pending: int
    var next: int

    constructor (limits: Limits)
      ensures this.limits == limits && Init(State(objs, tabled, pending, next, map[], {}, {}, {}, {}))
    {
      this.limits := limits;
      objs, tabled, pending, next := map[], {}, 0, 1;
    }

    /** The table part of a machine state. */
    ghost predicate Shows(s: State)
      reads this
    {
      s.objs == objs && s.tabled == tabled && s.pending == pending && s.next == next
    }

    method AcquireLeaseSlot(ghost s: State, ghost t: int) returns (ok: bool, ghost s': State)
      requires Shows(s) && Is(s, t, Idle)
      modifies this`pending
      ensures Shows(s') && if ok then AcquireSlot(limits, s, s', t) else s' == s
      ensures ok <==> |s.tabled| + s.pending < limits.maxLeases
      ensures pending == old(pending) + if ok then 1 else 0
    {
      s' := s;
      ok := |tabled| + pending < limits.maxLeases;
      if ok {
        pending := pending + 1;
        s' := Go(s, t, Reserving).(pending := pending);
      }
    }

    method ReleaseLeaseSlot(ghost s: State, ghost t: int) returns (ghost s': State)
      requires Shows(s) && Is(s, t, Reserving)
      modifies this`pending
      ensures Shows(s') && ReserveFail(s, s', t)
      ensures old(pending) > 0 ==> pending == old(pending) - 1
    {
      if pending > 0 { pending := pending - 1; }
      s' := End(s, t).(pending := pending);
    }

    method InsertLease(res: int, pid: int, owner: Owner, ghost s: State, ghost t: int) returns (id: int, ghost s': State)
      requires Shows(s) && Is(s, t, Inserting(res))
      modifies this
      ensures Shows(s') && Insert(s, s', t, pid, owner) && id == s.next
      ensures next == id + 1 && pending == old(pending) - 1 && tabled == old(tabled) + {id}
      ensures objs == old(objs)[id := Lease(Some(res), false, map[pid := owner])]
    {
      id := next;
      next := next + 1;
      pending := pending - 1;
      objs := objs[id := Lease(Some(res), false, map[pid := owner])];
      tabled := tabled + {id};
      s' := Go(s, t, Inserted(id)).(objs := objs, tabled := tabled, pending := pending, next := next);
    }

    method Adopt(id: int, pid: int, owner: Owner, ghost s: State) returns (ok: bool, ghost s': State)
      requires Shows(s) && (forall i :: i in s.tabled ==> i in s.objs)
      modifies this`objs
      ensures Shows(s') && if ok then AdoptOwner(limits, s, s', id, pid, owner) else s' == s
      ensures ok <==> id in s.tabled && (pid in s.objs[id].owners || |s.objs[id].owners| < limits.maxOwners)
      ensures objs == if ok then old(objs)[id := old(objs)[id].(owners := old(objs)[id].owners[pid := owner])] else old(objs)
    {
      ok, s' := false, s;
      if id !in tabled { return; }
      var l := objs[id];
      if pid !in l.owners && |l.owners| >= limits.maxOwners { return; }
      objs := objs[id := l.(owners := l.owners[pid := owner])];
      ok, s' := true, s.(objs := objs);
    }

    /** The table section of removeOwner; `last` asks the caller to read and close the reservation. */
    method TakeOwner(id: int, pid: int, identity: int, ghost s: State, ghost t: int) returns (last: bool, ghost s': State)
      requires Shows(s) && Is(s, t, Idle)
      modifies this`objs, this`tabled
      ensures Shows(s') && DropOwner(s, s', t, id, pid, identity)
      ensures last <==> id in s.tabled && id !in s'.tabled
      ensures s'.acts == if last then s.acts[t := Removing([id])] else s.acts
      ensures var known := id in s.tabled && id in s.objs && pid in s.objs[id].owners && s.objs[id].owners[pid].identity == identity;
              && objs == (if known then s.objs[id := s.objs[id].(owners := s.objs[id].owners - {pid})] else s.objs)
              && (last <==> known && s.objs[id].owners - {pid} == map[])
      ensures tabled == if last then s.tabled - {id} else s.tabled
    {
      last, s' := false, s;
      if id !in tabled || id !in objs || pid !in objs[id].owners || objs[id].owners[pid].identity != identity { return; }
      var l := objs[id].(owners := objs[id].owners - {pid});
      objs := objs[id := l];
      s' := s.(objs := objs);
      if l.owners == map[] {
        tabled := tabled - {id};
        last, s' := true, Go(s', t, Removing([id])).(tabled := tabled);
      }
    }

    method RemoveLease(id: int, ghost s: State, ghost t: int) returns (found: bool, ghost s': State)
      requires Shows(s) && (Is(s, t, Idle) || Is(s, t, Inserted(id)) || Is(s, t, Refused(id)))
      modifies this`tabled
      ensures Shows(s') && Remove(s, s', t, id) && (found <==> id in s.tabled)
      ensures tabled == old(tabled) - {id} && s'.acts == s.acts[t := if found then Removing([id]) else Idle]
    {
      found := id in tabled;
      tabled := tabled - {id};
      s' := if found then Go(s, t, Removing([id])).(tabled := tabled) else End(s, t);
    }

    method CommitSection(id: int, backendOk: bool, ghost s: State, ghost t: int) returns (ghost s': State)
      requires Shows(s) && Is(s, t, Looked(id)) && id in s.objs && !Held(s.acts, id)
      modifies this`objs
      ensures Shows(s') && CommitLease(s, s', t, backendOk)
      ensures var l := s.objs[id];
              var done := l.reservation.Some? && backendOk;
              && objs == (if done then s.objs[id := l.(committed := true)] else s.objs)
              && s'.commits == (if done then s.commits + {l.reservation.value} else s.commits)
              && s'.acts == s.acts[t := if l.reservation.Some? && !backendOk then Refused(id) else Idle]
    {
      var l := objs[id];
      if l.reservation.None? {
        s' := End(s, t);
      } else if backendOk {
        objs := objs[id := l.(committed := true)];
        s' := End(s, t).(objs := objs, commits := s.commits + {l.reservation.value});
      } else {
        s' := Go(s, t, Refused(id));
      }
    }

    /** The first lease section of a rebind, and the close of what it took out. */
    method TakeReservation(todo: seq<int>, missing: bool, ghost s: State, ghost t: int) returns (took: bool, ghost s': State)
      requires Shows(s) && Is(s, t, Rebinding(todo, missing)) && todo != [] && todo[0] in s.objs && !Held(s.acts, todo[0])
      modifies this`objs
      ensures Shows(s') && Reaches(limits, s, s') && s'.issued == s.issued && s'.spilled == s.spilled
      ensures s'.acts == s.acts[t := if took then Calling(todo[0], todo[1..], missing) else Rebinding(todo[1..], missing)]
      ensures took <==> !(missing && s.objs[todo[0]].reservation.Some?)
      ensures s'.objs == if took then s.objs[todo[0] := s.objs[todo[0]].(reservation := None)] else s.objs
      ensures s'.tabled == s.tabled && s.closed <= s'.closed
      ensures took && s.objs[todo[0]].reservation.Some? ==> s.objs[todo[0]].reservation.value in s'.closed
    {
      var id := todo[0];
      var l := objs[id];
      Stay(limits, s);
      took := !(missing && l.reservation.Some?);
      if !took {
        s' := Go(s, t, Rebinding(todo[1..], missing));
        assert Skip(s, s', t);
      } else {
        objs := objs[id := l.(reservation := None)];
        ghost var s1 := Go(s, t, Took(id, l.reservation, todo[1..], missing)).(objs := objs);
        assert Take(s, s1, t);
        Moves(limits, s, s, s1, t);
        s' := Go(s1, t, Calling(id, todo[1..], missing))
              .(closed := if l.reservation.Some? then s.closed + {l.reservation.value} else s.closed);
        assert CloseOld(s1, s', t);
        Moves(limits, s, s1, s', t);
        return;
      }
      Moves(limits, s, s, s', t);
    }

    /** The second lease section: commit the replacement if need be, look the lease up, store or drop. */
    method StoreReplacement(id: int, res: int, commitOk: bool, ghost todo: seq<int>, ghost missing: bool, ghost s: State, ghost t: int)
        returns (kept: bool, ghost s': State)
      requires Shows(s) && Is(s, t, Got(id, res, todo, missing)) && id in s.objs && !Held(s.acts, id)
      modifies this`objs
      ensures Shows(s') && Reaches(limits, s, s') && s'.issued == s.issued && s'.spilled == s.spilled
      ensures s'.acts == s.acts[t := Rebinding(todo, missing)]
      ensures kept <==> id in s.tabled && (s.objs[id].committed ==> commitOk)
      ensures s'.objs == if kept then s.objs[id := s.objs[id].(reservation := Some(res))] else s.objs
      ensures s'.tabled == s.tabled && s.closed <= s'.closed && (!kept ==> res in s'.closed)
    {
      var l := objs[id];
      ghost var s1 := s;
      Stay(limits, s);
      if l.committed && !commitOk {
        kept := false;
        s1 := Go(s, t, Dropping(res, todo, missing));
        assert LockLease(s, s1, t, commitOk);
        Moves(limits, s, s, s1, t);
      } else {
        s1 := Go(s, t, Locked(id, res, todo, missing)).(commits := if l.committed then s.commits + {res} else s.commits);
        assert LockLease(s, s1, t, commitOk);
        Moves(limits, s, s, s1, t);
        kept := id in tabled;
        ghost var s2 := Go(s1, t, if kept then Checked(id, res, todo, missing) else Dropping(res, todo, missing));
        assert Check(s1, s2, t);
        Moves(limits, s, s1, s2, t);
        s1 := s2;
      }
      if kept {
        objs := objs[id := l.(reservation := Some(res))];
        s' := Go(s1, t, Rebinding(todo, missing)).(objs := objs);
        assert Store(s1, s', t);
      } else {
        s' := Go(s1, t, Rebinding(todo, missing)).(closed := s1.closed + {res});
        assert Drop(s1, s', t);
      }
      Moves(limits, s, s1, s', t);
    }

    /** The end of a removal: read the reservation of every lease taken out and close it. */
    method CloseTaken(ids: seq<int>, ghost s: State, ghost t: int) returns (closes: seq<int>, ghost s': State)
      requires Shows(s) && Is(s, t, Removing(ids)) && (forall i :: 0 <= i < |ids| ==> ids[i] in s.objs) && Alone(s.acts, t)
      ensures Shows(s') && Reaches(limits, s, s') && Is(s', t, Idle) && Alone(s'.acts, t)
      ensures s'.closed == s.closed + (set r | r in closes)
      ensures forall i :: 0 <= i < |ids| && objs[ids[i]].reservation.Some? ==> objs[ids[i]].reservation.value in closes
      ensures forall r :: r in closes ==> exists i :: 0 <= i < |ids| && objs[ids[i]].reservation == Some(r)
    {
      closes, s' := [], s;
      Stay(limits, s);
      var n := 0;
      while n < |ids|
        invariant 0 <= n <= |ids|
        invariant Shows(s') && Reaches(limits, s, s') && Is(s', t, Removing(ids[n..])) && Alone(s'.acts, t)
        invariant s'.closed == s.closed + (set r | r in closes)
        invariant forall i :: 0 <= i < n && objs[ids[i]].reservation.Some? ==> objs[ids[i]].reservation.value in closes
        invariant forall r :: r in closes ==> exists i :: 0 <= i < |ids| && objs[ids[i]].reservation == Some(r)
      {
        var was := objs[ids[n]].reservation;
        s' := ReadAndClose(s, s', t, ids[n..]);
        if was.Some? { closes := closes + [was.value]; }
        assert ids[n..][1..] == ids[n + 1..];
        n := n + 1;
      }
      ghost var s1 := End(s', t);
      assert ReadReservation(s', s1, t);
      TableMoves(limits, s, s', s1, t);
      s' := s1;
    }

    /** Two sections of a removal: read one reservation, close it. */
    ghost method ReadAndClose(s0: State, s: State, t: int, ids: seq<int>) returns (s': State)
      requires Shows(s) && Reaches(limits, s0, s) && Is(s, t, Removing(ids)) && ids != [] && ids[0] in s.objs && Alone(s.acts, t)
      ensures Shows(s') && Reaches(limits, s0, s') && Is(s', t, Removing(ids[1..])) && Alone(s'.acts, t)
      ensures s'.commits == s.commits
      ensures s'.closed == s.closed + (if s.objs[ids[0]].reservation.Some? then {s.objs[ids[0]].reservation.value} else {})
    {
      AloneFree(s.acts, t, ids[0]);
      var was := s.objs[ids[0]].reservation;
      var s1 := Go(s, t, Closing(was, ids[1..]));
      assert ReadReservation(s, s1, t);
      TableMoves(limits, s0, s, s1, t);
      s' := Go(s1, t, Removing(ids[1..])).(closed := if was.Some? then s.closed + {was.value} else s.closed);
      assert CloseReservation(s1, s', t);
      TableMoves(limits, s0, s1, s', t);
    }

    /** ABORT, CLOSE, and the end of a RESERVE whose answer was lost. */
    method RemoveAndClose(id: int, ghost s: State, ghost t: int) returns (closes: seq<int>, ghost s': State)
      requires Shows(s) && (Is(s, t, Idle) || Is(s, t, Inserted(id)) || Is(s, t, Refused(id)))
      requires Alone(s.acts, t) && forall i :: i in s.tabled ==> i in s.objs
      modifies this`tabled
      ensures Shows(s') && Reaches(limits, s, s') && Is(s', t, Idle) && tabled == old(tabled) - {id}
      ensures s'.commits == s.commits
      ensures closes == if id in s.tabled && objs[id].reservation.Some? then [objs[id].reservation.value] else []
      ensures s'.closed == s.closed + (set r | r in closes)
    {
      var found;
      Stay(limits, s);
      found, s' := RemoveLease(id, s, t);
      TableMoves(limits, s, s, s', t);
      closes := [];
      if found {
        ghost var s1 := s';
        s' := ReadAndClose(s, s1, t, [id]);
        if objs[id].reservation.Some? { closes := [objs[id].reservation.value]; }
        ghost var s2 := End(s', t);
        assert ReadReservation(s', s2, t);
        TableMoves(limits, s, s', s2, t);
        s' := s2;
      }
    }

    /** RELEASE and the reaper: the owner goes if it is the one that registered, and with the last one the lease and its
        reservation. */
    method Release(id: int, pid: int, identity: int, ghost s: State, ghost t: int) returns (closes: seq<int>, ghost s': State)
      requires Shows(s) && Is(s, t, Idle) && Alone(s.acts, t) && forall i :: i in s.tabled ==> i in s.objs
      modifies this`objs, this`tabled
      ensures Shows(s') && Reaches(limits, s, s') && Is(s', t, Idle)
      ensures var known := id in s.tabled && pid in s.objs[id].owners && s.objs[id].owners[pid].identity == identity;
              var last := known && s.objs[id].owners - {pid} == map[];
              && objs == (if known then s.objs[id := s.objs[id].(owners := s.objs[id].owners - {pid})] else s.objs)
              && tabled == (if last then s.tabled - {id} else s.tabled)
              && closes == (if last && s.objs[id].reservation.Some? then [s.objs[id].reservation.value] else [])
      ensures s'.closed == s.closed + (set r | r in closes)
    {
      var last;
      Stay(limits, s);
      last, s' := TakeOwner(id, pid, identity, s, t);
      assert TableStep(limits, s, s', t);
      TableMoves(limits, s, s, s', t);
      closes := [];
      if last {
        ghost var s1 := s';
        s' := ReadAndClose(s, s1, t, [id]);
        if objs[id].reservation.Some? { closes := [objs[id].reservation.value]; }
        ghost var s2 := End(s', t);
        assert ReadReservation(s', s2, t);
        TableMoves(limits, s, s', s2, t);
        s' := s2;
      }
    }

    /** Shutdown: the table is emptied and everything in it closed. `ids` is the order the table is listed in. */
    method CloseAll(ids: seq<int>, ghost s: State, ghost t: int) returns (closes: seq<int>, ghost s': State)
      requires Shows(s) && Is(s, t, Idle) && Alone(s.acts, t) && (forall i :: i in s.tabled ==> i in s.objs)
      requires (forall i :: 0 <= i < |ids| ==> ids[i] in s.tabled && ids[i] in s.objs) && (forall id :: id in s.tabled ==> id in ids)
      modifies this`tabled
      ensures Shows(s') && Reaches(limits, s, s') && Is(s', t, Idle) && tabled == {}
      ensures forall id :: id in old(tabled) && objs[id].reservation.Some? ==> objs[id].reservation.value in closes
      ensures forall r :: r in closes ==> exists i :: 0 <= i < |ids| && objs[ids[i]].reservation == Some(r)
      ensures s'.closed == s.closed + (set r | r in closes)
    {
      tabled := {};
      ghost var s1 := Go(s, t, Removing(ids)).(tabled := tabled);
      assert TakeAll(s, s1, t, ids);
      Stay(limits, s);
      TableMoves(limits, s, s, s1, t);
      closes, s' := CloseTaken(ids, s1, t);
      Together(limits, s, s1, s');
    }

    /** The end of a RESERVE that got a reservation: table it and answer, or take it back if the answer cannot be written. */
    method Table(res: int, written: bool, pid: int, owner: Owner, ghost s: State, ghost t: int) returns (id: Option<int>, ghost s': State)
      requires Shows(s) && Is(s, t, Inserting(res)) && Alone(s.acts, t)
      requires (forall i :: i in s.tabled ==> i in s.objs) && next !in tabled
      modifies this
      ensures Shows(s') && Reaches(limits, s, s') && Is(s', t, Idle) && pending == old(pending) - 1
      ensures id == (if written then Some(s.next) else None) && s.next < next
      ensures objs == old(objs)[s.next := Lease(Some(res), false, map[pid := owner])]
      ensures tabled == (if written then old(tabled) + {s.next} else old(tabled))
      ensures s'.closed == (if written then s.closed else s.closed + {res})
    {
      var n;
      n, s' := InsertLease(res, pid, owner, s, t);
      Stay(limits, s);
      assert TableStep(limits, s, s', t);
      TableMoves(limits, s, s, s', t);
      ghost var s1 := s';
      if written {
        id, s' := Some(n), End(s1, t);
        assert LeaseServer.Answered(s1, s', t);
        TableMoves(limits, s, s1, s', t);
      } else {
        id := None;
        var closes;
        closes, s' := RemoveAndClose(n, s1, t);
        Together(limits, s, s1, s');
      }
    }

    /** RESERVE, uninterrupted: with a slot, what the backend returned is tabled under a new id; if the answer could not
        be written it is removed and closed again. Everything else gives the slot back. */
    method Reserve(a: Answer, written: bool, pid: int, owner: Owner, ghost s: State, ghost t: int)
        returns (id: Option<int>, ghost s': State)
      requires Shows(s) && Is(s, t, Idle) && Alone(s.acts, t) && !a.Canceled? && (Returns(a) ==> Unseen(s, a.res))
      requires pending >= 0 && (forall i :: i in s.tabled ==> i in s.objs) && next !in tabled
      modifies this
      ensures Shows(s') && Reaches(limits, s, s') && Is(s', t, Idle) && pending == old(pending)
      ensures var got := a.Reserved? && |s.tabled| + s.pending < limits.maxLeases;
              && id == (if got && written then Some(s.next) else None)
              && objs == (if got then old(objs)[s.next := Lease(Some(a.res), false, map[pid := owner])] else old(objs))
              && tabled == (if got && written then old(tabled) + {s.next} else old(tabled))
              && s'.closed == (if got && !written then s.closed + {a.res} else s.closed)
    {
      var ok;
      id := None;
      Stay(limits, s);
      ok, s' := AcquireLeaseSlot(s, t);
      if !ok { return; }
      TableMoves(limits, s, s, s', t);
      ghost var s1 := s';
      if a.Reserved? {
        ghost var s2 := Go(s1, t, Inserting(a.res)).(issued := s.issued + {a.res});
        assert ReserveGot(s1, s2, t, a.res);
        TableMoves(limits, s, s1, s2, t);
        id, s' := Table(a.res, written, pid, owner, s2, t);
        Together(limits, s, s2, s');
      } else {
        s' := ReleaseLeaseSlot(s1, t);
        if a.Spilled? {
          s' := s'.(spilled := s.spilled + {a.res});
          assert ReserveSpill(s1, s', t, a.res);
        }
        TableMoves(limits, s, s1, s', t);
      }
    }

    /** COMMIT, uninterrupted: the lease and its reservation become committed, or the lease goes and the reservation is closed. */
    method Commit(id: int, backendOk: bool, ghost s: State, ghost t: int) returns (ok: bool, ghost s': State)
      requires Shows(s) && Is(s, t, Idle) && Alone(s.acts, t) && forall i :: i in s.tabled ==> i in s.objs
      modifies this`objs, this`tabled
      ensures Shows(s') && Reaches(limits, s, s') && Is(s', t, Idle)
      ensures ok <==> id in s.tabled && s.objs[id].reservation.Some? && backendOk
      ensures ok ==> objs == s.objs[id := s.objs[id].(committed := true)] && s.objs[id].reservation.value in s'.commits
      ensures !ok ==> objs == s.objs && s'.commits == s.commits
      ensures var refused := id in s.tabled && s.objs[id].reservation.Some? && !backendOk;
              && tabled == (if refused then s.tabled - {id} else s.tabled)
              && (refused ==> s.objs[id].reservation.value in s'.closed)
    {
      ok, s' := false, s;
      Stay(limits, s);
      if id !in tabled { return; }
      ghost var s1 := Go(s, t, Looked(id));
      assert Lookup(s, s1, t, id);
      TableMoves(limits, s, s, s1, t);
      AloneFree(s1.acts, t, id);
      var present := objs[id].reservation.Some?;
      s' := CommitSection(id, backendOk, s1, t);
      assert TableStep(limits, s1, s', t);
      TableMoves(limits, s, s1, s', t);
      ok := present && backendOk;
      if present && !backendOk {
        ghost var s2 := s';
        var closes;
        closes, s' := RemoveAndClose(id, s2, t);
        Together(limits, s, s2, s');
      }
    }

    /** One lease's turn. A canceled pass, or a retry that finds a reservation, leaves the lease alone; otherwise the old
        reservation is closed and the lease has the new one exactly when the backend gave one without an error and, for a
        committed lease, the commit succeeded. */
    method RebindOne(todo: seq<int>, missing: bool, a: Answer, ghost s: State, ghost t: int) returns (ghost s': State)
      requires Shows(s) && Is(s, t, Rebinding(todo, missing)) && todo != [] && todo[0] in s.objs && todo[0] in s.tabled
      requires Alone(s.acts, t) && (Returns(a) ==> Unseen(s, a.res))
      modifies this`objs
      ensures Shows(s') && Reaches(limits, s, s') && Is(s', t, Rebinding(todo[1..], missing)) && Alone(s'.acts, t)
      ensures objs.Keys == s.objs.Keys && objs[todo[0]] == s.objs[todo[0]].(reservation := objs[todo[0]].reservation)
      ensures forall id :: id in objs && id != todo[0] ==> objs[id] == s.objs[id]
      ensures var l := s.objs[todo[0]];
              if a.Canceled? || (missing && l.reservation.Some?) then objs[todo[0]] == l
              else
                && (l.reservation.Some? ==> l.reservation.value in s'.closed)
                && objs[todo[0]].reservation == (if a.Reserved? && (l.committed ==> a.commitOk) then Some(a.res) else None)
                && (a.Reserved? && l.committed && !a.commitOk ==> a.res in s'.closed)
      ensures s.closed <= s'.closed
      ensures s'.tabled == s.tabled && s'.issued + s'.spilled <= s.issued + s.spilled + (if Returns(a) then {a.res} else {})
    {
      AloneFree(s.acts, t, todo[0]);
      if a.Canceled? {
        s' := Go(s, t, Rebinding(todo[1..], missing));
        Stay(limits, s);
        assert Skip(s, s', t);
        Moves(limits, s, s, s', t);
        return;
      }
      var took;
      took, s' := TakeReservation(todo, missing, s, t);
      if took {
        ghost var s1 := s';
        s' := Answered(a, todo[0], todo[1..], missing, s1, t);
        Together(limits, s, s1, s');
      }
    }

    /** What the backend answered takes effect. */
    method Answered(a: Answer, id: int, ghost todo: seq<int>, ghost missing: bool, ghost s: State, ghost t: int) returns (ghost s': State)
      requires Shows(s) && Is(s, t, Calling(id, todo, missing)) && id in s.objs && id in s.tabled && !a.Canceled?
      requires Alone(s.acts, t) && (Returns(a) ==> Unseen(s, a.res))
      modifies this`objs
      ensures Shows(s') && Reaches(limits, s, s') && Is(s', t, Rebinding(todo, missing)) && Alone(s'.acts, t)
      ensures s'.objs == if a.Reserved? && (s.objs[id].committed ==> a.commitOk)
                         then s.objs[id := s.objs[id].(reservation := Some(a.res))] else s.objs
      ensures a.Reserved? && s.objs[id].committed && !a.commitOk ==> a.res in s'.closed
      ensures s.closed <= s'.closed
      ensures s'.tabled == s.tabled && s'.issued + s'.spilled <= s.issued + s.spilled + (if Returns(a) then {a.res} else {})
    {
      Stay(limits, s);
      if a.NoReservation? {
        s' := Go(s, t, Rebinding(todo, missing));
        assert CallFail(s, s', t);
        Moves(limits, s, s, s', t);
        return;
      }
      if a.Spilled? {
        s' := Go(s, t, Rebinding(todo, missing)).(spilled := s.spilled + {a.res});
        assert CallSpill(s, s', t, a.res);
        Moves(limits, s, s, s', t);
        return;
      }
      ghost var s1 := Go(s, t, Got(id, a.res, todo, missing)).(issued := s.issued + {a.res});
      assert CallGot(s, s1, t, a.res);
      Moves(limits, s, s, s1, t);
      AloneFree(s1.acts, t, id);
      var kept;
      kept, s' := StoreReplacement(id, a.res, a.commitOk, todo, missing, s1, t);
      Together(limits, s, s1, s');
    }

    /** The whole pass: what RebindOne says of each lease it lists, and no other changes. */
    method Rebind(ids: seq<int>, missing: bool, answers: seq<Answer>, ghost s: State, ghost t: int) returns (ghost s': State)
      requires Shows(s) && |answers| == |ids| && NewOnes(answers, s.issued + s.spilled)
      requires forall i :: 0 <= i < |ids| ==> ids[i] in s.tabled && ids[i] in s.objs
      requires forall i, j :: 0 <= i < j < |ids| ==> ids[i] != ids[j]
      requires Is(s, t, Idle) && Alone(s.acts, t)
      modifies this`objs
      ensures Shows(s') && Reaches(limits, s, s') && Is(s', t, Idle) && s'.tabled == s.tabled
      ensures objs.Keys == s.objs.Keys && forall id :: id in objs && id !in ids ==> objs[id] == s.objs[id]
      ensures forall i :: 0 <= i < |ids| ==>
                var l, a := s.objs[ids[i]], answers[i];
                && objs[ids[i]] == l.(reservation := objs[ids[i]].reservation)
                && if a.Canceled? || (missing && l.reservation.Some?) then objs[ids[i]] == l
                   else
                     && (l.reservation.Some? ==> l.reservation.value in s'.closed)
                     && objs[ids[i]].reservation == (if a.Reserved? && (l.committed ==> a.commitOk) then Some(a.res) else None)
                     && (a.Reserved? && l.committed && !a.commitOk ==> a.res in s'.closed)
    {
      s' := Go(s, t, Rebinding(ids, missing));
      Starts(limits, s, t, ids, missing);
      assert ids[0..] == ids;
      var n := 0;
      while n < |ids|
        invariant 0 <= n <= |ids|
        invariant Shows(s') && Reaches(limits, s, s') && Is(s', t, Rebinding(ids[n..], missing))
        invariant s'.tabled == s.tabled && Alone(s'.acts, t)
        invariant Turned(s.objs, objs, s'.closed, ids, missing, answers, n)
        invariant NewOnes(answers[n..], s'.issued + s'.spilled)
      {
        ghost var was := s';
        assert ids[n..][0] == ids[n] && ids[n..][1..] == ids[n + 1..];
        s' := RebindOne(ids[n..], missing, answers[n], was, t);
        Together(limits, s, was, s');
        TurnNext(s.objs, was.objs, objs, was.closed, s'.closed, ids, missing, answers, n);
        StillUnseen(was, s', answers, n);
        n := n + 1;
      }
      Ends(limits, s, s', t);
      s' := End(s', t);
    }
  }
}
