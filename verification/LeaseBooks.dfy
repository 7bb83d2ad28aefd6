/** The lease table of LeaseServer refines the owner book of Owners: every step of the table is one operation on the book
    or leaves it alone. So what Ownership proves about the book holds of the tabled leases. */
module LeaseBooks {
  import opened Bytes
  import opened Owners
  import LeaseServer
  import LeaseSafety
  import Ownership

  /** The owners of the tabled leases. */
  ghost function BookOf(s: LeaseServer.State): Book {
    map id | id in s.tabled && id in s.objs :: s.objs[id].owners
  }

  /** RESERVE, ADOPT, RELEASE or reap, ABORT or CLOSE, shutdown, or nothing. */
  ghost predicate BookStep(b: Book, b': Book) {
    || b' == b
    || (exists id: int, pid: int, owner: Owner :: id !in b && b' == Reserve(b, id, pid, owner))
    || (exists id: int, pid: int, owner: Owner :: id in b && b' == Adopt(b, id, pid, owner))
    || (exists id: int, pid: int, identity: int :: b' == RemoveOwner(b, id, pid, identity))
    || (exists id: int :: b' == b - {id})
    || b' == map[]
  }

  /** A step that leaves the table and the owners alone. */
  lemma SameBook(s: LeaseServer.State, s': LeaseServer.State)
    requires s'.tabled == s.tabled && (forall id :: id in s'.objs <==> id in s.objs)
    requires forall id :: id in s.objs ==> s'.objs[id].owners == s.objs[id].owners
    ensures BookOf(s') == BookOf(s)
  {
    var b, b' := BookOf(s), BookOf(s');
    forall id | id in b ensures id in b' && b'[id] == b[id] { }
    forall id | id in b' ensures id in b { }
    assert b'.Keys == b.Keys;
  }

  lemma InsertBook(s: LeaseServer.State, s': LeaseServer.State, t: int, pid: int, owner: Owner)
    requires LeaseServer.Inv(s) && LeaseServer.Insert(s, s', t, pid, owner)
    ensures s.next !in BookOf(s) && BookOf(s') == Reserve(BookOf(s), s.next, pid, owner)
  {
    assert BookOf(s').Keys == BookOf(s).Keys + {s.next};
  }

  lemma AdoptBook(l: LeaseServer.Limits, s: LeaseServer.State, s': LeaseServer.State, id: int, pid: int, owner: Owner)
    requires LeaseServer.AdoptOwner(l, s, s', id, pid, owner)
    ensures id in BookOf(s) && BookOf(s') == Adopt(BookOf(s), id, pid, owner)
  {
  }

  lemma LastOwner(owners: map<int, Owner>, pid: int)
    requires pid in owners
    ensures owners - {pid} == map[] <==> owners.Keys == {pid}
  {
    var left := owners - {pid};
    if left == map[] {
      forall q | q in owners.Keys ensures q == pid { assert q != pid ==> q in left; }
      assert owners.Keys == {pid};
    }
    if owners.Keys == {pid} {
      forall q ensures q !in left { assert q in owners ==> q in owners.Keys; }
      assert left == map[];
    }
  }

  lemma DropBook(s: LeaseServer.State, s': LeaseServer.State, t: int, id: int, pid: int, identity: int)
    requires LeaseServer.DropOwner(s, s', t, id, pid, identity)
    ensures BookOf(s') == RemoveOwner(BookOf(s), id, pid, identity)
  {
    if s' != s {
      LastOwner(s.objs[id].owners, pid);
      assert BookOf(s').Keys == RemoveOwner(BookOf(s), id, pid, identity).Keys;
    }
  }

  lemma RemoveBook(s: LeaseServer.State, s': LeaseServer.State, t: int, id: int)
    requires LeaseServer.Remove(s, s', t, id)
    ensures BookOf(s') == BookOf(s) - {id}
  {
  }

  lemma TableStepRefines(l: LeaseServer.Limits, s: LeaseServer.State, s': LeaseServer.State, t: int)
    requires LeaseServer.Inv(s) && LeaseServer.TableStep(l, s, s', t)
    ensures BookStep(BookOf(s), BookOf(s'))
  {
    if pid: int, owner: Owner :| LeaseServer.Insert(s, s', t, pid, owner) {
      InsertBook(s, s', t, pid, owner);
    } else if id: int, pid: int, n: int :| LeaseServer.DropOwner(s, s', t, id, pid, n) {
      DropBook(s, s', t, id, pid, n);
    } else if id: int, pid: int, owner: Owner :| LeaseServer.AdoptOwner(l, s, s', id, pid, owner) {
      AdoptBook(l, s, s', id, pid, owner);
    } else if id: int :| LeaseServer.Remove(s, s', t, id) {
      RemoveBook(s, s', t, id);
    } else if ids: seq<int> :| LeaseServer.TakeAll(s, s', t, ids) {
      assert BookOf(s') == map[];
    } else {
      QuietRefines(l, s, s', t);
    }
  }

  lemma QuietRefines(l: LeaseServer.Limits, s: LeaseServer.State, s': LeaseServer.State, t: int)
    requires || LeaseServer.AcquireSlot(l, s, s', t) || LeaseServer.ReserveFail(s, s', t) || LeaseServer.Answered(s, s', t)
             || (exists r: int :: LeaseServer.ReserveSpill(s, s', t, r)) || (exists r: int :: LeaseServer.ReserveGot(s, s', t, r))
             || LeaseServer.ReadReservation(s, s', t) || LeaseServer.CloseReservation(s, s', t)
             || (exists id: int :: LeaseServer.Lookup(s, s', t, id)) || (exists ok: bool :: LeaseServer.CommitLease(s, s', t, ok))
    ensures BookOf(s') == BookOf(s)
  {
    SameBook(s, s');
  }

  lemma RebindRefines(s: LeaseServer.State, s': LeaseServer.State, t: int)
    requires LeaseServer.RebindStep(s, s', t)
    ensures BookOf(s') == BookOf(s)
  {
    SameBook(s, s');
  }

  /** Every step of the lease table is a step of the book. */
  lemma TableRefinesBook(l: LeaseServer.Limits, s: LeaseServer.State, s': LeaseServer.State)
    requires LeaseServer.Inv(s) && LeaseServer.Step(l, s, s')
    ensures BookStep(BookOf(s), BookOf(s'))
  {
    var t :| LeaseServer.TableStep(l, s, s', t) || LeaseServer.RebindStep(s, s', t);
    if LeaseServer.TableStep(l, s, s', t) { TableStepRefines(l, s, s', t); } else { RebindRefines(s, s', t); }
  }

  /** A server whose book is the one the processes see: the lease of a tracked open descriptor is tabled, its process is an
      owner, and what it stores is open, and committed exactly when the lease is. */
  lemma TrackedLeaseIsServed(
      l: LeaseServer.Limits, server: seq<LeaseServer.State>, j: nat, run: seq<Ownership.State>, i: nat, p: int, k: nat)
    requires LeaseServer.Run(l, server) && j < |server| && l.maxLeases >= 0 && l.maxOwners > 0
    requires Ownership.Run(run) && i < |run| && LeaseSafety.CalmUntil(run, i) && run[i].book == BookOf(server[j])
    requires p in run[i].procs && !run[i].procs[p].pc.Gated?
    requires k < |run[i].procs[p].tr.tracked| && run[i].procs[p].tr.tracked[k].fd in run[i].procs[p].fds
    ensures var pr, s := run[i].procs[p], server[j];
            && pr.tr.tracked[k].cell in pr.tr.cells
            && var id := pr.tr.cells[pr.tr.tracked[k].cell].id;
               && id in s.tabled && id in s.objs && p in s.objs[id].owners && s.objs[id].owners[p].identity == pr.identity
               && (s.objs[id].reservation.Some? ==>
                     && s.objs[id].reservation.value !in s.closed
                     && (s.objs[id].reservation.value in s.commits <==> s.objs[id].committed))
  {
    LeaseSafety.TrackedDescriptorKeepsItsLease(run, i, p, k);
    var pr := run[i].procs[p];
    LeaseServer.TabledReservationIsOpen(l, server, j, pr.tr.cells[pr.tr.tracked[k].cell].id);
  }
}
