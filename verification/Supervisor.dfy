/** The ptrace supervisor's binding groups (native/strict_supervisor.c:263-293, 348-452, 542-576): leases are adopted
    and released once per distinct lease of a group, and a failed batch is rolled back. */
module Supervisor {
  import opened Owners

  /** A descriptor with its lease, 0 when it has none; the address fields travel along. */
  datatype Binding = Binding(fd: int, lease: int)

  datatype Request = ADOPT(pid: int, lease: int) | RELEASE(pid: int, lease: int)

  /** What happens to an ADOPT on its way: answered, applied but the answer lost, or never received. */
  datatype Fate = Answered | AnswerLost | Unreached

  // ----- Distinct leases -----

  ghost predicate IsFirst(bs: seq<Binding>, i: int)
    requires 0 <= i < |bs|
  {
    bs[i].lease != 0 && forall j :: 0 <= j < i ==> bs[j].lease != bs[i].lease
  }

  /** The non-zero leases in the order of their first bindings. */
  ghost function Firsts(bs: seq<Binding>): seq<int> {
    if bs == [] then []
    else
      var n := |bs| - 1;
      if IsFirst(bs, n) then Firsts(bs[..n]) + [bs[n].lease] else Firsts(bs[..n])
  }

  ghost function LeasesOf(bs: seq<Binding>): set<int> { set i | 0 <= i < |bs| && bs[i].lease != 0 :: bs[i].lease }

  ghost predicate NoRepeats(ls: seq<int>) { forall i, j :: 0 <= i < j < |ls| ==> ls[i] != ls[j] }

  /** Exactly the distinct leases, once each. */
  lemma {:induction false} FirstsAreDistinct(bs: seq<Binding>)
    ensures NoRepeats(Firsts(bs)) && (forall l :: l in Firsts(bs) <==> l in LeasesOf(bs))
  {
    if bs != [] {
      var n := |bs| - 1;
      FirstsAreDistinct(bs[..n]);
      LeasesNext(bs, n);
      if IsFirst(bs, n) { assert bs[n].lease !in LeasesOf(bs[..n]); }
    }
  }

  lemma LeasesNext(bs: seq<Binding>, n: nat)
    requires n < |bs|
    ensures LeasesOf(bs[..n + 1]) == LeasesOf(bs[..n]) + (if bs[n].lease != 0 then {bs[n].lease} else {})
    ensures IsFirst(bs, n) <==> bs[n].lease != 0 && bs[n].lease !in LeasesOf(bs[..n])
    ensures Firsts(bs[..n + 1]) == if IsFirst(bs, n) then Firsts(bs[..n]) + [bs[n].lease] else Firsts(bs[..n])
    ensures n + 1 == |bs| ==> bs[..n + 1] == bs
  {
    var a, b := bs[..n], bs[..n + 1];
    assert b[..n] == a && b[n] == bs[n];
    assert IsFirst(b, n) <==> IsFirst(bs, n);
    forall l | l in LeasesOf(b) ensures l in LeasesOf(a) + (if bs[n].lease != 0 then {bs[n].lease} else {}) {
      var i :| 0 <= i < |b| && b[i].lease != 0 && b[i].lease == l;
      if i < n { assert a[i] == b[i]; }
    }
    forall l | l in LeasesOf(a) ensures l in LeasesOf(b) {
      var i :| 0 <= i < |a| && a[i].lease != 0 && a[i].lease == l;
      assert b[i] == a[i];
    }
    if bs[n].lease != 0 { assert b[n].lease in LeasesOf(b); }
    if bs[n].lease != 0 && bs[n].lease !in LeasesOf(a) {
      forall j | 0 <= j < n ensures bs[j].lease != bs[n].lease { assert a[j] == bs[j]; }
    }
  }

  function Adopts(pid: int, ls: seq<int>): seq<Request> { seq(|ls|, i requires 0 <= i < |ls| => ADOPT(pid, ls[i])) }

  function Releases(pid: int, ls: seq<int>): seq<Request> { seq(|ls|, i requires 0 <= i < |ls| => RELEASE(pid, ls[i])) }

  // ----- What batches do to the owners -----

  function WithOwner(book: Book, ls: set<int>, pid: int, owner: Owner): Book {
    map l | l in book :: if l in ls then book[l][pid := owner] else book[l]
  }

  function WithoutOwner(book: Book, ls: set<int>, pid: int, identity: int): Book {
    map l | l in book && !(l in ls && OwnedBy(book, l, pid, identity) && book[l].Keys == {pid}) ::
      if l in ls && OwnedBy(book, l, pid, identity) then book[l] - {pid} else book[l]
  }

  lemma WithOneMore(book: Book, ls: set<int>, l: int, pid: int, owner: Owner)
    requires l in book
    ensures l in WithOwner(book, ls, pid, owner)
    ensures Adopt(WithOwner(book, ls, pid, owner), l, pid, owner) == WithOwner(book, ls + {l}, pid, owner)
  {
    assert book[l][pid := owner][pid := owner] == book[l][pid := owner];
  }

  lemma WithoutOneMore(book: Book, ls: set<int>, l: int, pid: int, identity: int)
    ensures RemoveOwner(WithoutOwner(book, ls, pid, identity), l, pid, identity) == WithoutOwner(book, ls + {l}, pid, identity)
  {
    var b, more := WithoutOwner(book, ls, pid, identity), WithoutOwner(book, ls + {l}, pid, identity);
    var r := RemoveOwner(b, l, pid, identity);
    assert r.Keys == more.Keys;
  }

  lemma WithoutArriving(book: Book, ls: set<int>, l: int, pid: int, identity: int, arriving: set<int>)
    ensures WithoutOwner(book, (ls + {l}) * arriving, pid, identity)
            == if l in arriving then RemoveOwner(WithoutOwner(book, ls * arriving, pid, identity), l, pid, identity)
               else WithoutOwner(book, ls * arriving, pid, identity)
  {
    if l in arriving {
      WithoutOneMore(book, ls * arriving, l, pid, identity);
      assert (ls + {l}) * arriving == ls * arriving + {l};
    } else {
      assert (ls + {l}) * arriving == ls * arriving;
    }
  }

  /** Every lease has an owner, and what is listed under the pid is the process itself. */
  ghost predicate Sound(book: Book, ls: set<int>, pid: int, identity: int) {
    && (forall l :: l in book ==> book[l] != map[])
    && (forall l :: l in book && l in ls && pid in book[l] ==> book[l][pid].identity == identity)
  }

  ghost predicate HoldsNone(book: Book, ls: set<int>, pid: int) { forall l :: l in book && l in ls ==> pid !in book[l] }

  /** Nothing is left of a batch: the process held none of the released leases, and what was adopted but not released it
      had owned in the same way before. */
  ghost predicate LeavesNothing(book: Book, some: set<int>, released: set<int>, pid: int, owner: Owner) {
    && HoldsNone(book, released, pid)
    && forall l :: l in book && l in some && l !in released ==> book[l][pid := owner] == book[l]
  }

  /** Exactly then a rollback restores the owners. */
  lemma RollbackRestoresIff(book: Book, some: set<int>, released: set<int>, pid: int, owner: Owner)
    requires Sound(book, released, pid, owner.identity)
    ensures WithoutOwner(WithOwner(book, some, pid, owner), released, pid, owner.identity) == book
            <==> LeavesNothing(book, some, released, pid, owner)
  {
    var b := WithOwner(book, some, pid, owner);
    var r := WithoutOwner(b, released, pid, owner.identity);
    if LeavesNothing(book, some, released, pid, owner) {
      forall l | l in book ensures l in r && r[l] == book[l] {
        if l in some && l in released { RollbackOne(book[l], pid, owner); }
      }
      assert r.Keys == book.Keys;
    } else if l :| l in book && l in released && pid in book[l] {
      assert OwnedBy(b, l, pid, owner.identity);
      if l in r { assert pid !in r[l]; }
    } else {
      var l :| l in book && l in some && l !in released && book[l][pid := owner] != book[l];
      assert l in r && r[l] == book[l][pid := owner];
    }
  }

  /** For a process that held none of the leases: the rollback is complete exactly when the RELEASE of every lease it was
      given arrived. */
  lemma CompleteIffReleased(book: Book, some: set<int>, tried: set<int>, arriving: set<int>, pid: int, owner: Owner)
    requires some <= tried && some <= book.Keys && Sound(book, tried, pid, owner.identity) && HoldsNone(book, tried, pid)
    ensures LeavesNothing(book, some, tried * arriving, pid, owner) <==> forall l :: l in some ==> l in arriving
  {
    forall l | l in some ensures l in book && l in tried && book[l][pid := owner] != book[l] {
      assert l in book.Keys && pid in book[l][pid := owner] && pid !in book[l];
    }
  }

  lemma RollbackOne(owners: map<int, Owner>, pid: int, owner: Owner)
    requires owners != map[] && pid !in owners
    ensures owners[pid := owner] - {pid} == owners && owners[pid := owner].Keys != {pid}
  {
    assert (forall p :: p !in owners) ==> owners == map[];
    var p :| p in owners;
    assert p in owners[pid := owner].Keys && p != pid;
  }

  /** After a batch the process owns every one of its leases, and nothing else changed. */
  lemma BatchOwns(book: Book, ls: set<int>, pid: int, owner: Owner)
    requires ls <= book.Keys
    ensures forall l :: l in ls ==> OwnedBy(WithOwner(book, ls, pid, owner), l, pid, owner.identity)
    ensures forall l, p, n :: !(l in ls && p == pid) ==> (OwnedBy(WithOwner(book, ls, pid, owner), l, p, n) <==> OwnedBy(book, l, p, n))
  {
  }

  /** What RELEASEs take away: the process's own ownership of these leases and nothing else. */
  lemma ReleasedIsGone(book: Book, ls: set<int>, pid: int, identity: int)
    ensures forall l, p, n {:trigger OwnedBy(WithoutOwner(book, ls, pid, identity), l, p, n)} ::
              OwnedBy(WithoutOwner(book, ls, pid, identity), l, p, n)
              <==> OwnedBy(book, l, p, n) && !(l in ls && p == pid && n == identity)
  {
  }

  /** The control server as the supervisor sees it, with the requests it was sent. */
  class Control {
    var book: Book
    var log: seq<Request>
    const maxOwners: int

    constructor (maxOwners: int)
      ensures book == map[] && log == [] && this.maxOwners == maxOwners
    {
      book, log, this.maxOwners := map[], [], maxOwners;
    }

    method Adopt(pid: int, owner: Owner, lease: int, fate: Fate) returns (ok: bool, applied: bool)
      modifies this
      ensures log == old(log) + [ADOPT(pid, lease)]
      ensures applied <==> fate != Unreached && lease in old(book) && (pid in old(book)[lease] || |old(book)[lease]| < maxOwners)
      ensures ok <==> applied && fate == Answered
      ensures book == if applied then Owners.Adopt(old(book), lease, pid, owner) else old(book)
    {
      log := log + [ADOPT(pid, lease)];
      applied := false;
      if fate != Unreached && lease in book && (pid in book[lease] || |book[lease]| < maxOwners) {
        book := Owners.Adopt(book, lease, pid, owner);
        applied := true;
      }
      ok := applied && fate == Answered;
    }

    /** The supervisor does not look at the answer, so a RELEASE that does not arrive goes unnoticed. */
    method Release(pid: int, identity: int, lease: int, arrives: bool)
      modifies this
      ensures log == old(log) + [RELEASE(pid, lease)]
      ensures book == if arrives then RemoveOwner(old(book), lease, pid, identity) else old(book)
    {
      log := log + [RELEASE(pid, lease)];
      if arrives { book := RemoveOwner(book, lease, pid, identity); }
    }
  }

  /** The inner loop over the earlier bindings. */
  method SeenBefore(bs: seq<Binding>, n: nat) returns (seen: bool)
    requires n < |bs|
    ensures bs[n].lease != 0 ==> (seen <==> !IsFirst(bs, n))
  {
    seen := false;
    var j := 0;
    while j < n
      invariant 0 <= j <= n && !seen
      invariant forall i :: 0 <= i < j ==> bs[i].lease != bs[n].lease
    {
      if bs[j].lease == bs[n].lease { return true; }
      j := j + 1;
    }
  }

  /** release_group_owner: one RELEASE per distinct lease. `arriving` are the leases whose RELEASE reaches the server. */
  method ReleaseGroupOwner(c: Control, bs: seq<Binding>, pid: int, identity: int, arriving: set<int>)
    modifies c
    ensures c.log == old(c.log) + Releases(pid, Firsts(bs))
    ensures c.book == WithoutOwner(old(c.book), LeasesOf(bs) * arriving, pid, identity)
  {
    ghost var book0 := c.book;
    var n := 0;
    assert WithoutOwner(book0, {}, pid, identity) == book0 && LeasesOf(bs[..0]) * arriving == {};
    while n < |bs|
      invariant 0 <= n <= |bs|
      invariant c.log == old(c.log) + Releases(pid, Firsts(bs[..n]))
      invariant c.book == WithoutOwner(book0, LeasesOf(bs[..n]) * arriving, pid, identity)
    {
      LeasesNext(bs, n);
      if bs[n].lease != 0 {
        var seen := SeenBefore(bs, n);
        if !seen {
          WithoutArriving(book0, LeasesOf(bs[..n]), bs[n].lease, pid, identity, arriving);
          c.Release(pid, identity, bs[n].lease, bs[n].lease in arriving);
          assert Releases(pid, Firsts(bs[..n]) + [bs[n].lease]) == Releases(pid, Firsts(bs[..n])) + [RELEASE(pid, bs[n].lease)];
        } else {
          assert LeasesOf(bs[..n]) + {bs[n].lease} == LeasesOf(bs[..n]);
        }
      }
      n := n + 1;
    }
    assert bs[..n] == bs;
  }

  /** What a failed batch over these leases leaves: of the leases adopted, those whose RELEASE did not arrive. */
  ghost predicate RolledBack(before: Book, after: Book, some: set<int>, tried: set<int>, arriving: set<int>, pid: int, owner: Owner) {
    && some <= tried
    && after == WithoutOwner(WithOwner(before, some, pid, owner), tried * arriving, pid, owner.identity)
    && (Sound(before, tried, pid, owner.identity) ==> (after == before <==> LeavesNothing(before, some, tried * arriving, pid, owner)))
  }

  /** The server takes the process as an owner of the lease, and its answer arrives. */
  predicate Grants(book: Book, maxOwners: int, lease: int, pid: int, fate: Fate) {
    fate.Answered? && lease in book && (pid in book[lease] || |book[lease]| < maxOwners)
  }

  /** Every ADOPT of the first n bindings is granted. */
  ghost predicate AllGranted(book: Book, maxOwners: int, bs: seq<Binding>, n: int, pid: int, fates: seq<Fate>)
    requires 0 <= n <= |bs| == |fates|
  {
    forall i :: 0 <= i < n && IsFirst(bs, i) ==> Grants(book, maxOwners, bs[i].lease, pid, fates[i])
  }

  /** One binding's turn in a batch: an ADOPT unless it has no lease or an earlier binding has the same. */
  method AdoptBinding(c: Control, bs: seq<Binding>, n: nat, pid: int, owner: Owner, fate: Fate, ghost before: Book, ghost log0: seq<Request>)
      returns (ok: bool, ghost some: set<int>)
    requires n < |bs| && c.log == log0 + Adopts(pid, Firsts(bs[..n]))
    requires LeasesOf(bs[..n]) <= before.Keys && c.book == WithOwner(before, LeasesOf(bs[..n]), pid, owner)
    modifies c
    ensures c.log == log0 + Adopts(pid, Firsts(bs[..n + 1]))
    ensures some <= LeasesOf(bs[..n + 1]) && c.book == WithOwner(before, some, pid, owner)
    ensures ok ==> some == LeasesOf(bs[..n + 1]) && some <= before.Keys
    ensures ok <==> (IsFirst(bs, n) ==> Grants(before, c.maxOwners, bs[n].lease, pid, fate))
  {
    ok, some := true, LeasesOf(bs[..n]);
    LeasesNext(bs, n);
    if bs[n].lease == 0 { return; }
    var lease := bs[n].lease;
    var seen := SeenBefore(bs, n);
    if seen {
      assert some + {lease} == some;
      return;
    }
    if lease in before { WithOneMore(before, some, lease, pid, owner); }
    AdoptsNext(pid, Firsts(bs[..n]), lease);
    var applied;
    ok, applied := c.Adopt(pid, owner, lease, fate);
    if applied { some := some + {lease}; }
  }

  method RollBack(c: Control, group: seq<Binding>, pid: int, owner: Owner, arriving: set<int>, ghost before: Book, ghost some: set<int>)
    requires c.book == WithOwner(before, some, pid, owner) && some <= LeasesOf(group)
    modifies c
    ensures c.log == old(c.log) + Releases(pid, Firsts(group))
    ensures RolledBack(before, c.book, some, LeasesOf(group), arriving, pid, owner)
  {
    if Sound(before, LeasesOf(group), pid, owner.identity) {
      RollbackRestoresIff(before, some, LeasesOf(group) * arriving, pid, owner);
    }
    ReleaseGroupOwner(c, group, pid, owner.identity, arriving);
  }

  /** migrate_group_owner. Success: one ADOPT per distinct lease and the new owner holds them all. Failure: the
      ADOPTs up to the one that failed, then a RELEASE for every distinct lease. */
  method MigrateGroupOwner(c: Control, bs: seq<Binding>, pid: int, owner: Owner, fates: seq<Fate>, arriving: set<int>)
      returns (ok: bool, failedAt: nat, ghost some: set<int>)
    requires |fates| == |bs|
    modifies c
    ensures ok ==> c.log == old(c.log) + Adopts(pid, Firsts(bs))
    ensures ok ==> LeasesOf(bs) <= old(c.book).Keys && c.book == WithOwner(old(c.book), LeasesOf(bs), pid, owner)
    ensures !ok ==> failedAt < |bs| && c.log == old(c.log) + Adopts(pid, Firsts(bs[..failedAt + 1])) + Releases(pid, Firsts(bs))
    ensures !ok ==> RolledBack(old(c.book), c.book, some, LeasesOf(bs), arriving, pid, owner)
    // it fails at the first ADOPT that is not granted, and only then
    ensures ok <==> AllGranted(old(c.book), c.maxOwners, bs, |bs|, pid, fates)
    ensures !ok ==>
              && AllGranted(old(c.book), c.maxOwners, bs, failedAt, pid, fates)
              && IsFirst(bs, failedAt) && !Grants(old(c.book), c.maxOwners, bs[failedAt].lease, pid, fates[failedAt])
  {
    ghost var before := c.book;
    ok, failedAt, some := true, 0, {};
    var n := 0;
    assert WithOwner(before, {}, pid, owner) == before;
    while n < |bs|
      invariant 0 <= n <= |bs| && ok && AllGranted(before, c.maxOwners, bs, n, pid, fates)
      invariant c.log == old(c.log) + Adopts(pid, Firsts(bs[..n]))
      invariant LeasesOf(bs[..n]) <= before.Keys && c.book == WithOwner(before, LeasesOf(bs[..n]), pid, owner)
    {
      ok, some := AdoptBinding(c, bs, n, pid, owner, fates[n], before, old(c.log));
      if !ok {
        LeasesGrow(bs, n + 1);
        RollBack(c, bs, pid, owner, arriving, before, some);
        return false, n, some;
      }
      n := n + 1;
    }
    assert bs[..n] == bs;
  }

  lemma AdoptsNext(pid: int, ls: seq<int>, l: int)
    ensures Adopts(pid, ls + [l]) == Adopts(pid, ls) + [ADOPT(pid, l)]
  {
  }

  lemma LeasesGrow(bs: seq<Binding>, n: nat)
    requires n <= |bs|
    ensures LeasesOf(bs[..n]) <= LeasesOf(bs)
  {
    forall l | l in LeasesOf(bs[..n]) ensures l in LeasesOf(bs) {
      var i :| 0 <= i < n && bs[..n][i].lease != 0 && bs[..n][i].lease == l;
      assert bs[i].lease == l;
    }
  }

  function Reversed(bs: seq<Binding>): seq<Binding> { if bs == [] then [] else [bs[|bs| - 1]] + Reversed(bs[..|bs| - 1]) }

  lemma {:induction false} ReversedLeases(bs: seq<Binding>)
    ensures LeasesOf(Reversed(bs)) == LeasesOf(bs) && |Reversed(bs)| == |bs|
  {
    if bs != [] {
      var n := |bs| - 1;
      ReversedLeases(bs[..n]);
      LeasesNext(bs, n);
      LeasesFront(bs[n], Reversed(bs[..n]));
    }
  }

  lemma {:induction false} ReversedAt(bs: seq<Binding>)
    ensures |Reversed(bs)| == |bs| && forall k :: 0 <= k < |bs| ==> Reversed(bs)[k] == bs[|bs| - 1 - k]
  {
    if bs != [] { ReversedAt(bs[..|bs| - 1]); }
  }

  lemma LeasesFront(b: Binding, bs: seq<Binding>)
    ensures LeasesOf([b] + bs) == LeasesOf(bs) + (if b.lease != 0 then {b.lease} else {})
  {
    var all := [b] + bs;
    forall l | l in LeasesOf(all) ensures l in LeasesOf(bs) + (if b.lease != 0 then {b.lease} else {}) {
      var i :| 0 <= i < |all| && all[i].lease != 0 && all[i].lease == l;
      if i > 0 { assert bs[i - 1] == all[i]; }
    }
    forall l | l in LeasesOf(bs) ensures l in LeasesOf(all) {
      var i :| 0 <= i < |bs| && bs[i].lease != 0 && bs[i].lease == l;
      assert all[i + 1] == bs[i];
    }
    if b.lease != 0 { assert all[0].lease in LeasesOf(all); }
  }

  /** clone_group: the copy lists the bindings in reverse, and the new owner holds all their leases or none of them.
      Memory runs out after `room` copies. */
  method CloneGroup(c: Control, bs: seq<Binding>, pid: int, owner: Owner, fates: seq<Fate>, arriving: set<int>, room: nat)
      returns (ok: bool, group: seq<Binding>, failedAt: nat, ghost some: set<int>)
    requires |fates| == |bs|
    modifies c
    ensures ok ==> |group| == |bs| && forall k :: 0 <= k < |bs| ==> group[k] == bs[|bs| - 1 - k]
    ensures ok ==> c.log == old(c.log) + Adopts(pid, Firsts(bs))
    ensures ok ==> LeasesOf(bs) <= old(c.book).Keys && c.book == WithOwner(old(c.book), LeasesOf(bs), pid, owner)
    ensures ok ==> |bs| <= room
    ensures !ok ==> group == [] && failedAt <= |bs|
    ensures !ok ==> c.log == old(c.log) + Adopts(pid, Firsts(bs[..failedAt])) + Releases(pid, Firsts(Reversed(bs[..failedAt])))
    ensures !ok ==> RolledBack(old(c.book), c.book, some, LeasesOf(bs[..failedAt]), arriving, pid, owner)
    // it fails when the memory runs out or at the first ADOPT that is not granted, and only then
    ensures ok <==> |bs| <= room && AllGranted(old(c.book), c.maxOwners, bs, |bs|, pid, fates)
    ensures !ok ==> failedAt == room || (failedAt > 0 && AllGranted(old(c.book), c.maxOwners, bs, failedAt - 1, pid, fates)
                                         && !AllGranted(old(c.book), c.maxOwners, bs, failedAt, pid, fates))
  {
    ghost var before := c.book;
    ok, group, failedAt, some := true, [], 0, {};
    var n := 0;
    assert WithOwner(before, {}, pid, owner) == before;
    while n < |bs|
      invariant 0 <= n <= |bs| && n <= room && ok && group == Reversed(bs[..n])
      invariant AllGranted(before, c.maxOwners, bs, n, pid, fates)
      invariant c.log == old(c.log) + Adopts(pid, Firsts(bs[..n]))
      invariant LeasesOf(bs[..n]) <= before.Keys && c.book == WithOwner(before, LeasesOf(bs[..n]), pid, owner)
    {
      some := LeasesOf(bs[..n]);
      ok := n < room;
      if ok {
        assert bs[..n + 1][..n] == bs[..n];
        group := [bs[n]] + group;
        ok, some := AdoptBinding(c, bs, n, pid, owner, fates[n], before, old(c.log));
        n := n + 1;
      }
      if !ok {
        ReversedLeases(bs[..n]);
        RollBack(c, group, pid, owner, arriving, before, some);
        return false, [], n, some;
      }
    }
    assert bs[..n] == bs;
    ReversedAt(bs);
  }

  // ----- A group's bindings -----

  /** One RELEASE for each of these leases. */
  ghost predicate OneEach(ls: seq<int>, leases: set<int>) { NoRepeats(ls) && forall l :: l in ls <==> l in leases }

  lemma OneMore(ls: seq<int>, leases: set<int>, l: int)
    requires OneEach(ls, leases) && l !in leases
    ensures OneEach(ls + [l], leases + {l})
  {
  }

  lemma LeasesWithout(bs: seq<Binding>, i: nat)
    requires i < |bs|
    ensures LeasesOf(bs) == LeasesOf(bs[..i] + bs[i + 1..]) + (if bs[i].lease != 0 then {bs[i].lease} else {})
  {
    var rest := bs[..i] + bs[i + 1..];
    forall l | l in LeasesOf(rest) ensures l in LeasesOf(bs) {
      var j :| 0 <= j < |rest| && rest[j].lease != 0 && rest[j].lease == l;
      assert bs[if j < i then j else j + 1] == rest[j];
    }
    forall l | l in LeasesOf(bs) && l != bs[i].lease ensures l in LeasesOf(rest) {
      var j :| 0 <= j < |bs| && bs[j].lease != 0 && bs[j].lease == l;
      assert rest[if j < i then j else j - 1] == bs[j];
    }
    if bs[i].lease != 0 { assert bs[i].lease in LeasesOf(bs); }
  }

  class Group {
    var bindings: seq<Binding>
    const pid: int
    const identity: int

    constructor (bindings: seq<Binding>, pid: int, identity: int)
      ensures this.bindings == bindings && this.pid == pid && this.identity == identity
    {
      this.bindings, this.pid, this.identity := bindings, pid, identity;
    }

    /** lease_is_referenced */
    method LeaseIsReferenced(lease: int) returns (found: bool)
      requires lease != 0
      ensures found <==> lease in LeasesOf(bindings)
    {
      var i := 0;
      while i < |bindings|
        invariant 0 <= i <= |bindings| && forall j :: 0 <= j < i ==> bindings[j].lease != lease
      {
        if bindings[i].lease == lease { return true; }
        i := i + 1;
      }
      return false;
    }

    /** remove_binding: the first binding of the descriptor goes, and its lease is released when no other has it. */
    method RemoveBinding(c: Control, fd: int, arriving: set<int>) returns (at: nat)
      modifies this`bindings, c
      ensures at <= |old(bindings)| && forall j :: 0 <= j < at ==> old(bindings)[j].fd != fd
      ensures at < |old(bindings)| ==> old(bindings)[at].fd == fd
      ensures bindings == if at < |old(bindings)| then old(bindings)[..at] + old(bindings)[at + 1..] else old(bindings)
      ensures var gone := LeasesOf(old(bindings)) - LeasesOf(bindings);
              && c.book == WithoutOwner(old(c.book), gone * arriving, pid, identity)
              && (gone == {} ==> c.log == old(c.log))
              && forall l :: l in gone ==> gone == {l} && c.log == old(c.log) + [RELEASE(pid, l)]
    {
      ghost var before := c.book;
      assert WithoutOwner(before, {}, pid, identity) == before;
      at := 0;
      while at < |bindings| && bindings[at].fd != fd
        invariant 0 <= at <= |bindings| && forall j :: 0 <= j < at ==> bindings[j].fd != fd
      {
        at := at + 1;
      }
      if at < |bindings| {
        var lease := bindings[at].lease;
        LeasesWithout(bindings, at);
        bindings := bindings[..at] + bindings[at + 1..];
        if lease != 0 {
          var referenced := LeaseIsReferenced(lease);
          if !referenced {
            assert LeasesOf(old(bindings)) - LeasesOf(bindings) == {lease};
            WithoutArriving(before, {}, lease, pid, identity, arriving);
            assert {} + {lease} == {lease} && {} * arriving == {};
            c.Release(pid, identity, lease, lease in arriving);
          }
        }
      }
    }

    /** The first binding in the range, as remove_bindings_range looks for it. */
    method FindInRange(first: int, last: int) returns (found: int)
      ensures found == -1 ==> forall i :: 0 <= i < |bindings| ==> !(first <= bindings[i].fd <= last)
      ensures found != -1 ==> first <= found <= last && exists i :: 0 <= i < |bindings| && bindings[i].fd == found
      requires first >= 0
    {
      var i := 0;
      while i < |bindings|
        invariant 0 <= i <= |bindings| && forall j :: 0 <= j < i ==> !(first <= bindings[j].fd <= last)
      {
        if first <= bindings[i].fd <= last { return bindings[i].fd; }
        i := i + 1;
      }
      return -1;
    }

    /** remove_bindings_range leaves exactly the bindings outside the range, in order, and releases once each the
        leases that lost all their bindings. */
    method RemoveBindingsRange(c: Control, first: int, last: int, arriving: set<int>) returns (ghost ls: seq<int>)
      requires first >= 0
      modifies this`bindings, c
      ensures bindings == Outside(old(bindings), first, last)
      ensures OneEach(ls, LeasesOf(old(bindings)) - LeasesOf(bindings))
      ensures c.log == old(c.log) + Releases(pid, ls)
      ensures c.book == WithoutOwner(old(c.book), (LeasesOf(old(bindings)) - LeasesOf(bindings)) * arriving, pid, identity)
    {
      ghost var before, all := c.book, bindings;
      ls := [];
      assert WithoutOwner(before, {}, pid, identity) == before && LeasesOf(all) - LeasesOf(bindings) == {};
      while true
        invariant Outside(bindings, first, last) == Outside(all, first, last) && LeasesOf(bindings) <= LeasesOf(all)
        invariant OneEach(ls, LeasesOf(all) - LeasesOf(bindings)) && c.log == old(c.log) + Releases(pid, ls)
        invariant c.book == WithoutOwner(before, (LeasesOf(all) - LeasesOf(bindings)) * arriving, pid, identity)
        decreases |bindings|
      {
        var found := FindInRange(first, last);
        if found == -1 {
          OutsideAll(bindings, first, last);
          return;
        }
        ls := RemoveFound(c, found, arriving, first, last, all, before, ls, old(c.log));
      }
    }

    /** One round of that loop. */
    method RemoveFound(c: Control, found: int, arriving: set<int>, ghost first: int, ghost last: int,
                       ghost all: seq<Binding>, ghost before: Book, ghost ls: seq<int>, ghost log0: seq<Request>) returns (ghost ls': seq<int>)
      requires first <= found <= last && (exists i :: 0 <= i < |bindings| && bindings[i].fd == found)
      requires LeasesOf(bindings) <= LeasesOf(all)
      requires OneEach(ls, LeasesOf(all) - LeasesOf(bindings)) && c.log == log0 + Releases(pid, ls)
      requires c.book == WithoutOwner(before, (LeasesOf(all) - LeasesOf(bindings)) * arriving, pid, identity)
      modifies this`bindings, c
      ensures |bindings| < |old(bindings)| && Outside(bindings, first, last) == Outside(old(bindings), first, last)
      ensures LeasesOf(bindings) <= LeasesOf(all)
      ensures OneEach(ls', LeasesOf(all) - LeasesOf(bindings)) && c.log == log0 + Releases(pid, ls')
      ensures c.book == WithoutOwner(before, (LeasesOf(all) - LeasesOf(bindings)) * arriving, pid, identity)
    {
      ghost var was, done := bindings, LeasesOf(all) - LeasesOf(bindings);
      var at := RemoveBinding(c, found, arriving);
      OutsideWithout(was, at, first, last);
      LeasesWithout(was, at);
      ghost var gone := LeasesOf(was) - LeasesOf(bindings);
      assert LeasesOf(all) - LeasesOf(bindings) == done + gone;
      ls' := ls;
      if l :| l in gone {
        OneMore(ls, done, l);
        WithoutMore(before, done, l, pid, identity, arriving);
        assert gone == {l};
        assert Releases(pid, ls + [l]) == Releases(pid, ls) + [RELEASE(pid, l)];
        ls' := ls + [l];
      } else {
        assert gone == {} && done + gone == done && gone * arriving == {};
        assert WithoutOwner(c.book, {}, pid, identity) == c.book;
      }
    }

    /** release_group empties the group with one RELEASE per distinct lease. */
    method ReleaseGroup(c: Control, arriving: set<int>) returns (ghost ls: seq<int>)
      modifies this`bindings, c
      ensures bindings == [] && OneEach(ls, LeasesOf(old(bindings)))
      ensures c.log == old(c.log) + Releases(pid, ls)
      ensures c.book == WithoutOwner(old(c.book), LeasesOf(old(bindings)) * arriving, pid, identity)
    {
      ghost var before, all := c.book, bindings;
      ls := [];
      assert WithoutOwner(before, {}, pid, identity) == before && LeasesOf(all) - LeasesOf(bindings) == {};
      while bindings != []
        invariant LeasesOf(bindings) <= LeasesOf(all)
        invariant OneEach(ls, LeasesOf(all) - LeasesOf(bindings)) && c.log == old(c.log) + Releases(pid, ls)
        invariant c.book == WithoutOwner(before, (LeasesOf(all) - LeasesOf(bindings)) * arriving, pid, identity)
        decreases |bindings|
      {
        ghost var was, done := bindings, LeasesOf(all) - LeasesOf(bindings);
        var lease := bindings[0].lease;
        LeasesWithout(bindings, 0);
        assert bindings[..0] + bindings[1..] == bindings[1..];
        bindings := bindings[1..];
        var seen := lease == 0;
        if lease != 0 { seen := LeaseIsReferenced(lease); }
        if lease != 0 && !seen {
          OneMore(ls, done, lease);
          WithoutArriving(before, done, lease, pid, identity, arriving);
          c.Release(pid, identity, lease, lease in arriving);
          assert Releases(pid, ls + [lease]) == Releases(pid, ls) + [RELEASE(pid, lease)];
          ls := ls + [lease];
          assert LeasesOf(all) - LeasesOf(bindings) == done + {lease};
        } else {
          assert LeasesOf(bindings) == LeasesOf(was);
        }
      }
      assert LeasesOf(all) - LeasesOf(bindings) == LeasesOf(all);
    }
  }

  lemma WithoutMore(book: Book, ls: set<int>, l: int, pid: int, identity: int, arriving: set<int>)
    ensures WithoutOwner(WithoutOwner(book, ls * arriving, pid, identity), {l} * arriving, pid, identity)
            == WithoutOwner(book, (ls + {l}) * arriving, pid, identity)
  {
    var b := WithoutOwner(book, ls * arriving, pid, identity);
    WithoutArriving(book, ls, l, pid, identity, arriving);
    WithoutArriving(b, {}, l, pid, identity, arriving);
    assert {} + {l} == {l} && {} * arriving == {};
    assert WithoutOwner(b, {}, pid, identity) == b;
  }

  function Outside(bs: seq<Binding>, first: int, last: int): seq<Binding> {
    if bs == [] then []
    else if first <= bs[0].fd <= last then Outside(bs[1..], first, last)
    else [bs[0]] + Outside(bs[1..], first, last)
  }

  lemma {:induction false} OutsideAll(bs: seq<Binding>, first: int, last: int)
    requires forall i :: 0 <= i < |bs| ==> !(first <= bs[i].fd <= last)
    ensures Outside(bs, first, last) == bs
  {
    if bs != [] { OutsideAll(bs[1..], first, last); }
  }

  lemma {:induction false} OutsideWithout(bs: seq<Binding>, i: nat, first: int, last: int)
    requires i < |bs| && first <= bs[i].fd <= last
    ensures Outside(bs[..i] + bs[i + 1..], first, last) == Outside(bs, first, last)
  {
    var rest := bs[..i] + bs[i + 1..];
    if i == 0 {
      assert rest == bs[1..];
    } else {
      OutsideWithout(bs[1..], i - 1, first, last);
      assert rest[0] == bs[0] && rest[1..] == bs[1..][..i - 1] + bs[1..][i..];
    }
  }
}
