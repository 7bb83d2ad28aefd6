/** The interposer's list of tracked descriptors and its shared lease cells with reference counts
    (native/listen_interposer.c). The list is kept newest first, as the C code prepends. */
module Tracking {
  import opened Bytes
  import opened Sequences

  /** A list node: a descriptor and the address of the lease cell it shares. */
  datatype Entry = Entry(fd: int, cell: int)
  datatype LeaseCell = LeaseCell(id: int, refs: int)
  datatype Tracker = Tracker(tracked: seq<Entry>, cells: map<int, LeaseCell>, next: int)

  const EMPTY := Tracker([], map[], 0)

  function Refs(es: seq<Entry>, c: int): nat {
    if es == [] then 0 else (if es[0].cell == c then 1 else 0) + Refs(es[1..], c)
  }

  /** Every cell in use is referenced, and counts exactly the entries that point at it. */
  ghost predicate Valid(t: Tracker) {
    && (forall i :: 0 <= i < |t.tracked| ==> t.tracked[i].cell in t.cells)
    && (forall c :: c in t.cells ==> c < t.next && t.cells[c].refs == Refs(t.tracked, c) && t.cells[c].refs > 0)
  }

  lemma {:induction false} RefsAppend(a: seq<Entry>, b: seq<Entry>, c: int)
    ensures Refs(a + b, c) == Refs(a, c) + Refs(b, c)
  {
    if a == [] {
      assert a + b == b;
    } else {
      assert (a + b)[1..] == a[1..] + b;
      RefsAppend(a[1..], b, c);
    }
  }

  /** A count is positive exactly when some entry points at the cell. */
  lemma {:induction false} RefsPositive(es: seq<Entry>, c: int)
    ensures Refs(es, c) > 0 <==> exists i :: 0 <= i < |es| && es[i].cell == c
  {
    if es != [] {
      RefsPositive(es[1..], c);
      if i :| 0 <= i < |es[1..]| && es[1..][i].cell == c { assert es[i + 1].cell == c; }
      if i :| 0 <= i < |es| && es[i].cell == c && i > 0 { assert es[1..][i - 1].cell == c; }
    }
  }

  lemma RefsWithout(es: seq<Entry>, i: nat, c: int)
    requires i < |es|
    ensures Refs(Without(es, i), c) == Refs(es, c) - if es[i].cell == c then 1 else 0
    ensures es[i].cell == c ==> Refs(es, c) > 0
  {
    assert es == es[..i] + ([es[i]] + es[i + 1..]);
    RefsAppend(es[..i], [es[i]] + es[i + 1..], c);
    RefsAppend([es[i]], es[i + 1..], c);
    RefsAppend(es[..i], es[i + 1..], c);
  }

  /** Unlink an entry, drop its reference, and free the cell with the last one. The second component is
      the lease id handed back to the caller, or zero. */
  function Unlink(t: Tracker, i: nat): (r: (Tracker, int))
    requires i < |t.tracked| && t.tracked[i].cell in t.cells && t.cells[t.tracked[i].cell].refs > 0
  {
    var c := t.tracked[i].cell;
    var rest := Without(t.tracked, i);
    if t.cells[c].refs == 1 then
      (Tracker(rest, t.cells - {c}, t.next), t.cells[c].id)
    else
      (Tracker(rest, t.cells[c := t.cells[c].(refs := t.cells[c].refs - 1)], t.next), 0)
  }

  lemma UnlinkKeeps(t: Tracker, i: nat)
    requires Valid(t) && i < |t.tracked|
    ensures t.tracked[i].cell in t.cells && t.cells[t.tracked[i].cell].refs > 0
    ensures var c := t.tracked[i].cell;
            var (t', id) := Unlink(t, i);
            && Valid(t')
            // the id comes back exactly with the last descriptor
            && id == (if Refs(t'.tracked, c) == 0 then t.cells[c].id else 0)
            && t'.cells.Keys == (if Refs(t'.tracked, c) == 0 then t.cells.Keys - {c} else t.cells.Keys)
            && (forall d :: d in t'.cells ==> t'.cells[d].id == t.cells[d].id)
  {
    var c := t.tracked[i].cell;
    assert c in t.cells;
    RefsWithout(t.tracked, i, c);
    var (t', id) := Unlink(t, i);
    forall d | d in t'.cells
      ensures t'.cells[d].refs == Refs(t'.tracked, d) && t'.cells[d].refs > 0 && t'.cells[d].id == t.cells[d].id
    {
      RefsWithout(t.tracked, i, d);
    }
    forall k | 0 <= k < |t'.tracked| ensures t'.tracked[k].cell in t'.cells {
      if t'.tracked[k].cell == c { RefsPositive(t'.tracked, c); }
      assert t'.tracked[k] == if k < i then t.tracked[k] else t.tracked[k + 1];
    }
  }

  /** Index of the first entry for fd, or the length of the list. */
  function First(es: seq<Entry>, fd: int): (i: nat)
    ensures i <= |es|
    ensures i < |es| ==> es[i].fd == fd
    ensures forall k :: 0 <= k < i ==> es[k].fd != fd
  {
    if es == [] || es[0].fd == fd then 0 else 1 + First(es[1..], fd)
  }

  /** `(unsigned int)fd`. */
  function Unsigned(fd: int): int { if fd < 0 then fd + TWO32 else fd }

  predicate InRange(e: Entry, first: int, last: int) { first <= Unsigned(e.fd) <= last }

  function FirstInRange(es: seq<Entry>, first: int, last: int): (i: nat)
    ensures i <= |es|
    ensures i < |es| ==> InRange(es[i], first, last)
    ensures forall k :: 0 <= k < i ==> !InRange(es[k], first, last)
  {
    if es == [] || InRange(es[0], first, last) then 0 else 1 + FirstInRange(es[1..], first, last)
  }

  function Outside(es: seq<Entry>, first: int, last: int): seq<Entry> {
    if es == [] then []
    else if InRange(es[0], first, last) then Outside(es[1..], first, last)
    else [es[0]] + Outside(es[1..], first, last)
  }

  lemma {:induction false} OutsideWithout(es: seq<Entry>, i: nat, first: int, last: int)
    requires i < |es| && InRange(es[i], first, last)
    ensures Outside(Without(es, i), first, last) == Outside(es, first, last)
  {
    if i == 0 {
      assert Without(es, 0) == es[1..];
    } else {
      OutsideWithout(es[1..], i - 1, first, last);
      assert Without(es, i)[0] == es[0] && Without(es, i)[1..] == Without(es[1..], i - 1);
    }
  }

  lemma {:induction false} OutsideNone(es: seq<Entry>, first: int, last: int)
    requires forall k :: 0 <= k < |es| ==> !InRange(es[k], first, last)
    ensures Outside(es, first, last) == es
  {
    if es != [] { OutsideNone(es[1..], first, last); }
  }

  function AddTracked(t: Tracker, fd: int, id: int): Tracker {
    Tracker([Entry(fd, t.next)] + t.tracked, t.cells[t.next := LeaseCell(id, 1)], t.next + 1)
  }

  lemma AddKeeps(t: Tracker, fd: int, id: int)
    requires Valid(t)
    ensures Valid(AddTracked(t, fd, id))
  {
    var t' := AddTracked(t, fd, id);
    assert t'.tracked[1..] == t.tracked;
    RefsPositive(t.tracked, t.next);
  }

  /** The new descriptor shares the source's cell; without a source nothing changes. */
  function Share(t: Tracker, source: nat, newfd: int): Tracker
    requires source < |t.tracked| && t.tracked[source].cell in t.cells
  {
    var c := t.tracked[source].cell;
    Tracker([Entry(newfd, c)] + t.tracked, t.cells[c := t.cells[c].(refs := t.cells[c].refs + 1)], t.next)
  }

  lemma ShareKeeps(t: Tracker, source: nat, newfd: int)
    requires Valid(t) && source < |t.tracked|
    ensures t.tracked[source].cell in t.cells
    ensures Valid(Share(t, source, newfd))
  {
    assert t.tracked[source].cell in t.cells;
    var t' := Share(t, source, newfd);
    assert t'.tracked[1..] == t.tracked;
  }

  /** No two cells in use stand for the same lease. */
  ghost predicate DistinctIds(t: Tracker) {
    forall c, d :: c in t.cells && d in t.cells && t.cells[c].id == t.cells[d].id ==> c == d
  }

  /** A cell goes away with a range release exactly when all its descriptors lie in the range. */
  ghost predicate AllInRange(t: Tracker, c: int, first: int, last: int) {
    forall i :: 0 <= i < |t.tracked| && t.tracked[i].cell == c ==> InRange(t.tracked[i], first, last)
  }

  lemma {:induction false} RefsOutside(es: seq<Entry>, c: int, first: int, last: int)
    ensures Refs(Outside(es, first, last), c) == 0 <==>
            forall i :: 0 <= i < |es| && es[i].cell == c ==> InRange(es[i], first, last)
  {
    if es != [] {
      RefsOutside(es[1..], c, first, last);
      var out := Outside(es[1..], first, last);
      assert ([es[0]] + out)[1..] == out;
      if forall i :: 0 <= i < |es| && es[i].cell == c ==> InRange(es[i], first, last) {
        forall i | 0 <= i < |es[1..]| && es[1..][i].cell == c ensures InRange(es[1..][i], first, last) {
          assert es[1..][i] == es[i + 1];
        }
      }
      if Refs(Outside(es, first, last), c) == 0 {
        forall i | 0 <= i < |es| && es[i].cell == c ensures InRange(es[i], first, last) {
          if i > 0 { assert es[i] == es[1..][i - 1]; }
        }
      }
    }
  }

  class TrackedList {
    var tracked: seq<Entry>
    var cells: map<int, LeaseCell>
    var next: int

    ghost function View(): Tracker
      reads this
    {
      Tracker(tracked, cells, next)
    }

    constructor ()
      ensures View() == EMPTY && Valid(View())
    {
      tracked, cells, next := [], map[], 0;
    }

    method Find(fd: int) returns (found: bool)
      ensures found <==> exists i :: 0 <= i < |tracked| && tracked[i].fd == fd
    {
      var i := 0;
      while i < |tracked|
        invariant 0 <= i <= |tracked|
        invariant forall k :: 0 <= k < i ==> tracked[k].fd != fd
      {
        if tracked[i].fd == fd { return true; }
        i := i + 1;
      }
      return false;
    }

    method Add(fd: int, lease: int, memory: bool) returns (ok: bool)
      requires Valid(View())
      modifies this
      ensures Valid(View()) && ok == memory
      ensures View() == if memory then AddTracked(old(View()), fd, lease) else old(View())
      ensures memory ==>
                && tracked == [Entry(fd, old(next))] + old(tracked) && next == old(next) + 1
                && cells == old(cells)[old(next) := LeaseCell(lease, 1)]
    {
      if !memory { return false; }
      AddKeeps(View(), fd, lease);
      cells := cells[next := LeaseCell(lease, 1)];
      tracked := [Entry(fd, next)] + tracked;
      next := next + 1;
      return true;
    }

    /** Unlink the entry under the cursor. */
    method UnlinkAt(i: nat) returns (lease: int)
      requires Valid(View()) && i < |tracked|
      modifies this
      ensures Valid(View())
      ensures old(tracked[i].cell in cells && cells[tracked[i].cell].refs > 0)
      ensures (View(), lease) == Unlink(old(View()), i)
      ensures tracked == old(tracked)[..i] + old(tracked)[i + 1..] && next == old(next) && SameIds(old(cells), cells)
      ensures lease == (if exists k :: 0 <= k < |tracked| && tracked[k].cell == old(tracked)[i].cell then 0 else old(cells)[old(tracked)[i].cell].id)
    {
      UnlinkKeeps(View(), i);
      var c := tracked[i].cell;
      RefsPositive(Without(tracked, i), c);
      lease := 0;
      tracked := tracked[..i] + tracked[i + 1..];
      cells := cells[c := cells[c].(refs := cells[c].refs - 1)];
      if cells[c].refs == 0 {
        lease := cells[c].id;
        cells := cells - {c};
        assert cells == old(cells) - {c};
      }
    }

    /** The lease comes back exactly when its last descriptor goes; nothing happens for an untracked fd. */
    method Remove(fd: int) returns (lease: int)
      requires Valid(View())
      modifies this
      ensures Valid(View())
      ensures var i := First(old(tracked), fd);
              if i == |old(tracked)| then View() == old(View()) && lease == 0
              else
                && tracked == old(tracked)[..i] + old(tracked)[i + 1..]
                && var c := old(tracked)[i].cell;
                   && c in old(cells)
                   && lease == (if exists k :: 0 <= k < |tracked| && tracked[k].cell == c then 0 else old(cells)[c].id)
      ensures next == old(next) && SameIds(old(cells), cells)
    {
      lease := 0;
      var i := 0;
      while i < |tracked|
        invariant 0 <= i <= |tracked| && View() == old(View()) && lease == 0
        invariant forall k :: 0 <= k < i ==> tracked[k].fd != fd
      {
        if tracked[i].fd == fd {
          lease := UnlinkAt(i);
          return;
        }
        i := i + 1;
      }
    }

    /** Terminates with exactly the descriptors in range gone, having sent one RELEASE for each lease whose
        descriptors all lay there and for no other. */
    method ReleaseRange(first: uint32, last: uint32) returns (released: seq<int>)
      requires Valid(View())
      modifies this
      ensures Valid(View())
      ensures first > last ==> View() == old(View()) && released == []
      ensures first <= last ==>
                && tracked == Outside(old(tracked), first, last)
                && (forall c :: c in old(cells) ==> (c in cells <==> !AllInRange(old(View()), c, first, last)))
      ensures Released(old(View()), View(), released)
      ensures forall id :: id in released <==> id != 0 && exists c :: c in old(cells) && c !in cells && old(cells)[c].id == id
    {
      released := [];
      if first > last { return; }
      ghost var t0 := View();
      while true
        invariant Valid(View()) && Released(t0, View(), released)
        invariant Outside(tracked, first, last) == Outside(t0.tracked, first, last)
        decreases |tracked|
      {
        var i := FindInRange(first, last);
        if i == |tracked| { break; }
        ghost var t := View();
        ReleaseOne(t0, t, i, released);
        OutsideWithout(t.tracked, i, first, last);
        var lease := UnlinkAt(i);
        if lease != 0 { released := released + [lease]; }
      }
      OutsideNone(tracked, first, last);
      CellsAfterRange(t0, View(), first, last);
    }

    /** The cursor scan of the release loop. */
    method FindInRange(first: uint32, last: uint32) returns (i: nat)
      ensures i <= |tracked| && (i < |tracked| ==> InRange(tracked[i], first, last))
      ensures forall k :: 0 <= k < i ==> !InRange(tracked[k], first, last)
    {
      i := 0;
      while i < |tracked| && !InRange(tracked[i], first, last)
        invariant 0 <= i <= |tracked|
        invariant forall k :: 0 <= k < i ==> !InRange(tracked[k], first, last)
      {
        i := i + 1;
      }
    }

    /** The scan for a descriptor's node. */
    method FindEntry(fd: int) returns (i: nat)
      ensures i == First(tracked, fd)
    {
      i := 0;
      while i < |tracked| && tracked[i].fd != fd
        invariant 0 <= i <= |tracked|
        invariant forall k :: 0 <= k < i ==> tracked[k].fd != fd
      {
        i := i + 1;
      }
    }

    /** dup, F_DUPFD: the new descriptor joins the source's lease. */
    method Duplicate(oldfd: int, newfd: int, memory: bool) returns (ok: bool)
      requires Valid(View())
      modifies this
      ensures Valid(View())
      ensures var i := First(old(tracked), oldfd);
              && ok == (i == |old(tracked)| || memory)
              && (i < |old(tracked)| ==> old(tracked)[i].cell in old(cells))
              && View() == if i == |old(tracked)| || !memory then old(View()) else Share(old(View()), i, newfd)
      ensures var i := First(old(tracked), oldfd);
              i < |old(tracked)| && memory ==>
                var c := old(tracked)[i].cell;
                && c in old(cells) && tracked == [Entry(newfd, c)] + old(tracked) && next == old(next)
                && cells == old(cells)[c := LeaseCell(old(cells)[c].id, old(cells)[c].refs + 1)]
    {
      var i := FindEntry(oldfd);
      if i == |tracked| { return true; }
      ShareKeeps(View(), i, newfd);
      if !memory { return false; }
      Prepend(oldfd, newfd, tracked[i].cell);
      return true;
    }

    /** Link a new entry to the cell of a tracked source. */
    method Prepend(oldfd: int, newfd: int, shared: int)
      requires Valid(View()) && First(tracked, oldfd) < |tracked| && tracked[First(tracked, oldfd)].cell == shared
      modifies this
      ensures Valid(View())
      ensures old(shared in cells) && View() == Share(old(View()), First(old(tracked), oldfd), newfd)
      ensures tracked == [Entry(newfd, shared)] + old(tracked) && next == old(next) && SameIds(old(cells), cells)
    {
      ShareKeeps(View(), First(tracked, oldfd), newfd);
      tracked := [Entry(newfd, shared)] + tracked;
      cells := cells[shared := cells[shared].(refs := cells[shared].refs + 1)];
    }

    /** dup2 and dup3 between different descriptors: the target's old entry goes first, and with its last entry the
        target's lease comes back. The source's cell, whose address was taken before, survives that: a reference to it is
        never a dangling one. */
    method Replace(oldfd: int, newfd: int, memory: bool) returns (ok: bool, release: int)
      requires Valid(View()) && oldfd != newfd
      modifies this
      ensures Valid(View()) && next == old(next) && SameIds(old(cells), cells)
      ensures var i, j := First(old(tracked), oldfd), First(old(tracked), newfd);
              var left := if j < |old(tracked)| then old(tracked)[..j] + old(tracked)[j + 1..] else old(tracked);
              && ok == (i == |old(tracked)| || memory)
              && tracked == (if i < |old(tracked)| && memory then [Entry(newfd, old(tracked)[i].cell)] + left else left)
              && (j < |old(tracked)| ==> old(tracked)[j].cell in old(cells))
              && release == (if j < |old(tracked)| && !(exists k :: 0 <= k < |left| && left[k].cell == old(tracked)[j].cell)
                             then old(cells)[old(tracked)[j].cell].id else 0)
    {
      var source := FindEntry(oldfd);
      var found := source < |tracked|;
      var shared := if found then tracked[source].cell else 0;
      ghost var before := tracked;
      release := Remove(newfd);
      if First(before, newfd) < |before| { SourceSurvives(before, First(before, newfd), oldfd); }
      ok := !found || memory;
      if found && memory { Prepend(oldfd, newfd, shared); }
    }
  }

  /** No lease is renamed and none appears. */
  ghost predicate SameIds(cells: map<int, LeaseCell>, cells': map<int, LeaseCell>) {
    forall c :: c in cells' ==> c in cells && cells'[c].id == cells[c].id
  }

  /** The source entry stays when another descriptor's entry is unlinked. */
  lemma SourceSurvives(es: seq<Entry>, j: nat, oldfd: int)
    requires j < |es| && es[j].fd != oldfd
    ensures var i, i' := First(es, oldfd), First(Without(es, j), oldfd);
            && (i < |es| <==> i' < |Without(es, j)|)
            && (i < |es| ==> Without(es, j)[i'] == es[i])
  {
    var es' := Without(es, j);
    var i := First(es, oldfd);
    var k := if j < i then i - 1 else i;
    assert forall m :: 0 <= m < k ==> es'[m] == if m < j then es[m] else es[m + 1];
    if i < |es| { assert es'[k] == es[i]; }
  }

  /** `released` lists the ids of exactly the cells of t0 that t no longer has, without repetition when
      no two cells share an id. */
  ghost predicate Released(t0: Tracker, t: Tracker, released: seq<int>) {
    && (forall c :: c in t.cells ==> c in t0.cells && t.cells[c].id == t0.cells[c].id)
    && (forall id :: id in released <==> Gone(t0, t, id))
    && (DistinctIds(t0) ==> forall i, j :: 0 <= i < j < |released| ==> released[i] != released[j])
  }

  ghost predicate Gone(t0: Tracker, t: Tracker, id: int) {
    id != 0 && exists c :: c in t0.cells && c !in t.cells && t0.cells[c].id == id
  }

  /** One turn of the release loop. */
  lemma ReleaseOne(t0: Tracker, t: Tracker, i: nat, released: seq<int>)
    requires Valid(t) && i < |t.tracked| && Released(t0, t, released)
    ensures t.tracked[i].cell in t.cells && t.cells[t.tracked[i].cell].refs > 0
    ensures var (t', lease) := Unlink(t, i);
            Valid(t') && Released(t0, t', if lease == 0 then released else released + [lease])
  {
    UnlinkKeeps(t, i);
    var cell := t.tracked[i].cell;
    var (t', lease) := Unlink(t, i);
    var released' := if lease == 0 then released else released + [lease];
    forall id ensures id in released' <==> Gone(t0, t', id) {
      if id in released {
        assert Gone(t0, t, id);
        var c :| c in t0.cells && c !in t.cells && t0.cells[c].id == id;
        assert c !in t'.cells;
      }
      if id == lease != 0 { assert cell !in t'.cells && t0.cells[cell].id == id; }
      if Gone(t0, t', id) && id !in released {
        var c :| c in t0.cells && c !in t'.cells && t0.cells[c].id == id;
        assert !Gone(t0, t, id);
        assert c == cell;
      }
    }
    assert DistinctIds(t0) && lease != 0 ==> !Gone(t0, t, lease);
    assert DistinctIds(t0) && lease != 0 ==> lease !in released;
  }

  lemma CellsAfterRange(t0: Tracker, t: Tracker, first: int, last: int)
    requires Valid(t) && t.tracked == Outside(t0.tracked, first, last)
    ensures forall c :: c in t0.cells ==> (c in t.cells <==> !AllInRange(t0, c, first, last))
  {
    forall c | c in t0.cells ensures c in t.cells <==> !AllInRange(t0, c, first, last) {
      RefsOutside(t0.tracked, c, first, last);
      RefsPositive(t.tracked, c);
    }
  }
}
