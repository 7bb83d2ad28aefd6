/** The broker's registry of entries (internal/broker/broker.go:64-136) and the summary it offers to a connector. */
module Broker {
  import opened Bytes
  import opened SelfDelimiting
  import opened AttachWire
  import opened AttachRegistry

  datatype BrokerError = ErrBrokerClosed | ErrRegistryFull | ErrUnknownEntry | ErrInvalidEntry

  /** The list has exactly the registered entries, each once. */
  ghost predicate Lists(es: seq<Entry>, m: map<uint64, Entry>) {
    && (forall i :: 0 <= i < |es| ==> es[i].id in m && m[es[i].id] == es[i])
    && (forall i, j :: 0 <= i < j < |es| ==> es[i].id != es[j].id)
    && (forall k :: k in m ==> m[k] in es)
  }

  /** The list with the neighbours at j - 1 and j exchanged. */
  function Swapped(es: seq<Entry>, j: nat): (r: seq<Entry>)
    requires 0 < j < |es|
    ensures |r| == |es|
  {
    es[j := es[j - 1]][j - 1 := es[j]]
  }

  /** Sorted up to n, but for the element at j that is on its way down. */
  ghost predicate Sinking(es: seq<Entry>, n: int, j: int)
    requires 0 <= j <= n < |es|
  {
    && (forall i, k :: 0 <= i < k <= n && i != j && k != j ==> es[i].id <= es[k].id)
    && (forall k :: j < k <= n ==> es[j].id <= es[k].id)
  }

  lemma SinkStep(es: seq<Entry>, n: nat, j: nat)
    requires 0 < j <= n < |es| && Sinking(es, n, j) && es[j].id < es[j - 1].id
    ensures Sinking(Swapped(es, j), n, j - 1)
  {
    var r := Swapped(es, j);
    assert forall i :: 0 <= i < |es| && i != j && i != j - 1 ==> r[i] == es[i];
  }

  lemma SinkStart(es: seq<Entry>, n: nat)
    requires n < |es| && SortedTo(es, n)
    ensures Sinking(es, n, n)
  {
  }

  lemma Sunk(es: seq<Entry>, n: nat, j: nat)
    requires j <= n < |es| && Sinking(es, n, j) && (j > 0 ==> es[j - 1].id <= es[j].id)
    ensures SortedTo(es, n + 1)
  {
    forall i | 0 <= i < j ensures es[i].id <= es[j].id { assert i < j - 1 ==> es[i].id <= es[j - 1].id; }
  }

  lemma SwapLists(es: seq<Entry>, m: map<uint64, Entry>, j: nat)
    requires Lists(es, m) && 0 < j < |es|
    ensures Lists(Swapped(es, j), m)
  {
    var r := Swapped(es, j);
    forall k | k in m ensures m[k] in r {
      var i :| 0 <= i < |es| && es[i] == m[k];
      assert r[if i == j then j - 1 else if i == j - 1 then j else i] == m[k];
    }
  }

  ghost predicate SortedTo(es: seq<Entry>, n: int) { forall i, k :: 0 <= i < k < n && k < |es| ==> es[i].id <= es[k].id }

  /** The order of map iteration does not matter: a sorted list of the entries is determined by the map. */
  lemma {:induction false} SummaryIsCanonical(a: seq<Entry>, b: seq<Entry>, m: map<uint64, Entry>)
    requires Lists(a, m) && Lists(b, m) && Increasing(IDs(a)) && Increasing(IDs(b))
    ensures a == b
  {
    SameLength(a, b, m);
    SameLength(b, a, m);
    forall i | 0 <= i < |a| ensures a[i] == b[i] { SameAt(a, b, m, i); }
  }

  lemma SameLength(a: seq<Entry>, b: seq<Entry>, m: map<uint64, Entry>)
    requires Lists(a, m) && Lists(b, m) && Increasing(IDs(a)) && Increasing(IDs(b))
    ensures |a| <= |b|
  {
    forall i | 0 <= i < |a| ensures IDs(a)[i] in IDs(b) {
      assert m[a[i].id] in b;
      var j :| 0 <= j < |b| && b[j] == a[i];
      assert IDs(b)[j] == IDs(a)[i];
    }
    NoLonger(IDs(a), IDs(b));
  }

  lemma {:induction false} SameAt(a: seq<Entry>, b: seq<Entry>, m: map<uint64, Entry>, i: nat)
    requires Lists(a, m) && Lists(b, m) && Increasing(IDs(a)) && Increasing(IDs(b)) && |a| == |b| && i < |a|
    ensures a[i] == b[i]
    decreases i
  {
    if i > 0 { SameAt(a, b, m, i - 1); }
    AtLeast(a, b, m, i);
    AtLeast(b, a, m, i);
  }

  /** If the lists agree just before i, then b[i] is among a[i..]. */
  lemma AtLeast(a: seq<Entry>, b: seq<Entry>, m: map<uint64, Entry>, i: nat)
    requires Lists(a, m) && Lists(b, m) && Increasing(IDs(a)) && Increasing(IDs(b)) && |a| == |b| && i < |a|
    requires i > 0 ==> a[i - 1] == b[i - 1]
    ensures a[i].id <= b[i].id
  {
    assert m[b[i].id] in a;
    var j :| 0 <= j < |a| && a[j] == b[i];
    assert i > 0 ==> IDs(b)[i - 1] < IDs(b)[i];
    forall k | 0 <= k < i ensures a[k].id < b[i].id { assert k < i - 1 ==> IDs(a)[k] < IDs(a)[i - 1]; }
    if j > i { assert IDs(a)[i] < IDs(a)[j]; }
  }

  method Exchange(a: array<Entry>, j: nat)
    requires 0 < j < a.Length
    modifies a
    ensures a[..] == Swapped(old(a[..]), j)
  {
    a[j], a[j - 1] := a[j - 1], a[j];
  }

  class Registrar {
    const registry: Registry
    const capabilities: uint64
    var entries: map<uint64, Entry>
    var nextID: uint64
    var closed: bool

    constructor (registry: Registry, capabilities: uint64)
      ensures Valid() && entries == map[] && nextID == 0 && !closed && this.registry == registry && this.capabilities == capabilities
    {
      this.registry, this.capabilities := registry, capabilities;
      entries, nextID, closed := map[], 0, false;
    }

    ghost predicate Valid()
      reads this
    {
      |entries| <= MAX_ENTRIES && forall k :: k in entries ==> entries[k].id == k && ValidEntry(entries[k])
    }

    /** A new id, counting on past zero; the counter moves even when the kind is refused. */
    method Register(kind: byte) returns (id: uint64, error: Option<BrokerError>)
      requires Valid()
      modifies this
      ensures Valid() && closed == old(closed)
      ensures error == if old(closed) then Some(ErrBrokerClosed) else if |old(entries)| >= MAX_ENTRIES then Some(ErrRegistryFull)
                       else if STREAM <= kind <= DATAGRAM then None else Some(ErrInvalidEntry)
      ensures error.None? ==> id == nextID == NextNonZero(old(nextID)) && entries == old(entries)[id := Entry(id, kind, ACTIVE)]
      ensures error.Some? ==> entries == old(entries)
      ensures error == Some(ErrBrokerClosed) || error == Some(ErrRegistryFull) ==> nextID == old(nextID)
    {
      if closed { return 0, Some(ErrBrokerClosed); }
      if |entries| >= MAX_ENTRIES { return 0, Some(ErrRegistryFull); }
      ghost var before := nextID;
      nextID := if nextID == TWO64 - 1 then 0 else nextID + 1;
      while nextID == 0
        invariant entries == old(entries) && closed == old(closed)
        invariant nextID == 0 ==> before == TWO64 - 1
        invariant nextID != 0 ==> nextID == NextNonZero(before)
        decreases if nextID == 0 then 1 else 0
      {
        nextID := nextID + 1;
      }
      var e := Entry(nextID, kind, ACTIVE);
      if !ValidEntry(e) { return 0, Some(ErrInvalidEntry); }
      ghost var keys := entries.Keys;
      entries := entries[e.id := e];
      assert entries.Keys == keys + {e.id};
      return e.id, None;
    }

    method SetState(id: uint64, state: byte) returns (error: Option<BrokerError>)
      requires Valid()
      modifies this
      ensures Valid() && closed == old(closed) && nextID == old(nextID)
      ensures error == if old(closed) then Some(ErrBrokerClosed) else if id !in old(entries) then Some(ErrUnknownEntry)
                       else if ACTIVE <= state <= CLOSED then None else Some(ErrInvalidEntry)
      ensures entries == if error.None? then old(entries)[id := old(entries)[id].(state := state)] else old(entries)
    {
      if closed { return Some(ErrBrokerClosed); }
      if id !in entries { return Some(ErrUnknownEntry); }
      var e := entries[id].(state := state);
      if !ValidEntry(e) { return Some(ErrInvalidEntry); }
      ghost var keys := entries.Keys;
      entries := entries[id := e];
      assert entries.Keys == keys;
      return None;
    }

    method Remove(id: uint64) returns (error: Option<BrokerError>)
      requires Valid()
      modifies this
      ensures Valid() && closed == old(closed) && nextID == old(nextID)
      ensures error == if old(closed) then Some(ErrBrokerClosed) else if id !in old(entries) then Some(ErrUnknownEntry) else None
      ensures entries == if error.None? then old(entries) - {id} else old(entries)
    {
      if closed { return Some(ErrBrokerClosed); }
      if id !in entries { return Some(ErrUnknownEntry); }
      ghost var keys := entries.Keys;
      entries := entries - {id};
      assert entries.Keys == keys - {id};
      assert |entries.Keys| <= |keys|;
      return None;
    }

    /** The entries in the order the map happens to give them. */
    method Collect() returns (a: array<Entry>)
      requires Valid()
      ensures fresh(a) && Lists(a[..], entries) && a.Length == |entries|
    {
      var todo := entries.Keys;
      var es: seq<Entry> := [];
      while todo != {}
        invariant todo <= entries.Keys && |es| + |todo| == |entries|
        invariant forall i :: 0 <= i < |es| ==> es[i].id in entries && es[i].id !in todo && entries[es[i].id] == es[i]
        invariant forall i, j :: 0 <= i < j < |es| ==> es[i].id != es[j].id
        invariant forall k :: k in entries && k !in todo ==> entries[k] in es
        decreases todo
      {
        var k :| k in todo;
        todo := todo - {k};
        es := es + [entries[k]];
        assert entries[k] in es;
      }
      a := new Entry[|es|](i requires 0 <= i < |es| => es[i]);
      assert a[..] == es;
    }

    /** One insertion: the element at n sinks to its place among the sorted ones before it. */
    method Sink(a: array<Entry>, n: nat)
      requires Lists(a[..], entries) && 0 < n < a.Length && SortedTo(a[..], n)
      modifies a
      ensures Lists(a[..], entries) && SortedTo(a[..], n + 1)
    {
      var j := n;
      ghost var es := a[..];
      SinkStart(es, n);
      while j > 0 && a[j].id < a[j - 1].id
        invariant 0 <= j <= n < |es| && a[..] == es && Lists(es, entries) && Sinking(es, n, j)
      {
        SwapLists(es, entries, j);
        SinkStep(es, n, j);
        Exchange(a, j);
        es, j := Swapped(es, j), j - 1;
      }
      Sunk(es, n, j);
    }

    /** The summary: every entry once, in strictly increasing order of ids, hence encodable; and so the same whatever
        the order of the map. */
    method MakeSummary() returns (s: Summary)
      requires Valid() && registry.Valid()
      ensures ValidSummary(s) && Lists(s.entries, entries)
      ensures s.epoch == if registry.current == null then 0 else registry.epoch
      ensures EncodeSummary(s).Some? && DecodeSummary(EncodeSummary(s).value) == Some(s)
    {
      var a := Collect();
      var n := 1;
      while n < a.Length
        invariant 1 <= n && (n <= a.Length || a.Length == 0)
        invariant Lists(a[..], entries) && SortedTo(a[..], n)
      {
        Sink(a, n);
        n := n + 1;
      }
      var epoch := registry.CurrentEpoch();
      s := Summary(epoch, a[..]);
      SortedIsIncreasing(s.entries, entries);
      DecodeAfterSummary(s);
    }

    /** Close refuses everything from now on, and the registry with it. */
    method Close()
      requires Valid() && registry.Valid()
      modifies this`closed, registry
      ensures Valid() && closed && registry.Valid()
      ensures old(closed) ==> registry.current == old(registry.current) && registry.closed == old(registry.closed)
      ensures !old(closed) ==> registry.closed && registry.current == null
    {
      if closed { return; }
      closed := true;
      registry.Close();
    }

    /** Accept: a closed broker attaches nobody; one that closes meanwhile detaches again; otherwise the session is the
        handshake's. `es` are the entries in order. */
    method Accept(offered: seq<byte>, peer: Peer, gaps: seq<seq<Event>>, closesMeanwhile: bool, ghost es: seq<Entry>)
        returns (session: Attachment?, attached: Attachment?, sent: seq<Message>)
      requires Valid() && registry.Valid() && |gaps| == 3 && (peer.reply.Got? ==> ValidMessage(peer.reply.item))
      requires Lists(es, entries) && Increasing(IDs(es))
      modifies this`closed, registry
      ensures Valid() && registry.Valid() && entries == old(entries)
      ensures attached != null <==> !old(closed) && !old(registry.closed) && offered != [] && offered == registry.token
      ensures attached != null ==> fresh(attached) && attached.epoch == NextNonZero(old(registry.epoch))
      ensures session == null && attached != null ==> registry.current != attached
      ensures session != null ==> session == attached && peer.reply.Got?
      ensures attached != null ==>
                (session == attached <==>
                   && !closesMeanwhile && peer.okSent && peer.summarySent && peer.reply.Got?
                   && Acknowledges(peer.reply.item, Summary(attached.epoch, es)))
      ensures !closesMeanwhile ==> closed == old(closed)
      ensures attached == null ==> sent == []
      ensures attached != null && peer.okSent && ValidSummary(Summary(attached.epoch, es)) ==>
                sent == Offer(attached.epoch, capabilities, registry.instance, Summary(attached.epoch, es))
    {
      session, attached, sent := null, null, [];
      if closed { return; }
      var s := MakeSummary();
      SummaryIsCanonical(s.entries, es, entries);
      session, attached, sent := ServerResume(registry, capabilities, s.entries, offered, peer, gaps);
      if closesMeanwhile { Close(); }
      if session != null && closed {
        var wasStale := session.Detach();
        session := null;
      }
    }

    /** From every state of an open broker, a connector with the right token that acknowledges what it is offered gets its
        session, under the epoch that Attach issued, whatever happens to the registry meanwhile. */
    method AcceptHonest(gaps: seq<seq<Event>>) returns (r: Option<Resumed>, session: Attachment?, sent: seq<Message>)
      requires Valid() && registry.Valid() && !closed && !registry.closed && registry.token != [] && |gaps| == 3
      modifies this`closed, registry
      ensures Valid() && registry.Valid() && !closed
      ensures session != null && session.epoch == NextNonZero(old(registry.epoch))
      ensures r.Some? && r.value.epoch == session.epoch && Lists(r.value.summary.entries, entries)
      // what the connector answers to is what the broker sent
      ensures ValidSummary(r.value.summary) && sent == Offer(session.epoch, capabilities, registry.instance, r.value.summary)
    {
      var epoch := NextNonZero(registry.epoch);
      var s := MakeSummary();
      var offered := Summary(epoch, s.entries);
      var accepted;
      r, accepted := HonestResume(epoch, capabilities, registry.instance, offered);
      var attached;
      session, attached, sent := Accept(registry.token, Peer(true, true, Got(r.value.ack, [])), gaps, false, s.entries);
    }
  }

  lemma SortedIsIncreasing(es: seq<Entry>, m: map<uint64, Entry>)
    requires Lists(es, m) && SortedTo(es, |es|) && |es| <= MAX_ENTRIES && forall k :: k in m ==> ValidEntry(m[k])
    ensures ValidEntries(es)
  {
  }
}
