/** The relay server's registries as the object that holds them (internal/relay/server.go:268-305, 381-397, 408-455,
    518-534, 596-710, 819-833). Each locked section is a method that makes exactly one step of RelayOpen. */
module RelayTable {
  import opened Bytes
  import opened RelayOpen

  /** What is no longer registered is canceled, and its socket is among those closed. */
  ghost predicate Removed(s: State, registry: map<Key, int>, canceled: set<int>, closes: seq<int>)
    requires forall k :: k in s.registry ==> s.registry[k] in s.conns
  {
    forall k :: k in s.registry && k !in registry ==>
      s.registry[k] in canceled && (s.conns[s.registry[k]].Some? ==> s.conns[s.registry[k]].value in closes)
  }

  lemma RemovedNext(s: State, registry: map<Key, int>, k: Key, canceled: set<int>, closes: seq<int>, toClose: Option<int>)
    requires (forall j :: j in s.registry ==> s.registry[j] in s.conns) && Removed(s, registry, canceled, closes)
    requires k in registry ==> k in s.registry && toClose == s.conns[s.registry[k]]
    ensures Removed(s, registry - {k}, if k in registry then canceled + {s.registry[k]} else canceled,
                    if toClose.Some? then closes + [toClose.value] else closes)
  {
  }

  class Registry {
    var keyOf: map<int, Key>
    var conns: map<int, Option<int>>
    var registry: map<Key, int>
    var canceled: set<int>
    var down: bool

    constructor ()
      ensures Init(State(keyOf, conns, registry, canceled, down, map[], map[], map[], map[], {}, {}, {}))
    {
      keyOf, conns, registry, canceled, down := map[], map[], map[], {}, false;
    }

    ghost predicate Shows(s: State)
      reads this
    {
      s.keyOf == keyOf && s.conns == conns && s.registry == registry && s.canceled == canceled && s.down == down
    }

    /** The first section of an open: refuses an id in use and a full registry. `o` names the new entry. */
    method RegisterEntry(o: int, k: Key, ghost s: State) returns (ok: bool, ghost s': State)
      requires Shows(s) && o !in s.keyOf
      modifies this`keyOf, this`conns, this`registry
      ensures Shows(s') && if ok then Register(s, s', o, k) else s' == s
      ensures ok <==> k !in s.registry && |OfKind(s.registry.Keys, k.kind)| < Limit(k.kind)
      ensures registry == (if ok then old(registry)[k := o] else old(registry)) && conns == (if ok then old(conns)[o := None] else old(conns))
      ensures ok ==> s'.opens == s.opens[o := Dialing]
    {
      ok, s' := false, s;
      if k in registry { return; }
      if |OfKind(registry.Keys, k.kind)| >= Limit(k.kind) { return; }
      keyOf, conns, registry, ok := keyOf[o := k], conns[o := None], registry[k := o], true;
      s' := Go(s, o, Dialing).(keyOf := keyOf, conns := conns, registry := registry);
    }

    /** The second section: None asks the caller to close the socket. */
    method StoreConn(o: int, sock: int, ghost s: State) returns (entry: Option<int>, ghost s': State)
      requires Shows(s) && Known(s, o, Dialed(sock))
      modifies this`conns
      ensures Shows(s') && Store(s, s', o, sock)
      ensures var k := s.keyOf[o];
              entry.Some? <==> k in registry && (k.kind.Stream? || (registry[k] == o && !down && o !in canceled))
      ensures entry.Some? ==> entry.value == registry[s.keyOf[o]]
      ensures conns == if entry.Some? then old(conns)[entry.value := Some(sock)] else old(conns)
      ensures s'.opens == s.opens[o := if entry.Some? then Stored else Late(sock)]
    {
      var k := keyOf[o];
      entry := None;
      if k in registry {
        if k.kind.Stream? {
          entry := Some(registry[k]);
        } else if registry[k] == o && !down && o !in canceled {
          entry := Some(o);
        }
      }
      if entry.Some? {
        conns := conns[entry.value := Some(sock)];
        s' := Go(s, o, Stored).(conns := conns, home := s.home[sock := AtEntry(entry.value)]);
      } else {
        s' := Go(s, o, Late(sock));
      }
    }

    /** remove, removeListener and the like: out of the registry under the lock, then cancel and close. */
    method RemoveEntry(k: Key, ghost s: State, ghost t: int) returns (toClose: Option<int>, ghost s': State)
      requires Shows(s) && t !in s.hands && forall j :: j in s.registry ==> s.registry[j] in s.conns
      modifies this`registry, this`canceled
      ensures Shows(s')
      ensures k !in s.registry ==> s' == s && toClose == None
      ensures k in s.registry ==> exists s1 :: TakeOut(s, s1, t, k) && CloseTaken(s1, s', t)
      ensures k in s.registry ==>
                && registry == old(registry) - {k} && canceled == old(canceled) + {s.registry[k]}
                && toClose == s.conns[s.registry[k]]
      ensures s'.closed == if toClose.Some? then s.closed + {toClose.value} else s.closed
      ensures s'.hands == s.hands
    {
      toClose, s' := None, s;
      if k in registry {
        var o := registry[k];
        registry := registry - {k};
        ghost var s1 := s.(registry := registry, hands := s.hands[t := o]);
        assert TakeOut(s, s1, t, k);
        canceled := canceled + {o};
        toClose := conns[o];
        s' := s1.(hands := s1.hands - {t}, canceled := canceled,
                  closed := if toClose.Some? then s.closed + {toClose.value} else s.closed);
        assert CloseTaken(s1, s', t);
      }
    }

    /** Shutdown: the context ends and every entry is removed, in the order in which the registries are listed. */
    method Shutdown(keys: seq<Key>, ghost s: State, ghost t: int) returns (closes: seq<int>, ghost s': State)
      requires Shows(s) && t !in s.hands && (forall k :: k in s.registry ==> k in keys && s.registry[k] in s.conns)
      modifies this`registry, this`canceled, this`down
      ensures Shows(s') && down && registry == map[] && s'.hands == s.hands
      ensures forall k :: k in s.registry ==> s.registry[k] in canceled
      ensures forall k :: k in s.registry && s.conns[s.registry[k]].Some? ==> s.conns[s.registry[k]].value in closes
      ensures forall c :: c in closes ==> c in s'.closed
    {
      down := true;
      s' := s.(down := true);
      assert RelayOpen.Shutdown(s, s');
      closes := [];
      var n := 0;
      while n < |keys|
        invariant 0 <= n <= |keys| && Shows(s') && down && s'.hands == s.hands && s'.conns == s.conns
        invariant forall k :: k in s.registry ==> s.registry[k] in s.conns
        invariant forall k :: k in registry ==> k in s.registry && registry[k] == s.registry[k]
        invariant forall i :: 0 <= i < n ==> keys[i] !in registry
        invariant Removed(s, registry, canceled, closes)
        invariant forall c :: c in closes ==> c in s'.closed
      {
        var toClose;
        ghost var was, out := registry, canceled;
        toClose, s' := RemoveEntry(keys[n], s', t);
        RemovedNext(s, was, keys[n], out, closes, toClose);
        if toClose.Some? { closes := closes + [toClose.value]; }
        n := n + 1;
      }
    }

    /** registerInboundStream: false asks the caller to close the connection. */
    method RegisterInboundStream(stream: int, entry: int, conn: int, ghost s: State, ghost o: int) returns (ok: bool, ghost s': State)
      requires Shows(s) && Serving(s, o, Accepted(conn)) && entry !in s.keyOf
      modifies this`keyOf, this`conns, this`registry
      ensures Shows(s') && RegisterInbound(s, s', o, conn, stream, entry)
      ensures ok <==> |OfKind(s.registry.Keys, Stream)| < Limit(Stream) && Key(Stream, stream) !in s.registry
      ensures !ok ==> conn in s'.closed && registry == old(registry) && s'.serves == s.serves[o := Accepting]
      ensures ok ==> registry == old(registry)[Key(Stream, stream) := entry] && conns == old(conns)[entry := Some(conn)]
      ensures ok ==> s'.closed == s.closed && s'.serves == s.serves[o := Announcing(entry)]
    {
      var k := Key(Stream, stream);
      ok := |OfKind(registry.Keys, Stream)| < Limit(Stream) && k !in registry;
      if ok {
        keyOf, conns, registry := keyOf[entry := k], conns[entry := Some(conn)], registry[k := entry];
        s' := Turn(s, o, Announcing(entry)).(keyOf := keyOf, conns := conns, registry := registry, home := s.home[conn := AtEntry(entry)]);
      } else {
        s' := Turn(s, o, Accepting).(closed := s.closed + {conn});
      }
    }
  }
}
