/** How the relay server opens, owns and closes its sockets (internal/relay/server.go:268-305, 381-455, 518-710,
    819-875). Streams, listeners, datagram associations and reverse datagram listeners share one shape; every locked
    section, every dial, bind, accept and close is one step, and OPEN, CLOSE, shutdown and the listeners interleave
    freely. An id may be opened again once its entry is gone. */
module RelayOpen {
  import opened Bytes

  datatype Kind = Stream | Listener | Datagram | Reverse

  datatype Key = Key(kind: Kind, id: int)

  function Limit(kind: Kind): int {
    match kind
    case Stream => 512
    case Listener => 256
    case Datagram => 64
    case Reverse => 64
  }

  datatype Open =
    | Dialing
    | Dialed(sock: int)
    | Stored                 // the socket is an entry's, the OK is not yet sent
    | Late(sock: int)        // the entry is gone: close the socket
    | Failing(own: bool)     // no socket, or no OK: remove the entry, or only its own
    | Ended

  datatype Serve =
    | Waiting                // for the commit
    | Accepting
    | Accepted(conn: int)
    | Announcing(stream: int)
    | Over

  /** Where a socket was last put. */
  datatype Place = AtOpen(entry: int) | AtServe(entry: int) | AtEntry(entry: int)

  /** Entries are known by numbers of their own, as an id can be used again. `keyOf` and `conns` are the id and the socket
      field of every entry ever registered; `hands` the entries that removers took out and are about to close. `home`,
      `closed`, `commits` and `announced` are history: the sockets obtained and where each was put, those closed at least
      once, the listeners whose ListenCommit was handled, those an InboundOpen was sent for. */
  datatype State = State(
    keyOf: map<int, Key>,
    conns: map<int, Option<int>>,
    registry: map<Key, int>,
    canceled: set<int>,
    down: bool,
    opens: map<int, Open>,
    serves: map<int, Serve>,
    hands: map<int, int>,
    home: map<int, Place>,
    closed: set<int>,
    commits: set<int>,
    announced: set<int>)

  ghost predicate Init(s: State) { s == State(map[], map[], map[], {}, false, map[], map[], map[], map[], {}, {}, {}) }

  function OfKind(keys: set<Key>, kind: Kind): set<Key> { set k | k in keys && k.kind == kind }

  predicate Full(s: State, kind: Kind) { |OfKind(s.registry.Keys, kind)| >= Limit(kind) }

  predicate Expired(s: State, o: int) { s.down || o in s.canceled }

  /** The entry is the one registered under its id. */
  predicate Listed(keyOf: map<int, Key>, registry: map<Key, int>, o: int) { o in keyOf && keyOf[o] in registry && registry[keyOf[o]] == o }

  function Go(s: State, o: int, x: Open): State { s.(opens := s.opens[o := x]) }

  predicate Known(s: State, o: int, x: Open) { o in s.keyOf && o in s.opens && s.opens[o] == x }

  // ----- OPEN -----

  ghost predicate Register(s: State, s': State, o: int, k: Key) {
    && o !in s.keyOf && k !in s.registry && !Full(s, k.kind)
    && s' == Go(s, o, Dialing).(keyOf := s.keyOf[o := k], conns := s.conns[o := None], registry := s.registry[k := o])
  }

  ghost predicate Dial(s: State, s': State, o: int, sock: int) {
    Known(s, o, Dialing) && sock !in s.home && s' == Go(s, o, Dialed(sock)).(home := s.home[sock := AtOpen(o)])
  }

  /** A listener whose bind failed removes only its own entry. */
  ghost predicate DialFails(s: State, s': State, o: int) {
    Known(s, o, Dialing) && s' == Go(s, o, Failing(s.keyOf[o].kind.Listener?))
  }

  /** The entry an open stores its socket in: a stream takes whatever entry has its id, the others look for their own
      entry and at its context. */
  function Target(s: State, o: int): Option<int>
    requires o in s.keyOf
  {
    var k := s.keyOf[o];
    if k !in s.registry then None
    else if k.kind.Stream? then Some(s.registry[k])
    else if s.registry[k] == o && !Expired(s, o) then Some(o)
    else None
  }

  /** The second locked section. */
  ghost predicate Store(s: State, s': State, o: int, sock: int) {
    && Known(s, o, Dialed(sock))
    && (Target(s, o).None? ==> s' == Go(s, o, Late(sock)))
    && (Target(s, o).Some? ==>
          var e := Target(s, o).value;
          s' == Go(s, o, Stored).(conns := s.conns[e := Some(sock)], home := s.home[sock := AtEntry(e)]))
  }

  ghost predicate CloseLate(s: State, s': State, o: int, sock: int) {
    Known(s, o, Late(sock)) && s' == Go(s, o, Ended).(closed := s.closed + {sock})
  }

  /** The OK is sent, or it is not and the entry is to be removed. */
  ghost predicate Answer(s: State, s': State, o: int, ok: bool) {
    && Known(s, o, Stored)
    && s' == Go(s, o, if ok then Ended else Failing(false))
             .(serves := if ok && s.keyOf[o].kind.Listener? then s.serves[o := Waiting] else s.serves)
  }

  // ----- Removal: CLOSE, RESET, failed opens, shutdown -----

  function TakenOut(s: State, t: int, k: Key): State {
    s.(registry := s.registry - {k}, hands := if k in s.registry then s.hands[t := s.registry[k]] else s.hands)
  }

  /** The locked section: whoever takes the entry out will close it. */
  ghost predicate TakeOut(s: State, s': State, t: int, k: Key) {
    t !in s.hands && k in s.registry && s' == TakenOut(s, t, k)
  }

  /** An open that failed removes what is registered under its id, or only its own entry. */
  ghost predicate TakeOwn(s: State, s': State, t: int, o: int, own: bool) {
    && t !in s.hands && Known(s, o, Failing(own))
    && (if own && !Listed(s.keyOf, s.registry, o) then s' == Go(s, o, Ended) else s' == TakenOut(Go(s, o, Ended), t, s.keyOf[o]))
  }

  ghost predicate CloseTaken(s: State, s': State, t: int) {
    && t in s.hands && s.hands[t] in s.conns
    && var o := s.hands[t];
       s' == s.(hands := s.hands - {t}, canceled := s.canceled + {o},
                closed := if s.conns[o].Some? then s.closed + {s.conns[o].value} else s.closed)
  }

  ghost predicate Shutdown(s: State, s': State) { s' == s.(down := true) }

  // ----- Listeners -----

  /** A listener's watcher closes the socket when the context ends. */
  ghost predicate ContextCloses(s: State, s': State, o: int) {
    && o in s.serves && o in s.conns && s.conns[o].Some? && Expired(s, o)
    && s' == s.(closed := s.closed + {s.conns[o].value})
  }

  ghost predicate Commit(s: State, s': State, id: int) {
    Key(Listener, id) in s.registry && s' == s.(commits := s.commits + {s.registry[Key(Listener, id)]})
  }

  ghost predicate Serving(s: State, o: int, x: Serve) { o in s.serves && o in s.keyOf && s.serves[o] == x }

  function Turn(s: State, o: int, x: Serve): State { s.(serves := s.serves[o := x]) }

  /** The select: the commit, or the end of the context. */
  ghost predicate StartAccepting(s: State, s': State, o: int) {
    && Serving(s, o, Waiting)
    && ((o in s.commits && s' == Turn(s, o, Accepting)) || (Expired(s, o) && s' == Turn(s, o, Over)))
  }

  ghost predicate Accept(s: State, s': State, o: int, conn: int) {
    Serving(s, o, Accepting) && conn !in s.home && s' == Turn(s, o, Accepted(conn)).(home := s.home[conn := AtServe(o)])
  }

  /** The loop ends; what is registered under the id is removed. */
  ghost predicate AcceptFails(s: State, s': State, o: int, t: int) {
    && Serving(s, o, Accepting) && t !in s.hands
    && s' == TakenOut(Turn(s, o, Over), t, s.keyOf[o])
  }

  /** registerInboundStream, or the connection is closed: the streams are full, or the id is in use. */
  ghost predicate RegisterInbound(s: State, s': State, o: int, conn: int, stream: int, entry: int) {
    && Serving(s, o, Accepted(conn)) && entry !in s.keyOf
    && var k := Key(Stream, stream);
       && (Full(s, Stream) || k in s.registry ==> s' == Turn(s, o, Accepting).(closed := s.closed + {conn}))
       && (!(Full(s, Stream) || k in s.registry) ==>
             s' == Turn(s, o, Announcing(entry))
                   .(keyOf := s.keyOf[entry := k], conns := s.conns[entry := Some(conn)], registry := s.registry[k := entry],
                     home := s.home[conn := AtEntry(entry)]))
  }

  /** InboundOpen is sent, or the send fails and the listener's loop ends after removing the stream. */
  ghost predicate Announce(s: State, s': State, o: int, stream: int, ok: bool, t: int) {
    && Serving(s, o, Announcing(stream)) && stream in s.keyOf
    && (ok ==> s' == Turn(s, o, Accepting).(announced := s.announced + {o}))
    && (!ok ==> t !in s.hands && s' == TakenOut(Turn(s, o, Over), t, s.keyOf[stream]))
  }

  ghost predicate OpenStep(s: State, s': State, o: int) {
    || (exists k: Key :: Register(s, s', o, k))
    || (exists sock: int :: Dial(s, s', o, sock))
    || DialFails(s, s', o)
    || (exists sock: int :: Store(s, s', o, sock))
    || (exists sock: int :: CloseLate(s, s', o, sock))
    || (exists ok: bool :: Answer(s, s', o, ok))
  }

  ghost predicate RemoveStep(s: State, s': State, t: int) {
    || (exists k: Key :: TakeOut(s, s', t, k))
    || (exists o: int, own: bool :: TakeOwn(s, s', t, o, own))
    || CloseTaken(s, s', t) || Shutdown(s, s')
  }

  ghost predicate ListenStep(s: State, s': State, o: int) {
    || ContextCloses(s, s', o) || Commit(s, s', o) || StartAccepting(s, s', o)
    || (exists conn: int :: Accept(s, s', o, conn))
    || (exists t: int :: AcceptFails(s, s', o, t))
    || (exists conn: int, stream: int, entry: int :: RegisterInbound(s, s', o, conn, stream, entry))
    || (exists stream: int, ok: bool, t: int :: Announce(s, s', o, stream, ok, t))
  }

  ghost predicate Step(s: State, s': State) {
    (exists o: int :: OpenStep(s, s', o)) || (exists t: int :: RemoveStep(s, s', t)) || (exists o: int :: ListenStep(s, s', o))
  }

  ghost predicate Next(run: seq<State>, i: int) { 0 <= i < |run| - 1 && Step(run[i], run[i + 1]) }

  ghost predicate Run(run: seq<State>) {
    |run| > 0 && Init(run[0]) && forall i :: 0 <= i < |run| - 1 ==> Next(run, i)
  }

  // ----- Invariant -----

  function InOpen(x: Open): Option<int> { if x.Dialed? || x.Late? then Some(x.sock) else None }

  function InServe(x: Serve): Option<int> { if x.Accepted? then Some(x.conn) else None }

  /** Entries have a socket field, are registered under their own id, and one that is taken out is not registered. */
  ghost predicate EntriesOk(keyOf: map<int, Key>, conns: map<int, Option<int>>, registry: map<Key, int>, hands: map<int, int>) {
    && (forall o :: o in keyOf <==> o in conns)
    && (forall k :: k in registry ==> registry[k] in keyOf && keyOf[registry[k]] == k)
    && (forall t :: t in hands ==> hands[t] in keyOf && !Listed(keyOf, registry, hands[t]))
  }

  /** Only a stream's entry can have got a socket before its own open stores one. */
  ghost predicate EmptyOk(keyOf: map<int, Key>, conns: map<int, Option<int>>, opens: map<int, Open>) {
    forall o :: o in opens ==> o in keyOf && (keyOf[o].kind.Stream? || !(opens[o].Dialing? || opens[o].Dialed?) || (o in conns && conns[o].None?))
  }

  ghost predicate At(home: map<int, Place>, sock: Option<int>, p: Place) { sock.Some? ==> sock.value in home && home[sock.value] == p }

  /** A socket is in one place only: where it was last put. */
  ghost predicate ConnsOk(conns: map<int, Option<int>>, home: map<int, Place>) { forall o :: o in conns ==> At(home, conns[o], AtEntry(o)) }

  ghost predicate OpensOk(opens: map<int, Open>, home: map<int, Place>, closed: set<int>) {
    forall o :: o in opens ==> At(home, InOpen(opens[o]), AtOpen(o)) && (InOpen(opens[o]).Some? ==> InOpen(opens[o]).value !in closed)
  }

  ghost predicate ServersOk(serves: map<int, Serve>, home: map<int, Place>, closed: set<int>) {
    forall o :: o in serves ==> At(home, InServe(serves[o]), AtServe(o)) && (InServe(serves[o]).Some? ==> InServe(serves[o]).value !in closed)
  }

  /** What a registered entry owns is open; a listener's socket may be closed once its context ended. */
  ghost predicate OwnedOpen(conns: map<int, Option<int>>, registry: map<Key, int>, canceled: set<int>, down: bool, closed: set<int>) {
    forall k :: k in registry && registry[k] in conns && conns[registry[k]].Some? ==>
      conns[registry[k]].value !in closed || (k.kind.Listener? && (down || registry[k] in canceled))
  }

  ghost predicate InHand(hands: map<int, int>, o: int) { exists t :: t in hands && hands[t] == o }

  /** The entry has the socket and will close it: it is registered, or a remover has it. */
  ghost predicate Owned(s: State, o: int, sock: int) {
    o in s.conns && s.conns[o] == Some(sock) && (Listed(s.keyOf, s.registry, o) || InHand(s.hands, o))
  }

  /** Closed, in the hands of an open or an accept in progress, or some entry's. */
  ghost predicate Accounted(s: State, sock: int)
    requires sock in s.home
  {
    || sock in s.closed
    || match s.home[sock]
       case AtOpen(o) => o in s.opens && InOpen(s.opens[o]) == Some(sock)
       case AtServe(o) => o in s.serves && InServe(s.serves[o]) == Some(sock)
       case AtEntry(o) => Owned(s, o, sock)
  }

  ghost predicate AllAccounted(s: State) { s.closed <= s.home.Keys && forall sock :: sock in s.home ==> Accounted(s, sock) }

  /** Accepting, and so announcing, comes after the commit. */
  ghost predicate CommitsOk(serves: map<int, Serve>, commits: set<int>, announced: set<int>) {
    announced <= commits && forall o :: o in serves && !serves[o].Waiting? && !serves[o].Over? ==> o in commits
  }

  /** A listener is served only once its open is over. */
  ghost predicate ServesOk(opens: map<int, Open>, serves: map<int, Serve>) {
    forall o :: o in serves ==> o in opens && opens[o].Ended?
  }

  /** A listener's watcher closes only a listener's socket. */
  ghost predicate KindsOk(keyOf: map<int, Key>, serves: map<int, Serve>) {
    forall o :: o in serves ==> o in keyOf && keyOf[o].kind.Listener?
  }

  ghost predicate Bounded(keys: set<Key>) { forall kind :: |OfKind(keys, kind)| <= Limit(kind) }

  ghost predicate Inv(s: State) {
    && EntriesOk(s.keyOf, s.conns, s.registry, s.hands) && EmptyOk(s.keyOf, s.conns, s.opens)
    && ConnsOk(s.conns, s.home) && OpensOk(s.opens, s.home, s.closed) && ServersOk(s.serves, s.home, s.closed)
    && OwnedOpen(s.conns, s.registry, s.canceled, s.down, s.closed)
    && AllAccounted(s)
    && CommitsOk(s.serves, s.commits, s.announced)
    && ServesOk(s.opens, s.serves) && KindsOk(s.keyOf, s.serves)
    && Bounded(s.registry.Keys)
  }

  // ----- Frames -----

  /** A step that leaves this socket where it is, or lets the owner pass from the registry to a remover. */
  lemma Stays(s: State, s': State, sock: int)
    requires sock in s.home && sock in s'.home && s'.home[sock] == s.home[sock] && Accounted(s, sock) && s.closed <= s'.closed
    requires forall o :: o in s.opens && InOpen(s.opens[o]) == Some(sock) ==> o in s'.opens && InOpen(s'.opens[o]) == Some(sock)
    requires forall o :: o in s.serves && InServe(s.serves[o]) == Some(sock) ==> o in s'.serves && InServe(s'.serves[o]) == Some(sock)
    requires forall o :: o in s.conns && s.conns[o] == Some(sock) ==> o in s'.conns && s'.conns[o] == Some(sock)
    requires forall o :: Listed(s.keyOf, s.registry, o) ==> Listed(s'.keyOf, s'.registry, o) || InHand(s'.hands, o)
    requires forall o :: InHand(s.hands, o) ==> InHand(s'.hands, o) || (o in s.conns && s.conns[o] == Some(sock) ==> sock in s'.closed)
    ensures Accounted(s', sock)
  {
  }

  lemma HandStays(hands: map<int, int>, t: int, o: int, other: int)
    requires t !in hands && InHand(hands, other)
    ensures InHand(hands[t := o], other)
  {
    var u :| u in hands && hands[u] == other;
    assert hands[t := o][u] == other;
  }

  lemma KindAdds(keys: set<Key>, k: Key)
    requires Bounded(keys) && |OfKind(keys, k.kind)| < Limit(k.kind)
    ensures Bounded(keys + {k})
  {
    forall kind ensures |OfKind(keys + {k}, kind)| <= Limit(kind) {
      if kind == k.kind {
        assert OfKind(keys + {k}, kind) == OfKind(keys, kind) + {k};
      } else {
        assert OfKind(keys + {k}, kind) == OfKind(keys, kind);
      }
    }
  }

  lemma KindDrops(keys: set<Key>, k: Key)
    requires Bounded(keys)
    ensures Bounded(keys - {k})
  {
    forall kind ensures |OfKind(keys - {k}, kind)| <= Limit(kind) {
      assert OfKind(keys, kind) == OfKind(keys - {k}, kind) + (OfKind(keys, kind) * {k});
    }
  }

  /** Closing a socket that no registered entry has, or only a listener whose context ended. */
  lemma CloseOwned(
      conns: map<int, Option<int>>, registry: map<Key, int>, canceled: set<int>, down: bool, closed: set<int>, home: map<int, Place>, sock: int)
    requires ConnsOk(conns, home) && OwnedOpen(conns, registry, canceled, down, closed) && sock in home
    requires forall k :: k in registry && home[sock] == AtEntry(registry[k]) ==> k.kind.Listener? && (down || registry[k] in canceled)
    ensures OwnedOpen(conns, registry, canceled, down, closed + {sock})
  {
    forall k | k in registry && registry[k] in conns && conns[registry[k]] == Some(sock) ensures home[sock] == AtEntry(registry[k]) {
      assert At(home, conns[registry[k]], AtEntry(registry[k]));
    }
  }

  // ----- Open -----

  lemma RegisterEntries(s: State, s': State, o: int, k: Key)
    requires Inv(s) && Register(s, s', o, k)
    ensures EntriesOk(s'.keyOf, s'.conns, s'.registry, s'.hands) && EmptyOk(s'.keyOf, s'.conns, s'.opens)
    ensures ConnsOk(s'.conns, s'.home) && OwnedOpen(s'.conns, s'.registry, s'.canceled, s'.down, s'.closed)
  {
  }

  lemma RegisterOthers(s: State, s': State, o: int, k: Key)
    requires Inv(s) && Register(s, s', o, k)
    ensures OpensOk(s'.opens, s'.home, s'.closed) && ServesOk(s'.opens, s'.serves) && KindsOk(s'.keyOf, s'.serves)
  {
    assert o !in s.opens && o !in s.serves;
  }

  lemma RegisterAccounts(s: State, s': State, o: int, k: Key)
    requires Inv(s) && Register(s, s', o, k)
    ensures AllAccounted(s')
  {
    forall sock | sock in s'.home ensures Accounted(s', sock) { Stays(s, s', sock); }
  }

  lemma RegisterKeeps(s: State, s': State, o: int, k: Key)
    requires Inv(s) && Register(s, s', o, k)
    ensures Inv(s')
  {
    KindAdds(s.registry.Keys, k);
    assert s'.registry.Keys == s.registry.Keys + {k};
    RegisterAccounts(s, s', o, k);
    RegisterEntries(s, s', o, k);
    RegisterOthers(s, s', o, k);
  }

  lemma DialKeeps(s: State, s': State, o: int, sock: int)
    requires Inv(s) && Dial(s, s', o, sock)
    ensures Inv(s')
  {
    forall x | x in s'.home ensures Accounted(s', x) {
      if x != sock { Stays(s, s', x); }
    }
  }

  /** The open moves on and keeps the socket it has, or has none. */
  lemma MoveKeeps(s: State, s': State, o: int, x: Open)
    requires Inv(s) && o in s.opens && s' == Go(s, o, x) && InOpen(x) == InOpen(s.opens[o]) && !s.opens[o].Ended?
    requires !x.Dialing? && !x.Dialed?
    ensures Inv(s')
  {
    forall sock | sock in s'.home ensures Accounted(s', sock) { Stays(s, s', sock); }
  }

  /** A stream's socket goes into an entry that has one already. */
  ghost predicate Overwrites(s: State, o: int) {
    o in s.keyOf && Target(s, o).Some? && Target(s, o).value in s.conns && s.conns[Target(s, o).value].Some?
  }

  /** The socket passes from the open to its entry. */
  lemma StoreAccounts(s: State, s': State, o: int, sock: int)
    requires Inv(s) && Store(s, s', o, sock) && Target(s, o).Some? && !Overwrites(s, o)
    ensures AllAccounted(s')
  {
    var e := Target(s, o).value;
    assert At(s.home, InOpen(s.opens[o]), AtOpen(o));
    forall x | x in s'.home ensures Accounted(s', x) {
      if x == sock { assert Owned(s', e, sock); } else { Stays(s, s', x); }
    }
  }

  lemma StoreHomes(s: State, s': State, o: int, sock: int)
    requires Inv(s) && Store(s, s', o, sock) && Target(s, o).Some?
    ensures ConnsOk(s'.conns, s'.home) && OpensOk(s'.opens, s'.home, s'.closed) && ServersOk(s'.serves, s'.home, s'.closed)
  {
    assert At(s.home, InOpen(s.opens[o]), AtOpen(o));
  }

  lemma StoreEntries(s: State, s': State, o: int, sock: int)
    requires Inv(s) && Store(s, s', o, sock) && Target(s, o).Some?
    ensures EntriesOk(s'.keyOf, s'.conns, s'.registry, s'.hands) && EmptyOk(s'.keyOf, s'.conns, s'.opens)
    ensures OwnedOpen(s'.conns, s'.registry, s'.canceled, s'.down, s'.closed) && ServesOk(s'.opens, s'.serves)
  {
    assert InOpen(s.opens[o]) == Some(sock);
  }

  lemma StoreKeeps(s: State, s': State, o: int, sock: int)
    requires Inv(s) && Store(s, s', o, sock) && !Overwrites(s, o)
    ensures Inv(s')
  {
    if Target(s, o).Some? {
      StoreAccounts(s, s', o, sock);
      StoreHomes(s, s', o, sock);
      StoreEntries(s, s', o, sock);
    } else {
      MoveKeeps(s, s', o, Late(sock));
    }
  }

  lemma CloseLateKeeps(s: State, s': State, o: int, sock: int)
    requires Inv(s) && CloseLate(s, s', o, sock)
    ensures Inv(s')
  {
    assert At(s.home, InOpen(s.opens[o]), AtOpen(o));
    forall x | x in s'.home ensures Accounted(s', x) {
      if x != sock { Stays(s, s', x); }
    }
    CloseOwned(s.conns, s.registry, s.canceled, s.down, s.closed, s.home, sock);
  }

  lemma AnswerKeeps(s: State, s': State, o: int, ok: bool)
    requires Inv(s) && Answer(s, s', o, ok)
    ensures Inv(s')
  {
    if !ok {
      MoveKeeps(s, s', o, Failing(false));
    } else {
      var s1 := Go(s, o, Ended);
      MoveKeeps(s, s1, o, Ended);
      if s.keyOf[o].kind.Listener? {
        assert o !in s.serves;
        forall sock | sock in s'.home ensures Accounted(s', sock) { Stays(s1, s', sock); }
      }
    }
  }

  lemma OpenStepKeeps(s: State, s': State, o: int)
    requires Inv(s) && OpenStep(s, s', o) && forall sock :: Store(s, s', o, sock) ==> !Overwrites(s, o)
    ensures Inv(s')
  {
    if k: Key :| Register(s, s', o, k) {
      RegisterKeeps(s, s', o, k);
    } else if sock: int :| Dial(s, s', o, sock) {
      DialKeeps(s, s', o, sock);
    } else if DialFails(s, s', o) {
      MoveKeeps(s, s', o, Failing(s.keyOf[o].kind.Listener?));
    } else if sock: int :| Store(s, s', o, sock) {
      StoreKeeps(s, s', o, sock);
    } else if sock: int :| CloseLate(s, s', o, sock) {
      CloseLateKeeps(s, s', o, sock);
    } else {
      var ok :| Answer(s, s', o, ok);
      AnswerKeeps(s, s', o, ok);
    }
  }

  // ----- Removal -----

  lemma TakeOutAccounts(s: State, s': State, t: int, k: Key)
    requires Inv(s) && TakeOut(s, s', t, k)
    ensures AllAccounted(s')
  {
    assert s'.hands[t] == s.registry[k];
    forall sock | sock in s'.home ensures Accounted(s', sock) {
      forall o | InHand(s.hands, o) ensures InHand(s'.hands, o) { HandStays(s.hands, t, s.registry[k], o); }
      forall o | Listed(s.keyOf, s.registry, o) ensures Listed(s'.keyOf, s'.registry, o) || InHand(s'.hands, o) {
        assert s.keyOf[o] == k ==> s'.hands[t] == o;
      }
      Stays(s, s', sock);
    }
  }

  lemma TakeOutKeeps(s: State, s': State, t: int, k: Key)
    requires Inv(s) && TakeOut(s, s', t, k)
    ensures Inv(s')
  {
    KindDrops(s.registry.Keys, k);
    assert s'.registry.Keys == s.registry.Keys - {k};
    TakeOutAccounts(s, s', t, k);
  }

  lemma TakeOwnKeeps(s: State, s': State, t: int, o: int, own: bool)
    requires Inv(s) && TakeOwn(s, s', t, o, own)
    ensures Inv(s')
  {
    var s1 := Go(s, o, Ended);
    MoveKeeps(s, s1, o, Ended);
    if s.keyOf[o] in s.registry {
      if s' != s1 { TakeOutKeeps(s1, s', t, s.keyOf[o]); }
    } else {
      assert s1.registry - {s.keyOf[o]} == s1.registry;
    }
  }

  lemma CloseTakenAccounts(s: State, s': State, t: int)
    requires Inv(s) && CloseTaken(s, s', t)
    ensures AllAccounted(s')
  {
    forall sock | sock in s'.home ensures Accounted(s', sock) {
      forall o | InHand(s.hands, o) && o != s.hands[t] ensures InHand(s'.hands, o) {
        var u :| u in s.hands && s.hands[u] == o;
        assert s'.hands[u] == o;
      }
      Stays(s, s', sock);
    }
  }

  lemma CloseTakenKeeps(s: State, s': State, t: int)
    requires Inv(s) && CloseTaken(s, s', t)
    ensures Inv(s')
  {
    var o := s.hands[t];
    CloseTakenAccounts(s, s', t);
    assert At(s.home, s.conns[o], AtEntry(o)) && !Listed(s.keyOf, s.registry, o);
    if s.conns[o].Some? { CloseOwned(s.conns, s.registry, s.canceled, s.down, s.closed, s.home, s.conns[o].value); }
  }

  lemma ShutdownKeeps(s: State, s': State)
    requires Inv(s) && Shutdown(s, s')
    ensures Inv(s')
  {
    forall sock | sock in s'.home ensures Accounted(s', sock) { Stays(s, s', sock); }
  }

  lemma RemoveStepKeeps(s: State, s': State, t: int)
    requires Inv(s) && RemoveStep(s, s', t)
    ensures Inv(s')
  {
    if k: Key :| TakeOut(s, s', t, k) {
      TakeOutKeeps(s, s', t, k);
    } else if o: int, own: bool :| TakeOwn(s, s', t, o, own) {
      TakeOwnKeeps(s, s', t, o, own);
    } else if CloseTaken(s, s', t) {
      CloseTakenKeeps(s, s', t);
    } else {
      ShutdownKeeps(s, s');
    }
  }

  // ----- Listeners -----

  lemma ContextClosesKeeps(s: State, s': State, o: int)
    requires Inv(s) && ContextCloses(s, s', o)
    ensures Inv(s')
  {
    assert At(s.home, s.conns[o], AtEntry(o)) && s.keyOf[o].kind.Listener?;
    CloseOwned(s.conns, s.registry, s.canceled, s.down, s.closed, s.home, s.conns[o].value);
    forall sock | sock in s'.home ensures Accounted(s', sock) { Stays(s, s', sock); }
  }

  lemma CommitKeeps(s: State, s': State, id: int)
    requires Inv(s) && Commit(s, s', id)
    ensures Inv(s')
  {
    forall sock | sock in s'.home ensures Accounted(s', sock) { Stays(s, s', sock); }
  }

  /** The listener's loop moves on and holds no connection before or after. */
  lemma TurnKeeps(s: State, s': State, o: int, x: Serve)
    requires Inv(s) && o in s.serves && s' == Turn(s, o, x).(announced := s'.announced)
    requires InServe(x).None? && InServe(s.serves[o]).None? && (x.Waiting? || x.Over? || o in s.commits)
    requires s.announced <= s'.announced <= s.commits
    ensures Inv(s')
  {
    forall sock | sock in s'.home ensures Accounted(s', sock) { Stays(s, s', sock); }
  }

  lemma AcceptKeeps(s: State, s': State, o: int, conn: int)
    requires Inv(s) && Accept(s, s', o, conn)
    ensures Inv(s')
  {
    forall sock | sock in s'.home ensures Accounted(s', sock) {
      if sock != conn { Stays(s, s', sock); }
    }
  }

  lemma OverKeeps(s: State, s': State, o: int, k: Key, t: int)
    requires Inv(s) && o in s.serves && InServe(s.serves[o]).None? && t !in s.hands
    requires s' == TakenOut(Turn(s, o, Over), t, k)
    ensures Inv(s')
  {
    var s1 := Turn(s, o, Over);
    TurnKeeps(s, s1, o, Over);
    if k in s.registry { TakeOutKeeps(s1, s', t, k); } else { assert s1.registry - {k} == s1.registry; }
  }

  lemma AcceptFailsKeeps(s: State, s': State, o: int, t: int)
    requires Inv(s) && AcceptFails(s, s', o, t)
    ensures Inv(s')
  {
    OverKeeps(s, s', o, s.keyOf[o], t);
  }

  /** The connection is closed: the streams are full, or the id is in use. */
  lemma TurnedAwayKeeps(s: State, s': State, o: int, conn: int)
    requires Inv(s) && Serving(s, o, Accepted(conn)) && s' == Turn(s, o, Accepting).(closed := s.closed + {conn})
    ensures Inv(s')
  {
    assert At(s.home, InServe(s.serves[o]), AtServe(o));
    CloseOwned(s.conns, s.registry, s.canceled, s.down, s.closed, s.home, conn);
    forall sock | sock in s'.home ensures Accounted(s', sock) {
      if sock != conn { Stays(s, s', sock); }
    }
  }

  lemma InboundAccounts(s: State, s': State, o: int, conn: int, stream: int, entry: int)
    requires Inv(s) && RegisterInbound(s, s', o, conn, stream, entry) && !(Full(s, Stream) || Key(Stream, stream) in s.registry)
    ensures AllAccounted(s')
  {
    assert At(s.home, InServe(s.serves[o]), AtServe(o));
    forall sock | sock in s'.home ensures Accounted(s', sock) {
      if sock == conn { assert Owned(s', entry, conn); } else { Stays(s, s', sock); }
    }
  }

  lemma InboundHomes(s: State, s': State, o: int, conn: int, stream: int, entry: int)
    requires Inv(s) && RegisterInbound(s, s', o, conn, stream, entry) && !(Full(s, Stream) || Key(Stream, stream) in s.registry)
    ensures ConnsOk(s'.conns, s'.home) && OpensOk(s'.opens, s'.home, s'.closed) && ServersOk(s'.serves, s'.home, s'.closed)
  {
    assert At(s.home, InServe(s.serves[o]), AtServe(o));
  }

  lemma InboundEntries(s: State, s': State, o: int, conn: int, stream: int, entry: int)
    requires Inv(s) && RegisterInbound(s, s', o, conn, stream, entry) && !(Full(s, Stream) || Key(Stream, stream) in s.registry)
    ensures EntriesOk(s'.keyOf, s'.conns, s'.registry, s'.hands) && EmptyOk(s'.keyOf, s'.conns, s'.opens)
    ensures OwnedOpen(s'.conns, s'.registry, s'.canceled, s'.down, s'.closed) && KindsOk(s'.keyOf, s'.serves)
  {
    assert entry !in s.opens && InServe(s.serves[o]) == Some(conn);
  }

  lemma RegisterInboundKeeps(s: State, s': State, o: int, conn: int, stream: int, entry: int)
    requires Inv(s) && RegisterInbound(s, s', o, conn, stream, entry)
    ensures Inv(s')
  {
    var k := Key(Stream, stream);
    if Full(s, Stream) || k in s.registry {
      TurnedAwayKeeps(s, s', o, conn);
    } else {
      InboundAccounts(s, s', o, conn, stream, entry);
      InboundHomes(s, s', o, conn, stream, entry);
      InboundEntries(s, s', o, conn, stream, entry);
      KindAdds(s.registry.Keys, k);
      assert s'.registry.Keys == s.registry.Keys + {k};
    }
  }

  lemma AnnounceKeeps(s: State, s': State, o: int, stream: int, ok: bool, t: int)
    requires Inv(s) && Announce(s, s', o, stream, ok, t)
    ensures Inv(s')
  {
    if ok { TurnKeeps(s, s', o, Accepting); } else { OverKeeps(s, s', o, s.keyOf[stream], t); }
  }

  lemma StartAcceptingKeeps(s: State, s': State, o: int)
    requires Inv(s) && StartAccepting(s, s', o)
    ensures Inv(s')
  {
    if s' == Turn(s, o, Over) { TurnKeeps(s, s', o, Over); } else { TurnKeeps(s, s', o, Accepting); }
  }

  lemma ListenStepKeeps(s: State, s': State, o: int)
    requires Inv(s) && ListenStep(s, s', o)
    ensures Inv(s')
  {
    if ContextCloses(s, s', o) {
      ContextClosesKeeps(s, s', o);
    } else if Commit(s, s', o) {
      CommitKeeps(s, s', o);
    } else if StartAccepting(s, s', o) {
      StartAcceptingKeeps(s, s', o);
    } else if conn: int :| Accept(s, s', o, conn) {
      AcceptKeeps(s, s', o, conn);
    } else if t: int :| AcceptFails(s, s', o, t) {
      AcceptFailsKeeps(s, s', o, t);
    } else if conn: int, stream: int, entry: int :| RegisterInbound(s, s', o, conn, stream, entry) {
      RegisterInboundKeeps(s, s', o, conn, stream, entry);
    } else {
      var stream, ok, t :| Announce(s, s', o, stream, ok, t);
      AnnounceKeeps(s, s', o, stream, ok, t);
    }
  }
}
