/** Why SocketSafety needs its condition for streams: an id closed and opened again while the first open still dials. The
    first open's socket goes into the second entry and is lost when the second open stores its own. */
module StreamReopen {
  import opened Bytes
  import opened Sequences
  import opened RelayOpen

  lemma SameNext(run: seq<State>, s': State, i: int)
    requires Next(run, i)
    ensures Next(run + [s'], i)
  {
    var more := run + [s'];
    assert more[i] == run[i] && more[i + 1] == run[i + 1];
  }

  lemma LastNext(run: seq<State>, s': State)
    requires run != [] && Step(Last(run), s')
    ensures Next(run + [s'], |run| - 1)
  {
    var more := run + [s'];
    assert more[|run| - 1] == Last(run) && more[|run|] == s';
  }

  lemma Extend(run: seq<State>, s': State) returns (more: seq<State>)
    requires Run(run) && Step(Last(run), s')
    ensures Run(more) && Last(more) == s'
  {
    more := run + [s'];
    LastNext(run, s');
    forall i | 0 <= i < |run| - 1 ensures Next(more, i) { SameNext(run, s', i); }
    assert more[0] == run[0];
  }

  lemma ByOpen(run: seq<State>, s': State, o: int) returns (more: seq<State>)
    requires Run(run) && OpenStep(Last(run), s', o)
    ensures Run(more) && Last(more) == s'
  {
    more := Extend(run, s');
  }

  const ID := Key(Stream, 7)

  /** OPEN, and CLOSE while it dials. */
  lemma OpenThenClose() returns (run: seq<State>)
    ensures Run(run)
    ensures Last(run) == State(map[1 := ID], map[1 := None], map[], {1}, false, map[1 := Dialing], map[], map[], map[], {}, {}, {})
  {
    var s0 := State(map[], map[], map[], {}, false, map[], map[], map[], map[], {}, {}, {});
    run := [s0];
    assert OfKind(s0.registry.Keys, Stream) == {};
    var s1 := s0.(keyOf := map[1 := ID], conns := map[1 := None], registry := map[ID := 1], opens := map[1 := Dialing]);
    assert Register(s0, s1, 1, ID);
    run := ByOpen(run, s1, 1);
    var s2 := s1.(registry := map[], hands := map[0 := 1]);
    assert s1.registry - {ID} == map[];
    assert TakeOut(s1, s2, 0, ID) && RemoveStep(s1, s2, 0);
    run := Extend(run, s2);
    var s3 := s2.(hands := map[], canceled := {1});
    assert s2.hands - {0} == map[];
    assert CloseTaken(s2, s3, 0) && RemoveStep(s2, s3, 0);
    run := Extend(run, s3);
  }

  /** The id is opened again; the first dial returns and its socket is stored in the new entry. */
  lemma FirstStores(run: seq<State>) returns (more: seq<State>)
    requires Run(run)
    requires Last(run) == State(map[1 := ID], map[1 := None], map[], {1}, false, map[1 := Dialing], map[], map[], map[], {}, {}, {})
    ensures Run(more)
    ensures Last(more) == State(map[1 := ID, 2 := ID], map[1 := None, 2 := Some(10)], map[ID := 2], {1}, false,
                                map[1 := Stored, 2 := Dialing], map[], map[], map[10 := AtEntry(2)], {}, {}, {})
  {
    var s3 := Last(run);
    assert OfKind(s3.registry.Keys, Stream) == {};
    var s4 := s3.(keyOf := map[1 := ID, 2 := ID], conns := map[1 := None, 2 := None], registry := map[ID := 2], opens := map[1 := Dialing, 2 := Dialing]);
    assert Register(s3, s4, 2, ID);
    more := ByOpen(run, s4, 2);
    var s5 := s4.(opens := map[1 := Dialed(10), 2 := Dialing], home := map[10 := AtOpen(1)]);
    assert s5.opens == s4.opens[1 := Dialed(10)] && Dial(s4, s5, 1, 10);
    more := ByOpen(more, s5, 1);
    var s6 := s5.(opens := map[1 := Stored, 2 := Dialing], conns := map[1 := None, 2 := Some(10)], home := map[10 := AtEntry(2)]);
    assert s6.opens == s5.opens[1 := Stored] && s6.conns == s5.conns[2 := Some(10)] && s6.home == s5.home[10 := AtEntry(2)];
    assert Target(s5, 1) == Some(2) && Store(s5, s6, 1, 10);
    more := ByOpen(more, s6, 1);
  }

  /** The second dial returns and its socket replaces the first. */
  lemma SecondStores(run: seq<State>) returns (more: seq<State>)
    requires Run(run)
    requires Last(run) == State(map[1 := ID, 2 := ID], map[1 := None, 2 := Some(10)], map[ID := 2], {1}, false,
                                map[1 := Stored, 2 := Dialing], map[], map[], map[10 := AtEntry(2)], {}, {}, {})
    ensures Run(more)
    ensures Last(more) == State(map[1 := ID, 2 := ID], map[1 := None, 2 := Some(20)], map[ID := 2], {1}, false,
                                map[1 := Stored, 2 := Stored], map[], map[], map[10 := AtEntry(2), 20 := AtEntry(2)], {}, {}, {})
  {
    var s6 := Last(run);
    var s7 := s6.(opens := map[1 := Stored, 2 := Dialed(20)], home := map[10 := AtEntry(2), 20 := AtOpen(2)]);
    assert s7.opens == s6.opens[2 := Dialed(20)] && s7.home == s6.home[20 := AtOpen(2)] && Dial(s6, s7, 2, 20);
    more := ByOpen(run, s7, 2);
    var s8 := s7.(opens := map[1 := Stored, 2 := Stored], conns := map[1 := None, 2 := Some(20)], home := map[10 := AtEntry(2), 20 := AtEntry(2)]);
    assert s8.opens == s7.opens[2 := Stored] && s8.conns == s7.conns[2 := Some(20)] && s8.home == s7.home[20 := AtEntry(2)];
    assert Target(s7, 2) == Some(2) && Store(s7, s8, 2, 20);
    more := ByOpen(more, s8, 2);
  }

  /** Socket 10 is open, in nobody's hands and in no entry. */
  lemma ReopenedStreamLeaks() returns (run: seq<State>)
    ensures Run(run) && 10 in Last(run).home && 10 !in Last(run).closed
    ensures forall o :: o in Last(run).opens ==> InOpen(Last(run).opens[o]) != Some(10)
    ensures Last(run).serves == map[] && forall o :: o in Last(run).conns ==> Last(run).conns[o] != Some(10)
  {
    run := OpenThenClose();
    run := FirstStores(run);
    run := SecondStores(run);
  }
}
