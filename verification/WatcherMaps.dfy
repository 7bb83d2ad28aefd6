/** The watcher object (internal/autoforward/watcher.go:354-410, 514-567, 709-751): the sections it runs under its
    lock, in the loops of the source. Each method makes exactly one step of the machine in Watcher. */
module WatcherMaps {
  import opened Bytes
  import opened Watcher

  predicate Passes(l: Listener, included: set<int>, excluded: set<int>) {
    (included != {} ==> l.port in included) && l.port !in excluded
  }

  function KeyOf(l: Listener): Key { Key(l.network, l.port) }

  /** The last listener that passes the filters wins its key. */
  ghost predicate Winner(scan: seq<Listener>, included: set<int>, excluded: set<int>, n: int, i: int)
    requires 0 <= n <= |scan|
  {
    && 0 <= i < n && Passes(scan[i], included, excluded)
    && forall j :: i < j < n && Passes(scan[j], included, excluded) ==> KeyOf(scan[j]) != KeyOf(scan[i])
  }

  /** The desired map built from a scan: exactly the winners, under their keys. */
  method DesiredOf(scan: seq<Listener>, included: set<int>, excluded: set<int>) returns (desired: map<Key, Listener>)
    ensures forall i :: Winner(scan, included, excluded, |scan|, i) ==> Wanted(desired, KeyOf(scan[i]), scan[i])
    ensures forall k :: k in desired ==>
              KeyOf(desired[k]) == k && exists i :: Winner(scan, included, excluded, |scan|, i) && scan[i] == desired[k]
    ensures forall i :: 0 <= i < |scan| && (included == {} || scan[i].port in included) && scan[i].port !in excluded ==>
              Key(scan[i].network, scan[i].port) in desired
    ensures forall k :: k in desired ==>
              && k == Key(desired[k].network, desired[k].port)
              && (included == {} || desired[k].port in included) && desired[k].port !in excluded && desired[k] in scan
  {
    desired := map[];
    var n := 0;
    while n < |scan|
      invariant 0 <= n <= |scan|
      invariant forall i :: Winner(scan, included, excluded, n, i) ==> Wanted(desired, KeyOf(scan[i]), scan[i])
      invariant forall k :: k in desired ==>
                  KeyOf(desired[k]) == k && exists i :: Winner(scan, included, excluded, n, i) && scan[i] == desired[k]
      invariant forall i :: 0 <= i < n && Passes(scan[i], included, excluded) ==> KeyOf(scan[i]) in desired
    {
      ghost var before := desired;
      if Passes(scan[n], included, excluded) {
        desired := desired[KeyOf(scan[n]) := scan[n]];
        assert Winner(scan, included, excluded, n + 1, n);
      }
      forall i | Winner(scan, included, excluded, n + 1, i)
        ensures Wanted(desired, KeyOf(scan[i]), scan[i])
      {
        if i < n { assert Winner(scan, included, excluded, n, i); }
      }
      forall k | k in desired
        ensures KeyOf(desired[k]) == k && exists i :: Winner(scan, included, excluded, n + 1, i) && scan[i] == desired[k]
      {
        if Passes(scan[n], included, excluded) && k == KeyOf(scan[n]) {
          assert Winner(scan, included, excluded, n + 1, n);
        } else {
          var i :| Winner(scan, included, excluded, n, i) && scan[i] == before[k];
          assert Winner(scan, included, excluded, n + 1, i);
        }
      }
      n := n + 1;
    }
  }

  /** The maps after pruning, written out. */
  lemma Pruned(active: map<Key, Mapping>, r: Rejections, desired: map<Key, Listener>)
    ensures Kept(active, desired) == map k | k in active && k in desired && desired[k] == active[k].listener :: active[k]
    ensures Obsolete(active, r, desired) == (set k | k in active && !(k in desired && desired[k] == active[k].listener))
                                            + (set k | k in r.at && !(k in desired && desired[k] == r.at[k]))
  {
  }

  /** Mappings that share no handle: what leaves the map is what the removed ones had. */
  lemma RemovedHandles(active: map<Key, Mapping>, desired: map<Key, Listener>, removed: set<int>)
    requires forall j, k :: j in active && k in active && j != k ==> active[j].handle != active[k].handle
    requires removed == set k | k in active && !Wanted(desired, k, active[k].listener) :: active[k].handle
    ensures removed == Handles(active) - Handles(Kept(active, desired))
  {
    var kept := Kept(active, desired);
    forall h | h in removed ensures h in Handles(active) && h !in Handles(kept) { }
    forall h | h in Handles(active) && h !in Handles(kept) ensures h in removed {
      var k :| k in active && active[k].handle == h;
      assert k !in kept;
    }
  }

  ghost predicate Path(run: seq<State>, s: State, s': State) {
    && |run| > 0 && run[0] == s && run[|run| - 1] == s'
    && forall i :: 0 <= i < |run| - 1 ==> Step(run[i], run[i + 1])
  }

  /** Some steps of the machine lead from one state to the other. */
  ghost predicate Reaches(s: State, s': State) { exists run :: Path(run, s, s') }

  lemma Stay(s: State)
    ensures Reaches(s, s)
  {
    assert Path([s], s, s);
  }

  lemma Further(s: State, s1: State, s2: State)
    requires Reaches(s, s1) && Step(s1, s2)
    ensures Reaches(s, s2)
  {
    var run :| Path(run, s, s1);
    assert Path(run + [s2], s, s2);
  }

  lemma Opens(s0: State, s: State, s': State, k: Key)
    requires Reaches(s0, s) && OpenStep(s, s', k)
    ensures Reaches(s0, s')
  {
    Further(s0, s, s');
  }

  lemma Decides(s0: State, s: State, s': State, k: Key)
    requires Reaches(s0, s) && OutcomeStep(s, s', k)
    ensures Reaches(s0, s')
  {
    Further(s0, s, s');
  }

  class Maps {
    var active: map<Key, Mapping>
    var rej: Rejections
    var gen: int

    constructor ()
      ensures active == map[] && rej == NOTHING && gen == 0
    {
      active, rej, gen := map[], NOTHING, 0;
    }

    ghost predicate Shows(s: State)
      reads this
    {
      s.active == active && s.rej == rej && s.gen == gen
    }

    /** The first section of a sync: it makes the step, and returns the handles to close. */
    method BeginSyncSection(desired: map<Key, Listener>, ghost s: State) returns (removed: set<int>, ghost s': State)
      requires Shows(s) && Inv(s) && s.phase.Idle?
      modifies this`active, this`rej
      ensures Shows(s') && BeginSync(s, s', desired) && s'.doomed == s.doomed + removed
      ensures forall k :: k in active <==> k in s.active && k in desired && desired[k] == s.active[k].listener
      ensures forall k :: k in active ==> active[k] == s.active[k]
    {
      removed := Prune(desired);
      Pruned(s.active, s.rej, desired);
      RemovedHandles(s.active, desired, removed);
      s' := s.(active := active, rej := rej, phase := Collecting, desired := desired, todo := desired.Keys, tries := map[],
               canceled := false, calm := true, doomed := s.doomed + removed);
    }

    /** Its two loops. */
    method Prune(desired: map<Key, Listener>) returns (removed: set<int>)
      modifies this`active, this`rej
      ensures active == map k | k in old(active) && k in desired && desired[k] == old(active)[k].listener :: old(active)[k]
      ensures removed == set k | k in old(active) && !(k in desired && desired[k] == old(active)[k].listener) :: old(active)[k].handle
      ensures var r := old(rej);
              var gone := (set k | k in old(active) && !(k in desired && desired[k] == old(active)[k].listener))
                          + (set k | k in r.at && !(k in desired && desired[k] == r.at[k]));
              rej == Rejections(r.seen - gone, r.at - gone, r.error - gone, r.after - gone, r.failures - gone)
    {
      ghost var was, rejWas := active, rej;
      var todo := active.Keys;
      removed := {};
      ghost var gone: set<Key> := {};
      while todo != {}
        invariant todo <= active.Keys && gone <= was.Keys && gone !! todo && active == was - gone && rej == Forget(rejWas, gone)
        invariant forall k :: k in was && k !in todo ==> (k in gone <==> !Wanted(desired, k, was[k].listener))
        invariant removed == set k | k in gone :: was[k].handle
        decreases todo
      {
        var k :| k in todo;
        todo := todo - {k};
        if k !in desired || desired[k] != active[k].listener {
          removed := removed + {active[k].handle};
          active := active - {k};
          ForgetMore(rejWas, gone, k);
          rej := Forget(rej, {k});
          gone := gone + {k};
        }
      }
      assert gone == set k | k in was && !Wanted(desired, k, was[k].listener);
      assert active == Kept(was, desired);
      PruneRejections(desired, was, rejWas, gone);
      Pruned(was, rejWas, desired);
    }

    /** The second loop. */
    method PruneRejections(desired: map<Key, Listener>, ghost was: map<Key, Mapping>, ghost rejWas: Rejections, ghost first: set<Key>)
      requires first == (set k | k in was && !Wanted(desired, k, was[k].listener)) && rej == Forget(rejWas, first)
      modifies this`rej
      ensures rej == Forget(rejWas, Obsolete(was, rejWas, desired))
    {
      var todo := rej.at.Keys;
      ghost var gone := first;
      ghost var at := rejWas.at;
      while todo != {}
        invariant todo <= rej.at.Keys && first <= gone && rej == Forget(rejWas, gone) && rej.at == at - gone
        invariant forall k :: k in at && k !in first && k !in todo ==> (k in gone <==> !Wanted(desired, k, at[k]))
        invariant forall k :: k in gone && k !in first ==> k in at && !Wanted(desired, k, at[k])
        decreases todo
      {
        var k :| k in todo;
        todo := todo - {k};
        if !(k in desired && desired[k] == rej.at[k]) {
          ForgetMore(rejWas, gone, k);
          rej := Forget(rej, {k});
          gone := gone + {k};
        }
      }
      ghost var all := Obsolete(was, rejWas, desired);
      assert gone <= all;
      forall k | k in all ensures k in gone { }
      assert gone == all;
    }

    /** One turn of the loop that collects the attempts: a key is tried unless its mapping is in order or its retry is not
        due yet. */
    method CollectOne(k: Key, now: int, desired: map<Key, Listener>, ghost s: State) returns (tried: bool, ghost s': State)
      requires Shows(s) && s.phase.Collecting? && k in s.todo && s.desired == desired && k in desired
      ensures Shows(s') && Collect(s, s', k, k in rej.after && now < rej.after[k])
      ensures tried <==> !(k in active && active[k].listener == desired[k]) && !(k in rej.after && now < rej.after[k])
      ensures s'.tries == if tried then s.tries[k := Attempt(desired[k], gen, Waiting)] else s.tries
      ensures s'.todo == s.todo - {k}
    {
      tried := !(k in active && active[k].listener == desired[k]) && !(k in rej.after && now < rej.after[k]);
      s' := s.(todo := s.todo - {k}, tries := if tried then s.tries[k := Attempt(desired[k], gen, Waiting)] else s.tries);
    }

    /** openOne after the opener answered, with nothing in between: a mapping of an earlier session or a canceled attempt
        is closed and changes nothing; a refusal is recorded and what came with it closed; a handle without an error is
        published and the key's rejections forgotten. */
    method OpenOne(k: Key, l: Listener, generation: int, desired: map<Key, Listener>, canceled: bool,
                   h: Option<int>, failed: bool, error: string, after: int, ghost s: State)
        returns (closes: Option<int>, ghost s': State)
      requires Shows(s) && s.phase.Opening? && k in s.tries && s.tries[k] == Attempt(l, generation, Calling)
      requires s.desired == desired && k in desired && desired[k] == l && canceled == s.canceled && (h.Some? ==> h.value !in s.given)
      modifies this`active, this`rej
      ensures Shows(s') && Reaches(s, s') && k in s'.tries && s'.tries[k].stage.Done?
      ensures closes == (if generation == gen && !canceled && !failed then None else h)
      ensures s'.closed == (if closes.Some? then s.closed + {closes.value} else s.closed)
      ensures var r := old(rej);
              if generation != gen || canceled then active == old(active) && rej == r
              else if failed || h.None? then
                && active == old(active)
                && rej == Rejections(r.seen + {k}, r.at[k := l], r.error[k := error], r.after[k := after],
                                     r.failures[k := (if k in r.failures then r.failures[k] + 1 else 1)])
              else
                && active == old(active)[k := Mapping(l, h.value, generation)]
                && rej == Rejections(r.seen - {k}, r.at - {k}, r.error - {k}, r.after - {k}, r.failures - {k})
    {
      ghost var s1 := Answered(k, h, failed, s);
      if generation != gen || canceled {
        closes := h;
        s' := GiveUp(k, h, failed, s, s1);
        return;
      }
      ghost var s2 := Go(s1, k, Checked(h, failed));
      assert StaleCheck(s1, s2, k, h, failed);
      Opens(s, s1, s2, k);
      if failed || h.None? {
        closes := h;
        ghost var s3 := Refused(k, h, failed, s, s2);
        var first;
        first, s' := RecordRejection(k, l, error, after, s3);
        assert OutcomeStep(s3, s', k);
        Decides(s, s3, s', k);
        return;
      }
      closes := None;
      ghost var s3 := Go(s2, k, Clearing(h.value));
      assert CancelCheck(s2, s3, k, h, failed);
      Opens(s, s2, s3, k);
      ghost var s4 := ClearRejection(k, h.value, s3);
      assert OutcomeStep(s3, s4, k);
      Decides(s, s3, s4, k);
      var published;
      published, s' := PublishMapping(k, l, h.value, generation, desired, s4);
      assert OutcomeStep(s4, s', k);
      Decides(s, s4, s', k);
    }

    /** The opener's answer. */
    ghost method Answered(k: Key, h: Option<int>, failed: bool, s: State) returns (s': State)
      requires Shows(s) && In(s, k, Calling) && (h.Some? ==> h.value !in s.given)
      ensures Shows(s') && Reaches(s, s') && In(s', k, Back(h, failed)) && s'.tries == s.tries[k := s.tries[k].(stage := Back(h, failed))]
      ensures s'.closed == s.closed && s'.desired == s.desired && s'.canceled == s.canceled
    {
      Stay(s);
      s' := Go(s, k, Back(h, failed)).(given := if h.Some? then s.given + {h.value} else s.given);
      assert Return(s, s', k, h, failed);
      Opens(s, s, s', k);
    }

    /** A stale or canceled attempt. */
    ghost method GiveUp(k: Key, h: Option<int>, failed: bool, s0: State, s: State) returns (s': State)
      requires Shows(s) && Reaches(s0, s) && In(s, k, Back(h, failed)) && (s.tries[k].gen != s.gen || s.canceled)
      ensures Shows(s') && Reaches(s0, s') && k in s'.tries && s'.tries[k].stage.Done?
      ensures s'.closed == (if h.Some? then s.closed + {h.value} else s.closed)
    {
      var s1 := s;
      if s.tries[k].gen == s.gen {
        s1 := Go(s, k, Checked(h, failed));
        assert StaleCheck(s, s1, k, h, failed);
        Opens(s0, s, s1, k);
        var s2 := Go(s1, k, Dropping(h));
        assert CancelCheck(s1, s2, k, h, failed);
        Opens(s0, s1, s2, k);
        s1 := s2;
      } else {
        s1 := Go(s, k, Dropping(h));
        assert StaleCheck(s, s1, k, h, failed);
        Opens(s0, s, s1, k);
      }
      s' := Shut(Go(s1, k, Done), h);
      assert Drop(s1, s', k, h);
      Opens(s0, s1, s', k);
    }

    /** The opener refused: what came with the error is closed. */
    ghost method Refused(k: Key, h: Option<int>, failed: bool, s0: State, s: State) returns (s': State)
      requires Shows(s) && Reaches(s0, s) && In(s, k, Checked(h, failed)) && !s.canceled && (failed || h.None?)
      ensures Shows(s') && Reaches(s0, s') && In(s', k, Rejecting) && s'.tries[k].listener == s.tries[k].listener
      ensures s'.closed == (if h.Some? then s.closed + {h.value} else s.closed)
    {
      if failed {
        var s1 := Go(s, k, Failing(h));
        assert CancelCheck(s, s1, k, h, failed);
        Opens(s0, s, s1, k);
        s' := Shut(Go(s1, k, Rejecting), h);
        assert CloseFailed(s1, s', k, h);
        Opens(s0, s1, s', k);
      } else {
        s' := Go(s, k, Rejecting);
        assert CancelCheck(s, s', k, h, failed);
        Opens(s0, s, s', k);
      }
    }

    /** A mapping was opened: its key is no longer rejected. */
    method ClearRejection(k: Key, handle: int, ghost s: State) returns (ghost s': State)
      requires Shows(s) && In(s, k, Clearing(handle))
      modifies this`rej
      ensures Shows(s') && Clear(s, s', k, handle) && In(s', k, Publishing(handle)) && s'.tries == s.tries[k := s.tries[k].(stage := Publishing(handle))]
      ensures var r := old(rej); rej == Rejections(r.seen - {k}, r.at - {k}, r.error - {k}, r.after - {k}, r.failures - {k})
      ensures s'.desired == s.desired && s'.closed == s.closed
    {
      rej := Rejections(rej.seen - {k}, rej.at - {k}, rej.error - {k}, rej.after - {k}, rej.failures - {k});
      s' := Go(s, k, Publishing(handle)).(rej := rej);
    }

    /** What openOne records when the opener refused. */
    method RecordRejection(k: Key, l: Listener, error: string, after: int, ghost s: State) returns (firstRejection: bool, ghost s': State)
      requires Shows(s) && In(s, k, Rejecting) && s.tries[k].listener == l
      modifies this`rej
      ensures Shows(s') && Reject(s, s', k, error, after) && (firstRejection <==> k !in s.rej.seen)
      ensures var r := old(rej);
              rej == Rejections(r.seen + {k}, r.at[k := l], r.error[k := error], r.after[k := after],
                                r.failures[k := (if k in r.failures then r.failures[k] + 1 else 1)])
      ensures s'.tries == s.tries[k := s.tries[k].(stage := Done)] && s'.closed == s.closed
    {
      firstRejection := k !in rej.seen;
      var failures := if k in rej.failures then rej.failures[k] else 0;
      rej := Rejections(rej.seen + {k}, rej.at[k := l], rej.error[k := error], rej.after[k := after], rej.failures[k := failures + 1]);
      s' := Go(s, k, Done).(rej := rej);
    }

    /** The publishing section: false asks the caller to close the handle. */
    method PublishMapping(k: Key, l: Listener, handle: int, generation: int, desired: map<Key, Listener>, ghost s: State)
        returns (published: bool, ghost s': State)
      requires Shows(s) && In(s, k, Publishing(handle)) && s.tries[k].listener == l && s.tries[k].gen == generation && s.desired == desired
      modifies this`active
      ensures Shows(s') && Publish(s, s', k, handle)
      ensures published <==> generation == gen && k in desired && desired[k] == l
      ensures active == if published then old(active)[k := Mapping(l, handle, generation)] else old(active)
      ensures s'.tries == s.tries[k := s.tries[k].(stage := if published then Done else Dropping(Some(handle)))] && s'.closed == s.closed
    {
      published := generation == gen && k in desired && desired[k] == l;
      if published {
        active := active[k := Mapping(l, handle, generation)];
        s' := Go(s, k, Done).(active := active);
      } else {
        s' := Go(s, k, Dropping(Some(handle)));
      }
    }

    /** Reset, up to the closes. */
    method ResetSection(ghost s: State) returns (removed: set<int>, ghost s': State)
      requires Shows(s)
      modifies this
      ensures Shows(s') && Reset(s, s') && s'.doomed == s.doomed + removed
      ensures active == map[] && rej == Rejections({}, map[], map[], map[], map[]) && gen == old(gen) + 1
      ensures removed == set k | k in old(active) :: old(active)[k].handle
    {
      removed := set k | k in active :: active[k].handle;
      active, rej, gen := map[], NOTHING, gen + 1;
      s' := s.(active := active, rej := rej, gen := gen, calm := false, doomed := s.doomed + removed);
    }

    /** closeAll, up to the closes. */
    method CloseAllSection(ghost s: State) returns (removed: set<int>, ghost s': State)
      requires Shows(s) && s.phase.Idle?
      modifies this
      ensures Shows(s') && CloseAll(s, s') && s'.doomed == s.doomed + removed
      ensures active == map[] && rej == Rejections(old(rej).seen, map[], map[], map[], map[]) && gen == old(gen) + 1
      ensures removed == set k | k in old(active) :: old(active)[k].handle
    {
      removed := set k | k in active :: active[k].handle;
      active, rej, gen := map[], Rejections(rej.seen, map[], map[], map[], map[]), gen + 1;
      s' := s.(active := active, rej := rej, gen := gen, calm := false, phase := Stopped, doomed := s.doomed + removed);
    }
  }
}
