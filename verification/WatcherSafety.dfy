/** What holds over whole runs of Watcher: no handle leaks, no stale mapping is published, and a calm sync settles every key. */
module WatcherSafety {
  import opened Watcher

  lemma {:induction false} RunKeeps(run: seq<State>, i: nat)
    requires Run(run) && i < |run|
    ensures Inv(run[i])
  {
    if i > 0 {
      RunKeeps(run, i - 1);
      assert Next(run, i - 1);
      StepKeeps(run[i - 1], run[i]);
    }
  }

  // ----- Main results -----

  /** The mappings of a key that hold the handle: at most one by the lemma below. */
  ghost predicate Owns(s: State, k: Key, h: int) { k in s.active && s.active[k].handle == h }

  /** No handle leaks, none is closed twice, and a closed one is not in use; every active mapping was opened for the
      current generation. */
  lemma HandlesAreOwnedOrClosedOnce(run: seq<State>, i: nat, h: int)
    requires Run(run) && i < |run| && h in run[i].given
    ensures !run[i].doubled && Accounted(run[i], h)
    ensures h in run[i].closed ==> h !in run[i].doomed && h !in Handles(run[i].active) && !IsHeld(run[i].tries, h)
    ensures forall j, k :: Owns(run[i], j, h) && Owns(run[i], k, h) ==> j == k
    ensures forall k :: Owns(run[i], k, h) ==> run[i].active[k].gen == run[i].gen && h !in run[i].doomed && !IsHeld(run[i].tries, h)
  {
    RunKeeps(run, i);
    assert Accounted(run[i], h);
  }

  /** Between syncs nothing is in an attempt's hands; after closeAll, and once what it took out is closed, every
      handle the opener ever returned was closed exactly once. */
  lemma CloseAllClosesEverything(run: seq<State>, i: nat)
    requires Run(run) && i < |run| && run[i].phase.Stopped? && run[i].doomed == {}
    ensures run[i].closed == run[i].given && !run[i].doubled
  {
    RunKeeps(run, i);
    var s := run[i];
    forall h | h in s.given ensures h in s.closed { assert Accounted(s, h); }
    assert s.given <= s.closed;
  }

  /** A sync that ends without Reset or cancellation settles every desired key, as it was scanned, and no other. */
  lemma SyncSettlesEveryKey(run: seq<State>, i: nat)
    requires Run(run) && i < |run| && run[i].phase.Idle? && run[i].calm
    ensures var s := run[i];
            && SameKeys(s.rej)
            && s.active.Keys + s.rej.at.Keys == s.desired.Keys && s.active.Keys !! s.rej.at.Keys
            && (forall k :: k in s.active ==> s.active[k].listener == s.desired[k] && s.active[k].gen == s.gen)
            && (forall k :: k in s.rej.at ==> s.rej.at[k] == s.desired[k])
  {
    RunKeeps(run, i);
    var s := run[i];
    forall k | k in s.desired ensures k in s.active.Keys + s.rej.at.Keys {
      assert k in s.active || k in s.rej.at || Unsettled(s.todo, s.tries, k);
    }
    assert s.active.Keys + s.rej.at.Keys <= s.desired.Keys;
    assert s.desired.Keys <= s.active.Keys + s.rej.at.Keys;
  }

  /** At every moment the rejection maps agree and exclude the active keys. */
  lemma RejectionMapsAgree(run: seq<State>, i: nat)
    requires Run(run) && i < |run|
    ensures SameKeys(run[i].rej) && run[i].active.Keys !! run[i].rej.at.Keys
  {
    RunKeeps(run, i);
  }
}
