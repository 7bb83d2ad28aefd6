/** The automatic-forward reconciler (internal/autoforward/watcher.go). Each section under the watcher's lock, each
    call of the opener and each close of a handle is one step; a sync, its concurrent opens, Reset and closeAll
    interleave freely. */
module Watcher {
  import opened Bytes

  datatype Key = Key(network: string, port: int)
  datatype Listener = Listener(network: string, host: string, port: int)
  datatype Mapping = Mapping(listener: Listener, handle: int, gen: int)

  /** The rejection maps, kept apart as in the source. */
  datatype Rejections = Rejections(
    seen: set<Key>,
    at: map<Key, Listener>,
    error: map<Key, string>,
    after: map<Key, int>,
    failures: map<Key, int>)

  datatype Stage =
    | Waiting
    | Calling
    | Back(h: Option<int>, failed: bool)
    | Checked(h: Option<int>, failed: bool)
    | Failing(h: Option<int>)
    | Rejecting
    | Clearing(handle: int)
    | Publishing(handle: int)
    | Dropping(h: Option<int>)
    | Done

  datatype Attempt = Attempt(listener: Listener, gen: int, stage: Stage)

  datatype Phase = Idle | Collecting | Opening | Stopped

  /** `calm` says that neither Reset nor a cancellation came since the sync began. `given`, `closed` and `doubled`
      are history: the handles the opener returned, those closed, and whether one was closed twice. `doomed` holds
      the handles that a sync, Reset or closeAll took out of the map and is about to close. */
  datatype State = State(
    active: map<Key, Mapping>,
    rej: Rejections,
    gen: int,
    phase: Phase,
    desired: map<Key, Listener>,
    todo: set<Key>,
    tries: map<Key, Attempt>,
    canceled: bool,
    calm: bool,
    given: set<int>,
    doomed: set<int>,
    closed: set<int>,
    doubled: bool)

  const NOTHING := Rejections({}, map[], map[], map[], map[])

  ghost predicate Init(s: State) {
    s == State(map[], NOTHING, 0, Idle, map[], {}, map[], false, false, {}, {}, {}, false)
  }

  function HandleOf(x: Stage): Option<int> {
    if x.Back? || x.Checked? || x.Failing? || x.Dropping? then x.h
    else if x.Clearing? || x.Publishing? then Some(x.handle)
    else None
  }

  function Handles(active: map<Key, Mapping>): set<int> { set k | k in active :: active[k].handle }

  // ----- Sections on the maps -----

  function Forget(r: Rejections, keys: set<Key>): Rejections {
    Rejections(r.seen - keys, r.at - keys, r.error - keys, r.after - keys, r.failures - keys)
  }

  function Record(r: Rejections, k: Key, l: Listener, error: string, after: int): Rejections {
    Rejections(r.seen + {k}, r.at[k := l], r.error[k := error], r.after[k := after],
               r.failures[k := (if k in r.failures then r.failures[k] else 0) + 1])
  }

  lemma ForgetMore(r: Rejections, keys: set<Key>, k: Key)
    ensures Forget(Forget(r, keys), {k}) == Forget(r, keys + {k})
  {
    assert r.at - keys - {k} == r.at - (keys + {k}) && r.error - keys - {k} == r.error - (keys + {k});
    assert r.after - keys - {k} == r.after - (keys + {k}) && r.failures - keys - {k} == r.failures - (keys + {k});
    assert r.seen - keys - {k} == r.seen - (keys + {k});
  }

  predicate Wanted(desired: map<Key, Listener>, k: Key, l: Listener) { k in desired && desired[k] == l }

  function Kept(active: map<Key, Mapping>, desired: map<Key, Listener>): map<Key, Mapping> {
    map k | k in active && Wanted(desired, k, active[k].listener) :: active[k]
  }

  /** The keys whose rejections go: those of the removed mappings, and those no longer wanted as they were. */
  function Obsolete(active: map<Key, Mapping>, r: Rejections, desired: map<Key, Listener>): set<Key> {
    (set k | k in active && !Wanted(desired, k, active[k].listener)) + (set k | k in r.at && !Wanted(desired, k, r.at[k]))
  }

  // ----- Steps of a sync -----

  ghost predicate BeginSync(s: State, s': State, desired: map<Key, Listener>) {
    && s.phase.Idle?
    && var kept := Kept(s.active, desired);
       s' == s.(active := kept, rej := Forget(s.rej, Obsolete(s.active, s.rej, desired)), phase := Collecting,
                desired := desired, todo := desired.Keys, tries := map[], canceled := false, calm := true,
                doomed := s.doomed + (Handles(s.active) - Handles(kept)))
  }

  /** Is there anything to do for this key now? */
  ghost predicate Collect(s: State, s': State, k: Key, early: bool) {
    && s.phase.Collecting? && k in s.todo && k in s.desired
    && s' == if (k in s.active && s.active[k].listener == s.desired[k]) || (k in s.rej.after && early)
             then s.(todo := s.todo - {k})
             else s.(todo := s.todo - {k}, tries := s.tries[k := Attempt(s.desired[k], s.gen, Waiting)])
  }

  ghost predicate BeginOpening(s: State, s': State) { s.phase.Collecting? && s.todo == {} && s' == s.(phase := Opening) }

  ghost predicate EndSync(s: State, s': State) {
    && s.phase.Opening? && (forall k :: k in s.tries ==> s.tries[k].stage.Done?)
    && s' == s.(phase := Idle, tries := map[])
  }

  // ----- Steps of one open -----

  predicate In(s: State, k: Key, x: Stage) { s.phase.Opening? && k in s.tries && s.tries[k].stage == x }

  function Moved(tries: map<Key, Attempt>, k: Key, x: Stage): map<Key, Attempt>
    requires k in tries
  {
    tries[k := tries[k].(stage := x)]
  }

  function Go(s: State, k: Key, x: Stage): State
    requires k in s.tries
  {
    s.(tries := Moved(s.tries, k, x))
  }

  ghost predicate Start(s: State, s': State, k: Key) { In(s, k, Waiting) && s' == Go(s, k, Calling) }

  ghost predicate Abandon(s: State, s': State, k: Key) { In(s, k, Waiting) && s.canceled && s' == Go(s, k, Done) }

  /** The opener may return a handle, an error, both or neither. */
  ghost predicate Return(s: State, s': State, k: Key, h: Option<int>, failed: bool) {
    && In(s, k, Calling) && (h.Some? ==> h.value !in s.given)
    && s' == Go(s, k, Back(h, failed)).(given := if h.Some? then s.given + {h.value} else s.given)
  }

  ghost predicate StaleCheck(s: State, s': State, k: Key, h: Option<int>, failed: bool) {
    && In(s, k, Back(h, failed))
    && s' == Go(s, k, if s.tries[k].gen != s.gen then Dropping(h) else Checked(h, failed))
  }

  ghost predicate CancelCheck(s: State, s': State, k: Key, h: Option<int>, failed: bool) {
    && In(s, k, Checked(h, failed))
    && s' == Go(s, k, if s.canceled then Dropping(h) else if failed then Failing(h) else if h.None? then Rejecting else Clearing(h.value))
  }

  function Shut(s: State, h: Option<int>): State {
    if h.None? then s else s.(closed := s.closed + {h.value}, doubled := s.doubled || h.value in s.closed)
  }

  ghost predicate CloseFailed(s: State, s': State, k: Key, h: Option<int>) {
    In(s, k, Failing(h)) && s' == Shut(Go(s, k, Rejecting), h)
  }

  ghost predicate Drop(s: State, s': State, k: Key, h: Option<int>) {
    In(s, k, Dropping(h)) && s' == Shut(Go(s, k, Done), h)
  }

  ghost predicate Reject(s: State, s': State, k: Key, error: string, after: int) {
    && In(s, k, Rejecting)
    && s' == Go(s, k, Done).(rej := Record(s.rej, k, s.tries[k].listener, error, after))
  }

  ghost predicate Clear(s: State, s': State, k: Key, h: int) {
    In(s, k, Clearing(h)) && s' == Go(s, k, Publishing(h)).(rej := Forget(s.rej, {k}))
  }

  ghost predicate Publish(s: State, s': State, k: Key, h: int) {
    && In(s, k, Publishing(h))
    && var t := s.tries[k];
       s' == if t.gen == s.gen && Wanted(s.desired, k, t.listener)
             then Go(s, k, Done).(active := s.active[k := Mapping(t.listener, h, t.gen)])
             else Go(s, k, Dropping(Some(h)))
  }

  // ----- Steps of others -----

  ghost predicate Cancel(s: State, s': State) { s' == s.(canceled := true, calm := false) }

  ghost predicate Reset(s: State, s': State) {
    s' == s.(active := map[], rej := NOTHING, gen := s.gen + 1, calm := false, doomed := s.doomed + Handles(s.active))
  }

  /** closeAll runs after the last sync. It forgets the rejections but not which keys were reported. */
  ghost predicate CloseAll(s: State, s': State) {
    && s.phase.Idle?
    && s' == s.(active := map[], rej := NOTHING.(seen := s.rej.seen), gen := s.gen + 1, calm := false, phase := Stopped,
                doomed := s.doomed + Handles(s.active))
  }

  ghost predicate CloseDoomed(s: State, s': State, h: int) {
    h in s.doomed && s' == Shut(s.(doomed := s.doomed - {h}), Some(h))
  }

  ghost predicate SyncStep(s: State, s': State) {
    || (exists desired: map<Key, Listener> :: BeginSync(s, s', desired))
    || (exists k: Key, early: bool :: Collect(s, s', k, early))
    || BeginOpening(s, s') || EndSync(s, s')
  }

  ghost predicate OpenStep(s: State, s': State, k: Key) {
    || Start(s, s', k) || Abandon(s, s', k)
    || (exists h: Option<int>, failed: bool :: Return(s, s', k, h, failed))
    || (exists h: Option<int>, failed: bool :: StaleCheck(s, s', k, h, failed))
    || (exists h: Option<int>, failed: bool :: CancelCheck(s, s', k, h, failed))
    || (exists h: Option<int> :: CloseFailed(s, s', k, h))
    || (exists h: Option<int> :: Drop(s, s', k, h))
  }

  ghost predicate OutcomeStep(s: State, s': State, k: Key) {
    || (exists error: string, after: int :: Reject(s, s', k, error, after))
    || (exists h: int :: Clear(s, s', k, h))
    || (exists h: int :: Publish(s, s', k, h))
  }

  ghost predicate OtherStep(s: State, s': State) {
    Cancel(s, s') || Reset(s, s') || CloseAll(s, s') || exists h: int :: CloseDoomed(s, s', h)
  }

  ghost predicate Step(s: State, s': State) {
    SyncStep(s, s') || OtherStep(s, s') || exists k: Key :: OpenStep(s, s', k) || OutcomeStep(s, s', k)
  }

  ghost predicate Next(run: seq<State>, i: int) { 0 <= i < |run| - 1 && Step(run[i], run[i + 1]) }

  ghost predicate Run(run: seq<State>) {
    |run| > 0 && Init(run[0]) && forall i :: 0 <= i < |run| - 1 ==> Next(run, i)
  }

  // ----- Invariant -----

  /** A handle is in one place: active, with an attempt, doomed, or closed. */
  ghost predicate ActiveOk(active: map<Key, Mapping>, gen: int, given: set<int>, doomed: set<int>, closed: set<int>) {
    && (forall k :: k in active ==> active[k].gen == gen && active[k].handle in given && active[k].handle !in doomed && active[k].handle !in closed)
    && (forall j, k :: j in active && k in active && j != k ==> active[j].handle != active[k].handle)
  }

  ghost predicate Held(tries: map<Key, Attempt>, k: Key) { k in tries && HandleOf(tries[k].stage).Some? }

  function HeldBy(tries: map<Key, Attempt>, k: Key): int
    requires k in tries && HandleOf(tries[k].stage).Some?
  {
    HandleOf(tries[k].stage).value
  }

  ghost predicate TriesOk(tries: map<Key, Attempt>, given: set<int>, doomed: set<int>, closed: set<int>) {
    && (forall k :: Held(tries, k) ==> HeldBy(tries, k) in given && HeldBy(tries, k) !in doomed && HeldBy(tries, k) !in closed)
    && (forall j, k :: Held(tries, j) && Held(tries, k) && j != k ==> HeldBy(tries, j) != HeldBy(tries, k))
  }

  ghost predicate Apart(active: map<Key, Mapping>, tries: map<Key, Attempt>) {
    forall j, k :: j in active && Held(tries, k) ==> active[j].handle != HeldBy(tries, k)
  }

  ghost predicate SetsOk(given: set<int>, doomed: set<int>, closed: set<int>, doubled: bool) {
    !doubled && doomed <= given && closed <= given && doomed !! closed
  }

  ghost predicate IsHeld(tries: map<Key, Attempt>, h: int) { exists k :: Held(tries, k) && HeldBy(tries, k) == h }

  /** Every handle is somewhere. */
  ghost predicate Accounted(s: State, h: int) {
    h in s.closed || h in s.doomed || h in Handles(s.active) || IsHeld(s.tries, h)
  }

  ghost predicate AllAccounted(s: State) { forall h :: h in s.given ==> Accounted(s, h) }

  predicate SameKeys(r: Rejections) {
    r.error.Keys == r.at.Keys && r.after.Keys == r.at.Keys && r.failures.Keys == r.at.Keys
  }

  /** What is active or rejected is so with the scanned listener, and never both. */
  ghost predicate MapsOk(active: map<Key, Mapping>, r: Rejections, desired: map<Key, Listener>) {
    && SameKeys(r)
    && (forall k :: k in active ==> Wanted(desired, k, active[k].listener) && k !in r.at)
    && (forall k :: k in r.at ==> Wanted(desired, k, r.at[k]))
  }

  /** An open in progress has its key to itself. */
  ghost predicate KeysOk(active: map<Key, Mapping>, r: Rejections, desired: map<Key, Listener>, todo: set<Key>, tries: map<Key, Attempt>, phase: Phase) {
    && (forall k :: k in tries ==> Wanted(desired, k, tries[k].listener) && k !in todo && (phase.Collecting? || phase.Opening?))
    && (forall k :: k in tries && !tries[k].stage.Done? ==> k !in active)
    && (forall k :: k in tries && tries[k].stage.Publishing? ==> k !in r.at)
    && (phase.Collecting? ==> forall k :: k in tries ==> tries[k].stage.Waiting?)
    && (!phase.Collecting? ==> todo == {})
  }

  ghost predicate Unsettled(todo: set<Key>, tries: map<Key, Attempt>, k: Key) { k in todo || (k in tries && !tries[k].stage.Done?) }

  /** While nothing disturbs a sync, each desired key is settled or still on its way, and no open is dropped. */
  ghost predicate CalmOk(active: map<Key, Mapping>, r: Rejections, desired: map<Key, Listener>, todo: set<Key>, tries: map<Key, Attempt>) {
    forall k :: k in desired ==> k in active || k in r.at || Unsettled(todo, tries, k)
  }

  ghost predicate Undisturbed(tries: map<Key, Attempt>, gen: int, canceled: bool) {
    !canceled && forall k :: k in tries ==> tries[k].gen == gen && !tries[k].stage.Dropping?
  }

  ghost predicate Inv(s: State) {
    && ActiveOk(s.active, s.gen, s.given, s.doomed, s.closed)
    && TriesOk(s.tries, s.given, s.doomed, s.closed)
    && Apart(s.active, s.tries)
    && SetsOk(s.given, s.doomed, s.closed, s.doubled)
    && AllAccounted(s)
    && MapsOk(s.active, s.rej, s.desired)
    && KeysOk(s.active, s.rej, s.desired, s.todo, s.tries, s.phase)
    && (s.calm ==> CalmOk(s.active, s.rej, s.desired, s.todo, s.tries) && Undisturbed(s.tries, s.gen, s.canceled))
    && (s.phase.Stopped? ==> s.active == map[])
  }

  // ----- Sync steps -----

  lemma HeldMoves(tries: map<Key, Attempt>, k: Key, x: Stage, h: int)
    requires k in tries && IsHeld(tries, h) && (HandleOf(tries[k].stage) == Some(h) ==> HandleOf(x) == Some(h))
    ensures IsHeld(Moved(tries, k, x), h)
  {
    var j :| Held(tries, j) && HeldBy(tries, j) == h;
    assert Held(Moved(tries, k, x), j) && HeldBy(Moved(tries, k, x), j) == h;
  }

  lemma BeginSyncHandles(s: State, s': State, desired: map<Key, Listener>)
    requires Inv(s) && BeginSync(s, s', desired)
    ensures ActiveOk(s'.active, s'.gen, s'.given, s'.doomed, s'.closed) && AllAccounted(s')
    ensures SetsOk(s'.given, s'.doomed, s'.closed, s'.doubled)
  {
    forall k | k in s'.active ensures s'.active[k].handle in Handles(s'.active) { }
    forall h | h in s'.given ensures Accounted(s', h) {
      assert Accounted(s, h);
      if IsHeld(s.tries, h) { assert s.tries == map[]; }
    }
  }

  lemma BeginSyncMaps(s: State, s': State, desired: map<Key, Listener>)
    requires Inv(s) && BeginSync(s, s', desired)
    ensures MapsOk(s'.active, s'.rej, s'.desired)
  {
    var gone := Obsolete(s.active, s.rej, desired);
    assert s'.rej.at.Keys == s.rej.at.Keys - gone;
    assert s'.rej.error.Keys == s.rej.error.Keys - gone;
    assert s'.rej.after.Keys == s.rej.after.Keys - gone;
    assert s'.rej.failures.Keys == s.rej.failures.Keys - gone;
  }

  lemma BeginSyncKeeps(s: State, s': State, desired: map<Key, Listener>)
    requires Inv(s) && BeginSync(s, s', desired)
    ensures Inv(s')
  {
    BeginSyncHandles(s, s', desired);
    BeginSyncMaps(s, s', desired);
  }

  lemma CollectHandles(s: State, s': State, k: Key, early: bool)
    requires Inv(s) && Collect(s, s', k, early)
    ensures TriesOk(s'.tries, s'.given, s'.doomed, s'.closed) && Apart(s'.active, s'.tries) && AllAccounted(s')
  {
    assert forall j :: !Held(s.tries, j) && !Held(s'.tries, j);
    forall h | h in s'.given ensures Accounted(s', h) {
      assert Accounted(s, h) && !IsHeld(s.tries, h);
    }
  }

  lemma CollectKeeps(s: State, s': State, k: Key, early: bool)
    requires Inv(s) && Collect(s, s', k, early)
    ensures Inv(s')
  {
    CollectHandles(s, s', k, early);
    CollectKeys(s, s', k, early);
    if s.calm { CollectSettles(s, s', k, early); }
  }

  lemma CollectKeys(s: State, s': State, k: Key, early: bool)
    requires Inv(s) && Collect(s, s', k, early)
    ensures KeysOk(s'.active, s'.rej, s'.desired, s'.todo, s'.tries, s'.phase)
  {
    if s'.tries != s.tries { NewTry(s.active, s.rej, s.desired, s.todo, s.tries, s.phase, k, s'.tries[k]); }
  }

  lemma NewTry(
      active: map<Key, Mapping>, r: Rejections, desired: map<Key, Listener>, todo: set<Key>, tries: map<Key, Attempt>, phase: Phase,
      k: Key, t: Attempt)
    requires KeysOk(active, r, desired, todo, tries, phase) && phase.Collecting? && k in todo && k !in active
    requires Wanted(desired, k, t.listener) && t.stage.Waiting?
    ensures KeysOk(active, r, desired, todo - {k}, tries[k := t], phase)
  {
  }

  lemma CollectSettles(s: State, s': State, k: Key, early: bool)
    requires Inv(s) && Collect(s, s', k, early) && s.calm
    ensures CalmOk(s'.active, s'.rej, s'.desired, s'.todo, s'.tries)
  {
    forall j | j in s'.desired ensures j in s'.active || j in s'.rej.at || Unsettled(s'.todo, s'.tries, j) {
      assert j in s.active || j in s.rej.at || Unsettled(s.todo, s.tries, j);
    }
  }

  lemma PhaseKeeps(s: State, s': State)
    requires Inv(s) && (BeginOpening(s, s') || EndSync(s, s'))
    ensures Inv(s')
  {
    assert forall j :: Held(s'.tries, j) ==> Held(s.tries, j) && HeldBy(s'.tries, j) == HeldBy(s.tries, j);
    forall h | h in s'.given ensures Accounted(s', h) {
      assert Accounted(s, h);
      if IsHeld(s.tries, h) {
        var j :| Held(s.tries, j) && HeldBy(s.tries, j) == h;
        assert !s.tries[j].stage.Done?;
        assert Held(s'.tries, j) && HeldBy(s'.tries, j) == h;
      }
    }
    if s.calm {
      forall j | j in s'.desired ensures j in s'.active || j in s'.rej.at || Unsettled(s'.todo, s'.tries, j) {
        assert j in s.active || j in s.rej.at || Unsettled(s.todo, s.tries, j);
      }
    }
  }

  // ----- Open steps -----

  /** An attempt moves on with the handle it has. */
  lemma MoveHandles(s: State, k: Key, x: Stage)
    requires k in s.tries && TriesOk(s.tries, s.given, s.doomed, s.closed) && Apart(s.active, s.tries) && AllAccounted(s)
    requires HandleOf(x) == HandleOf(s.tries[k].stage)
    ensures var s' := Go(s, k, x); TriesOk(s'.tries, s.given, s.doomed, s.closed) && Apart(s.active, s'.tries) && AllAccounted(s')
  {
    var s' := Go(s, k, x);
    assert forall j :: Held(s'.tries, j) ==> Held(s.tries, j) && HeldBy(s'.tries, j) == HeldBy(s.tries, j);
    forall h | h in s'.given ensures Accounted(s', h) {
      assert Accounted(s, h);
      if IsHeld(s.tries, h) { HeldMoves(s.tries, k, x, h); }
    }
  }

  lemma MoveCalm(s: State, k: Key, x: Stage)
    requires k in s.tries && CalmOk(s.active, s.rej, s.desired, s.todo, s.tries) && !x.Done?
    ensures CalmOk(s.active, s.rej, s.desired, s.todo, Moved(s.tries, k, x))
  {
    forall j | j in s.desired ensures j in s.active || j in s.rej.at || Unsettled(s.todo, Moved(s.tries, k, x), j) {
      assert j in s.active || j in s.rej.at || Unsettled(s.todo, s.tries, j);
    }
  }

  lemma MoveKeeps(s: State, s': State, k: Key, x: Stage)
    requires Inv(s) && s.phase.Opening? && k in s.tries && !s.tries[k].stage.Done? && s' == Go(s, k, x)
    requires HandleOf(x) == HandleOf(s.tries[k].stage) && !x.Publishing? && (s.calm ==> !x.Done? && !x.Dropping?)
    ensures Inv(s')
  {
    MoveHandles(s, k, x);
    if s.calm { MoveCalm(s, k, x); }
  }

  lemma ReturnKeeps(s: State, s': State, k: Key, h: Option<int>, failed: bool)
    requires Inv(s) && Return(s, s', k, h, failed)
    ensures Inv(s')
  {
    var x := Back(h, failed);
    assert forall j :: Held(s'.tries, j) && j != k ==> Held(s.tries, j) && HeldBy(s'.tries, j) == HeldBy(s.tries, j);
    forall g | g in s'.given ensures Accounted(s', g) {
      if g in s.given {
        assert Accounted(s, g);
        if IsHeld(s.tries, g) { HeldMoves(s.tries, k, x, g); }
      } else {
        assert Held(s'.tries, k) && HeldBy(s'.tries, k) == g;
      }
    }
    if s.calm { MoveCalm(s, k, x); }
  }

  /** An attempt closes its handle. */
  lemma ShutHandles(s: State, s': State, k: Key, x: Stage)
    requires Inv(s) && k in s.tries && HandleOf(x).None? && s' == Shut(Go(s, k, x), HandleOf(s.tries[k].stage))
    ensures ActiveOk(s'.active, s'.gen, s'.given, s'.doomed, s'.closed) && TriesOk(s'.tries, s'.given, s'.doomed, s'.closed)
    ensures Apart(s'.active, s'.tries) && SetsOk(s'.given, s'.doomed, s'.closed, s'.doubled) && AllAccounted(s')
  {
    assert forall j :: Held(s'.tries, j) ==> j != k && Held(s.tries, j) && HeldBy(s'.tries, j) == HeldBy(s.tries, j);
    if HandleOf(s.tries[k].stage).Some? { assert Held(s.tries, k); }
    forall h | h in s'.given ensures Accounted(s', h) {
      assert Accounted(s, h);
      if h !in s'.closed && IsHeld(s.tries, h) { HeldMoves(s.tries, k, x, h); }
    }
  }

  lemma CloseFailedKeeps(s: State, s': State, k: Key, h: Option<int>)
    requires Inv(s) && CloseFailed(s, s', k, h)
    ensures Inv(s')
  {
    ShutHandles(s, s', k, Rejecting);
    if s.calm { MoveCalm(s, k, Rejecting); }
  }

  lemma DropKeeps(s: State, s': State, k: Key, h: Option<int>)
    requires Inv(s) && Drop(s, s', k, h)
    ensures Inv(s')
  {
    ShutHandles(s, s', k, Done);
  }

  lemma CheckKeeps(s: State, s': State, k: Key)
    requires Inv(s)
    requires (exists h: Option<int>, failed: bool :: StaleCheck(s, s', k, h, failed) || CancelCheck(s, s', k, h, failed))
    ensures Inv(s')
  {
    MoveKeeps(s, s', k, s'.tries[k].stage);
  }

  lemma StartKeeps(s: State, s': State, k: Key)
    requires Inv(s) && (Start(s, s', k) || Abandon(s, s', k))
    ensures Inv(s')
  {
    MoveKeeps(s, s', k, s'.tries[k].stage);
  }

  lemma OpenStepKeeps(s: State, s': State, k: Key)
    requires Inv(s) && OpenStep(s, s', k)
    ensures Inv(s')
  {
    if Start(s, s', k) || Abandon(s, s', k) {
      StartKeeps(s, s', k);
    } else if h: Option<int>, failed: bool :| Return(s, s', k, h, failed) {
      ReturnKeeps(s, s', k, h, failed);
    } else if h: Option<int> :| CloseFailed(s, s', k, h) {
      CloseFailedKeeps(s, s', k, h);
    } else if h: Option<int> :| Drop(s, s', k, h) {
      DropKeeps(s, s', k, h);
    } else {
      CheckKeeps(s, s', k);
    }
  }

  // ----- Outcomes -----

  lemma RejectKeeps(s: State, s': State, k: Key, error: string, after: int)
    requires Inv(s) && Reject(s, s', k, error, after)
    ensures Inv(s')
  {
    MoveHandles(s, k, Done);
    var r, r' := s.rej, s'.rej;
    assert r'.at.Keys == r.at.Keys + {k} && r'.error.Keys == r.error.Keys + {k};
    assert r'.after.Keys == r.after.Keys + {k} && r'.failures.Keys == r.failures.Keys + {k};
    assert AllAccounted(Go(s, k, Done));
    forall h | h in s'.given ensures Accounted(s', h) { assert Accounted(Go(s, k, Done), h); }
    if s.calm { RejectCalm(s, s', k); }
  }

  lemma RejectCalm(s: State, s': State, k: Key)
    requires CalmOk(s.active, s.rej, s.desired, s.todo, s.tries) && (exists error: string, after: int :: Reject(s, s', k, error, after))
    ensures CalmOk(s'.active, s'.rej, s'.desired, s'.todo, s'.tries)
  {
    forall j | j in s'.desired ensures j in s'.active || j in s'.rej.at || Unsettled(s'.todo, s'.tries, j) {
      assert j in s.active || j in s.rej.at || Unsettled(s.todo, s.tries, j);
    }
  }

  lemma ClearKeeps(s: State, s': State, k: Key, h: int)
    requires Inv(s) && Clear(s, s', k, h)
    ensures Inv(s')
  {
    MoveHandles(s, k, Publishing(h));
    var r, r' := s.rej, s'.rej;
    assert r'.at.Keys == r.at.Keys - {k} && r'.error.Keys == r.error.Keys - {k};
    assert r'.after.Keys == r.after.Keys - {k} && r'.failures.Keys == r.failures.Keys - {k};
    forall g | g in s'.given ensures Accounted(s', g) { assert Accounted(Go(s, k, Publishing(h)), g); }
    if s.calm {
      forall j | j in s'.desired ensures j in s'.active || j in s'.rej.at || Unsettled(s'.todo, s'.tries, j) {
        assert j in s.active || j in s.rej.at || Unsettled(s.todo, s.tries, j);
      }
    }
  }

  lemma PublishCalm(s: State, s': State, k: Key, h: int)
    requires CalmOk(s.active, s.rej, s.desired, s.todo, s.tries) && Publish(s, s', k, h)
    requires s.tries[k].gen == s.gen && Wanted(s.desired, k, s.tries[k].listener)
    ensures CalmOk(s'.active, s'.rej, s'.desired, s'.todo, s'.tries)
  {
    forall j | j in s'.desired ensures j in s'.active || j in s'.rej.at || Unsettled(s'.todo, s'.tries, j) {
      assert j in s.active || j in s.rej.at || Unsettled(s.todo, s.tries, j);
    }
  }

  lemma PublishMaps(s: State, s': State, k: Key, h: int)
    requires Inv(s) && Publish(s, s', k, h) && s.tries[k].gen == s.gen && Wanted(s.desired, k, s.tries[k].listener)
    ensures MapsOk(s'.active, s'.rej, s'.desired) && KeysOk(s'.active, s'.rej, s'.desired, s'.todo, s'.tries, s'.phase)
  {
  }

  lemma PublishKeeps(s: State, s': State, k: Key, h: int)
    requires Inv(s) && Publish(s, s', k, h)
    ensures Inv(s')
  {
    var t := s.tries[k];
    assert Held(s.tries, k) && HeldBy(s.tries, k) == h;
    if t.gen == s.gen && Wanted(s.desired, k, t.listener) {
      PublishHandles(s, s', k, h);
      PublishMaps(s, s', k, h);
      if s.calm { PublishCalm(s, s', k, h); }
    } else {
      MoveKeeps(s, s', k, Dropping(Some(h)));
    }
  }

  lemma PublishHandles(s: State, s': State, k: Key, h: int)
    requires Inv(s) && Publish(s, s', k, h) && s.tries[k].gen == s.gen && Wanted(s.desired, k, s.tries[k].listener)
    requires Held(s.tries, k) && HeldBy(s.tries, k) == h
    ensures ActiveOk(s'.active, s'.gen, s'.given, s'.doomed, s'.closed) && TriesOk(s'.tries, s'.given, s'.doomed, s'.closed)
    ensures Apart(s'.active, s'.tries) && AllAccounted(s')
  {
    assert forall j :: Held(s'.tries, j) ==> j != k && Held(s.tries, j) && HeldBy(s'.tries, j) == HeldBy(s.tries, j);
    assert k !in s.active;
    forall g | g in s'.given ensures Accounted(s', g) {
      assert Accounted(s, g);
      if g == h {
        assert s'.active[k].handle == h;
      } else if g in Handles(s.active) {
        var j :| j in s.active && s.active[j].handle == g;
        assert s'.active[j].handle == g;
      } else if IsHeld(s.tries, g) {
        HeldMoves(s.tries, k, Done, g);
      }
    }
  }

  // ----- Other steps -----

  lemma EmptyKeeps(s: State, s': State)
    requires Inv(s) && (Reset(s, s') || CloseAll(s, s'))
    ensures Inv(s')
  {
    forall h | h in s'.given ensures Accounted(s', h) { assert Accounted(s, h); }
    forall k | Held(s.tries, k) ensures HeldBy(s.tries, k) !in Handles(s.active) { }
    forall h | h in Handles(s.active) ensures h !in s.closed && h in s.given { }
  }

  lemma CloseDoomedKeeps(s: State, s': State, h: int)
    requires Inv(s) && CloseDoomed(s, s', h)
    ensures Inv(s')
  {
    forall g | g in s'.given ensures Accounted(s', g) { assert Accounted(s, g); }
  }

  lemma CancelKeeps(s: State, s': State)
    requires Inv(s) && Cancel(s, s')
    ensures Inv(s')
  {
    forall g | g in s'.given ensures Accounted(s', g) { assert Accounted(s, g); }
  }

  lemma StepKeeps(s: State, s': State)
    requires Inv(s) && Step(s, s')
    ensures Inv(s')
  {
    if SyncStep(s, s') {
      SyncStepKeeps(s, s');
    } else if OtherStep(s, s') {
      OtherStepKeeps(s, s');
    } else {
      var k :| OpenStep(s, s', k) || OutcomeStep(s, s', k);
      if OpenStep(s, s', k) { OpenStepKeeps(s, s', k); } else { OutcomeStepKeeps(s, s', k); }
    }
  }

  lemma SyncStepKeeps(s: State, s': State)
    requires Inv(s) && SyncStep(s, s')
    ensures Inv(s')
  {
    if desired: map<Key, Listener> :| BeginSync(s, s', desired) {
      BeginSyncKeeps(s, s', desired);
    } else if k: Key, early: bool :| Collect(s, s', k, early) {
      CollectKeeps(s, s', k, early);
    } else {
      PhaseKeeps(s, s');
    }
  }

  lemma OtherStepKeeps(s: State, s': State)
    requires Inv(s) && OtherStep(s, s')
    ensures Inv(s')
  {
    if Cancel(s, s') {
      CancelKeeps(s, s');
    } else if h: int :| CloseDoomed(s, s', h) {
      CloseDoomedKeeps(s, s', h);
    } else {
      EmptyKeeps(s, s');
    }
  }

  lemma OutcomeStepKeeps(s: State, s': State, k: Key)
    requires Inv(s) && OutcomeStep(s, s', k)
    ensures Inv(s')
  {
    if error: string, after: int :| Reject(s, s', k, error, after) {
      RejectKeeps(s, s', k, error, after);
    } else if h: int :| Clear(s, s', k, h) {
      ClearKeeps(s, s', k, h);
    } else {
      var h :| Publish(s, s', k, h);
      PublishKeeps(s, s', k, h);
    }
  }
}
