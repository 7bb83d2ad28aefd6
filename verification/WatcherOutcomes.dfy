/** What a sync of Watcher comes to, key by key, when neither Reset nor a cancellation disturbs it: what the opener answered
    decides, in every interleaving of the opens and of the closes still going on. */
module WatcherOutcomes {
  import opened Bytes
  import opened Watcher
  import WatcherSafety

  /** The opener answers for the key in this step. */
  ghost predicate ReturnAt(run: seq<State>, j: int, k: Key, h: Option<int>, failed: bool) {
    0 <= j < |run| - 1 && Return(run[j], run[j + 1], k, h, failed)
  }

  predicate Syncing(s: State) { s.phase.Collecting? || s.phase.Opening? }

  /** The states from a BeginSync on in which its sync has not ended. */
  ghost predicate Within(run: seq<State>, b: int, i: int) {
    0 <= b < i < |run| && forall m :: b < m < i ==> Syncing(run[m])
  }

  // ----- The way of an answer -----

  ghost predicate Settled(s: State, k: Key, h: Option<int>, failed: bool) {
    if h.Some? && !failed then k in s.active && s.active[k].handle == h.value
    else k in s.rej.at && k !in s.active && (h.Some? ==> h.value in s.closed)
  }

  ghost predicate OnItsWay(s: State, x: Stage, h: Option<int>, failed: bool) {
    || x == Back(h, failed) || x == Checked(h, failed)
    || (h.Some? && !failed && (x == Clearing(h.value) || x == Publishing(h.value)))
    || (failed && x == Failing(h))
    || ((failed || h.None?) && x.Rejecting? && (h.Some? ==> h.value in s.closed))
  }

  ghost predicate Follows(s: State, k: Key, h: Option<int>, failed: bool) {
    && s.phase.Opening? && k in s.tries
    && if s.tries[k].stage.Done? then Settled(s, k, h, failed) else OnItsWay(s, s.tries[k].stage, h, failed)
  }

  // ----- What the steps leave alone -----

  ghost predicate SameTry(tries: map<Key, Attempt>, tries': map<Key, Attempt>, k: Key) {
    (k in tries <==> k in tries') && (k in tries ==> tries'[k] == tries[k])
  }

  ghost predicate SameActive(active: map<Key, Mapping>, active': map<Key, Mapping>, k: Key) {
    (k in active <==> k in active') && (k in active ==> active'[k] == active[k])
  }

  ghost predicate SameRejection(r: Rejections, r': Rejections, k: Key) {
    && (k in r.seen <==> k in r'.seen) && (k in r.at <==> k in r'.at) && (k in r.at ==> r'.at[k] == r.at[k])
    && (k in r.error <==> k in r'.error) && (k in r.error ==> r'.error[k] == r.error[k])
    && (k in r.after <==> k in r'.after) && (k in r.after ==> r'.after[k] == r.after[k])
    && (k in r.failures <==> k in r'.failures) && (k in r.failures ==> r'.failures[k] == r.failures[k])
  }

  /** Nothing that matters to the key changes. */
  ghost predicate LeavesAlone(s: State, s': State, k: Key) {
    && SameTry(s.tries, s'.tries, k) && SameActive(s.active, s'.active, k) && SameRejection(s.rej, s'.rej, k)
    && s.closed <= s'.closed && s'.phase == s.phase && s'.calm == s.calm && s'.desired == s.desired && s'.todo == s.todo
  }

  /** Nothing but the attempt of one key and the closed handles changes. */
  ghost predicate OnlyMoves(s: State, s': State, j: Key) {
    && j in s.tries && j in s'.tries && s'.tries == s.tries[j := s'.tries[j]]
    && s'.active == s.active && s'.rej == s.rej
    && s.closed <= s'.closed && s'.phase == s.phase && s'.calm == s.calm && s'.desired == s.desired && s'.todo == s.todo
  }

  lemma ShutMoves(s: State, s': State, j: Key, x: Stage, h: Option<int>)
    requires j in s.tries && s' == Shut(Go(s, j, x), h)
    ensures OnlyMoves(s, s', j)
  {
  }

  lemma ReturnMoves(s: State, s': State, j: Key, h: Option<int>, failed: bool)
    requires Return(s, s', j, h, failed)
    ensures OnlyMoves(s, s', j)
  {
  }

  lemma GoMoves(s: State, s': State, j: Key, x: Stage)
    requires j in s.tries && s' == Go(s, j, x)
    ensures OnlyMoves(s, s', j)
  {
  }

  lemma OpenMoves(s: State, s': State, j: Key)
    requires OpenStep(s, s', j)
    ensures OnlyMoves(s, s', j)
  {
    if h: Option<int>, failed: bool :| Return(s, s', j, h, failed) {
      ReturnMoves(s, s', j, h, failed);
    } else if h: Option<int> :| CloseFailed(s, s', j, h) {
      ShutMoves(s, s', j, Rejecting, h);
    } else if h: Option<int> :| Drop(s, s', j, h) {
      ShutMoves(s, s', j, Done, h);
    } else {
      CheckMoves(s, s', j);
    }
  }

  lemma CheckMoves(s: State, s': State, j: Key)
    requires || Start(s, s', j) || Abandon(s, s', j)
             || (exists h: Option<int>, failed: bool :: StaleCheck(s, s', j, h, failed))
             || (exists h: Option<int>, failed: bool :: CancelCheck(s, s', j, h, failed))
    ensures OnlyMoves(s, s', j)
  {
    if Start(s, s', j) {
      GoMoves(s, s', j, Calling);
    } else if Abandon(s, s', j) {
      GoMoves(s, s', j, Done);
    } else if h: Option<int>, failed: bool :| StaleCheck(s, s', j, h, failed) {
      GoMoves(s, s', j, if s.tries[j].gen != s.gen then Dropping(h) else Checked(h, failed));
    } else {
      var h, failed :| CancelCheck(s, s', j, h, failed);
      GoMoves(s, s', j, s'.tries[j].stage);
    }
  }

  lemma OpenElsewhere(s: State, s': State, j: Key, k: Key)
    requires j != k && OpenStep(s, s', j)
    ensures LeavesAlone(s, s', k)
  {
    OpenMoves(s, s', j);
  }

  lemma RejectElsewhere(s: State, s': State, j: Key, k: Key, error: string, after: int)
    requires j != k && Reject(s, s', j, error, after)
    ensures LeavesAlone(s, s', k)
  {
  }

  lemma ClearElsewhere(s: State, s': State, j: Key, k: Key, h: int)
    requires j != k && Clear(s, s', j, h)
    ensures LeavesAlone(s, s', k)
  {
  }

  lemma PublishElsewhere(s: State, s': State, j: Key, k: Key, h: int)
    requires j != k && Publish(s, s', j, h)
    ensures LeavesAlone(s, s', k)
  {
  }

  lemma OutcomeElsewhere(s: State, s': State, j: Key, k: Key)
    requires j != k && OutcomeStep(s, s', j)
    ensures LeavesAlone(s, s', k)
  {
    if error: string, after: int :| Reject(s, s', j, error, after) {
      RejectElsewhere(s, s', j, k, error, after);
    } else if h: int :| Clear(s, s', j, h) {
      ClearElsewhere(s, s', j, k, h);
    } else {
      var h :| Publish(s, s', j, h);
      PublishElsewhere(s, s', j, k, h);
    }
  }

  /** The other steps that a calm sync leaves room for. */
  lemma OtherElsewhere(s: State, s': State, k: Key)
    requires OtherStep(s, s') && s'.calm
    ensures LeavesAlone(s, s', k)
  {
    assert !Cancel(s, s') && !Reset(s, s') && !CloseAll(s, s');
    var h :| CloseDoomed(s, s', h);
  }

  lemma AloneFollows(s: State, s': State, k: Key, h: Option<int>, failed: bool)
    requires Follows(s, k, h, failed) && LeavesAlone(s, s', k)
    ensures Follows(s', k, h, failed)
  {
  }

  lemma StaleFollows(s: State, s': State, k: Key, h: Option<int>, failed: bool, g: Option<int>, f: bool)
    requires Follows(s, k, h, failed) && s.tries[k].gen == s.gen && StaleCheck(s, s', k, g, f)
    ensures Follows(s', k, h, failed)
  {
  }

  lemma CancelFollows(s: State, s': State, k: Key, h: Option<int>, failed: bool, g: Option<int>, f: bool)
    requires Follows(s, k, h, failed) && !s.canceled && CancelCheck(s, s', k, g, f)
    ensures Follows(s', k, h, failed)
  {
  }

  lemma CloseFailedFollows(s: State, s': State, k: Key, h: Option<int>, failed: bool, g: Option<int>)
    requires Follows(s, k, h, failed) && CloseFailed(s, s', k, g)
    ensures Follows(s', k, h, failed)
  {
  }

  lemma OpenFollows(s: State, s': State, k: Key, h: Option<int>, failed: bool)
    requires Inv(s) && s.calm && Follows(s, k, h, failed) && OpenStep(s, s', k)
    ensures Follows(s', k, h, failed)
  {
    assert s.tries[k].gen == s.gen && !s.canceled;
    if s.tries[k].stage.Back? {
      var g, f :| StaleCheck(s, s', k, g, f);
      StaleFollows(s, s', k, h, failed, g, f);
    } else if s.tries[k].stage.Checked? {
      var g, f :| CancelCheck(s, s', k, g, f);
      CancelFollows(s, s', k, h, failed, g, f);
    } else {
      var g :| CloseFailed(s, s', k, g);
      CloseFailedFollows(s, s', k, h, failed, g);
    }
  }

  lemma RejectFollows(s: State, s': State, k: Key, h: Option<int>, failed: bool, error: string, after: int)
    requires Follows(s, k, h, failed) && Reject(s, s', k, error, after) && k !in s.active
    ensures Follows(s', k, h, failed)
  {
  }

  lemma ClearFollows(s: State, s': State, k: Key, h: Option<int>, failed: bool, g: int)
    requires Follows(s, k, h, failed) && Clear(s, s', k, g)
    ensures Follows(s', k, h, failed)
  {
  }

  lemma PublishFollows(s: State, s': State, k: Key, h: Option<int>, failed: bool, g: int)
    requires Follows(s, k, h, failed) && Publish(s, s', k, g) && s.tries[k].gen == s.gen && Wanted(s.desired, k, s.tries[k].listener)
    ensures Follows(s', k, h, failed)
  {
  }

  lemma OutcomeFollows(s: State, s': State, k: Key, h: Option<int>, failed: bool)
    requires Inv(s) && s.calm && Follows(s, k, h, failed) && OutcomeStep(s, s', k)
    ensures Follows(s', k, h, failed)
  {
    assert s.tries[k].gen == s.gen && Wanted(s.desired, k, s.tries[k].listener) && (!s.tries[k].stage.Done? ==> k !in s.active);
    if error: string, after: int :| Reject(s, s', k, error, after) {
      RejectFollows(s, s', k, h, failed, error, after);
    } else if g: int :| Clear(s, s', k, g) {
      ClearFollows(s, s', k, h, failed, g);
    } else {
      var g :| Publish(s, s', k, g);
      PublishFollows(s, s', k, h, failed, g);
    }
  }

  lemma StepFollows(s: State, s': State, k: Key, h: Option<int>, failed: bool)
    requires Inv(s) && s.calm && s'.calm && Follows(s, k, h, failed) && Step(s, s')
    ensures Follows(s', k, h, failed) || (s'.phase.Idle? && Settled(s', k, h, failed))
  {
    if SyncStep(s, s') {
      assert EndSync(s, s');
    } else if OtherStep(s, s') {
      OtherElsewhere(s, s', k);
      AloneFollows(s, s', k, h, failed);
    } else {
      var j :| OpenStep(s, s', j) || OutcomeStep(s, s', j);
      if j == k {
        if OpenStep(s, s', k) { OpenFollows(s, s', k, h, failed); } else { OutcomeFollows(s, s', k, h, failed); }
      } else {
        if OpenStep(s, s', j) { OpenElsewhere(s, s', j, k); } else { OutcomeElsewhere(s, s', j, k); }
        AloneFollows(s, s', k, h, failed);
      }
    }
  }

  // ----- Calm backwards -----

  /** Only a new sync makes a run calm again. */
  lemma CalmBefore(s: State, s': State)
    requires Step(s, s') && s'.calm && !s.phase.Idle?
    ensures s.calm
  {
    if SyncStep(s, s') {
      if k: Key, early: bool :| Collect(s, s', k, early) { }
    } else if OtherStep(s, s') {
      if h: int :| CloseDoomed(s, s', h) { }
    } else {
      var k: Key :| OpenStep(s, s', k) || OutcomeStep(s, s', k);
      if OpenStep(s, s', k) { OpenMoves(s, s', k); } else { OutcomeCalm(s, s', k); }
    }
  }

  lemma OutcomeCalm(s: State, s': State, k: Key)
    requires OutcomeStep(s, s', k)
    ensures s'.calm == s.calm
  {
    if h: int :| Publish(s, s', k, h) { }
  }

  lemma {:induction false} CalmAllAlong(run: seq<State>, b: nat, m: nat, i: nat)
    requires Run(run) && Within(run, b, i) && b < m <= i && run[i].calm
    ensures run[m].calm
    decreases i - m
  {
    if m < i {
      CalmAllAlong(run, b, m + 1, i);
      assert Next(run, m) && Syncing(run[m]);
      CalmBefore(run[m], run[m + 1]);
    }
  }

  lemma ReturnFollows(s: State, s': State, k: Key, h: Option<int>, failed: bool)
    requires Return(s, s', k, h, failed)
    ensures Follows(s', k, h, failed)
  {
  }

  ghost predicate FollowsAt(run: seq<State>, m: int, k: Key, h: Option<int>, failed: bool) {
    0 <= m < |run| && (Follows(run[m], k, h, failed) || (run[m].phase.Idle? && Settled(run[m], k, h, failed)))
  }

  lemma NextFollows(run: seq<State>, b: nat, m: nat, i: nat, k: Key, h: Option<int>, failed: bool)
    requires Run(run) && Within(run, b, i) && run[i].calm && b < m < i && FollowsAt(run, m, k, h, failed)
    ensures FollowsAt(run, m + 1, k, h, failed)
  {
    assert Syncing(run[m]) && Next(run, m);
    WatcherSafety.RunKeeps(run, m);
    CalmAllAlong(run, b, m, i);
    CalmAllAlong(run, b, m + 1, i);
    StepFollows(run[m], run[m + 1], k, h, failed);
  }

  lemma {:induction false} AnswerFollows(run: seq<State>, b: nat, j: nat, m: nat, i: nat, k: Key, h: Option<int>, failed: bool)
    requires Run(run) && Within(run, b, i) && run[i].calm && b < j < m <= i && ReturnAt(run, j, k, h, failed)
    ensures FollowsAt(run, m, k, h, failed)
  {
    if m > j + 1 {
      AnswerFollows(run, b, j, m - 1, i, k, h, failed);
      NextFollows(run, b, m - 1, i, k, h, failed);
    } else {
      ReturnFollows(run[j], run[j + 1], k, h, failed);
    }
  }

  // ----- Keys without an attempt -----

  lemma MoverIsTried(s: State, s': State, j: Key)
    requires OpenStep(s, s', j) || OutcomeStep(s, s', j)
    ensures j in s.tries && s.phase.Opening?
  {
  }

  /** The steps of a sync between its first section and its end. */
  lemma SyncLeavesMaps(s: State, s': State)
    requires SyncStep(s, s') && Syncing(s)
    ensures s'.active == s.active && s'.rej == s.rej && s'.desired == s.desired && s'.closed == s.closed && s'.gen == s.gen
  {
    if k: Key, early: bool :| Collect(s, s', k, early) { }
  }

  ghost predicate SameFor(s: State, s': State, k: Key) {
    SameActive(s.active, s'.active, k) && SameRejection(s.rej, s'.rej, k) && s'.desired == s.desired
  }

  lemma UntriedStep(s: State, s': State, k: Key)
    requires Step(s, s') && Syncing(s) && s'.calm && k !in s.tries
    ensures SameFor(s, s', k)
  {
    if SyncStep(s, s') {
      SyncLeavesMaps(s, s');
    } else if OtherStep(s, s') {
      OtherElsewhere(s, s', k);
    } else {
      var j :| OpenStep(s, s', j) || OutcomeStep(s, s', j);
      MoverIsTried(s, s', j);
      if OpenStep(s, s', j) { OpenElsewhere(s, s', j, k); } else { OutcomeElsewhere(s, s', j, k); }
    }
  }

  lemma {:induction false} UntriedStays(run: seq<State>, b: nat, m: nat, i: nat, k: Key)
    requires Run(run) && Within(run, b, i) && run[i].calm && b < m <= i
    requires forall n :: b < n < m ==> k !in run[n].tries
    ensures SameFor(run[b + 1], run[m], k)
  {
    if m > b + 1 {
      UntriedStays(run, b, m - 1, i, k);
      assert Syncing(run[m - 1]) && Next(run, m - 1) && k !in run[m - 1].tries;
      CalmAllAlong(run, b, m, i);
      UntriedStep(run[m - 1], run[m], k);
    }
  }

  /** A mapping the sync found in order gets no attempt. */
  lemma HealthyStep(s: State, s': State, k: Key)
    requires Step(s, s') && Syncing(s) && s'.calm && k !in s.tries
    requires k in s.active && k in s.desired && s.active[k].listener == s.desired[k]
    ensures k !in s'.tries
  {
    if SyncStep(s, s') {
      if j: Key, early: bool :| Collect(s, s', j, early) { }
    } else if OtherStep(s, s') {
      OtherElsewhere(s, s', k);
    } else {
      var j :| OpenStep(s, s', j) || OutcomeStep(s, s', j);
      MoverIsTried(s, s', j);
      if OpenStep(s, s', j) { OpenElsewhere(s, s', j, k); } else { OutcomeElsewhere(s, s', j, k); }
    }
  }

  lemma NextHealthy(run: seq<State>, b: nat, m: nat, i: nat, k: Key)
    requires Run(run) && Within(run, b, i) && run[i].calm && b < m < i && k !in run[m].tries
    requires k in run[m].active && k in run[m].desired && run[m].active[k].listener == run[m].desired[k]
    ensures k !in run[m + 1].tries && SameFor(run[m], run[m + 1], k)
  {
    assert Syncing(run[m]) && Next(run, m);
    CalmAllAlong(run, b, m + 1, i);
    HealthyStep(run[m], run[m + 1], k);
    UntriedStep(run[m], run[m + 1], k);
  }

  lemma {:induction false} HealthyStays(run: seq<State>, b: nat, m: nat, i: nat, k: Key)
    requires Run(run) && Within(run, b, i) && run[i].calm && b < m <= i
    requires k !in run[b + 1].tries && k in run[b + 1].active && k in run[b + 1].desired
    requires run[b + 1].active[k].listener == run[b + 1].desired[k]
    ensures k !in run[m].tries && SameFor(run[b + 1], run[m], k)
  {
    if m > b + 1 {
      HealthyStays(run, b, m - 1, i, k);
      NextHealthy(run, b, m - 1, i, k);
    }
  }

  // ----- An attempt is answered -----

  predicate Unanswered(tries: map<Key, Attempt>, k: Key) { k in tries && (tries[k].stage.Waiting? || tries[k].stage.Calling?) }

  ghost predicate Answers(s: State, s': State, k: Key) { exists h: Option<int>, failed: bool :: Return(s, s', k, h, failed) }

  lemma OpenAnswers(s: State, s': State, k: Key)
    requires OpenStep(s, s', k) && Unanswered(s.tries, k) && !s.canceled
    ensures Unanswered(s'.tries, k) || Answers(s, s', k)
  {
    if Start(s, s', k) {
    } else {
      var h, failed :| Return(s, s', k, h, failed);
    }
  }

  lemma CollectTries(s: State, s': State, j: Key, early: bool, k: Key)
    requires Collect(s, s', j, early)
    ensures k in s.tries ==> k in s'.tries
    ensures k in s'.tries ==> Unanswered(s'.tries, k) || (k in s.tries && s'.tries[k] == s.tries[k])
  {
  }

  lemma SyncTries(s: State, s': State, k: Key)
    requires SyncStep(s, s') && Syncing(s)
    ensures EndSync(s, s') || (k in s.tries ==> k in s'.tries)
    ensures k in s'.tries ==> Unanswered(s'.tries, k) || (k in s.tries && s'.tries[k] == s.tries[k])
  {
    if j: Key, early: bool :| Collect(s, s', j, early) { CollectTries(s, s', j, early, k); }
  }

  /** An attempt stays until the end of the sync, and leaves its first two stages only by an answer. */
  lemma TryStep(s: State, s': State, k: Key)
    requires Inv(s) && Step(s, s') && Syncing(s) && s.calm && s'.calm
    ensures EndSync(s, s') || (k in s.tries ==> k in s'.tries)
    ensures k in s'.tries ==> Unanswered(s'.tries, k) || (k in s.tries && !Unanswered(s.tries, k)) || Answers(s, s', k)
  {
    if SyncStep(s, s') {
      SyncTries(s, s', k);
    } else if OtherStep(s, s') {
      OtherElsewhere(s, s', k);
    } else {
      var j :| OpenStep(s, s', j) || OutcomeStep(s, s', j);
      if j != k {
        if OpenStep(s, s', j) { OpenElsewhere(s, s', j, k); } else { OutcomeElsewhere(s, s', j, k); }
      } else if OpenStep(s, s', k) {
        OpenMoves(s, s', k);
        if Unanswered(s.tries, k) { OpenAnswers(s, s', k); }
      } else {
        OutcomeTries(s, s', k);
      }
    }
  }

  lemma PublishTries(s: State, s': State, k: Key, h: int)
    requires Publish(s, s', k, h)
    ensures k in s.tries && k in s'.tries && !Unanswered(s.tries, k)
  {
  }

  lemma OutcomeTries(s: State, s': State, k: Key)
    requires OutcomeStep(s, s', k)
    ensures k in s.tries && k in s'.tries && !Unanswered(s.tries, k)
  {
    if h: int :| Publish(s, s', k, h) {
      PublishTries(s, s', k, h);
    } else if h: int :| Clear(s, s', k, h) {
    } else {
      var error, after :| Reject(s, s', k, error, after);
    }
  }

  ghost predicate AnsweredBy(run: seq<State>, b: int, m: int, k: Key) {
    exists j, h: Option<int>, failed: bool :: b < j < m && ReturnAt(run, j, k, h, failed)
  }

  lemma {:induction false} TriedIsAnswered(run: seq<State>, b: nat, m: nat, i: nat, k: Key)
    requires Run(run) && Within(run, b, i) && run[i].calm && b < m <= i && run[b + 1].tries == map[]
    ensures k in run[m].tries ==> Unanswered(run[m].tries, k) || AnsweredBy(run, b, m, k)
    ensures (exists n :: b < n < m && k in run[n].tries) ==> k in run[m].tries || AnsweredBy(run, b, m, k)
  {
    if m > b + 1 {
      TriedIsAnswered(run, b, m - 1, i, k);
      NextAnswered(run, b, m - 1, i, k);
    }
  }

  lemma LaterAnswered(run: seq<State>, b: int, m: int, k: Key)
    requires AnsweredBy(run, b, m, k)
    ensures AnsweredBy(run, b, m + 1, k)
  {
    var j, h, failed :| b < j < m && ReturnAt(run, j, k, h, failed);
    assert b < j < m + 1;
  }

  lemma NextAnswered(run: seq<State>, b: nat, m: nat, i: nat, k: Key)
    requires Run(run) && Within(run, b, i) && run[i].calm && b < m < i
    requires k in run[m].tries ==> Unanswered(run[m].tries, k) || AnsweredBy(run, b, m, k)
    ensures k in run[m + 1].tries ==> Unanswered(run[m + 1].tries, k) || AnsweredBy(run, b, m + 1, k)
    ensures k in run[m].tries ==> k in run[m + 1].tries || AnsweredBy(run, b, m + 1, k)
    ensures AnsweredBy(run, b, m, k) ==> AnsweredBy(run, b, m + 1, k)
  {
    assert Syncing(run[m]) && Next(run, m);
    WatcherSafety.RunKeeps(run, m);
    CalmAllAlong(run, b, m, i);
    CalmAllAlong(run, b, m + 1, i);
    TryStep(run[m], run[m + 1], k);
    if AnsweredBy(run, b, m, k) { LaterAnswered(run, b, m, k); }
    if Answers(run[m], run[m + 1], k) {
      var h, failed :| Return(run[m], run[m + 1], k, h, failed);
      assert ReturnAt(run, m, k, h, failed);
    }
    if EndSync(run[m], run[m + 1]) && k in run[m].tries { assert !Unanswered(run[m].tries, k); }
  }

  // ----- Main results -----

  /** A calm sync ends as its opener answered: a key for which it returned a handle and no error is active with exactly
      that handle and the scanned listener; one for which it returned an error or no handle is rejected, and a handle it
      came with is closed. */
  lemma AnswerDecides(run: seq<State>, b: nat, j: nat, i: nat, k: Key, h: Option<int>, failed: bool)
    requires Run(run) && Within(run, b, i) && run[i].phase.Idle? && run[i].calm && b < j < i && ReturnAt(run, j, k, h, failed)
    ensures var s := run[i];
            if h.Some? && !failed then
              k in s.active && k in s.desired && s.active[k] == Mapping(s.desired[k], h.value, s.gen) && k !in s.rej.at
            else
              && k !in s.active && k in s.rej.at && k in s.desired && s.rej.at[k] == s.desired[k]
              && (h.Some? ==> h.value in s.closed)
  {
    AnswerFollows(run, b, j, i, i, k, h, failed);
    WatcherSafety.SyncSettlesEveryKey(run, i);
  }

  /** And a key its opener was not asked about is as the first section of the sync left it. */
  lemma UnaskedKeyIsAsItWas(run: seq<State>, b: nat, i: nat, k: Key, desired: map<Key, Listener>)
    requires Run(run) && Within(run, b, i) && BeginSync(run[b], run[b + 1], desired) && run[i].phase.Idle? && run[i].calm
    requires forall j, h: Option<int>, failed: bool :: b < j < i ==> !ReturnAt(run, j, k, h, failed)
    ensures var s, s' := run[b + 1], run[i];
            && (k in s.active <==> k in s'.active) && (k in s.active ==> s'.active[k] == s.active[k])
            && (k in s.rej.at <==> k in s'.rej.at) && (k in s.rej.at ==> s'.rej.at[k] == s.rej.at[k])
            && (k in s.rej.failures <==> k in s'.rej.failures) && (k in s.rej.failures ==> s'.rej.failures[k] == s.rej.failures[k])
            && (k in s.rej.after <==> k in s'.rej.after) && (k in s.rej.after ==> s'.rej.after[k] == s.rej.after[k])
  {
    TriedIsAnswered(run, b, i, i, k);
    WatcherSafety.RunKeeps(run, i);
    assert !AnsweredBy(run, b, i, k);
    UntriedStays(run, b, i, i, k);
  }

  /** A mapping that is still wanted as it is survives the sync untouched. */
  lemma HealthyMappingSurvives(run: seq<State>, b: nat, i: nat, k: Key, desired: map<Key, Listener>)
    requires Run(run) && Within(run, b, i) && BeginSync(run[b], run[b + 1], desired) && run[i].calm
    requires k in run[b].active && k in desired && run[b].active[k].listener == desired[k]
    ensures k in run[i].active && run[i].active[k] == run[b].active[k]
  {
    HealthyStays(run, b, i, i, k);
  }

  // ----- A sync from end to end -----

  /** The first half: one desired key that is not mapped as it should be gets an attempt. */
  lemma NewKeyIsTried(s: State, k: Key, l: Listener) returns (s1: State, s2: State, s3: State)
    requires s.phase.Idle? && !(k in s.active && s.active[k].listener == l)
    ensures BeginSync(s, s1, map[k := l]) && Collect(s1, s2, k, false) && BeginOpening(s2, s3)
    ensures s3.phase.Opening? && s3.tries == map[k := Attempt(l, s.gen, Waiting)] && s3.calm && !s3.canceled
    ensures s3.desired == map[k := l] && s3.gen == s.gen && s3.given == s.given && s3.closed == s.closed && k !in s3.active
  {
    var desired, kept := map[k := l], Kept(s.active, map[k := l]);
    s1 := s.(active := kept, rej := Forget(s.rej, Obsolete(s.active, s.rej, desired)), phase := Collecting, desired := desired,
             todo := {k}, tries := map[], canceled := false, calm := true, doomed := s.doomed + (Handles(s.active) - Handles(kept)));
    assert desired.Keys == {k};
    s2 := s1.(todo := {}, tries := map[k := Attempt(l, s.gen, Waiting)]);
    assert s1.todo - {k} == {};
    s3 := s2.(phase := Opening);
  }

  /** The attempt up to the opener's answer and the two checks. */
  lemma TriedKeyIsOpened(s: State, k: Key, l: Listener, h: int) returns (s1: State, s2: State, s3: State, s4: State)
    requires s.phase.Opening? && s.tries == map[k := Attempt(l, s.gen, Waiting)] && !s.canceled && h !in s.given
    ensures Start(s, s1, k) && Return(s1, s2, k, Some(h), false) && StaleCheck(s2, s3, k, Some(h), false)
    ensures CancelCheck(s3, s4, k, Some(h), false)
    ensures s4 == s.(tries := map[k := Attempt(l, s.gen, Clearing(h))], given := s.given + {h})
  {
    s1 := s.(tries := map[k := Attempt(l, s.gen, Calling)]);
    assert s1.tries == Moved(s.tries, k, Calling);
    s2 := s1.(tries := map[k := Attempt(l, s.gen, Back(Some(h), false))], given := s.given + {h});
    assert s2.tries == Moved(s1.tries, k, Back(Some(h), false));
    s3 := s2.(tries := map[k := Attempt(l, s.gen, Checked(Some(h), false))]);
    assert s3.tries == Moved(s2.tries, k, Checked(Some(h), false));
    s4 := s3.(tries := map[k := Attempt(l, s.gen, Clearing(h))]);
    assert s4.tries == Moved(s3.tries, k, Clearing(h));
  }

  /** And the rest: the mapping is active and the sync over. */
  lemma OpenedKeyIsMapped(s: State, k: Key, l: Listener, h: int) returns (s1: State, s2: State, s3: State)
    requires s.phase.Opening? && s.tries == map[k := Attempt(l, s.gen, Clearing(h))] && k in s.desired && s.desired[k] == l
    ensures Clear(s, s1, k, h) && Publish(s1, s2, k, h) && EndSync(s2, s3)
    ensures s3.phase.Idle? && s3.active == s.active[k := Mapping(l, h, s.gen)] && s3.calm == s.calm && s3.closed == s.closed
    ensures k !in s3.rej.at && k !in s3.rej.failures
  {
    s1 := s.(tries := map[k := Attempt(l, s.gen, Publishing(h))], rej := Forget(s.rej, {k}));
    assert s1.tries == Moved(s.tries, k, Publishing(h));
    s2 := s1.(tries := map[k := Attempt(l, s.gen, Done)], active := s.active[k := Mapping(l, h, s.gen)]);
    assert s2.tries == Moved(s1.tries, k, Done);
    s3 := s2.(phase := Idle, tries := map[]);
  }

  /** What a sync, Reset or closeAll took out of the map can be closed at any time. */
  lemma DoomedIsClosed(s: State, h: int) returns (s': State)
    requires h in s.doomed
    ensures CloseDoomed(s, s', h) && h in s'.closed && h !in s'.doomed && s'.active == s.active && s'.rej == s.rej
  {
    s' := Shut(s.(doomed := s.doomed - {h}), Some(h));
  }
}
