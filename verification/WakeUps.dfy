/**
 No lost wake-up. Every admitted event leaves work waiting in the queue, also while an earlier
 reconcile of the same workload is under way; that work is taken up in a turn that begins after the
 event, so the copy it decides on is read after the event too.
 */
module WakeUps {
  import opened Text
  import opened Refs
  import opened Objects
  import opened Wrappers
  import opened Predicates
  import opened Patches
  import opened Guard
  import opened Job
  import opened Machine
  import opened Justified
  import opened Turns
  import opened Endings

  /** Work for `v` is queued or waits for its delay; work already handed out does not count. */
  ghost predicate Waiting(s: State, v: Key) {
    exists i :: 0 <= i < |s.work| && s.work[i].key == v && !s.work[i].phase.Running?
  }

  /** A reconcile of `v` is under way and has not fired yet. */
  ghost predicate Undecided(s: State, v: Key) {
    exists i :: 0 <= i < |s.work| && s.work[i].key == v && s.work[i].phase.Running? && !HasFired(s.work[i].phase)
  }

  /** Step `n` of the run admits an event for `v`. */
  ghost predicate AdmittedAt(cfg: Config, s: State, run: seq<Action>, n: nat, v: Key) {
    n < |run| && Admitting(Exec(cfg, s, run[..n]), Exec(cfg, s, run[..n + 1]), v)
  }

  ghost predicate Admitting(before: State, after: State, v: Key) {
    exists j :: |before.log| <= j < |after.log| && after.log[j].Admission? && after.log[j].key == v
  }

  /**
   A step in which the reconcile of `v`, not having fired, either fires or gives up: judged by the
   copy and the cluster, not by how the step says it ends.
   */
  ghost predicate Settles(cfg: Config, s: State, a: Action, v: Key) {
    && a.Work? && Enabled(cfg, s, a)
    && s.work[a.i].key == v
    && var stage := s.work[a.i].phase.stage;
       FiresOn(cfg, v, s.store, stage, a.wx) || GivesUp(cfg, v, s.store, stage, a.wx)
  }

  /** It is exactly a step that fires, or ends the reconcile without waking it up again. */
  lemma SettlesExactly(cfg: Config, s: State, a: Action, v: Key)
    requires a.Work? && Enabled(cfg, s, a) && s.work[a.i].key == v
    requires !HasFired(s.work[a.i].phase) && !s.work[a.i].phase.stage.Done?
    ensures var stage := s.work[a.i].phase.stage;
            var after := Advance(cfg, v, s.store, stage, a.wx).1;
            Settles(cfg, s, a, v) <==> Fires(stage, after) || (after.Done? && !Wakes(OutcomeOf(after.end)))
  {
    hide Advance, FiresOn, GivesUp, Fails, Defers;
    StepEndsExactly(cfg, v, s.store, s.work[a.i].phase.stage, a.wx);
    FiresWhileChecking(cfg, v, s.store, s.work[a.i].phase.stage, a.wx);
  }

  lemma FiresWhileChecking(cfg: Config, v: Key, store: Store, stage: Stage, wx: Weather)
    requires Possible(cfg, wx) && (stage.Fetching? || stage.Marking? || stage.Checking?)
    ensures Fires(stage, Advance(cfg, v, store, stage, wx).1) <==> Advance(cfg, v, store, stage, wx).1.Clearing?
  {
    hide Check, Marked;
  }

  /**
   With the positive default, a reconcile that finds its workload not rolled out gives up exactly if
   the workload's own requeue annotation asks for a delay that is not positive.
   */
  lemma UnstableGivesUpExactly(cfg: Config, s: State, a: Action, v: Key, read: Object)
    requires cfg.requeueDefault > 0 && a.Work? && Enabled(cfg, s, a)
    requires s.work[a.i].key == v && s.work[a.i].phase == Running(Checking(read))
    requires HasTargets(cfg, v, read) && Cleared(cfg, v, s.store, read, a.wx) && !RolledOut(read)
    ensures Settles(cfg, s, a, v) <==> exists d :: d <= 0 && AsksFor(cfg, read, d)
    ensures var after := Advance(cfg, v, s.store, Checking(read), a.wx).1;
            && after.Done? && OutcomeOf(after.end).Result?
            && IsDelay(cfg, read, OutcomeOf(after.end).requeueAfter)
  {
    hide Advance, HasTargets, Cleared, RolledOut, TrimSpace;
    StepEndsExactly(cfg, v, s.store, Checking(read), a.wx);
    DelayIs(cfg, read);
    assert IsDelay(cfg, read, RequeueDuration(cfg, read));
    assert Defers(cfg, v, s.store, Checking(read), a.wx, RequeueDuration(cfg, read));
    DelayIsNotPositiveExactly(cfg, read);
    if exists d :: d <= 0 && AsksFor(cfg, read, d) {
      var d :| d <= 0 && AsksFor(cfg, read, d);
      assert IsDelay(cfg, read, d);
    }
  }

  // ---------- an admission leaves work waiting ----------

  lemma AdmitLeavesWaiting(s: State, k: Key, origin: Origin)
    ensures Waiting(Admit(s, k, origin), k)
  {
    var t := Admit(s, k, origin);
    if IsQueued(s.work, k, Ready) {
      var j :| 0 <= j < |s.work| && s.work[j].key == k && s.work[j].phase == Ready;
      assert t.work[j].key == k;
    } else {
      assert t.work[|s.work|].key == k;
    }
  }

  lemma ObserveLeavesWaiting(cfg: Config, s: State, k: Key, store: Store, origin: Origin, v: Key)
    requires Admitting(s, Observe(cfg, s, k, store, origin), v)
    ensures Waiting(Observe(cfg, s, k, store, origin), v)
  {
    hide Reacts;
    AdmitLeavesWaiting(s.(store := store), k, origin);
  }

  lemma AdmittingLeavesWaiting(cfg: Config, s: State, a: Action, v: Key)
    requires Admitting(s, Step(cfg, s, a), v)
    ensures Waiting(Step(cfg, s, a), v)
  {
    hide Advance, Placed, Reacts, Waiting;
    match a
    case Update(k, object') =>
      ObserveLeavesWaiting(cfg, s, k, s.store[k := object'], FromOutside, v);
    case Delete(k) =>
      AdmitLeavesWaiting(s.(store := s.store - {k}), k, FromOutside);
    case Work(i, wx) =>
      var tok := s.work[i];
      var stage := tok.phase.stage;
      var (store, after) := Advance(cfg, tok.key, s.store, stage, wx);
      var s' := State(s.store, Placed(s.work, i, after, if Fires(stage, after) then |s.log| else tok.cause),
                      s.log + Recorded(s, tok, stage, after, wx));
      ObserveLeavesWaiting(cfg, s', Touched(tok.key, stage), store, OriginOf(s, tok, stage), v);
    case _ =>
  }

  /**
   The cascade goes on: a restart that succeeds is admitted as work for its target exactly when the
   target has dependencies of its own and the timestamp is a new one, if the hash tells the two
   templates apart.
   */
  lemma HopsAreAdmittedExactly(cfg: Config, s: State, i: nat, wx: Weather, t: Key)
    requires Enabled(cfg, s, Work(i, wx)) && Restarts(s.store, s.work[i].phase.stage, wx)
    requires t == Touched(s.work[i].key, s.work[i].phase.stage)
    requires var after := Restarted(wx.now, s.store[t], s.store[t]);
             after.template != s.store[t].template ==> cfg.hash(after.template) != cfg.hash(s.store[t].template)
    ensures Admitting(s, Step(cfg, s, Work(i, wx)), t) <==>
              && HasKindAnnotation(s.store[t], cfg.kinds)
              && Lookup(s.store[t].template.annotations, RESTART_KEY) != Some(wx.now)
  {
    hide Placed, Restarted, Notices, Admit;
    HopNoticedExactly(cfg, s.store[t], s.store[t], wx.now);
    var tok := s.work[i];
    var stage := tok.phase.stage;
    var (store, after) := Advance(cfg, tok.key, s.store, stage, wx);
    var s' := State(s.store, Placed(s.work, i, after, tok.cause), s.log + [Trigger(t, tok.cause, true)]);
    AdmitLogs(s'.(store := store), t, OriginOf(s, tok, stage));
    var u := Step(cfg, s, Work(i, wx));
    assert u == Observe(cfg, s', t, store, OriginOf(s, tok, stage));
    if Notices(cfg, s.store[t], store[t]) {
      assert u.log[|s.log| + 1] == Admission(t, OriginOf(s, tok, stage));
    } else {
      assert u.log == s.log + [Trigger(t, tok.cause, true)];
    }
  }

  lemma AdmitLogs(s: State, k: Key, origin: Origin)
    ensures Admit(s, k, origin).log == s.log + [Admission(k, origin)]
  {
  }

  /** Of what others do, an update is admitted if the watch admits it, a deletion if the workload had a kind annotation. */
  lemma OutsideEventsAdmittedExactly(cfg: Config, s: State, a: Action, v: Key)
    requires FromEnvironment(a) && Enabled(cfg, s, a)
    ensures Admitting(s, Step(cfg, s, a), v) <==>
              && a.key == v
              && match a
                 case Update(_, object') => Admits(cfg, s.store[v], object')
                 case Delete(_) => s.store[v].annotations.Keys * cfg.kinds.Keys != {}
                 case _ => false
  {
    hide Admits, HasKindAnnotation;
    var t := Step(cfg, s, a);
    if a.Delete? {
      AnnotatedExactly(s.store[a.key], cfg.kinds);
    }
    if t.log != s.log {
      assert t.log[|s.log|] == Admission(a.key, FromOutside);
    }
  }

  /** Of what the operator does, exactly a write that changes the workload and that the watch admits. */
  lemma OwnEventsAdmittedExactly(cfg: Config, s: State, i: nat, wx: Weather, v: Key)
    requires Enabled(cfg, s, Work(i, wx))
    ensures var t := Step(cfg, s, Work(i, wx));
            Admitting(s, t, v) <==>
              && v == Touched(s.work[i].key, s.work[i].phase.stage)
              && v in s.store && v in t.store
              && s.store[v] != t.store[v] && Admits(cfg, s.store[v], t.store[v])
  {
    hide Advance, Placed, Admits, Admit, Recorded, Fires;
    var tok := s.work[i];
    var stage := tok.phase.stage;
    var (store, after) := Advance(cfg, tok.key, s.store, stage, wx);
    WorkStore(cfg, s, i, wx);
    RecordedAdmitsNothing(s, tok, stage, after, wx);
    var events := Recorded(s, tok, stage, after, wx);
    var s' := State(s.store, Placed(s.work, i, after, if Fires(stage, after) then |s.log| else tok.cause), s.log + events);
    var k, origin, t := Touched(tok.key, stage), OriginOf(s, tok, stage), Step(cfg, s, Work(i, wx));
    AdmitLogs(s'.(store := store), k, origin);
    assert t == Observe(cfg, s', k, store, origin);
    if k in s.store && k in store && Notices(cfg, s.store[k], store[k]) {
      assert t.log[|s'.log|] == Admission(k, origin);
    } else {
      assert t.log == s.log + events;
    }
  }

  lemma RecordedAdmitsNothing(s: State, tok: Token, stage: Stage, after: Stage, wx: Weather)
    ensures forall e | e in Recorded(s, tok, stage, after, wx) :: !e.Admission?
  {
  }

  // ---------- tokens that a step does not act on ----------

  predicate ActsOn(a: Action, i: nat) {
    (a.Wake? || a.Start? || a.Work?) && a.i == i
  }

  lemma RemoveKeepsToken(work: seq<Token>, i: nat, j: nat)
    requires i < |work| && j < |work| && i != j
    ensures work[j] in Remove(work, i)
  {
    assert Remove(work, i)[if j < i then j else j - 1] == work[j];
  }

  lemma TokenSurvives(cfg: Config, s: State, a: Action, j: nat)
    requires j < |s.work| && !ActsOn(a, j)
    ensures s.work[j] in Step(cfg, s, a).work
  {
    hide Advance;
    if Enabled(cfg, s, a) {
      match a
      case Update(_, _) => assert Step(cfg, s, a).work[j] == s.work[j];
      case Delete(_) => assert Step(cfg, s, a).work[j] == s.work[j];
      case Wake(i) =>
        RemoveKeepsToken(s.work, i, j);
        assert s.work[i := s.work[i].(phase := Ready)][j] == s.work[j];
      case Start(i) => assert Step(cfg, s, a).work[j] == s.work[j];
      case Work(i, wx) =>
        PlacedSurvives(cfg, s, i, wx, j);
      case _ =>
    }
  }

  lemma PlacedSurvives(cfg: Config, s: State, i: nat, wx: Weather, j: nat)
    requires Enabled(cfg, s, Work(i, wx)) && j < |s.work| && i != j
    ensures s.work[j] in WorkOn(cfg, s, i, wx).work
  {
    hide Advance, Placed, Reacts;
    var tok := s.work[i];
    var after := Advance(cfg, tok.key, s.store, tok.phase.stage, wx).1;
    var placed := Placed(s.work, i, after, if Fires(tok.phase.stage, after) then |s.log| else tok.cause);
    PlacedKeepsToken(s.work, i, after, if Fires(tok.phase.stage, after) then |s.log| else tok.cause, j);
    var k :| 0 <= k < |placed| && placed[k] == s.work[j];
    assert WorkOn(cfg, s, i, wx).work[k] == placed[k];
  }

  lemma PlacedKeepsToken(work: seq<Token>, i: nat, stage: Stage, cause: nat, j: nat)
    requires i < |work| && j < |work| && i != j
    ensures work[j] in Placed(work, i, stage, cause)
  {
    RemoveKeepsToken(work, i, j);
    assert work[i := work[i].(phase := Delayed)][j] == work[j];
    assert work[i := work[i].(phase := Running(stage), cause := cause)][j] == work[j];
  }

  // ---------- the token a step acts on ----------

  lemma RequeueLeavesWaiting(s: State, i: nat, phase: Phase)
    requires i < |s.work| && !phase.Running?
    ensures Waiting(s.(work := Requeue(s.work, i, phase)), s.work[i].key)
  {
    if !IsQueued(Remove(s.work, i), s.work[i].key, phase) {
      assert Requeue(s.work, i, phase)[i].key == s.work[i].key;
    }
  }

  /** The reconcile of `v` goes on, settles, or leaves work waiting. */
  lemma WorkGoesOn(cfg: Config, s: State, i: nat, wx: Weather)
    requires Enabled(cfg, s, Work(i, wx)) && !HasFired(s.work[i].phase) && !s.work[i].phase.stage.Done?
    ensures var v, t := s.work[i].key, Step(cfg, s, Work(i, wx));
            Settles(cfg, s, Work(i, wx), v) || Waiting(t, v) || (Undecided(t, v) && Reconciling(t, v))
  {
    hide Advance, Requeue, Reacts, Settles;
    var tok := s.work[i];
    var stage := tok.phase.stage;
    var (store, after) := Advance(cfg, tok.key, s.store, stage, wx);
    var cause := if Fires(stage, after) then |s.log| else tok.cause;
    var s' := State(s.store, Placed(s.work, i, after, cause), s.log + Recorded(s, tok, stage, after, wx));
    var t := Step(cfg, s, Work(i, wx));
    assert s'.work <= t.work;
    AdvanceShape(cfg, tok.key, s.store, stage, wx);
    SettlesExactly(cfg, s, Work(i, wx), tok.key);
    if !Settles(cfg, s, Work(i, wx), tok.key) {
      if after.Done? {
        RequeueLeavesWaiting(s, i, Delayed);
        var j :| 0 <= j < |s'.work| && s'.work[j].key == tok.key && !s'.work[j].phase.Running?;
        assert t.work[j] == s'.work[j];
      } else {
        assert t.work[i] == s'.work[i];
      }
    }
  }

  // ---------- the invariant over runs ----------

  /** A turn of `v` that began after step `n` is under way and has not fired. */
  ghost predicate InTurnSince(cfg: Config, s: State, run: seq<Action>, n: nat, v: Key) {
    Undecided(Exec(cfg, s, run), v) && exists m :: n < m < |run| && TurnOf(cfg, s, run, m, |run|, v)
  }

  /** A turn of `v` that began after step `n` has settled. */
  ghost predicate ServedSince(cfg: Config, s: State, run: seq<Action>, n: nat, v: Key) {
    exists m: nat, j: nat :: n < m && j < |run| && TurnOf(cfg, s, run, m, j, v) && Settles(cfg, Exec(cfg, s, run[..j]), run[j], v)
  }

  lemma ServedKept(cfg: Config, s: State, run: seq<Action>, a: Action, n: nat, v: Key)
    requires ServedSince(cfg, s, run, n, v)
    ensures ServedSince(cfg, s, run + [a], n, v)
  {
    hide TurnOf, Settles;
    var m: nat, j: nat :| n < m && j < |run| && TurnOf(cfg, s, run, m, j, v) && Settles(cfg, Exec(cfg, s, run[..j]), run[j], v);
    TurnKept(cfg, s, run, [a], m, j, v);
    assert (run + [a])[..j] == run[..j];
  }

  lemma WaitingGoesOn(cfg: Config, s: State, run: seq<Action>, a: Action, n: nat, v: Key)
    requires n < |run| && Waiting(Exec(cfg, s, run), v)
    ensures Waiting(Exec(cfg, s, run + [a]), v) || InTurnSince(cfg, s, run + [a], n, v)
    ensures Waiting(Exec(cfg, s, run + [a]), v) || Starts(cfg, Exec(cfg, s, run), a, v)
  {
    hide Exec, TurnOf;
    var t := Exec(cfg, s, run);
    ExecSnoc(cfg, s, run, a);
    var i :| 0 <= i < |t.work| && t.work[i].key == v && !t.work[i].phase.Running?;
    if !ActsOn(a, i) {
      TokenSurvives(cfg, t, a, i);
    } else if Enabled(cfg, t, a) {
      if a.Wake? {
        RequeueLeavesWaiting(t, i, Ready);
      } else {
        TurnBegins(cfg, s, run, a, v);
        assert Step(cfg, t, a).work[i].phase == Running(Fetching);
        assert TurnOf(cfg, s, run + [a], |run|, |run + [a]|, v);
      }
    }
  }

  lemma TurnGoesOnOrSettles(cfg: Config, s: State, run: seq<Action>, a: Action, n: nat, v: Key)
    requires Fresh(s) && InTurnSince(cfg, s, run, n, v)
    ensures || Waiting(Exec(cfg, s, run + [a]), v)
            || InTurnSince(cfg, s, run + [a], n, v)
            || ServedSince(cfg, s, run + [a], n, v)
  {
    hide Exec, TurnOf, Settles, Step, Waiting, Reconciling;
    var t := Exec(cfg, s, run);
    ExecSnoc(cfg, s, run, a);
    var i :| 0 <= i < |t.work| && t.work[i].key == v && t.work[i].phase.Running? && !HasFired(t.work[i].phase);
    var m :| n < m < |run| && TurnOf(cfg, s, run, m, |run|, v);
    RunsKeepHistory(cfg, s, run);
    assert TokenLinked(t.log, t.work[i]);
    TurnStep(cfg, t, a, i);
    assert (run + [a])[..|run|] == run;
    if Settles(cfg, t, a, v) {
      TurnKept(cfg, s, run, [a], m, |run|, v);
    } else if Reconciling(Step(cfg, t, a), v) && Undecided(Step(cfg, t, a), v) {
      TurnGoesOn(cfg, s, run, a, m, v);
    }
  }

  lemma TurnStep(cfg: Config, s: State, a: Action, i: nat)
    requires i < |s.work| && s.work[i].phase.Running? && !HasFired(s.work[i].phase) && !s.work[i].phase.stage.Done?
    ensures var v, t := s.work[i].key, Step(cfg, s, a);
            Settles(cfg, s, a, v) || Waiting(t, v) || (Undecided(t, v) && Reconciling(t, v))
  {
    hide WorkOn;
    if ActsOn(a, i) && Enabled(cfg, s, a) {
      WorkGoesOn(cfg, s, i, a.wx);
    } else {
      if !ActsOn(a, i) {
        TokenSurvives(cfg, s, a, i);
      }
      assert s.work[i] in Step(cfg, s, a).work;
    }
  }

  /**
   Admitted work waits in the queue until it is handed out, in a turn that begins after the event:
   it is never taken to be covered by a reconcile that was under way when the event came.
   */
  lemma {:induction false} AdmittedWorkWaits(cfg: Config, s: State, run: seq<Action>, n: nat, v: Key)
    requires AdmittedAt(cfg, s, run, n, v)
    ensures Waiting(Exec(cfg, s, run[..n + 1]), v)
    ensures || (forall j | n < j <= |run| :: Waiting(Exec(cfg, s, run[..j]), v))
            || exists m :: n < m < |run| && StartsAt(cfg, s, run, m, v) &&
                           forall j | n < j <= m :: Waiting(Exec(cfg, s, run[..j]), v)
  {
    hide Exec, Waiting, Step, Starts;
    assert run[..n + 1] == run[..n] + [run[n]];
    ExecSnoc(cfg, s, run[..n], run[n]);
    AdmittingLeavesWaiting(cfg, Exec(cfg, s, run[..n]), run[n], v);
    var m := n + 1;
    while m < |run| && !StartsAt(cfg, s, run, m, v)
      invariant n < m <= |run|
      invariant forall j | n < j <= m :: Waiting(Exec(cfg, s, run[..j]), v)
    {
      WaitingGoesOn(cfg, s, run[..m], run[m], n, v);
      assert run[..m + 1] == run[..m] + [run[m]];
      m := m + 1;
    }
    assert run[..|run|] == run;
  }

  /**
   No lost wake-up: for every admitted event, by any later point of the run, either work for the
   workload is waiting, or a turn that began after the event is under way and has not fired, or
   such a turn has settled: it fired on a complete rollout, or gave up because the workload was not
   there, its copy named no targets, a Get of the check failed or the guard found something, or the
   rollout was not complete and the delay asked for is zero or less.
   */
  lemma {:induction false} NoLostWakeUp(cfg: Config, s: State, run: seq<Action>, n: nat, v: Key)
    requires Fresh(s) && AdmittedAt(cfg, s, run, n, v)
    ensures || Waiting(Exec(cfg, s, run), v)
            || InTurnSince(cfg, s, run, n, v)
            || ServedSince(cfg, s, run, n, v)
  {
    hide Waiting, Exec, InTurnSince, ServedSince;
    var last := |run| - 1;
    var before, a := run[..last], run[last];
    assert run == before + [a];
    if n == last {
      assert run[..n + 1] == run;
      AdmittedWorkWaits(cfg, s, run, n, v);
    } else {
      assert before[..n] == run[..n] && before[..n + 1] == run[..n + 1];
      NoLostWakeUp(cfg, s, before, n, v);
      if Waiting(Exec(cfg, s, before), v) {
        WaitingGoesOn(cfg, s, before, a, n, v);
      } else if InTurnSince(cfg, s, before, n, v) {
        TurnGoesOnOrSettles(cfg, s, before, a, n, v);
      } else {
        ServedKept(cfg, s, before, a, n, v);
      }
    }
  }
}
