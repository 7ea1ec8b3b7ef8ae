/**
 Safe rollout order: targets restart only after the source's own rollout is complete. This holds of
 every spec up to the copy a reconcile decides on, which it read in its own turn; it does not hold
 of a spec that is written after the copy was read.
 */
module Rollout {
  import opened Wrappers
  import opened Patches
  import opened Refs
  import opened Objects
  import opened Guard
  import opened Job
  import opened Machine
  import opened Justified
  import opened Turns

  ghost predicate SeenAt(cfg: Config, s: State, run: seq<Action>, n: nat, v: Key, w: Object)
    requires n <= |run|
  {
    var store := Exec(cfg, s, run[..n]).store;
    v in store && store[v] == w
  }

  predicate Holds(phase: Phase) {
    phase.Running? && (phase.stage.Marking? || phase.stage.Checking?)
  }

  /** The copy a token acts on: the one in memory or, once it fired, the one its firing was decided on. */
  ghost function CopyOf(log: seq<Event>, tok: Token): Option<Object> {
    if Holds(tok.phase) then Some(tok.phase.stage.read)
    else if HasFired(tok.phase) && tok.cause < |log| && log[tok.cause].Firing? then Some(log[tok.cause].read)
    else None
  }

  /** `v` is in a turn, and since that turn began the cluster held `w` for it. */
  ghost predicate SeenThisTurn(cfg: Config, s: State, run: seq<Action>, v: Key, w: Object) {
    exists m, n :: 0 <= m < n <= |run| && TurnOf(cfg, s, run, m, |run|, v) && SeenAt(cfg, s, run, n, v, w)
  }

  ghost predicate CopiesSeen(cfg: Config, s: State, run: seq<Action>, t: State) {
    forall i | 0 <= i < |t.work| && CopyOf(t.log, t.work[i]).Some? ::
      SeenThisTurn(cfg, s, run, t.work[i].key, CopyOf(t.log, t.work[i]).value)
  }

  lemma SeenKept(cfg: Config, s: State, run: seq<Action>, a: Action, n: nat, v: Key, w: Object)
    requires n <= |run| && SeenAt(cfg, s, run, n, v, w)
    ensures SeenAt(cfg, s, run + [a], n, v, w)
  {
    assert (run + [a])[..n] == run[..n];
  }

  lemma SeenLater(cfg: Config, s: State, run: seq<Action>, a: Action, v: Key, w: Object)
    requires SeenThisTurn(cfg, s, run, v, w) && Reconciling(Exec(cfg, s, run + [a]), v)
    ensures SeenThisTurn(cfg, s, run + [a], v, w)
  {
    hide TurnOf, SeenAt, Exec, Reconciling;
    var m: nat, n: nat :| m < n <= |run| && TurnOf(cfg, s, run, m, |run|, v) && SeenAt(cfg, s, run, n, v, w);
    TurnGoesOn(cfg, s, run, a, m, v);
    SeenKept(cfg, s, run, a, n, v, w);
    assert |run + [a]| == |run| + 1;
  }

  /** What the cluster holds now is seen in the turn that is on. */
  lemma SeenNow(cfg: Config, s: State, run: seq<Action>, v: Key, w: Object)
    requires Fresh(s) && Reconciling(Exec(cfg, s, run), v)
    requires v in Exec(cfg, s, run).store && Exec(cfg, s, run).store[v] == w
    ensures SeenThisTurn(cfg, s, run, v, w)
  {
    var m := EveryReconcileHasATurn(cfg, s, run, v);
    assert run[..|run|] == run;
    assert SeenAt(cfg, s, run, |run|, v, w);
  }

  /** A step keeps the copy in memory, or replaces it by what it has just read or written. */
  lemma AdvanceCopies(cfg: Config, v: Key, store: Store, stage: Stage, wx: Weather)
    requires Possible(cfg, wx)
    ensures var (store', after) := Advance(cfg, v, store, stage, wx);
            && (Holds(Running(after)) ==>
                  || (v in store && store[v] == after.read)
                  || (v in store' && store'[v] == after.read)
                  || (Holds(Running(stage)) && stage.read == after.read))
            && (Fires(stage, after) ==> Holds(Running(stage)))
            && (HasFired(Running(after)) ==> Fires(stage, after) || HasFired(Running(stage)))
  {
    hide Check;
    if stage.Checking? {
      CheckShape(cfg, v, store, stage.read, wx);
    }
  }

  lemma StepExtendsLog(cfg: Config, s: State, a: Action)
    ensures s.log <= Step(cfg, s, a).log
  {
    hide Advance, Placed, Reacts;
  }

  lemma FiringRecorded(cfg: Config, s: State, i: nat, wx: Weather)
    requires Enabled(cfg, s, Work(i, wx))
    requires Fires(s.work[i].phase.stage, Advance(cfg, s.work[i].key, s.store, s.work[i].phase.stage, wx).1)
    ensures var log := Step(cfg, s, Work(i, wx)).log;
            |s.log| < |log| && log[|s.log|].Firing? && log[|s.log|].read == s.work[i].phase.stage.read
  {
    hide Advance, Placed, Reacts;
  }

  /** The copy of an advanced token is the one it had, or one the cluster holds before or after the step. */
  lemma AdvancedCopy(cfg: Config, s: State, i: nat, wx: Weather, tok: Token, w: Object)
    requires Enabled(cfg, s, Work(i, wx)) && IsAdvanced(cfg, s, i, wx, tok)
    requires CopyOf(Step(cfg, s, Work(i, wx)).log, tok) == Some(w)
    requires s.work[i].cause < |s.log| || !HasFired(s.work[i].phase)
    ensures var v, t := tok.key, Step(cfg, s, Work(i, wx));
            || CopyOf(s.log, s.work[i]) == Some(w)
            || (v in s.store && s.store[v] == w)
            || (v in t.store && t.store[v] == w)
  {
    hide Advance, Step;
    var stage := s.work[i].phase.stage;
    AdvanceCopies(cfg, s.work[i].key, s.store, stage, wx);
    WorkStore(cfg, s, i, wx);
    StepExtendsLog(cfg, s, Work(i, wx));
    if Fires(stage, Advance(cfg, s.work[i].key, s.store, stage, wx).1) {
      FiringRecorded(cfg, s, i, wx);
    }
  }

  lemma AdvancedCopySeen(cfg: Config, s: State, run: seq<Action>, i: nat, wx: Weather, tok: Token, w: Object)
    requires Fresh(s) && CopiesSeen(cfg, s, run, Exec(cfg, s, run))
    requires Enabled(cfg, Exec(cfg, s, run), Work(i, wx)) && IsAdvanced(cfg, Exec(cfg, s, run), i, wx, tok)
    requires CopyOf(Exec(cfg, s, run + [Work(i, wx)]).log, tok) == Some(w)
    requires Reconciling(Exec(cfg, s, run + [Work(i, wx)]), tok.key)
    ensures SeenThisTurn(cfg, s, run + [Work(i, wx)], tok.key, w)
  {
    hide Advance, Exec, SeenThisTurn, Step, CopyOf;
    var a, t := Work(i, wx), Exec(cfg, s, run);
    ExecSnoc(cfg, s, run, a);
    RunsKeepHistory(cfg, s, run);
    assert TokenLinked(t.log, t.work[i]);
    AdvancedCopy(cfg, t, i, wx, tok, w);
    if CopyOf(t.log, t.work[i]) == Some(w) {
      SeenLater(cfg, s, run, a, tok.key, w);
    } else if tok.key in t.store && t.store[tok.key] == w {
      SeenNow(cfg, s, run, tok.key, w);
      SeenLater(cfg, s, run, a, tok.key, w);
    } else {
      SeenNow(cfg, s, run + [a], tok.key, w);
    }
  }

  lemma OldCopy(cfg: Config, s: State, a: Action, tok: Token)
    requires TokenLinked(s.log, tok)
    ensures CopyOf(Step(cfg, s, a).log, tok) == CopyOf(s.log, tok)
  {
    hide Step;
    StepExtendsLog(cfg, s, a);
  }

  lemma StepKeepsCopies(cfg: Config, s: State, run: seq<Action>, a: Action)
    requires Fresh(s) && CopiesSeen(cfg, s, run, Exec(cfg, s, run))
    ensures CopiesSeen(cfg, s, run + [a], Exec(cfg, s, run + [a]))
  {
    hide Advance, Exec, SeenThisTurn, Step, IsAdvanced, TokenLinked, Linked;
    var t := Exec(cfg, s, run);
    ExecSnoc(cfg, s, run, a);
    RunsKeepHistory(cfg, s, run);
    var t' := Exec(cfg, s, run + [a]);
    forall j | 0 <= j < |t'.work| && CopyOf(t'.log, t'.work[j]).Some?
      ensures SeenThisTurn(cfg, s, run + [a], t'.work[j].key, CopyOf(t'.log, t'.work[j]).value)
    {
      var tok := t'.work[j];
      RunningOrigin(cfg, t, a, j);
      if m :| 0 <= m < |t.work| && t.work[m] == tok {
        OldCopy(cfg, t, a, tok);
        SeenLater(cfg, s, run, a, tok.key, CopyOf(t'.log, tok).value);
      } else {
        AdvancedCopySeen(cfg, s, run, a.i, a.wx, tok, CopyOf(t'.log, tok).value);
      }
    }
  }

  lemma {:induction false} CopiesAreReal(cfg: Config, s: State, run: seq<Action>)
    requires Fresh(s)
    ensures CopiesSeen(cfg, s, run, Exec(cfg, s, run))
  {
    hide Step;
    if run != [] {
      var before := run[..|run| - 1];
      CopiesAreReal(cfg, s, before);
      StepKeepsCopies(cfg, s, before, run[|run| - 1]);
      assert before + [run[|run| - 1]] == run;
    }
  }

  // ---------- specs and generations ----------

  /** The same template and, where the spec gives it, the same number of replicas. */
  predicate SameSpec(a: Object, b: Object) {
    && a.template == b.template
    && match (a.rollout, b.rollout)
       case (DeploymentRollout(m, _, _, _, _), DeploymentRollout(n, _, _, _, _)) => m == n
       case (StatefulSetRollout(m, _, _), StatefulSetRollout(n, _, _)) => m == n
       case (DaemonSetRollout(_, _, _, _, _), DaemonSetRollout(_, _, _, _, _)) => true
       case _ => false
  }

  /** Users and controllers never lower a generation, and raise it whenever they change the spec. */
  ghost predicate Disciplined(s: State, a: Action) {
    a.Update? && a.key in s.store ==> SpecFollowed(s.store[a.key], a.object')
  }

  /** What a write may do to the spec: leave it and not lower the generation, or raise the generation. */
  ghost predicate SpecFollowed(before: Object, after: Object) {
    before.generation <= after.generation && (SameSpec(before, after) || before.generation < after.generation)
  }

  lemma FollowedOn(a: Object, b: Object, c: Object)
    requires SpecFollowed(a, b) && SpecFollowed(b, c)
    ensures SpecFollowed(a, c)
  {
  }

  /** `v` exists, and outside writes are disciplined, from point `m` to point `n` of the run. */
  ghost predicate Undisturbed(cfg: Config, s: State, run: seq<Action>, m: nat, n: nat, v: Key)
    requires m <= n <= |run|
  {
    && (forall j | m <= j <= n :: v in Exec(cfg, s, run[..j]).store)
    && (forall j | m <= j < n :: Disciplined(Exec(cfg, s, run[..j]), run[j]))
  }

  ghost function StoredAt(cfg: Config, s: State, run: seq<Action>, n: nat, v: Key): Object
    requires n <= |run| && v in Exec(cfg, s, run[..n]).store
  {
    Exec(cfg, s, run[..n]).store[v]
  }

  lemma AdvanceFollows(cfg: Config, v: Key, store: Store, stage: Stage, wx: Weather, k: Key)
    requires Possible(cfg, wx) && k in store
    ensures var store' := Advance(cfg, v, store, stage, wx).0;
            k in store' && SpecFollowed(store[k], store'[k])
  {
    hide Check;
    if v in store {
      MarkingFollows(cfg, stage, store[v], wx.now);
    }
  }

  lemma MarkingFollows(cfg: Config, stage: Stage, server: Object, now: string)
    ensures stage.Marking? ==> SpecFollowed(server, Marked(cfg.lastObserved, now, stage.read, server))
    ensures stage.Clearing? ==> SpecFollowed(server, Unmarked(cfg.lastObserved, stage.read, server))
  {
  }

  lemma StepFollows(cfg: Config, s: State, a: Action, v: Key)
    requires v in s.store && v in Step(cfg, s, a).store && Disciplined(s, a)
    ensures SpecFollowed(s.store[v], Step(cfg, s, a).store[v])
  {
    hide Advance;
    if a.Work? && Enabled(cfg, s, a) {
      WorkStore(cfg, s, a.i, a.wx);
      AdvanceFollows(cfg, s.work[a.i].key, s.store, s.work[a.i].phase.stage, a.wx, v);
    }
  }

  /** Along a run the generation never falls, and a spec that changes raises it. */
  lemma {:induction false} SpecsFollow(cfg: Config, s: State, run: seq<Action>, m: nat, n: nat, v: Key)
    requires m <= n <= |run| && Undisturbed(cfg, s, run, m, n, v)
    ensures SpecFollowed(StoredAt(cfg, s, run, m, v), StoredAt(cfg, s, run, n, v))
    decreases n - m
  {
    hide Exec, Step, Disciplined, SpecFollowed;
    if m < n {
      assert Undisturbed(cfg, s, run, m, n - 1, v);
      SpecsFollow(cfg, s, run, m, n - 1, v);
      assert run[..n] == run[..n - 1] + [run[n - 1]];
      ExecSnoc(cfg, s, run[..n - 1], run[n - 1]);
      StepFollows(cfg, Exec(cfg, s, run[..n - 1]), run[n - 1], v);
      FollowedOn(StoredAt(cfg, s, run, m, v), StoredAt(cfg, s, run, n - 1, v), StoredAt(cfg, s, run, n, v));
    } else {
      FollowedSame(StoredAt(cfg, s, run, m, v));
    }
  }

  lemma FollowedSame(w: Object)
    ensures SpecFollowed(w, w)
  {
  }

  // ---------- the rollout order ----------

  /** The next step makes `v` fire on the copy `read`. */
  ghost predicate FiresNext(cfg: Config, s: State, i: nat, wx: Weather, v: Key, read: Object) {
    && Enabled(cfg, s, Work(i, wx))
    && s.work[i].key == v && s.work[i].phase == Running(Checking(read))
    && Check(cfg, v, s.store, read, wx).Clearing?
  }

  /** The next step attempts to restart a target of `v`, which fired on the copy `read`. */
  ghost predicate TriggersNext(cfg: Config, s: State, i: nat, wx: Weather, v: Key, read: Object) {
    && Enabled(cfg, s, Work(i, wx))
    && s.work[i].key == v && Machine.Triggers(s.work[i].phase.stage)
    && s.work[i].cause < |s.log| && s.log[s.work[i].cause].Firing? && s.log[s.work[i].cause].read == read
  }

  ghost predicate ActsOnCopy(cfg: Config, s: State, i: nat, wx: Weather, v: Key, read: Object) {
    FiresNext(cfg, s, i, wx, v, read) || TriggersNext(cfg, s, i, wx, v, read)
  }

  lemma ActsOnStable(cfg: Config, s: State, i: nat, wx: Weather, v: Key, read: Object)
    requires History(cfg, s) && ActsOnCopy(cfg, s, i, wx, v, read)
    ensures Stable(read) && CopyOf(s.log, s.work[i]) == Some(read)
  {
    if FiresNext(cfg, s, i, wx, v, read) {
      CheckFires(cfg, v, s.store, read, wx);
    } else {
      assert Linked(cfg, s.log, s.log[s.work[i].cause], s.work[i].cause);
    }
  }

  /** Every restart that is attempted goes back to a firing, in whose targets it is. */
  lemma {:induction false} TriggersActOnCopies(cfg: Config, s: State, run: seq<Action>, i: nat, wx: Weather)
    returns (read: Object)
    requires Fresh(s) && Enabled(cfg, Exec(cfg, s, run), Work(i, wx))
    requires Machine.Triggers(Exec(cfg, s, run).work[i].phase.stage)
    ensures var t := Exec(cfg, s, run);
            && TriggersNext(cfg, t, i, wx, t.work[i].key, read)
            && t.work[i].phase.stage.targets == t.log[t.work[i].cause].targets
  {
    hide Exec;
    RunsKeepHistory(cfg, s, run);
    var t := Exec(cfg, s, run);
    assert TokenLinked(t.log, t.work[i]);
    read := t.log[t.work[i].cause].read;
  }

  /**
   Safe rollout order. Whenever a workload fires, and whenever one of its targets is restarted after
   that, the copy it acts on was the cluster's at some point since this very turn began, with the
   rollout of its spec complete. Every spec the workload had up to that point, in particular every
   one it had when the turn began, is the spec of that copy or an older one, and of a generation the
   copy's status has observed. So no target restarts between a spec change and a status that has
   observed it, unless the change comes after the turn began.
   */
  lemma SafeRolloutOrder(cfg: Config, s: State, run: seq<Action>, i: nat, wx: Weather, v: Key, read: Object)
    returns (start: nat, n: nat)
    requires Fresh(s) && ActsOnCopy(cfg, Exec(cfg, s, run), i, wx, v, read)
    ensures TurnOf(cfg, s, run, start, |run|, v)
    ensures start < n <= |run| && SeenAt(cfg, s, run, n, v, read)
    ensures RolledOut(read)
    ensures forall m | 0 <= m <= n && Undisturbed(cfg, s, run, m, n, v) ::
              && StoredAt(cfg, s, run, m, v).generation <= read.observedGeneration
              && (SameSpec(StoredAt(cfg, s, run, m, v), read) || StoredAt(cfg, s, run, m, v).generation < read.generation)
  {
    hide Exec, Undisturbed, Disciplined, TurnOf, SeenAt, SameSpec;
    CopiesAreReal(cfg, s, run);
    RunsKeepHistory(cfg, s, run);
    var t := Exec(cfg, s, run);
    ActsOnStable(cfg, t, i, wx, v, read);
    SeenOfCopy(cfg, s, run, t, i);
    start, n :| 0 <= start < n <= |run| && TurnOf(cfg, s, run, start, |run|, v) && SeenAt(cfg, s, run, n, v, read);
    StableExactly(read);
    EarlierSpecsObserved(cfg, s, run, n, v, read);
  }

  lemma SeenOfCopy(cfg: Config, s: State, run: seq<Action>, t: State, i: nat)
    requires CopiesSeen(cfg, s, run, t) && i < |t.work| && CopyOf(t.log, t.work[i]).Some?
    ensures SeenThisTurn(cfg, s, run, t.work[i].key, CopyOf(t.log, t.work[i]).value)
  {
  }

  lemma EarlierSpecsObserved(cfg: Config, s: State, run: seq<Action>, n: nat, v: Key, w: Object)
    requires n <= |run| && SeenAt(cfg, s, run, n, v, w) && w.generation <= w.observedGeneration
    ensures forall m | 0 <= m <= n && Undisturbed(cfg, s, run, m, n, v) ::
              && StoredAt(cfg, s, run, m, v).generation <= w.observedGeneration
              && (SameSpec(StoredAt(cfg, s, run, m, v), w) || StoredAt(cfg, s, run, m, v).generation < w.generation)
  {
    hide Exec, SameSpec, Disciplined;
    forall m | 0 <= m <= n && Undisturbed(cfg, s, run, m, n, v)
      ensures && StoredAt(cfg, s, run, m, v).generation <= w.observedGeneration
              && (SameSpec(StoredAt(cfg, s, run, m, v), w) || StoredAt(cfg, s, run, m, v).generation < w.generation)
    {
      SpecsFollow(cfg, s, run, m, n, v);
    }
  }

  /**
   A spec written after the copy was read is not waited for: whatever the write, unless it changes
   the dependency graph, the same step still fires, and does so on the same targets.
   */
  lemma LaterSpecIsNotWaitedFor(cfg: Config, s: State, i: nat, wx: Weather, v: Key, read: Object, written: Object)
    requires FiresNext(cfg, s, i, wx, v, read) && v in s.store
    requires GraphOf(cfg, s.store[v := written]) == GraphOf(cfg, s.store)
    ensures var t := Step(cfg, s, Update(v, written));
            && t.store[v] == written
            && FiresNext(cfg, t, i, wx, v, read)
            && Check(cfg, v, t.store, read, wx) == Check(cfg, v, s.store, read, wx)
  {
    hide Passes, GraphOf, Stable, Reacts;
  }

  /** No write between two points of the run raised the generation of `v`. */
  ghost predicate SameGeneration(cfg: Config, s: State, run: seq<Action>, m: nat, n: nat, v: Key)
    requires m <= n <= |run| && Undisturbed(cfg, s, run, m, n, v)
  {
    forall j | m <= j < n :: StoredAt(cfg, s, run, j, v).generation == StoredAt(cfg, s, run, j + 1, v).generation
  }

  lemma {:induction false} GenerationKeptExactly(cfg: Config, s: State, run: seq<Action>, m: nat, n: nat, v: Key)
    requires m <= n <= |run| && Undisturbed(cfg, s, run, m, n, v)
    ensures SameGeneration(cfg, s, run, m, n, v) <==>
              StoredAt(cfg, s, run, n, v).generation <= StoredAt(cfg, s, run, m, v).generation
    decreases n - m
  {
    hide Exec, Disciplined, SameSpec;
    if m < n {
      assert Undisturbed(cfg, s, run, m, n - 1, v) && Undisturbed(cfg, s, run, n - 1, n, v);
      GenerationKeptExactly(cfg, s, run, m, n - 1, v);
      SpecsFollow(cfg, s, run, m, n - 1, v);
      SpecsFollow(cfg, s, run, n - 1, n, v);
      assert StoredAt(cfg, s, run, n - 1, v).generation == StoredAt(cfg, s, run, n - 1 + 1, v).generation <==>
             StoredAt(cfg, s, run, n - 1, v).generation == StoredAt(cfg, s, run, n, v).generation;
    }
  }

  /**
   Exactly when the spec in the cluster, at the moment a workload fires or one of its targets is
   restarted, is of a generation that the status of the copy has observed: when no write since the
   copy was read has raised the generation. Then it is the very spec of the copy, whose rollout the
   copy shows complete.
   */
  lemma {:induction false} LiveSpecCoveredExactly(cfg: Config, s: State, run: seq<Action>, i: nat, wx: Weather,
                                                  v: Key, read: Object, n: nat)
    requires Fresh(s) && ActsOnCopy(cfg, Exec(cfg, s, run), i, wx, v, read)
    requires n <= |run| && SeenAt(cfg, s, run, n, v, read) && Undisturbed(cfg, s, run, n, |run|, v)
    requires read.observedGeneration <= read.generation
    ensures RolledOut(read)
    ensures StoredAt(cfg, s, run, |run|, v).generation <= read.observedGeneration <==>
              SameGeneration(cfg, s, run, n, |run|, v)
    ensures SameGeneration(cfg, s, run, n, |run|, v) ==>
              var live := StoredAt(cfg, s, run, |run|, v);
              && live.template == read.template
              && (!read.rollout.DaemonSetRollout? ==> Desired(live) == Desired(read))
              && SameSpec(live, read)
  {
    hide Exec, Disciplined;
    RunsKeepHistory(cfg, s, run);
    ActsOnStable(cfg, Exec(cfg, s, run), i, wx, v, read);
    StableExactly(read);
    GenerationKeptExactly(cfg, s, run, n, |run|, v);
    SpecsFollow(cfg, s, run, n, |run|, v);
  }
}
