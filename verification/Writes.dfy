/**
 What the operator's own steps may change in the cluster, in every run and whatever everyone else
 does: its mark in the metadata, and the restart timestamp in the pod template.
 */
module Writes {
  import opened Wrappers
  import opened Refs
  import opened Objects
  import opened Predicates
  import opened Patches
  import opened Guard
  import opened Job
  import opened Machine
  import opened Justified
  import opened Turns

  /** `after` differs from `before` in the mark and the restart timestamp at most, and in what these entail. */
  ghost predicate OnlyOwnKeys(cfg: Config, before: Object, after: Object) {
    && (forall a | a != cfg.lastObserved :: Lookup(after.annotations, a) == Lookup(before.annotations, a))
    && (forall a | a != RESTART_KEY :: Lookup(after.template.annotations, a) == Lookup(before.template.annotations, a))
    && after.template.rest == before.template.rest
    && after.generation == before.generation + (if after.template == before.template then 0 else 1)
    && after.observedGeneration == before.observedGeneration
    && after.rollout == before.rollout
  }

  ghost predicate OnlyOwnKeysAnywhere(cfg: Config, before: Store, after: Store) {
    before.Keys == after.Keys && forall k | k in before :: OnlyOwnKeys(cfg, before[k], after[k])
  }

  /** A workload about to lose its mark has a kind annotation, so the mark is not its only annotation. */
  ghost predicate ClearsAnnotated(cfg: Config, phase: Phase) {
    phase.Running? && phase.stage.Clearing? ==> HasKindAnnotation(phase.stage.read, cfg.kinds)
  }

  ghost predicate AllClearAnnotated(cfg: Config, work: seq<Token>) {
    forall i | 0 <= i < |work| :: ClearsAnnotated(cfg, work[i].phase)
  }

  lemma AdvanceWritesOwnKeys(cfg: Config, v: Key, store: Store, stage: Stage, wx: Weather)
    requires cfg.lastObserved !in cfg.kinds && Possible(cfg, wx) && ClearsAnnotated(cfg, Running(stage))
    ensures OnlyOwnKeysAnywhere(cfg, store, Advance(cfg, v, store, stage, wx).0)
  {
    hide Check, Marked, Unmarked, Stamped;
    match stage
    case Marking(read) =>
      if v in store {
        MarkedIs(cfg.lastObserved, wx.now, read, store[v]);
      }
    case Clearing(read, _) =>
      if v in store {
        var a :| a in cfg.kinds && a in read.annotations;
        UnmarkedIs(cfg.lastObserved, read, store[v]);
      }
    case Triggering(targets, oks) =>
      if |oks| < |targets| && targets[|oks|] in store {
        var w := store[targets[|oks|]];
        StampedIs(RESTART_KEY, wx.now, w, w);
      }
    case _ =>
  }

  lemma StepClearsAnnotated(cfg: Config, s: State, a: Action)
    requires AllClearAnnotated(cfg, s.work)
    ensures AllClearAnnotated(cfg, Step(cfg, s, a).work)
  {
    hide Step, Check, HasKindAnnotation;
    var work := Step(cfg, s, a).work;
    forall j | 0 <= j < |work| ensures ClearsAnnotated(cfg, work[j].phase) {
      if work[j].phase.Running? && work[j].phase.stage.Clearing? {
        RunningOrigin(cfg, s, a, j);
        if a.Work? && Enabled(cfg, s, a) && s.work[a.i].phase.stage.Checking? {
          CheckShape(cfg, s.work[a.i].key, s.store, s.work[a.i].phase.stage.read, a.wx);
        }
      }
    }
  }

  lemma {:induction false} RunsClearAnnotated(cfg: Config, s: State, run: seq<Action>)
    requires Fresh(s)
    ensures AllClearAnnotated(cfg, Exec(cfg, s, run).work)
  {
    hide Step;
    if run != [] {
      RunsClearAnnotated(cfg, s, run[..|run| - 1]);
      StepClearsAnnotated(cfg, Exec(cfg, s, run[..|run| - 1]), run[|run| - 1]);
    }
  }

  lemma OwnStepWritesOwnKeys(cfg: Config, s: State, a: Action)
    requires cfg.lastObserved !in cfg.kinds && AllClearAnnotated(cfg, s.work) && !FromEnvironment(a)
    ensures OnlyOwnKeysAnywhere(cfg, s.store, Step(cfg, s, a).store)
  {
    hide WorkOn, Advance;
    if a.Work? && Enabled(cfg, s, a) {
      var tok := s.work[a.i];
      WorkStore(cfg, s, a.i, a.wx);
      AdvanceWritesOwnKeys(cfg, tok.key, s.store, tok.phase.stage, a.wx);
    }
  }

  /**
   In every run, with users and other controllers acting at will, no step of the operator changes
   anything in any workload but its mark, the restart timestamp and the generation that counts the
   changes of the template. In particular clearing the mark never takes another annotation with it.
   */
  lemma {:induction false} OperatorWritesOnlyItsKeys(cfg: Config, s: State, run: seq<Action>, a: Action)
    requires cfg.lastObserved !in cfg.kinds && Fresh(s) && !FromEnvironment(a)
    ensures OnlyOwnKeysAnywhere(cfg, Exec(cfg, s, run).store, Step(cfg, Exec(cfg, s, run), a).store)
  {
    hide Step;
    RunsClearAnnotated(cfg, s, run);
    OwnStepWritesOwnKeys(cfg, Exec(cfg, s, run), a);
  }

  // ---------- the mark comes and goes ----------

  /** From the check on, a reconcile holds a copy that carries the mark. */
  ghost predicate CarriesMark(cfg: Config, phase: Phase) {
    phase.Running? && (phase.stage.Checking? || phase.stage.Clearing?) ==> cfg.lastObserved in phase.stage.read.annotations
  }

  ghost predicate AllCarryMark(cfg: Config, work: seq<Token>) {
    forall i | 0 <= i < |work| :: CarriesMark(cfg, work[i].phase)
  }

  lemma AdvanceCarriesMark(cfg: Config, v: Key, store: Store, stage: Stage, wx: Weather)
    requires Possible(cfg, wx) && CarriesMark(cfg, Running(stage))
    ensures CarriesMark(cfg, Running(Advance(cfg, v, store, stage, wx).1))
  {
    hide Check, Marked;
    match stage
    case Marking(read) =>
      if v in store {
        MarkedIs(cfg.lastObserved, wx.now, read, store[v]);
      }
    case Checking(read) =>
      CheckShape(cfg, v, store, read, wx);
    case _ =>
  }

  lemma StepCarriesMark(cfg: Config, s: State, a: Action)
    requires AllCarryMark(cfg, s.work)
    ensures AllCarryMark(cfg, Step(cfg, s, a).work)
  {
    hide Step, Advance;
    var work := Step(cfg, s, a).work;
    forall j | 0 <= j < |work| ensures CarriesMark(cfg, work[j].phase) {
      if work[j].phase.Running? {
        RunningOrigin(cfg, s, a, j);
        if a.Work? && Enabled(cfg, s, a) {
          AdvanceCarriesMark(cfg, s.work[a.i].key, s.store, s.work[a.i].phase.stage, a.wx);
        }
      }
    }
  }

  lemma {:induction false} RunsCarryMark(cfg: Config, s: State, run: seq<Action>)
    requires Fresh(s)
    ensures AllCarryMark(cfg, Exec(cfg, s, run).work)
  {
    hide Step;
    if run != [] {
      RunsCarryMark(cfg, s, run[..|run| - 1]);
      StepCarriesMark(cfg, Exec(cfg, s, run[..|run| - 1]), run[|run| - 1]);
    }
  }

  /**
   In every run a step that sets the mark and succeeds leaves it in the cluster with the current
   time, and one that clears it and succeeds leaves none there, whoever has written it meanwhile.
   */
  lemma {:induction false} MarkIsSetAndCleared(cfg: Config, s: State, run: seq<Action>, i: nat, wx: Weather)
    requires cfg.lastObserved !in cfg.kinds && Fresh(s)
    requires var t := Exec(cfg, s, run); Enabled(cfg, t, Work(i, wx)) && wx.ok && t.work[i].key in t.store
    ensures var t := Exec(cfg, s, run);
            var v, stage, t' := t.work[i].key, t.work[i].phase.stage, Step(cfg, t, Work(i, wx));
            && (stage.Marking? && cfg.lastObserved !in stage.read.annotations ==>
                  v in t'.store && Lookup(t'.store[v].annotations, cfg.lastObserved) == Some(wx.now))
            && (stage.Clearing? ==> v in t'.store && cfg.lastObserved !in t'.store[v].annotations)
  {
    hide Exec, Step, Marked, Unmarked;
    RunsCarryMark(cfg, s, run);
    RunsClearAnnotated(cfg, s, run);
    var t := Exec(cfg, s, run);
    var v, stage := t.work[i].key, t.work[i].phase.stage;
    assert CarriesMark(cfg, t.work[i].phase) && ClearsAnnotated(cfg, t.work[i].phase);
    WorkStore(cfg, t, i, wx);
    match stage
    case Marking(read) =>
      MarkedIs(cfg.lastObserved, wx.now, read, t.store[v]);
    case Clearing(read, _) =>
      var a :| a in cfg.kinds && a in read.annotations;
      UnmarkedIs(cfg.lastObserved, read, t.store[v]);
    case _ =>
  }

  // ---------- the dependency graph ----------

  lemma OwnKeysKeepGraph(cfg: Config, before: Store, after: Store)
    requires cfg.lastObserved !in cfg.kinds && OnlyOwnKeysAnywhere(cfg, before, after)
    ensures GraphOf(cfg, after) == GraphOf(cfg, before)
  {
    var a, b := GraphOf(cfg, after), GraphOf(cfg, before);
    assert a.Keys == b.Keys;
    forall k | k in a ensures a[k] == b[k] {
      assert OnlyOwnKeys(cfg, before[k], after[k]);
      DepsIgnoreOtherKeys(cfg.kinds, after[k].annotations, before[k].annotations, k.namespace);
    }
  }

  /** One step of a reconcile, whatever happened to the workload since it was read. */
  lemma AdvanceKeepsGraph(cfg: Config, v: Key, store: Store, stage: Stage, wx: Weather)
    requires cfg.lastObserved !in cfg.kinds && Possible(cfg, wx) && ClearsAnnotated(cfg, Running(stage))
    ensures GraphOf(cfg, Advance(cfg, v, store, stage, wx).0) == GraphOf(cfg, store)
  {
    AdvanceWritesOwnKeys(cfg, v, store, stage, wx);
    OwnKeysKeepGraph(cfg, store, Advance(cfg, v, store, stage, wx).0);
  }

  /** The dependency graph is invariant under the operator: in every run only others can change it. */
  lemma {:induction false} OperatorKeepsGraph(cfg: Config, s: State, run: seq<Action>, a: Action)
    requires cfg.lastObserved !in cfg.kinds && Fresh(s) && !FromEnvironment(a)
    ensures GraphOf(cfg, Step(cfg, Exec(cfg, s, run), a).store) == GraphOf(cfg, Exec(cfg, s, run).store)
  {
    hide Step;
    OperatorWritesOnlyItsKeys(cfg, s, run, a);
    OwnKeysKeepGraph(cfg, Exec(cfg, s, run).store, Step(cfg, Exec(cfg, s, run), a).store);
  }

  // ---------- the targets of a firing exist when their turn comes ----------

  ghost predicate TargetsStored(store: Store, phase: Phase) {
    match phase
    case Running(Clearing(_, targets)) => targets != [] && forall t | t in targets :: t in store
    case Running(Triggering(targets, oks)) => |oks| < |targets| && forall t | t in targets :: t in store
    case _ => true
  }

  ghost predicate AllTargetsStored(s: State) {
    forall i | 0 <= i < |s.work| :: TargetsStored(s.store, s.work[i].phase)
  }

  lemma AdvanceTargetsStored(cfg: Config, v: Key, store: Store, stage: Stage, wx: Weather)
    requires Possible(cfg, wx) && TargetsStored(store, Running(stage))
    ensures TargetsStored(store, Running(Advance(cfg, v, store, stage, wx).1))
  {
    hide Check;
    if stage.Checking? && Check(cfg, v, store, stage.read, wx).Clearing? {
      var targets := Check(cfg, v, store, stage.read, wx).targets;
      CheckShape(cfg, v, store, stage.read, wx);
      CheckFires(cfg, v, store, stage.read, wx);
      forall t | t in targets ensures t in store {
        GuardPassesTargets(GraphOf(cfg, store), ID(v), targets, t);
      }
    } else if stage.Checking? {
      CheckShape(cfg, v, store, stage.read, wx);
    }
  }

  lemma StepKeepsTargetsStored(cfg: Config, s: State, a: Action)
    requires AllTargetsStored(s) && !a.Delete?
    ensures AllTargetsStored(Step(cfg, s, a))
  {
    hide Advance, Step;
    var t := Step(cfg, s, a);
    StepKeepsKeys(cfg, s, a);
    forall j | 0 <= j < |t.work| ensures TargetsStored(t.store, t.work[j].phase) {
      if t.work[j].phase.Running? {
        RunningOrigin(cfg, s, a, j);
        if a.Work? && Enabled(cfg, s, a) {
          AdvanceTargetsStored(cfg, s.work[a.i].key, s.store, s.work[a.i].phase.stage, a.wx);
        }
      }
    }
  }

  lemma StepKeepsKeys(cfg: Config, s: State, a: Action)
    requires !a.Delete?
    ensures s.store.Keys <= Step(cfg, s, a).store.Keys
  {
    hide WorkOn, Advance;
    if a.Work? && Enabled(cfg, s, a) {
      WorkStore(cfg, s, a.i, a.wx);
      AdvanceKeepsKeys(cfg, s.work[a.i].key, s.store, s.work[a.i].phase.stage, a.wx);
    }
  }

  lemma {:induction false} RunsKeepTargetsStored(cfg: Config, s: State, run: seq<Action>)
    requires Fresh(s) && forall a | a in run :: !a.Delete?
    ensures AllTargetsStored(Exec(cfg, s, run))
  {
    hide Step;
    if run != [] {
      RunsKeepTargetsStored(cfg, s, run[..|run| - 1]);
      StepKeepsTargetsStored(cfg, Exec(cfg, s, run[..|run| - 1]), run[|run| - 1]);
    }
  }

  /**
   As long as nobody deletes workloads, a restart that is attempted fails only if the API does:
   the guard has seen every target, although it looked at an earlier state of the cluster.
   */
  lemma {:induction false} OnlyApiFailuresStopRestarts(cfg: Config, s: State, run: seq<Action>, i: nat, wx: Weather)
    requires Fresh(s) && forall a | a in run :: !a.Delete?
    requires var t := Exec(cfg, s, run); i < |t.work| && t.work[i].phase.Running? && t.work[i].phase.stage.Triggering?
    ensures var t := Exec(cfg, s, run); Restarts(t.store, t.work[i].phase.stage, wx) <==> wx.ok
  {
    hide Exec;
    RunsKeepTargetsStored(cfg, s, run);
    assert TargetsStored(Exec(cfg, s, run).store, Exec(cfg, s, run).work[i].phase);
  }
}
