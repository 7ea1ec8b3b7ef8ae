/**
 The operator's own writes can be admitted as new work, for a DaemonSet in transition. As long as a
 workload is never stored stable and in transition at once, they bring in only a bounded amount of
 it: at most two admissions per action from outside on it, and one more for the start.

 The argument is a potential. A reconcile whose mark write was admitted holds a copy in transition,
 so it does not fire, and the mark stays; nothing but an action from outside ends the transition.
 */
module OwnWrites {
  import opened Refs
  import opened Objects
  import opened Predicates
  import opened Patches
  import opened Guard
  import opened Job
  import opened Machine
  import opened Justified
  import opened Turns
  import opened Writes

  ghost predicate SettledAt(store: Store, v: Key) {
    v in store ==> Settled(store[v])
  }

  /** What users and other controllers store for `v` is settled. */
  ghost predicate SettledActions(run: seq<Action>, v: Key) {
    forall a | a in run && (a.Update? || a.Create?) && a.key == v :: Settled(a.object')
  }

  /** Admissions of `v` that a write of the operator's own bookkeeping caused. */
  ghost function OwnAt(v: Key): Event -> nat {
    (e: Event) => if e.Admission? && e.origin.FromOwnWrite? && e.key == v then 1 else 0
  }

  ghost function OutsideAt(v: Key): Action -> nat {
    (a: Action) => if FromEnvironment(a) && a.key == v then 1 else 0
  }

  // ---------- the potential ----------

  ghost predicate InTransition(s: State, v: Key) {
    v in s.store && DaemonSetTransitioning(s.store[v])
  }

  ghost predicate HasMark(cfg: Config, w: Workload) {
    cfg.lastObserved in w.annotations
  }

  /** A reconcile that may still clear the mark, as its copy is stable. */
  ghost predicate Armed(cfg: Config, phase: Phase) {
    phase.Running? &&
    match phase.stage
    case Marking(read) => HasMark(cfg, read) && Stable(read)
    case Checking(read) => Stable(read)
    case Clearing(_, _) => true
    case _ => false
  }

  /** A reconcile about to set the mark. */
  ghost predicate SetsMark(cfg: Config, phase: Phase) {
    phase.Running? && phase.stage.Marking? && !HasMark(cfg, phase.stage.read)
  }

  ghost predicate SomeArmed(cfg: Config, work: seq<Token>, v: Key) {
    exists i :: 0 <= i < |work| && work[i].key == v && Armed(cfg, work[i].phase)
  }

  ghost predicate SomeSetsMark(cfg: Config, work: seq<Token>, v: Key) {
    exists i :: 0 <= i < |work| && work[i].key == v && SetsMark(cfg, work[i].phase)
  }

  /** How many more of the operator's writes to `v` can be admitted if nobody else acts on `v`. */
  ghost function Slack(cfg: Config, s: State, v: Key): nat {
    if !InTransition(s, v) then 0
    else if SomeArmed(cfg, s.work, v) then 2
    else if !HasMark(cfg, s.store[v]) || SomeSetsMark(cfg, s.work, v) then 1
    else 0
  }

  // ---------- steps that do not work on `v` ----------

  /** Nothing new runs for `v`, and its stored copy has not come closer to losing the mark. */
  lemma SlackKept(cfg: Config, s: State, t: State, v: Key)
    requires forall j | 0 <= j < |t.work| && t.work[j].key == v && t.work[j].phase.Running? ::
               t.work[j].phase == Running(Fetching) || t.work[j] in s.work
    requires InTransition(t, v) ==> InTransition(s, v) && (HasMark(cfg, s.store[v]) ==> HasMark(cfg, t.store[v]))
    ensures Slack(cfg, t, v) <= Slack(cfg, s, v)
  {
    hide DaemonSetTransitioning, Stable;
  }

  lemma OthersKeepRunning(cfg: Config, s: State, a: Action, v: Key)
    requires !(a.Work? && Enabled(cfg, s, a) && s.work[a.i].key == v)
    ensures var t := Step(cfg, s, a);
            forall j | 0 <= j < |t.work| && t.work[j].key == v && t.work[j].phase.Running? ::
              t.work[j].phase == Running(Fetching) || t.work[j] in s.work
  {
    hide Step;
    var t := Step(cfg, s, a);
    forall j | 0 <= j < |t.work| && t.work[j].key == v && t.work[j].phase.Running?
      ensures t.work[j].phase == Running(Fetching) || t.work[j] in s.work
    {
      RunningOrigin(cfg, s, a, j);
    }
  }

  // ---------- which own writes are admitted ----------

  /** The bookkeeping write of this step is admitted. */
  ghost predicate Noticed(cfg: Config, s: State, i: nat, wx: Weather)
    requires Enabled(cfg, s, Work(i, wx))
  {
    var v, stage := s.work[i].key, s.work[i].phase.stage;
    var store := Advance(cfg, v, s.store, stage, wx).0;
    !stage.Triggering? && v in s.store && v in store && Notices(cfg, s.store[v], store[v])
  }

  /** Bookkeeping leaves everything but the metadata as it was. */
  lemma BookkeepingIsMetadata(cfg: Config, v: Key, store: Store, stage: Stage, wx: Weather)
    requires cfg.lastObserved !in cfg.kinds && Possible(cfg, wx) && ClearsAnnotated(cfg, Running(stage))
    requires v in store && !stage.Triggering?
    ensures var store' := Advance(cfg, v, store, stage, wx).0;
            && v in store' && store'[v] == store[v].(annotations := store'[v].annotations)
            && (store'[v] != store[v] ==> stage.Clearing? || SetsMark(cfg, Running(stage)))
            && (SetsMark(cfg, Running(stage)) && store'[v] != store[v] ==> HasMark(cfg, store'[v]))
            && (!stage.Clearing? && HasMark(cfg, store[v]) ==> HasMark(cfg, store'[v]))
  {
    hide Check, Marked, Unmarked;
    match stage
    case Marking(read) =>
      MarkedIs(cfg.lastObserved, wx.now, read, store[v]);
    case Clearing(read, _) =>
      var a :| a in cfg.kinds && a in read.annotations;
      UnmarkedIs(cfg.lastObserved, read, store[v]);
    case _ =>
  }

  lemma NoticedInTransition(cfg: Config, s: State, i: nat, wx: Weather)
    requires cfg.lastObserved !in cfg.kinds && Enabled(cfg, s, Work(i, wx)) && ClearsAnnotated(cfg, s.work[i].phase)
    requires Noticed(cfg, s, i, wx)
    ensures InTransition(s, s.work[i].key)
    ensures s.work[i].phase.stage.Clearing? || SetsMark(cfg, s.work[i].phase)
  {
    hide Advance;
    var v, stage := s.work[i].key, s.work[i].phase.stage;
    var store := Advance(cfg, v, s.store, stage, wx).0;
    BookkeepingIsMetadata(cfg, v, s.store, stage, wx);
    OwnWriteAdmittedExactly(cfg, s.store[v], store[v].annotations);
  }

  lemma ObserveOwn(cfg: Config, s: State, k: Key, store: Store, origin: Origin, v: Key)
    ensures Sum(OwnAt(v), Observe(cfg, s, k, store, origin).log) ==
              Sum(OwnAt(v), s.log)
              + if && k == v && k in s.store && k in store
                   && origin.FromOwnWrite? && Reacts(cfg, origin, s.store[k], store[k]) then 1 else 0
  {
    hide Reacts;
    SumSnoc(OwnAt(v), s.log, Admission(k, origin));
  }

  lemma RecordedOwn(s: State, tok: Token, stage: Stage, after: Stage, wx: Weather, v: Key)
    ensures Sum(OwnAt(v), s.log + Recorded(s, tok, stage, after, wx)) == Sum(OwnAt(v), s.log)
  {
    var events := Recorded(s, tok, stage, after, wx);
    if events == [] {
      assert s.log + events == s.log;
    } else {
      SumSnoc(OwnAt(v), s.log, events[0]);
    }
  }

  /** The history records exactly the admissions of the bookkeeping writes that are noticed. */
  lemma OwnCounted(cfg: Config, s: State, i: nat, wx: Weather, v: Key)
    requires Enabled(cfg, s, Work(i, wx))
    ensures Sum(OwnAt(v), Step(cfg, s, Work(i, wx)).log) ==
              Sum(OwnAt(v), s.log) + (if s.work[i].key == v && Noticed(cfg, s, i, wx) then 1 else 0)
  {
    hide Advance, Placed, Notices, Recorded, Observe, Sum;
    var tok := s.work[i];
    var stage := tok.phase.stage;
    var (store, after) := Advance(cfg, tok.key, s.store, stage, wx);
    var s' := State(s.store, Placed(s.work, i, after, if Fires(stage, after) then |s.log| else tok.cause),
                    s.log + Recorded(s, tok, stage, after, wx));
    RecordedOwn(s, tok, stage, after, wx, v);
    ObserveOwn(cfg, s', Touched(tok.key, stage), store, OriginOf(s, tok, stage), v);
  }

  lemma OutsideIsNotOwn(cfg: Config, s: State, a: Action, v: Key)
    requires !a.Work?
    ensures Sum(OwnAt(v), Step(cfg, s, a).log) == Sum(OwnAt(v), s.log)
  {
    if FromEnvironment(a) {
      SumSnoc(OwnAt(v), s.log, Admission(a.key, FromOutside));
    }
  }

  // ---------- a step of the reconcile of `v` itself ----------

  /** After it, only this reconcile can be running for `v`. */
  lemma OnlyThisRuns(cfg: Config, s: State, i: nat, wx: Weather)
    requires OneTurn(s.work) && Enabled(cfg, s, Work(i, wx))
    ensures var v, t := s.work[i].key, Step(cfg, s, Work(i, wx));
            forall j | 0 <= j < |t.work| && t.work[j].key == v && t.work[j].phase.Running? ::
              t.work[j].phase == Running(Advance(cfg, v, s.store, s.work[i].phase.stage, wx).1)
  {
    hide Step, Advance;
    var v, t := s.work[i].key, Step(cfg, s, Work(i, wx));
    forall j | 0 <= j < |t.work| && t.work[j].key == v && t.work[j].phase.Running?
      ensures t.work[j].phase == Running(Advance(cfg, v, s.store, s.work[i].phase.stage, wx).1)
    {
      RunningOrigin(cfg, s, Work(i, wx), j);
    }
  }

  /** What one step does to the potential, given the stage before and after and the stored copies. */
  lemma StageSlack(cfg: Config, v: Key, store: Store, stage: Stage, wx: Weather)
    requires cfg.lastObserved !in cfg.kinds && Possible(cfg, wx) && ClearsAnnotated(cfg, Running(stage))
    requires v in store && Settled(store[v]) && DaemonSetTransitioning(store[v]) && !stage.Triggering?
    ensures var (store', after) := Advance(cfg, v, store, stage, wx);
            && v in store' && store'[v].rollout == store[v].rollout
            && (Armed(cfg, Running(after)) ==> Armed(cfg, Running(stage)) && store' == store)
            && (SetsMark(cfg, Running(after)) ==> store' == store && !HasMark(cfg, store[v]))
            && (!stage.Clearing? && HasMark(cfg, store[v]) ==> HasMark(cfg, store'[v]))
            && (SetsMark(cfg, Running(stage)) && store'[v] != store[v] ==> HasMark(cfg, store'[v]))
            && (SetsMark(cfg, Running(stage)) ==> !SetsMark(cfg, Running(after)) && !Armed(cfg, Running(after)))
  {
    hide Check, Marked, Unmarked, DaemonSetTransitioning, Stable;
    BookkeepingIsMetadata(cfg, v, store, stage, wx);
    match stage
    case Marking(read) =>
      TransitionKept(store[v], Advance(cfg, v, store, stage, wx).0[v]);
    case Checking(read) =>
      CheckShape(cfg, v, store, read, wx);
      if Check(cfg, v, store, read, wx).Clearing? {
        CheckFires(cfg, v, store, read, wx);
      }
    case _ =>
  }

  lemma TransitionKept(before: Object, after: Object)
    requires Settled(before) && DaemonSetTransitioning(before) && after == before.(annotations := after.annotations)
    ensures DaemonSetTransitioning(after) && !Stable(after) && !Stable(before)
  {
  }

  lemma RestartSlack(cfg: Config, v: Key, store: Store, stage: Stage, wx: Weather)
    requires cfg.lastObserved !in cfg.kinds && Possible(cfg, wx) && stage.Triggering? && v in store
    ensures var (store', after) := Advance(cfg, v, store, stage, wx);
            && v in store' && store'[v].rollout == store[v].rollout && store'[v].annotations == store[v].annotations
            && !Armed(cfg, Running(after)) && !SetsMark(cfg, Running(after))
  {
    hide Stamped;
    if |stage.oks| < |stage.targets| && stage.targets[|stage.oks|] in store {
      var w := store[stage.targets[|stage.oks|]];
      StampedIs(RESTART_KEY, wx.now, w, w);
    }
  }

  /** A step of the reconcile of `v` pays for the admission it causes. */
  lemma OwnStepPays(cfg: Config, s: State, i: nat, wx: Weather)
    requires cfg.lastObserved !in cfg.kinds && Enabled(cfg, s, Work(i, wx))
    requires OneTurn(s.work) && SettledAt(s.store, s.work[i].key) && ClearsAnnotated(cfg, s.work[i].phase)
    ensures var v, t := s.work[i].key, Step(cfg, s, Work(i, wx));
            Slack(cfg, t, v) + (if Noticed(cfg, s, i, wx) then 1 else 0) <= Slack(cfg, s, v)
  {
    hide Step, Advance, Armed, SetsMark, HasMark, Settled, Notices, DaemonSetTransitioning;
    var v, stage, t := s.work[i].key, s.work[i].phase.stage, Step(cfg, s, Work(i, wx));
    var (store, after) := Advance(cfg, v, s.store, stage, wx);
    assert s.work[i].phase == Running(stage);
    WorkStore(cfg, s, i, wx);
    assert t.store == store;
    AdvanceKeepsKeys(cfg, v, s.store, stage, wx);
    OnlyThisRuns(cfg, s, i, wx);
    OnlyThisCounts(cfg, t.work, v, after);
    if v in s.store {
      AdvanceWritesOwnKeys(cfg, v, s.store, stage, wx);
      assert OnlyOwnKeys(cfg, s.store[v], store[v]);
      TransitionOf(s.store[v], store[v]);
      if Noticed(cfg, s, i, wx) {
        NoticedInTransition(cfg, s, i, wx);
      }
      if InTransition(s, v) {
        if stage.Triggering? {
          RestartSlack(cfg, v, s.store, stage, wx);
          MarkOf(cfg, s.store[v], store[v]);
        } else {
          StageSlack(cfg, v, s.store, stage, wx);
          SlackOfStage(cfg, s, i, v);
          UnchangedIsUnnoticed(cfg, s.store[v]);
          ClearingIsArmed(cfg, stage);
        }
      }
    }
  }

  lemma OnlyThisCounts(cfg: Config, work: seq<Token>, v: Key, stage: Stage)
    requires forall j | 0 <= j < |work| && work[j].key == v && work[j].phase.Running? :: work[j].phase == Running(stage)
    ensures SomeArmed(cfg, work, v) ==> Armed(cfg, Running(stage))
    ensures SomeSetsMark(cfg, work, v) ==> SetsMark(cfg, Running(stage))
  {
    hide Stable;
  }

  lemma TransitionOf(before: Object, after: Object)
    requires before.rollout == after.rollout
    ensures DaemonSetTransitioning(before) <==> DaemonSetTransitioning(after)
  {
  }

  lemma MarkOf(cfg: Config, before: Object, after: Object)
    requires before.annotations == after.annotations
    ensures HasMark(cfg, before) <==> HasMark(cfg, after)
  {
  }

  lemma UnchangedIsUnnoticed(cfg: Config, w: Object)
    ensures !Notices(cfg, w, w)
  {
  }

  lemma ClearingIsArmed(cfg: Config, stage: Stage)
    ensures stage.Clearing? ==> Armed(cfg, Running(stage))
  {
  }

  lemma SlackOfStage(cfg: Config, s: State, i: nat, v: Key)
    requires i < |s.work| && s.work[i].key == v && InTransition(s, v)
    ensures Armed(cfg, s.work[i].phase) ==> Slack(cfg, s, v) == 2
    ensures SetsMark(cfg, s.work[i].phase) ==> Slack(cfg, s, v) >= 1
    ensures !HasMark(cfg, s.store[v]) ==> Slack(cfg, s, v) >= 1
  {
    hide Armed, SetsMark, HasMark, DaemonSetTransitioning;
  }

  // ---------- every step ----------

  /** The reconcile of another workload can restart `v`, but leaves its metadata and status alone. */
  lemma OthersKeepMetadata(cfg: Config, u: Key, store: Store, stage: Stage, wx: Weather, v: Key)
    requires Possible(cfg, wx) && u != v && v in store
    ensures var store' := Advance(cfg, u, store, stage, wx).0;
            v in store' && store'[v].rollout == store[v].rollout && store'[v].annotations == store[v].annotations
  {
    hide Check, Marked, Unmarked, Stamped;
    if stage.Triggering? && |stage.oks| < |stage.targets| && stage.targets[|stage.oks|] in store {
      var w := store[stage.targets[|stage.oks|]];
      StampedIs(RESTART_KEY, wx.now, w, w);
    }
  }

  lemma OtherStepsPay(cfg: Config, s: State, a: Action, v: Key)
    requires !(FromEnvironment(a) && a.key == v) && !(a.Work? && Enabled(cfg, s, a) && s.work[a.i].key == v)
    ensures Slack(cfg, Step(cfg, s, a), v) <= Slack(cfg, s, v)
  {
    hide Advance, WorkOn, Slack, DaemonSetTransitioning;
    OthersKeepRunning(cfg, s, a, v);
    var t := Step(cfg, s, a);
    if v in s.store {
      if a.Work? && Enabled(cfg, s, a) {
        WorkStore(cfg, s, a.i, a.wx);
        OthersKeepMetadata(cfg, s.work[a.i].key, s.store, s.work[a.i].phase.stage, a.wx, v);
      }
      TransitionOf(s.store[v], t.store[v]);
    } else {
      OthersAddNothing(cfg, s, a, v);
    }
    SlackKept(cfg, s, t, v);
  }

  lemma OthersAddNothing(cfg: Config, s: State, a: Action, v: Key)
    requires !(FromEnvironment(a) && a.key == v) && v !in s.store
    ensures v !in Step(cfg, s, a).store
  {
    hide Advance, WorkOn;
    if a.Work? && Enabled(cfg, s, a) {
      WorkStore(cfg, s, a.i, a.wx);
      AdvanceKeepsKeys(cfg, s.work[a.i].key, s.store, s.work[a.i].phase.stage, a.wx);
    }
  }

  lemma StepPays(cfg: Config, s: State, a: Action, v: Key)
    requires cfg.lastObserved !in cfg.kinds && OneTurn(s.work) && SettledAt(s.store, v) && AllClearAnnotated(cfg, s.work)
    ensures var t := Step(cfg, s, a);
            Sum(OwnAt(v), t.log) + Slack(cfg, t, v) <= Sum(OwnAt(v), s.log) + Slack(cfg, s, v) + 2 * OutsideAt(v)(a)
  {
    hide Step, Noticed, OneTurn, SettledAt, Sum, Enabled;
    if a.Work? && Enabled(cfg, s, a) {
      WorkEnabled(cfg, s, a.i, a.wx);
      OwnCounted(cfg, s, a.i, a.wx, v);
      if s.work[a.i].key == v {
        OwnStepPays(cfg, s, a.i, a.wx);
      } else {
        OtherStepsPay(cfg, s, a, v);
      }
    } else {
      NotWorked(cfg, s, a, v);
      if !(FromEnvironment(a) && a.key == v) {
        OtherStepsPay(cfg, s, a, v);
      }
    }
  }

  lemma WorkEnabled(cfg: Config, s: State, i: nat, wx: Weather)
    requires Enabled(cfg, s, Work(i, wx))
    ensures i < |s.work|
  {
  }

  lemma NotWorked(cfg: Config, s: State, a: Action, v: Key)
    requires !(a.Work? && Enabled(cfg, s, a))
    ensures Sum(OwnAt(v), Step(cfg, s, a).log) == Sum(OwnAt(v), s.log)
  {
    if !a.Work? {
      OutsideIsNotOwn(cfg, s, a, v);
    }
  }

  // ---------- every run ----------

  lemma OwnKeysKeepSettled(cfg: Config, before: Object, after: Object)
    requires OnlyOwnKeys(cfg, before, after) && Settled(before)
    ensures Settled(after)
  {
  }

  lemma StepKeepsSettled(cfg: Config, s: State, a: Action, v: Key)
    requires cfg.lastObserved !in cfg.kinds && AllClearAnnotated(cfg, s.work) && SettledAt(s.store, v)
    requires (a.Update? || a.Create?) && a.key == v ==> Settled(a.object')
    ensures SettledAt(Step(cfg, s, a).store, v)
  {
    hide WorkOn, Settled, Reacts, OnlyOwnKeys;
    var t := Step(cfg, s, a);
    if !FromEnvironment(a) {
      OwnStepWritesOwnKeys(cfg, s, a);
      if v in t.store {
        OwnKeysKeepSettled(cfg, s.store[v], t.store[v]);
      }
    }
  }

  lemma {:induction false} RunsKeepSettled(cfg: Config, s: State, run: seq<Action>, v: Key)
    requires cfg.lastObserved !in cfg.kinds && Fresh(s) && SettledAt(s.store, v) && SettledActions(run, v)
    ensures SettledAt(Exec(cfg, s, run).store, v)
  {
    hide Step, Settled;
    if run != [] {
      var before := run[..|run| - 1];
      RunsKeepSettled(cfg, s, before, v);
      RunsClearAnnotated(cfg, s, before);
      assert run[|run| - 1] in run;
      StepKeepsSettled(cfg, Exec(cfg, s, before), run[|run| - 1], v);
    }
  }

  /**
   In every run in which nobody stores a copy of a workload that is stable and in transition at
   once, the operator's own writes to that workload are admitted at most twice for every action from
   outside on it, and once more if it was there at the start; whatever is restarted, retried or
   delayed meanwhile, and whatever other workloads are like.
   */
  lemma {:induction false} OwnWritesArePaidFor(cfg: Config, s: State, run: seq<Action>, v: Key)
    requires cfg.lastObserved !in cfg.kinds && Fresh(s) && SettledAt(s.store, v) && SettledActions(run, v)
    ensures Sum(OwnAt(v), Exec(cfg, s, run).log) + Slack(cfg, Exec(cfg, s, run), v)
              <= (if v in s.store then 1 else 0) + 2 * Sum(OutsideAt(v), run)
  {
    hide Step, Slack, SettledAt, SettledActions;
    if run == [] {
      FreshSlack(cfg, s, v);
    } else {
      var before := run[..|run| - 1];
      SettledBefore(run, v);
      OwnWritesArePaidFor(cfg, s, before, v);
      RunsKeepSettled(cfg, s, before, v);
      RunsClearAnnotated(cfg, s, before);
      RunsKeepOneTurn(cfg, s, before);
      StepPays(cfg, Exec(cfg, s, before), run[|run| - 1], v);
    }
  }

  lemma SettledBefore(run: seq<Action>, v: Key)
    requires SettledActions(run, v) && run != []
    ensures SettledActions(run[..|run| - 1], v)
  {
  }

  lemma FreshSlack(cfg: Config, s: State, v: Key)
    requires Fresh(s)
    ensures Slack(cfg, s, v) <= if v in s.store then 1 else 0
  {
  }
}
