/**
 One reconcile, cut at its accesses to the cluster (internal/controller/base_reconciler.go,
 `ReconcileWorkload`, and the `Reconcile` methods around it). Other controllers and users may act
 between two steps; within a step the cluster is read or written once.
 */
module Job {
  import opened Text
  import opened Refs
  import opened Extraction
  import opened Objects
  import opened Patches
  import opened Guard

  /** How a reconcile ends. */
  datatype End =
    | Gone
    | FetchFailed
    | MarkFailed
    | BadReference
    | NoTargets
    | Blocked
    | Unstable(after: int)
    | Fired(targets: seq<Key>, oks: seq<bool>)

  /** Between two steps: what is to be done next, and the copy of the workload in memory. */
  datatype Stage =
    | Fetching
    | Marking(read: Object)
    | Checking(read: Object)
    | Clearing(read: Object, targets: seq<Key>)
    | Triggering(targets: seq<Key>, oks: seq<bool>)
    | Done(end: End)

  /** What one step does not control: API failures, the map iteration order, the time. */
  datatype Weather = Weather(ok: bool, order: seq<string>, now: string)

  ghost predicate Possible(cfg: Config, wx: Weather) {
    IsOrder(wx.order, cfg.kinds)
  }

  /** The weather of a step that extracts nothing, where the iteration order is of no interest. */
  ghost function Fair(cfg: Config, ok: bool, now: string): (wx: Weather)
    ensures Possible(cfg, wx) && wx.ok == ok && wx.now == now
  {
    Weather(ok, SomeOrder(cfg.kinds.Keys), now)
  }

  datatype Outcome = Result(requeueAfter: int) | Error

  function OutcomeOf(end: End): Outcome {
    match end
    case FetchFailed => Error
    case MarkFailed => Error
    case BadReference => Error
    case Unstable(after) => Result(after)
    case _ => Result(0)
  }

  /** The work queue calls the reconciler again after an error or a positive delay only. */
  predicate Wakes(out: Outcome) {
    out.Error? || out.requeueAfter > 0
  }

  function RequeueDuration(cfg: Config, w: Workload): int {
    if cfg.requeueAfter !in w.annotations || TrimSpace(w.annotations[cfg.requeueAfter]) == "" then cfg.requeueDefault
    else match cfg.parseDuration(w.annotations[cfg.requeueAfter])
      case Some(d) => d
      case None => cfg.requeueDefault
  }

  /**
   With the default at least one second (here: positive), a delay that never wakes the reconciler up
   again comes exactly from an annotation that says so.
   */
  lemma DelayIsNotPositiveExactly(cfg: Config, w: Workload)
    requires cfg.requeueDefault > 0
    ensures RequeueDuration(cfg, w) <= 0 <==>
              && cfg.requeueAfter in w.annotations
              && TrimSpace(w.annotations[cfg.requeueAfter]) != ""
              && cfg.parseDuration(w.annotations[cfg.requeueAfter]).Some?
              && cfg.parseDuration(w.annotations[cfg.requeueAfter]).value <= 0
  {
  }

  /** The check step: extraction, cycle guard and stability test on the copy in memory. */
  ghost function Check(cfg: Config, v: Key, store: Store, read: Object, wx: Weather): Stage
    requires Possible(cfg, wx)
  {
    GatherAnyOrder(wx.order, cfg.kinds, read.annotations, v.namespace);
    match Gather(wx.order, cfg.kinds, read.annotations, v.namespace)
    case Failure(_) => Done(BadReference)
    case Success(targets) =>
      if targets == [] then Done(NoTargets)
      else if !(wx.ok && Passes(GraphOf(cfg, store), ID(v), targets)) then Done(Blocked)
      else if !Stable(read) then Done(Unstable(RequeueDuration(cfg, read)))
      else Clearing(read, targets)
  }

  /** The next step of the reconcile of `v`; nothing happens once it is done. */
  ghost function Advance(cfg: Config, v: Key, store: Store, stage: Stage, wx: Weather): (Store, Stage)
    requires Possible(cfg, wx)
  {
    match stage
    case Fetching =>
      (store, if !wx.ok then Done(FetchFailed) else if v in store then Marking(store[v]) else Done(Gone))
    case Marking(read) =>
      if cfg.lastObserved in read.annotations then
        (store, Checking(read))
      else if wx.ok && v in store then
        var written := Marked(cfg.lastObserved, wx.now, read, store[v]);
        (store[v := written], Checking(written))
      else
        (store, Done(MarkFailed))
    case Checking(read) =>
      (store, Check(cfg, v, store, read, wx))
    case Clearing(read, targets) =>
      (if wx.ok && v in store then store[v := Unmarked(cfg.lastObserved, read, store[v])] else store,
       Triggering(targets, []))
    case Triggering(targets, oks) =>
      if |oks| >= |targets| then
        (store, Done(Fired(targets, oks)))
      else
        var t := targets[|oks|];
        var ok := wx.ok && t in store;
        var oks' := oks + [ok];
        (if ok then store[t := Restarted(wx.now, store[t], store[t])] else store,
         if |oks'| == |targets| then Done(Fired(targets, oks')) else Triggering(targets, oks'))
    case Done(_) =>
      (store, stage)
  }

  /** The stage after a step of marking and, in whatever cluster others have left by then, the check. */
  ghost function MarkedAndChecked(cfg: Config, v: Key, stage: Stage, store: Store, wx: Weather, store': Store, wx': Weather): Stage
    requires Possible(cfg, wx) && Possible(cfg, wx')
  {
    Advance(cfg, v, store', Advance(cfg, v, store, stage, wx).1, wx').1
  }

  /**
   The mark does not gate the restarts: a reconcile that finds it and one that has to set it come,
   by the end of the check, to the same end or to the same targets. So a second reconcile of a
   workload that is still stable fires again.
   */
  lemma MarkDoesNotGateRestarts(cfg: Config, v: Key, read: Object, mark: string,
                                bare: Store, wx: Weather, marked: Store, wx1: Weather, store': Store, wx': Weather)
    requires cfg.lastObserved !in cfg.kinds && cfg.lastObserved != cfg.requeueAfter
    requires Possible(cfg, wx) && Possible(cfg, wx1) && Possible(cfg, wx')
    requires cfg.lastObserved !in read.annotations && v in bare && bare[v] == read && wx.ok
    ensures var a := MarkedAndChecked(cfg, v, Marking(read), bare, wx, store', wx');
            var found := read.(annotations := read.annotations[cfg.lastObserved := mark]);
            var b := MarkedAndChecked(cfg, v, Marking(found), marked, wx1, store', wx');
            if a.Clearing? then b.Clearing? && b.targets == a.targets else a.Done? && b == a
  {
    hide Check, Marked;
    MarkedIs(cfg.lastObserved, wx.now, read, read);
    CheckIgnoresMark(cfg, v, store', read, wx', wx.now);
    CheckIgnoresMark(cfg, v, store', read, wx', mark);
    CheckEnds(cfg, v, store', read, wx');
  }

  lemma CheckEnds(cfg: Config, v: Key, store: Store, read: Object, wx: Weather)
    requires Possible(cfg, wx)
    ensures Check(cfg, v, store, read, wx).Clearing? || Check(cfg, v, store, read, wx).Done?
  {
  }

  lemma CheckIgnoresMark(cfg: Config, v: Key, store: Store, read: Object, wx: Weather, now: string)
    requires Possible(cfg, wx) && cfg.lastObserved !in cfg.kinds && cfg.lastObserved != cfg.requeueAfter
    ensures var a := Check(cfg, v, store, read, wx);
            var b := Check(cfg, v, store, read.(annotations := read.annotations[cfg.lastObserved := now]), wx);
            if a.Clearing? then b.Clearing? && b.targets == a.targets else b == a
  {
    hide Gather, Passes, GraphOf, Deps, Stable, RequeueDuration, TrimSpace;
    GatherAnyOrder(wx.order, cfg.kinds, read.annotations, v.namespace);
    DelayIgnoresMark(cfg, read, now);
    StabilityIgnoresAnnotations(read, read.annotations[cfg.lastObserved := now]);
    GatherIgnoresOtherKeys(wx.order, cfg.kinds, read.annotations, read.annotations[cfg.lastObserved := now], v.namespace);
  }

  lemma DelayIgnoresMark(cfg: Config, w: Workload, now: string)
    requires cfg.lastObserved != cfg.requeueAfter
    ensures RequeueDuration(cfg, w.(annotations := w.annotations[cfg.lastObserved := now])) == RequeueDuration(cfg, w)
  {
  }

  lemma StabilityIgnoresAnnotations(w: Object, annotations: Annotations)
    ensures Stable(w.(annotations := annotations)) == Stable(w)
  {
  }

  // ---------- retries ----------

  /** The stage of a reconcile whose steps meet whatever cluster others have left by then. */
  ghost function StageAfter(cfg: Config, v: Key, stage: Stage, steps: seq<(Store, Weather)>): Stage
    requires forall step | step in steps :: Possible(cfg, step.1)
  {
    if steps == [] then stage
    else
      var n := |steps| - 1;
      Advance(cfg, v, steps[n].0, StageAfter(cfg, v, stage, steps[..n]), steps[n].1).1
  }

  /** The restart that a step attempts, if it attempts one, with its success. */
  ghost function AttemptIn(stage: Stage, store: Store, wx: Weather): seq<(Key, bool)> {
    if stage.Triggering? && |stage.oks| < |stage.targets|
    then [(stage.targets[|stage.oks|], wx.ok && stage.targets[|stage.oks|] in store)]
    else []
  }

  /** All restarts attempted in these steps, in order. */
  ghost function AttemptsIn(cfg: Config, v: Key, stage: Stage, steps: seq<(Store, Weather)>): seq<(Key, bool)>
    requires forall step | step in steps :: Possible(cfg, step.1)
  {
    if steps == [] then []
    else
      var n := |steps| - 1;
      AttemptsIn(cfg, v, stage, steps[..n]) + AttemptIn(StageAfter(cfg, v, stage, steps[..n]), steps[n].0, steps[n].1)
  }

  /** These restarts are those of the first targets, once each, with the successes remembered. */
  ghost predicate AreFirst(made: seq<(Key, bool)>, targets: seq<Key>, oks: seq<bool>) {
    |made| == |oks| <= |targets| && forall i | 0 <= i < |made| :: made[i] == (targets[i], oks[i])
  }

  ghost predicate Accounts(stage: Stage, made: seq<(Key, bool)>) {
    match stage
    case Clearing(_, targets) => targets != [] && made == []
    case Triggering(targets, oks) => |oks| < |targets| && AreFirst(made, targets, oks)
    case Done(Fired(targets, oks)) => |oks| == |targets| > 0 && AreFirst(made, targets, oks)
    case _ => made == []
  }

  lemma StepAccounts(cfg: Config, v: Key, store: Store, stage: Stage, wx: Weather, made: seq<(Key, bool)>)
    requires Possible(cfg, wx) && Accounts(stage, made)
    ensures Accounts(Advance(cfg, v, store, stage, wx).1, made + AttemptIn(stage, store, wx))
  {
    hide Check, Marked, Unmarked, Restarted;
    if stage.Checking? {
      ClearingHasTargets(cfg, v, store, stage.read, wx);
    }
  }

  lemma {:induction false} StagesAccount(cfg: Config, v: Key, steps: seq<(Store, Weather)>)
    requires forall step | step in steps :: Possible(cfg, step.1)
    ensures Accounts(StageAfter(cfg, v, Fetching, steps), AttemptsIn(cfg, v, Fetching, steps))
  {
    hide Advance, Accounts, AttemptIn, Possible;
    if steps == [] {
      NothingYet();
    } else {
      var n := |steps| - 1;
      StagesAccount(cfg, v, steps[..n]);
      StepAccounts(cfg, v, steps[n].0, StageAfter(cfg, v, Fetching, steps[..n]), steps[n].1,
                   AttemptsIn(cfg, v, Fetching, steps[..n]));
    }
  }

  lemma NothingYet()
    ensures Accounts(Fetching, [])
  {
  }

  lemma ClearingHasTargets(cfg: Config, v: Key, store: Store, read: Object, wx: Weather)
    requires Possible(cfg, wx)
    ensures var after := Check(cfg, v, store, read, wx);
            (after.Clearing? && after.targets != []) || (after.Done? && !after.end.Fired?)
  {
  }

  /**
   Retries never repeat restarts, whatever others do to the cluster between the steps: a reconcile
   whose outcome makes the queue call it again has attempted no restart in any of its steps, and one
   that has attempted any ends having attempted each of its targets exactly once, in order. At every
   moment in between, what it has attempted is what its stage remembers.
   */
  lemma {:induction false} RetriesNeverRepeatRestarts(cfg: Config, v: Key, steps: seq<(Store, Weather)>)
    requires forall step | step in steps :: Possible(cfg, step.1)
    ensures var stage, made := StageAfter(cfg, v, Fetching, steps), AttemptsIn(cfg, v, Fetching, steps);
            && (made != [] ==>
                  && (stage.Triggering? || (stage.Done? && stage.end.Fired?))
                  && var (targets, oks) := if stage.Done? then (stage.end.targets, stage.end.oks)
                                           else (stage.targets, stage.oks);
                     AreFirst(made, targets, oks))
            && (stage.Done? && Wakes(OutcomeOf(stage.end)) ==> made == [])
            && (stage.Done? && stage.end.Fired? ==> |made| == |stage.end.targets|)
  {
    StagesAccount(cfg, v, steps);
  }
}
