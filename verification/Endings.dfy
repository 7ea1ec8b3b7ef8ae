/**
 How a reconcile may end: for each step, what holds of the copy in memory and of the cluster exactly
 when the step ends the reconcile in a certain way, and with which outcome. Everything said about
 giving up, waking up and firing rests on these facts.
 */
module Endings {
  import opened Wrappers
  import opened Text
  import opened Refs
  import opened Extraction
  import opened Objects
  import opened Guard
  import opened Job
  import opened Justified

  // ---------- the delay of a retry ----------

  /** The workload's own requeue annotation asks for this delay. */
  ghost predicate AsksFor(cfg: Config, w: Workload, delay: int) {
    && cfg.requeueAfter in w.annotations
    && TrimSpace(w.annotations[cfg.requeueAfter]) != ""
    && cfg.parseDuration(w.annotations[cfg.requeueAfter]) == Some(delay)
  }

  /** The delay asked for or, if none is (no annotation, a blank one, or one that does not parse), the default. */
  ghost predicate IsDelay(cfg: Config, w: Workload, delay: int) {
    AsksFor(cfg, w, delay) || (delay == cfg.requeueDefault && forall d :: !AsksFor(cfg, w, d))
  }

  lemma DelayIs(cfg: Config, w: Workload)
    ensures forall d :: IsDelay(cfg, w, d) <==> d == RequeueDuration(cfg, w)
  {
    hide TrimSpace;
    var delay := RequeueDuration(cfg, w);
    assert AsksFor(cfg, w, delay) || forall d :: !AsksFor(cfg, w, d);
  }

  // ---------- what the check finds ----------

  /** The copy names targets, and all references can be read. */
  ghost predicate HasTargets(cfg: Config, v: Key, read: Object) {
    DepsOf(cfg, v, read).Success? && DepsOf(cfg, v, read).value != []
  }

  /** Every Get of the check succeeds, and the guard finds nothing. */
  ghost predicate Cleared(cfg: Config, v: Key, store: Store, read: Object, wx: Weather)
    requires HasTargets(cfg, v, read)
  {
    wx.ok && Passes(GraphOf(cfg, store), ID(v), DepsOf(cfg, v, read).value)
  }

  /** The check ends in each of its ways exactly when the copy and the cluster are so. */
  lemma CheckExactly(cfg: Config, v: Key, store: Store, read: Object, wx: Weather)
    requires Possible(cfg, wx)
    ensures var after, deps := Check(cfg, v, store, read, wx), DepsOf(cfg, v, read);
            var cleared := HasTargets(cfg, v, read) && Cleared(cfg, v, store, read, wx);
            && (after == Job.Done(BadReference) <==> deps.Failure?)
            && (after == Job.Done(NoTargets) <==> deps == Success([]))
            && (after == Job.Done(Blocked) <==> HasTargets(cfg, v, read) && !cleared)
            && (forall d :: after == Job.Done(Unstable(d)) <==> cleared && !RolledOut(read) && IsDelay(cfg, read, d))
            && (after.Clearing? <==> cleared && RolledOut(read))
            && (after.Clearing? ==> after.read == read && multiset(after.targets) == multiset(deps.value))
  {
    hide Gather, Deps, Passes, GraphOf, Stable, RolledOut, RequeueDuration, IsDelay;
    GatherAnyOrder(wx.order, cfg.kinds, read.annotations, v.namespace);
    StableExactly(read);
    DelayIs(cfg, read);
    var r, deps := Gather(wx.order, cfg.kinds, read.annotations, v.namespace), DepsOf(cfg, v, read);
    if r.Success? {
      PassesPermuted(GraphOf(cfg, store), ID(v), r.value, deps.value);
      assert |multiset(r.value)| == |r.value| && |multiset(deps.value)| == |deps.value|;
    }
  }

  /**
   For keys as Kubernetes admits them: the check blocks exactly if the copy has targets and a Get
   fails, or some walk from the workload meets a workload twice or one that is missing or unreadable.
   */
  lemma BlockedExactly(cfg: Config, v: Key, store: Store, read: Object, wx: Weather)
    requires Possible(cfg, wx) && Plain(v) && PlainStore(store)
    ensures Check(cfg, v, store, read, wx) == Job.Done(Blocked) <==>
              && HasTargets(cfg, v, read)
              && var g := GraphOf(cfg, store);
                 (!wx.ok || exists w :: IsWalk(g, v, DepsOf(cfg, v, read).value, w) && !Sound(g, w))
  {
    hide Check, Passes, IsWalk, Sound, GraphOf;
    CheckExactly(cfg, v, store, read, wx);
    if HasTargets(cfg, v, read) {
      var order := SomeOrder(cfg.kinds.Keys);
      OrderKeys(order, cfg.kinds);
      GatherAccepted(order, cfg.kinds, read.annotations, v.namespace);
      StoresArePlain(cfg, store);
      GuardIsExact(GraphOf(cfg, store), v, DepsOf(cfg, v, read).value);
    }
  }

  /** One of these cases applies, and the delay is determined. */
  lemma CheckEnding(cfg: Config, v: Key, store: Store, read: Object, wx: Weather)
    requires Possible(cfg, wx)
    ensures var after, deps := Check(cfg, v, store, read, wx), DepsOf(cfg, v, read);
            var has := HasTargets(cfg, v, read);
            && IsDelay(cfg, read, RequeueDuration(cfg, read))
            && (forall d :: IsDelay(cfg, read, d) ==> d == RequeueDuration(cfg, read))
            && (has ==> deps.Success? && deps != Success([]))
            && (!has ==> deps.Failure? || deps == Success([]))
            && if deps.Failure? then after == Job.Done(BadReference)
               else if !has then after == Job.Done(NoTargets)
               else if !Cleared(cfg, v, store, read, wx) then after == Job.Done(Blocked)
               else if RolledOut(read) then after.Clearing?
               else after == Job.Done(Unstable(RequeueDuration(cfg, read)))
  {
    hide Check, RolledOut, IsDelay, Cleared, DepsOf, RequeueDuration;
    CheckExactly(cfg, v, store, read, wx);
    DelayIs(cfg, read);
    var deps := DepsOf(cfg, v, read);
    assert deps.Success? && deps.value == [] ==> deps == Success([]);
  }

  // ---------- how steps end ----------

  /** The step fires: a rolled-out copy with targets that the guard passes. */
  ghost predicate FiresOn(cfg: Config, v: Key, store: Store, stage: Stage, wx: Weather) {
    && stage.Checking? && HasTargets(cfg, v, stage.read)
    && Cleared(cfg, v, store, stage.read, wx) && RolledOut(stage.read)
  }

  /**
   The step ends the reconcile for good, without a restart: the workload is not stored, names no
   targets, is blocked, or is not rolled out while its delay is not positive.
   */
  ghost predicate GivesUp(cfg: Config, v: Key, store: Store, stage: Stage, wx: Weather) {
    || (stage.Fetching? && wx.ok && v !in store)
    || (stage.Checking? && DepsOf(cfg, v, stage.read) == Success([]))
    || (stage.Checking? && HasTargets(cfg, v, stage.read) && !Cleared(cfg, v, store, stage.read, wx))
    || (&& stage.Checking? && HasTargets(cfg, v, stage.read) && Cleared(cfg, v, store, stage.read, wx)
        && !RolledOut(stage.read) && exists d :: d <= 0 && IsDelay(cfg, stage.read, d))
  }

  /** The step fails: the fetch or the mark at the API, or the workload is gone by then, or a reference is malformed. */
  ghost predicate Fails(cfg: Config, v: Key, store: Store, stage: Stage, wx: Weather) {
    || (stage.Fetching? && !wx.ok)
    || (stage.Marking? && cfg.lastObserved !in stage.read.annotations && !(wx.ok && v in store))
    || (stage.Checking? && DepsOf(cfg, v, stage.read).Failure?)
  }

  /** The step finds a rollout that is not complete and asks to be called again, or not, after this delay. */
  ghost predicate Defers(cfg: Config, v: Key, store: Store, stage: Stage, wx: Weather, delay: int) {
    && stage.Checking? && HasTargets(cfg, v, stage.read) && Cleared(cfg, v, store, stage.read, wx)
    && !RolledOut(stage.read) && IsDelay(cfg, stage.read, delay)
  }

  /**
   Before it fires, a reconcile ends in an error exactly if the step fails; it ends with a delay
   exactly if the rollout is not complete, and the delay is the one the workload asks for or the
   default; it ends for good exactly if it gives up; it fires exactly on a complete rollout.
   */
  lemma StepEndsExactly(cfg: Config, v: Key, store: Store, stage: Stage, wx: Weather)
    requires Possible(cfg, wx) && (stage.Fetching? || stage.Marking? || stage.Checking?)
    ensures var after := Advance(cfg, v, store, stage, wx).1;
            && (after.Clearing? <==> FiresOn(cfg, v, store, stage, wx))
            && (after.Done? && OutcomeOf(after.end) == Error <==> Fails(cfg, v, store, stage, wx))
            && (forall d :: Defers(cfg, v, store, stage, wx, d) ==> after.Done? && OutcomeOf(after.end) == Result(d))
            && (after.Done? && !Wakes(OutcomeOf(after.end)) <==> GivesUp(cfg, v, store, stage, wx))
            && (after.Done? && Wakes(OutcomeOf(after.end)) <==>
                  Fails(cfg, v, store, stage, wx) || exists d :: d > 0 && Defers(cfg, v, store, stage, wx, d))
  {
    hide Check, RolledOut, IsDelay, Cleared, DepsOf, HasTargets;
    if stage.Checking? {
      CheckEnding(cfg, v, store, stage.read, wx);
    }
  }
}
