/**
 What one undisturbed reconcile achieves when no call to the API fails: it restarts all of the
 workload's targets, or none, and which of the two is decided by the cluster it starts from.
 */
module FullRound {
  import opened Wrappers
  import opened Refs
  import opened Extraction
  import opened Objects
  import opened Predicates
  import opened Patches
  import opened Guard
  import opened Job
  import opened Justified
  import opened Writes
  import opened Ledger
  import opened Session
  import opened Endings

  ghost predicate Calm(api: Api) {
    (forall n: nat :: !api.getFails(n)) && forall n: nat :: !api.patchFails(n)
  }

  /** The workload is stable, has targets, and the guard finds nothing. */
  ghost predicate Ripe(cfg: Config, v: Key, g: Graph, w: Object) {
    && Stable(w)
    && DepsOf(cfg, v, w).Success? && DepsOf(cfg, v, w).value != []
    && Passes(g, ID(v), DepsOf(cfg, v, w).value)
  }

  ghost predicate StampedAt(api: Api, w: Object, patch: nat) {
    Lookup(w.template.annotations, RESTART_KEY) == Some(api.clock(patch))
  }

  /** The pod template of `t` carries a time at which one of the patches from `from` to `to` was built. */
  ghost predicate StampedBetween(api: Api, store: Store, t: Key, from: nat, to: nat) {
    t in store && exists p :: from <= p < to && StampedAt(api, store[t], p)
  }

  ghost predicate StampedAll(api: Api, store: Store, targets: seq<Key>, from: nat, to: nat) {
    forall t | t in targets :: StampedBetween(api, store, t, from, to)
  }

  ghost predicate MarkedAt(cfg: Config, api: Api, w: Object, patch: nat) {
    Lookup(w.annotations, cfg.lastObserved) == Some(api.clock(patch))
  }

  /** `x` carries the mark that `w` had or, if it had none, the time at which one of these patches was built. */
  ghost predicate MarkFrom(cfg: Config, api: Api, w: Object, x: Object, from: nat, to: nat) {
    if cfg.lastObserved in w.annotations then Lookup(x.annotations, cfg.lastObserved) == Lookup(w.annotations, cfg.lastObserved)
    else exists p :: from <= p < to && MarkedAt(cfg, api, x, p)
  }

  /** What the check looks at is the same in both copies. */
  ghost predicate Alike(cfg: Config, v: Key, w: Object, read: Object) {
    && DepsOf(cfg, v, read) == DepsOf(cfg, v, w)
    && (RolledOut(read) <==> RolledOut(w))
    && (cfg.lastObserved != cfg.requeueAfter ==> forall d :: IsDelay(cfg, read, d) <==> IsDelay(cfg, w, d))
  }

  /** The outcome of a reconcile that does not fire. */
  ghost predicate Concludes(cfg: Config, v: Key, g: Graph, w: Object, out: Outcome) {
    if DepsOf(cfg, v, w).Failure? then out == Error
    else if !HasTargets(cfg, v, w) || !Passes(g, ID(v), DepsOf(cfg, v, w).value) then out == Result(0)
    else
      && out.Result? && !RolledOut(w)
      && (cfg.lastObserved != cfg.requeueAfter ==> IsDelay(cfg, w, out.requeueAfter))
  }

  ghost predicate OnCourse(cfg: Config, api: Api, v: Key, g: Graph, w: Object, from: nat, st: JobState) {
    && GraphOf(cfg, st.store) == g
    && from <= st.calls.patches
    && v in st.store
    && match st.stage
       case Fetching => st.store[v] == w
       case Marking(read) => st.store[v] == w && read == w
       case Checking(read) =>
         st.store[v] == read && Alike(cfg, v, w, read) && MarkFrom(cfg, api, w, read, from, st.calls.patches)
       case Clearing(read, targets) =>
         && st.store[v] == read && HasKindAnnotation(read, cfg.kinds)
         && Ripe(cfg, v, g, w) && targets != [] && SameTargets(Success(targets), DepsOf(cfg, v, w))
         && MarkFrom(cfg, api, w, read, from, st.calls.patches)
       case Triggering(targets, oks) =>
         && cfg.lastObserved !in st.store[v].annotations
         && Ripe(cfg, v, g, w) && SameTargets(Success(targets), DepsOf(cfg, v, w))
         && |oks| < |targets| && (forall i | 0 <= i < |oks| :: oks[i])
         && StampedAll(api, st.store, targets[..|oks|], from, st.calls.patches)
       case Done(end) => Finished(cfg, api, v, g, w, from, st, end)
  }

  ghost predicate Finished(cfg: Config, api: Api, v: Key, g: Graph, w: Object, from: nat, st: JobState, end: End)
    requires v in st.store
  {
    && (end.Fired? <==> Ripe(cfg, v, g, w))
    && (end.Fired? ==>
          && SameTargets(Success(end.targets), DepsOf(cfg, v, w))
          && |end.oks| == |end.targets| && (forall i | 0 <= i < |end.oks| :: end.oks[i])
          && StampedAll(api, st.store, end.targets, from, st.calls.patches)
          && cfg.lastObserved !in st.store[v].annotations)
    && (!end.Fired? ==>
          && Concludes(cfg, v, g, w, OutcomeOf(end))
          && MarkFrom(cfg, api, w, st.store[v], from, st.calls.patches))
  }

  /** The mark changes nothing that the check looks at. */
  lemma MarkedIsAlike(cfg: Config, api: Api, v: Key, w: Object, from: nat, patch: nat)
    requires cfg.lastObserved !in cfg.kinds && from <= patch && cfg.lastObserved !in w.annotations
    ensures var written := Marked(cfg.lastObserved, api.clock(patch), w, w);
            Alike(cfg, v, w, written) && MarkFrom(cfg, api, w, written, from, patch + 1)
  {
    hide Marked, IsDelay, DepsOf;
    var now := api.clock(patch);
    var written := Marked(cfg.lastObserved, now, w, w);
    MarkedIs(cfg.lastObserved, now, w, w);
    MarkKeepsDeps(cfg, v, now, w, w);
    DelayIs(cfg, w);
    DelayIs(cfg, written);
    if cfg.lastObserved != cfg.requeueAfter {
      DelayIgnoresMark(cfg, w, now);
    }
    assert MarkedAt(cfg, api, written, patch);
  }

  /** What the check concludes on a copy like `w`. */
  lemma CheckConcludes(cfg: Config, v: Key, g: Graph, w: Object, store: Store, read: Object, wx: Weather)
    requires Possible(cfg, wx) && GraphOf(cfg, store) == g && wx.ok && Alike(cfg, v, w, read)
    ensures var after := Check(cfg, v, store, read, wx);
            after.Done? ==> !after.end.Fired? && Concludes(cfg, v, g, w, OutcomeOf(after.end))
  {
    hide Check, Passes, GraphOf, RolledOut, RequeueDuration, IsDelay, DepsOf;
    CheckEnding(cfg, v, store, read, wx);
  }

  lemma CheckDecides(cfg: Config, v: Key, g: Graph, w: Object, store: Store, read: Object, wx: Weather)
    requires Possible(cfg, wx) && GraphOf(cfg, store) == g
    requires DepsOf(cfg, v, read) == DepsOf(cfg, v, w) && (Stable(read) <==> Stable(w))
    requires FoundTargets(cfg, v, read, wx) != [] ==> wx.ok
    ensures var after := Check(cfg, v, store, read, wx);
            && (after.Clearing? <==> Ripe(cfg, v, g, w))
            && (after.Clearing? ==>
                  && after.read == read && HasKindAnnotation(read, cfg.kinds)
                  && after.targets != [] && SameTargets(Success(after.targets), DepsOf(cfg, v, w)))
            && (!after.Clearing? ==> after.Done? && !after.end.Fired?)
  {
    hide Passes, GraphOf, Stable, RequeueDuration, Gather, Deps;
    GatherAnyOrder(wx.order, cfg.kinds, read.annotations, v.namespace);
    CheckShape(cfg, v, store, read, wx);
    var r := Gather(wx.order, cfg.kinds, read.annotations, v.namespace);
    if r.Success? && DepsOf(cfg, v, w).Success? {
      PassesPermuted(g, ID(v), r.value, DepsOf(cfg, v, w).value);
      assert |multiset(r.value)| == |r.value| && |multiset(DepsOf(cfg, v, w).value)| == |DepsOf(cfg, v, w).value|;
    }
  }

  lemma TriggerStamps(api: Api, store: Store, targets: seq<Key>, n: nat, from: nat, p: nat)
    requires n < |targets| && targets[n] in store && from <= p
    requires StampedAll(api, store, targets[..n], from, p)
    ensures var t := targets[n];
            StampedAll(api, store[t := Restarted(api.clock(p), store[t], store[t])], targets[..n + 1], from, p + 1)
  {
    hide Stamped;
    var t := targets[n];
    StampedIs(RESTART_KEY, api.clock(p), store[t], store[t]);
    var store' := store[t := Restarted(api.clock(p), store[t], store[t])];
    assert StampedAt(api, store'[t], p);
    assert StampedBetween(api, store', t, from, p + 1);
    var done := targets[..n + 1];
    forall u | u in done ensures StampedBetween(api, store', u, from, p + 1) {
      if u != t {
        assert u in targets[..n];
        var q :| from <= q < p && StampedAt(api, store[u], q);
        assert StampedAt(api, store'[u], q);
      }
    }
  }

  lemma StepStaysOnCourse(cfg: Config, api: Api, v: Key, g: Graph, w: Object, from: nat, st: JobState, wx: Weather)
    requires cfg.lastObserved !in cfg.kinds && Calm(api) && Possible(cfg, wx) && Fits(cfg, api, v, st, wx)
    requires OnCourse(cfg, api, v, g, w, from, st)
    ensures OnCourse(cfg, api, v, g, w, from, JobStep(cfg, api, v, st, wx))
  {
    hide Check, Ripe, DepsOf, GraphOf, Marked, Unmarked, Restarted, Alike, MarkFrom, Concludes;
    hide StampedAll, FoundTargets, WalksFrom, HasKindAnnotation;
    AdvanceKeepsGraph(cfg, v, st.store, st.stage, wx);
    match st.stage
    case Marking(read) =>
      if cfg.lastObserved in read.annotations {
        AlikeItself(cfg, api, v, w, from, st.calls.patches);
      } else {
        MarkedIsAlike(cfg, api, v, w, from, st.calls.patches);
      }
    case Checking(read) =>
      StableAlike(cfg, v, w, read);
      CheckDecides(cfg, v, g, w, st.store, read, wx);
      CheckConcludes(cfg, v, g, w, st.store, read, wx);
      MarkFromLater(cfg, api, w, read, from, st.calls.patches, Made(cfg, api, v, st, wx).patches);
    case Clearing(read, targets) =>
      ClearedLeavesNoMark(cfg, read);
      NothingStamped(api, JobStep(cfg, api, v, st, wx).store, targets, from, st.calls.patches + 1);
    case Triggering(targets, oks) =>
      RipeTargetsStored(cfg, v, g, w, st.store, targets);
      RipeTargetsAreOthers(cfg, v, g, w, targets);
      TriggerStamps(api, st.store, targets, |oks|, from, st.calls.patches);
      assert targets[..|targets|] == targets;
    case _ =>
  }

  lemma AlikeItself(cfg: Config, api: Api, v: Key, w: Object, from: nat, to: nat)
    requires cfg.lastObserved in w.annotations
    ensures Alike(cfg, v, w, w) && MarkFrom(cfg, api, w, w, from, to)
  {
  }

  lemma StableAlike(cfg: Config, v: Key, w: Object, read: Object)
    requires Alike(cfg, v, w, read)
    ensures DepsOf(cfg, v, read) == DepsOf(cfg, v, w) && (Stable(read) <==> Stable(w))
  {
    StableExactly(w);
    StableExactly(read);
  }

  lemma MarkFromLater(cfg: Config, api: Api, w: Object, x: Object, from: nat, to: nat, later: nat)
    requires MarkFrom(cfg, api, w, x, from, to) && to <= later
    ensures MarkFrom(cfg, api, w, x, from, later)
  {
  }

  lemma ClearedLeavesNoMark(cfg: Config, read: Object)
    requires cfg.lastObserved !in cfg.kinds && HasKindAnnotation(read, cfg.kinds)
    ensures cfg.lastObserved !in Unmarked(cfg.lastObserved, read, read).annotations
  {
    hide Unmarked;
    var a :| a in cfg.kinds && a in read.annotations;
    UnmarkedIs(cfg.lastObserved, read, read);
  }

  lemma RipeTargetsAreOthers(cfg: Config, v: Key, g: Graph, w: Object, targets: seq<Key>)
    requires Ripe(cfg, v, g, w) && SameTargets(Success(targets), DepsOf(cfg, v, w))
    ensures v !in targets
  {
    SameElements(targets, DepsOf(cfg, v, w).value);
    TargetsAreOthers(g, v, DepsOf(cfg, v, w).value);
  }

  lemma NothingStamped(api: Api, store: Store, targets: seq<Key>, from: nat, to: nat)
    ensures StampedAll(api, store, targets[..0], from, to)
  {
  }

  lemma RipeTargetsStored(cfg: Config, v: Key, g: Graph, w: Object, store: Store, targets: seq<Key>)
    requires Ripe(cfg, v, g, w) && GraphOf(cfg, store) == g && SameTargets(Success(targets), DepsOf(cfg, v, w))
    ensures forall t | t in targets :: t in store
  {
    SameElements(targets, DepsOf(cfg, v, w).value);
    PassingTargetsStored(g, ID(v), DepsOf(cfg, v, w).value);
    GraphKeys(cfg, store);
  }

  lemma {:induction false} StaysOnCourse(cfg: Config, api: Api, v: Key, g: Graph, w: Object, st: JobState,
                                         ws: seq<Weather>, end: JobState)
    requires cfg.lastObserved !in cfg.kinds && Calm(api) && Leads(cfg, api, v, st, ws, end)
    requires OnCourse(cfg, api, v, g, w, st.calls.patches, st)
    ensures OnCourse(cfg, api, v, g, w, st.calls.patches, end)
  {
    hide Leads, OnCourse, JobStep, Fits;
    if ws == [] {
      LeadsNowhere(cfg, api, v, st, end);
    } else {
      var mid := LeadsLast(cfg, api, v, st, ws, end);
      StaysOnCourse(cfg, api, v, g, w, st, ws[..|ws| - 1], mid);
      StepStaysOnCourse(cfg, api, v, g, w, st.calls.patches, mid, ws[|ws| - 1]);
    }
  }

  lemma LeadsNowhere(cfg: Config, api: Api, v: Key, st: JobState, end: JobState)
    requires Leads(cfg, api, v, st, [], end)
    ensures end == st
  {
  }

  /**
   When no call fails and nobody interferes, a reconcile fires if and only if the workload is rolled
   out, has targets and passes the guard. Then it restarts every one of its dependencies, each of
   which ends up with a timestamp taken during this reconcile, and the workload's mark is gone.
   Otherwise the workload carries the mark, the one it had or one of this reconcile; a malformed
   reference is an error; without targets, or if the guard finds something, there is no further
   call; and a rollout that is not complete is looked at again after the delay the workload asks
   for or the default, so for sure if none of these is zero or less.
   */
  lemma FullRoundOrNone(cfg: Config, api: Api, v: Key, store: Store, calls: Calls, ws: seq<Weather>, end: JobState)
    requires cfg.lastObserved !in cfg.kinds && Calm(api) && v in store
    requires Leads(cfg, api, v, JobState(store, Fetching, calls), ws, end) && end.stage.Done?
    ensures v in end.store
    ensures var g, w, e, deps := GraphOf(cfg, store), store[v], end.stage.end, DepsOf(cfg, v, store[v]);
            var cleared := deps.Success? && deps.value != [] && Passes(g, ID(v), deps.value);
            && (e.Fired? <==> RolledOut(w) && cleared)
            && (e.Fired? ==>
                  && multiset(e.targets) == multiset(deps.value)
                  && |e.oks| == |e.targets| && (forall i | 0 <= i < |e.oks| :: e.oks[i])
                  && (forall t | t in deps.value :: StampedBetween(api, end.store, t, calls.patches, end.calls.patches))
                  && cfg.lastObserved !in end.store[v].annotations)
            && (!e.Fired? ==> MarkFrom(cfg, api, w, end.store[v], calls.patches, end.calls.patches))
            && (deps.Failure? ==> OutcomeOf(e) == Error)
            && (deps.Success? && !cleared ==> OutcomeOf(e) == Result(0))
            && (cleared && !RolledOut(w) ==> OutcomeOf(e).Result?)
            && (cleared && !RolledOut(w) && cfg.lastObserved != cfg.requeueAfter ==>
                  && IsDelay(cfg, w, OutcomeOf(e).requeueAfter)
                  && (cfg.requeueDefault > 0 && (forall d | AsksFor(cfg, w, d) :: d > 0) ==> Wakes(OutcomeOf(e))))
  {
    hide DepsOf, GraphOf, Leads, Passes, RolledOut, StampedBetween, MarkFrom, AsksFor;
    StableExactly(store[v]);
    StaysOnCourse(cfg, api, v, GraphOf(cfg, store), store[v], JobState(store, Fetching, calls), ws, end);
    if end.stage.end.Fired? {
      SameElements(end.stage.end.targets, DepsOf(cfg, v, store[v]).value);
    }
  }
}
