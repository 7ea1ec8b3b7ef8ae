/**
 Why a DaemonSet must not be stable and in transition at once: such a one, if it has targets and the
 guard passes it, restarts them over and over. Every reconcile clears the mark it has set, each of
 these writes shows a DaemonSet in transition, and so the reconcile is work for the next one. A
 single event from outside, which need not even change anything, is enough.
 */
module Endless {
  import opened Refs
  import opened Extraction
  import opened Objects
  import opened Predicates
  import opened Patches
  import opened Guard
  import opened Job
  import opened Machine
  import opened Writes
  import opened Ledger
  import opened Tokens
  import opened OwnWrites
  import opened FullRound
  import opened Finite
  import opened StaleCopy

  /** A stored DaemonSet that is stable and in transition, has targets and passes the guard. */
  ghost predicate Restless(cfg: Config, v: Key, store: Store) {
    && v in store
    && !Settled(store[v])
    && Ripe(cfg, v, GraphOf(cfg, store), store[v])
  }

  ghost predicate Idle(work: seq<Token>) {
    forall i | 0 <= i < |work| :: !work[i].phase.Running?
  }

  /** Only this token is being reconciled. */
  ghost predicate Focused(work: seq<Token>, i: nat, v: Key, stage: Stage) {
    && i < |work| && work[i].key == v && work[i].phase == Running(stage)
    && forall j | 0 <= j < |work| && j != i :: !work[j].phase.Running?
  }

  /** Between two rounds: nothing is being reconciled, and `v` is queued. */
  ghost predicate Due(cfg: Config, s: State, v: Key) {
    Restless(cfg, v, s.store) && Idle(s.work) && IsQueued(s.work, v, Ready)
  }

  ghost function RestartsIn(s: State): nat {
    Sum(IsRestart(), s.log)
  }

  /** Steps of the operator alone. */
  ghost predicate OnlyOperator(run: seq<Action>) {
    forall a | a in run :: !FromEnvironment(a)
  }

  lemma ObserveQueues(cfg: Config, s: State, k: Key, store: Store, origin: Origin, v: Key)
    ensures var t := Observe(cfg, s, k, store, origin);
            && t.store == store
            && s.work <= t.work
            && (forall j | |s.work| <= j < |t.work| :: t.work[j].phase == Ready)
            && (IsQueued(s.work, v, Ready) ==> IsQueued(t.work, v, Ready))
            && (k in s.store && k in store && Reacts(cfg, origin, s.store[k], store[k]) ==> IsQueued(t.work, k, Ready))
            && RestartsIn(t) == RestartsIn(s)
  {
    hide Reacts;
    SumSnoc(IsRestart(), s.log, Admission(k, origin));
    var t := Observe(cfg, s, k, store, origin);
    if IsQueued(s.work, v, Ready) {
      var j :| 0 <= j < |s.work| && s.work[j].key == v && s.work[j].phase == Ready;
      assert t.work[j] == s.work[j];
    }
    if t.work != s.work {
      assert t.work[|s.work|].key == k;
    }
  }

  lemma PlacedFocus(work: seq<Token>, i: nat, v: Key, stage: Stage, after: Stage, cause: nat)
    requires Focused(work, i, v, stage) && (after.Done? ==> !Wakes(OutcomeOf(after.end)))
    ensures var placed := Placed(work, i, after, cause);
            && (if after.Done? then Idle(placed) else Focused(placed, i, v, after))
            && (IsQueued(work, v, Ready) ==> IsQueued(placed, v, Ready))
  {
    var placed := Placed(work, i, after, cause);
    if IsQueued(work, v, Ready) {
      var j :| 0 <= j < |work| && work[j].key == v && work[j].phase == Ready;
      assert placed[if after.Done? && j > i then j - 1 else j] == work[j];
    }
  }

  /** A step of the one reconcile that is under way. */
  lemma FocusStep(cfg: Config, s: State, i: nat, v: Key, stage: Stage, wx: Weather)
    requires Focused(s.work, i, v, stage) && Possible(cfg, wx)
    requires var after := Advance(cfg, v, s.store, stage, wx).1; after.Done? ==> !Wakes(OutcomeOf(after.end))
    ensures var t := Step(cfg, s, Work(i, wx));
            var (store, after) := Advance(cfg, v, s.store, stage, wx);
            && t.store == store
            && (if after.Done? then Idle(t.work) else Focused(t.work, i, v, after))
            && (IsQueued(s.work, v, Ready) ==> IsQueued(t.work, v, Ready))
            && (!stage.Triggering? && v in s.store && v in store && Notices(cfg, s.store[v], store[v]) ==>
                  IsQueued(t.work, v, Ready))
            && RestartsIn(t) == RestartsIn(s) + if Restarts(s.store, stage, wx) then 1 else 0
  {
    hide Advance, Placed, Recorded, Observe, Notices, Sum, IsQueued, Admits;
    var tok := s.work[i];
    var (store, after) := Advance(cfg, v, s.store, stage, wx);
    var cause := if Fires(stage, after) then |s.log| else tok.cause;
    var s' := State(s.store, Placed(s.work, i, after, cause), s.log + Recorded(s, tok, stage, after, wx));
    PlacedFocus(s.work, i, v, stage, after, cause);
    RecordedCounts(k => true, s, tok, stage, after, wx);
    ObserveQueues(cfg, s', Touched(v, stage), store, OriginOf(s, tok, stage), v);
  }

  // ---------- one round ----------

  lemma RestOfCluster(cfg: Config, v: Key, store: Store, t: Key, now: string)
    requires Restless(cfg, v, store) && t in store && t != v
    ensures Restless(cfg, v, store[t := Restarted(now, store[t], store[t])])
  {
    hide Stamped, Ripe;
    var store' := store[t := Restarted(now, store[t], store[t])];
    StampedIs(RESTART_KEY, now, store[t], store[t]);
    SameDeps(cfg, store, store');
  }

  /** The restarts of a round, and the end of the reconcile. */
  lemma {:induction false} TriggerAll(cfg: Config, s: State, i: nat, v: Key, targets: seq<Key>, oks: seq<bool>, now: string)
    returns (run: seq<Action>)
    requires Focused(s.work, i, v, Triggering(targets, oks)) && |oks| < |targets|
    requires Restless(cfg, v, s.store) && IsQueued(s.work, v, Ready)
    requires v !in targets && forall t | t in targets :: t in s.store
    ensures OnlyOperator(run)
    ensures Due(cfg, Exec(cfg, s, run), v) && RestartsIn(Exec(cfg, s, run)) == RestartsIn(s) + |targets| - |oks|
    decreases |targets| - |oks|
  {
    hide Step, Restless, IsQueued, Restarted, RestartsIn, Fair;
    var wx := Fair(cfg, true, now);
    var t := targets[|oks|];
    FocusStep(cfg, s, i, v, Triggering(targets, oks), wx);
    RestOfCluster(cfg, v, s.store, t, now);
    var s' := Step(cfg, s, Work(i, wx));
    var rest := [];
    if |oks| + 1 < |targets| {
      rest := TriggerAll(cfg, s', i, v, targets, oks + [true], now);
    }
    run := [Work(i, wx)] + rest;
    ExecOne(cfg, s, Work(i, wx), rest);
  }

  lemma SettingMarkKeeps(cfg: Config, v: Key, store: Store, after: Object)
    requires cfg.lastObserved !in cfg.kinds && Restless(cfg, v, store)
    requires after == store[v].(annotations := after.annotations) && OnlyOwnKeys(cfg, store[v], after)
    ensures Restless(cfg, v, store[v := after])
  {
    hide DepsOf, Passes;
    assert forall k | k in store && k != v :: store[v := after][k] == store[k];
    UnchangedIsOwn(cfg, store);
    OwnKeysKeepGraph(cfg, store, store[v := after]);
    OwnKeysKeepDeps(cfg, v, store[v], after);
  }

  lemma UnchangedIsOwn(cfg: Config, store: Store)
    ensures OnlyOwnKeysAnywhere(cfg, store, store)
  {
  }

  /** Fetching and marking: the reconcile then holds the stored copy, which carries the mark. */
  lemma Begins(cfg: Config, s: State, i: nat, v: Key, now: string) returns (run: seq<Action>, t: State)
    requires cfg.lastObserved !in cfg.kinds && Restless(cfg, v, s.store)
    requires Idle(s.work) && i < |s.work| && s.work[i].key == v && s.work[i].phase == Ready
    ensures OnlyOperator(run) && t == Exec(cfg, s, run) && RestartsIn(t) == RestartsIn(s)
    ensures Restless(cfg, v, t.store) && HasMark(cfg, t.store[v]) && Focused(t.work, i, v, Checking(t.store[v]))
  {
    hide Restless, IsQueued, RestartsIn, Fair, Observe, Marked, Notices, WorkOn, Focused;
    var wx := Fair(cfg, true, now);
    var w := StoredAndRestless(cfg, v, s.store);
    var s1 := Step(cfg, s, Start(i));
    StartFocuses(cfg, s, i, v);
    FocusStep(cfg, s1, i, v, Fetching, wx);
    var s2 := Step(cfg, s1, Work(i, wx));
    FocusStep(cfg, s2, i, v, Marking(w), wx);
    t := Step(cfg, s2, Work(i, wx));
    MarkedIs(cfg.lastObserved, now, w, w);
    if !HasMark(cfg, w) {
      SettingMarkKeeps(cfg, v, s.store, Marked(cfg.lastObserved, now, w, w));
    }
    run := [Start(i)] + ([Work(i, wx)] + ([Work(i, wx)] + []));
    ExecOne(cfg, s, Start(i), [Work(i, wx)] + ([Work(i, wx)] + []));
    ExecOne(cfg, s1, Work(i, wx), [Work(i, wx)] + []);
    ExecOne(cfg, s2, Work(i, wx), []);
  }

  lemma StoredAndRestless(cfg: Config, v: Key, store: Store) returns (w: Object)
    requires Restless(cfg, v, store)
    ensures v in store && w == store[v]
  {
    w := store[v];
  }

  lemma StartFocuses(cfg: Config, s: State, i: nat, v: Key)
    requires Idle(s.work) && i < |s.work| && s.work[i].key == v && s.work[i].phase == Ready
    ensures var t := Step(cfg, s, Start(i));
            t.store == s.store && RestartsIn(t) == RestartsIn(s) && Focused(t.work, i, v, Fetching)
  {
  }

  /** The check passes, and clearing the mark queues the workload again. */
  lemma Clears(cfg: Config, s: State, i: nat, v: Key, now: string) returns (run: seq<Action>, t: State, targets: seq<Key>)
    requires cfg.lastObserved !in cfg.kinds && Restless(cfg, v, s.store)
    requires HasMark(cfg, s.store[v]) && Focused(s.work, i, v, Checking(s.store[v]))
    ensures OnlyOperator(run) && t == Exec(cfg, s, run) && RestartsIn(t) == RestartsIn(s)
    ensures Restless(cfg, v, t.store) && IsQueued(t.work, v, Ready) && Focused(t.work, i, v, Triggering(targets, []))
    ensures targets != [] && v !in targets && forall k | k in targets :: k in t.store
  {
    hide Restless, IsQueued, RestartsIn, Fair, Step, Unmarked, Notices, Focused, Check;
    var wx := Fair(cfg, true, now);
    var w := StoredAndRestless(cfg, v, s.store);
    targets := CheckPasses(cfg, v, s.store, wx);
    FocusStep(cfg, s, i, v, Checking(w), wx);
    var s1 := Step(cfg, s, Work(i, wx));
    FocusStep(cfg, s1, i, v, Clearing(w, targets), wx);
    t := Step(cfg, s1, Work(i, wx));
    ClearNoticed(cfg, v, s.store);
    SettingMarkKeeps(cfg, v, s.store, Unmarked(cfg.lastObserved, w, w));
    run := [Work(i, wx)] + ([Work(i, wx)] + []);
    ExecOne(cfg, s, Work(i, wx), [Work(i, wx)] + []);
    ExecOne(cfg, s1, Work(i, wx), []);
  }

  lemma CheckPasses(cfg: Config, v: Key, store: Store, wx: Weather) returns (targets: seq<Key>)
    requires Restless(cfg, v, store) && Possible(cfg, wx) && wx.ok
    ensures Check(cfg, v, store, store[v], wx) == Clearing(store[v], targets)
    ensures targets != [] && v !in targets && forall k | k in targets :: k in store
  {
    hide Check, DepsOf, Passes, GraphOf;
    var g, w := GraphOf(cfg, store), store[v];
    CheckDecides(cfg, v, g, w, store, w, wx);
    targets := Check(cfg, v, store, w, wx).targets;
    RipeTargetsStored(cfg, v, g, w, store, targets);
    TargetsAreOthers(g, v, DepsOf(cfg, v, w).value);
    SameElements(targets, DepsOf(cfg, v, w).value);
  }

  lemma ClearNoticed(cfg: Config, v: Key, store: Store)
    requires cfg.lastObserved !in cfg.kinds && Restless(cfg, v, store) && HasMark(cfg, store[v])
    ensures var w := store[v];
            var after := Unmarked(cfg.lastObserved, w, w);
            && after == w.(annotations := after.annotations) && OnlyOwnKeys(cfg, w, after)
            && Notices(cfg, w, after)
  {
    hide Unmarked, Admits, Deps, Passes;
    var w := store[v];
    RestlessIsAnnotated(cfg, v, store);
    var a :| a in cfg.kinds && a in w.annotations;
    UnmarkedIs(cfg.lastObserved, w, w);
    var after := Unmarked(cfg.lastObserved, w, w);
    assert a in after.annotations && cfg.lastObserved !in after.annotations;
    OwnWriteAdmittedExactly(cfg, w, after.annotations);
  }

  lemma RestlessIsAnnotated(cfg: Config, v: Key, store: Store)
    requires Restless(cfg, v, store)
    ensures HasKindAnnotation(store[v], cfg.kinds)
  {
    hide Passes;
    var order := SomeOrder(cfg.kinds.Keys);
    OrderKeys(order, cfg.kinds);
    TargetsNeedAnnotation(order, cfg.kinds, store[v], v.namespace);
  }

  lemma Round(cfg: Config, s: State, v: Key, now: string) returns (run: seq<Action>)
    requires cfg.lastObserved !in cfg.kinds && Due(cfg, s, v)
    ensures OnlyOperator(run)
    ensures Due(cfg, Exec(cfg, s, run), v) && RestartsIn(Exec(cfg, s, run)) > RestartsIn(s)
  {
    hide Restless, RestartsIn, Exec, Focused;
    var i :| 0 <= i < |s.work| && s.work[i].key == v && s.work[i].phase == Ready;
    var a, t := Begins(cfg, s, i, v, now);
    var b, u, targets := Clears(cfg, t, i, v, now);
    var c := TriggerAll(cfg, u, i, v, targets, [], now);
    run := a + (b + c);
    ExecAppend(cfg, s, a, b + c);
    ExecAppend(cfg, t, b, c);
  }

  lemma {:induction false} Rounds(cfg: Config, s: State, v: Key, n: nat, now: string) returns (run: seq<Action>)
    requires cfg.lastObserved !in cfg.kinds && Due(cfg, s, v)
    ensures OnlyOperator(run) && RestartsIn(Exec(cfg, s, run)) >= RestartsIn(s) + n
    decreases n
  {
    hide Due, RestartsIn, Step;
    if n == 0 {
      run := [];
    } else {
      var first := Round(cfg, s, v, now);
      var t := Exec(cfg, s, first);
      var rest := Rounds(cfg, t, v, n - 1, now);
      run := first + rest;
      ExecAppend(cfg, s, first, rest);
    }
  }

  /** A resync delivers the unchanged object, and the watch takes it for work. */
  lemma ResyncIsDue(cfg: Config, s: State, v: Key)
    requires Fresh(s) && Restless(cfg, v, s.store)
    ensures Due(cfg, Step(cfg, s, Update(v, s.store[v])), v)
    ensures Step(cfg, s, Update(v, s.store[v])).store == s.store
  {
    hide Ripe;
    var w := s.store[v];
    RestlessIsAnnotated(cfg, v, s.store);
    AdmitsExactly(cfg, w, w);
    assert s.store[v := w] == s.store;
    var t := Step(cfg, s, Update(v, w));
    assert t.work[0].key == v && t.work[0].phase == Ready;
  }

  /** An event from outside that changes nothing in `v`, and then the operator alone. */
  ghost predicate FollowsResync(s: State, v: Key, run: seq<Action>)
    requires v in s.store
  {
    |run| > 0 && run[0] == Update(v, s.store[v]) && OnlyOperator(run[1..])
  }

  lemma ResyncKeepsGraph(cfg: Config, s: State, v: Key, run: seq<Action>)
    requires v in s.store && FollowsResync(s, v, run)
    ensures GraphKeptThroughout(cfg, s, run)
  {
    hide WorkOn, Reacts;
    assert s.store[v := s.store[v]] == s.store;
    assert forall n | 0 < n < |run| :: run[n] == run[1..][n - 1];
  }

  /**
   The demand of `CascadesAreFinite` that workloads with walks be settled cannot be dropped: from any
   cluster with an unsettled DaemonSet that has targets and passes the guard, one event from outside
   that changes nothing is enough for as many restarts as one likes, with the graph unchanged.
   */
  lemma UnsettledRestartsForever(cfg: Config, s: State, v: Key, n: nat, now: string) returns (run: seq<Action>)
    requires cfg.lastObserved !in cfg.kinds && Fresh(s)
    requires v in s.store && !Settled(s.store[v]) && Ripe(cfg, v, GraphOf(cfg, s.store), s.store[v])
    ensures FollowsResync(s, v, run) && GraphKeptThroughout(cfg, s, run)
    ensures RestartsIn(Exec(cfg, s, run)) >= n
  {
    hide Step, Ripe, Due, Settled, RestartsIn, GraphKeptThroughout;
    var a := Update(v, s.store[v]);
    ResyncIsDue(cfg, s, v);
    var rest := Rounds(cfg, Step(cfg, s, a), v, n, now);
    run := [a] + rest;
    ExecOne(cfg, s, a, rest);
    assert run[1..] == rest;
    ResyncKeepsGraph(cfg, s, v, run);
  }

  // ---------- when cascades are finite ----------

  ghost predicate Within(cfg: Config, s: State, v: Key, bound: nat)
    requires v in s.store
  {
    forall run | FollowsResync(s, v, run) :: RestartsIn(Exec(cfg, s, run)) <= bound
  }

  /** What the operator does after a resync of `v`, however long it goes on, restarts only so much. */
  ghost predicate ResyncIsBounded(cfg: Config, s: State, v: Key)
    requires v in s.store
  {
    exists bound: nat :: Within(cfg, s, v, bound)
  }

  /** All workloads from which there are walks are settled. */
  ghost predicate SettledWhereWalks(cfg: Config, store: Store) {
    forall k | k in store && N(GraphOf(cfg, store), k) > 0 :: Settled(store[k])
  }

  lemma ResyncCost(weight: Key -> nat, s: State, v: Key, run: seq<Action>)
    requires v in s.store && FollowsResync(s, v, run)
    ensures Sum(OutsideCost(weight), run) == weight(v)
  {
    assert run == [run[0]] + run[1..];
    SumSplit(OutsideCost(weight), [run[0]], run[1..]);
    SumOfZeros(OutsideCost(weight), run[1..]);
    assert [run[0]][..0] == [];
  }

  lemma ResyncKeepsSettled(cfg: Config, s: State, v: Key, run: seq<Action>)
    requires v in s.store && FollowsResync(s, v, run) && SettledWhereWalks(cfg, s.store)
    ensures forall k | k in s.store && N(GraphOf(cfg, s.store), k) > 0 :: SettledThroughout(s, run, k)
  {
    hide N, GraphOf, Settled;
    assert run == [run[0]] + run[1..];
    forall k | k in s.store && N(GraphOf(cfg, s.store), k) > 0 ensures SettledThroughout(s, run, k) {
    }
  }

  lemma SettledIsBounded(cfg: Config, s: State, v: Key)
    requires cfg.lastObserved !in cfg.kinds && Fresh(s) && v in s.store && SettledWhereWalks(cfg, s.store)
    ensures ResyncIsBounded(cfg, s, v)
  {
    hide Exec, GraphOf, GraphKeptThroughout, SettledWhereWalks, SettledThroughout, FollowsResync, N;
    var g := GraphOf(cfg, s.store);
    var bound := 3 * N(g, v) + Total(WalksOf(g), s.store.Keys);
    forall run | FollowsResync(s, v, run) ensures RestartsIn(Exec(cfg, s, run)) <= bound {
      ResyncKeepsGraph(cfg, s, v, run);
      ResyncKeepsSettled(cfg, s, v, run);
      CascadesAreFinite(cfg, s, run);
      ResyncCost(WalksOf(g), s, v, run);
      RestartsAreTriggers(Exec(cfg, s, run).log);
    }
    assert Within(cfg, s, v, bound);
  }

  /** Walks from an unsettled workload make it restless. */
  lemma WalksMakeRipe(cfg: Config, store: Store, v: Key)
    requires v in store && N(GraphOf(cfg, store), v) > 0 && !Settled(store[v])
    ensures Ripe(cfg, v, GraphOf(cfg, store), store[v])
  {
    hide Passes, DepsOf;
    var g := GraphOf(cfg, store);
    assert g[v] == DepsOf(cfg, v, store[v]);
  }

  lemma UnsettledIsUnbounded(cfg: Config, s: State, v: Key)
    requires cfg.lastObserved !in cfg.kinds && Fresh(s) && v in s.store
    requires N(GraphOf(cfg, s.store), v) > 0 && !Settled(s.store[v])
    ensures !ResyncIsBounded(cfg, s, v)
  {
    hide Exec, GraphOf, GraphKeptThroughout, FollowsResync, N, Settled, RestartsIn, Ripe;
    WalksMakeRipe(cfg, s.store, v);
    forall bound: nat ensures !Within(cfg, s, v, bound) {
      var run := UnsettledRestartsForever(cfg, s, v, bound + 1, "");
    }
  }

  /**
   Exactly when cascades are finite: from a fresh start, for every workload there is a bound on what
   the operator restarts after an event that changes nothing in it, however long it goes on, if and
   only if every workload from which there are walks is settled. An unsettled DaemonSet that has no
   targets, or that the guard blocks, does no harm.
   */
  lemma FiniteExactly(cfg: Config, s: State)
    requires cfg.lastObserved !in cfg.kinds && Fresh(s)
    ensures (forall v | v in s.store :: ResyncIsBounded(cfg, s, v)) <==>
              forall k | k in s.store && N(GraphOf(cfg, s.store), k) > 0 :: Settled(s.store[k])
  {
    hide GraphOf, N, Settled, ResyncIsBounded;
    if SettledWhereWalks(cfg, s.store) {
      forall v | v in s.store ensures ResyncIsBounded(cfg, s, v) {
        SettledIsBounded(cfg, s, v);
      }
    } else {
      var k :| k in s.store && N(GraphOf(cfg, s.store), k) > 0 && !Settled(s.store[k]);
      UnsettledIsUnbounded(cfg, s, k);
    }
  }

  // ---------- such a cluster exists ----------

  const EMPTY_SET := Key(DAEMON_SET, "n", "a")

  /** It wants no pod, yet its status counts one as updated, as Kubernetes itself would not report it. */
  const UNSETTLED: Object := Workload(ANNOTATIONS, 1, 1, Template(map[], "v1"), DaemonSetRollout(0, 1, 0, 0, 0))

  function EmptySetCluster(): State {
    State(map[EMPTY_SET := UNSETTLED, TARGET := Dep(map[], 1, 1, "w")], [], [])
  }

  lemma EmptySetIsRipe()
    ensures var s := EmptySetCluster();
            Fresh(s) && Ripe(CFG, EMPTY_SET, GraphOf(CFG, s.store), s.store[EMPTY_SET]) && !Settled(UNSETTLED)
  {
    hide Gather, Passes, GraphOf, Deps;
    var store := EmptySetCluster().store;
    TargetsAre(ANNOTATIONS);
    GatherAnyOrder([KIND_KEY], CFG.kinds, ANNOTATIONS, "n");
    GuardPasses(EMPTY_SET, store);
    var deps := DepsOf(CFG, EMPTY_SET, UNSETTLED).value;
    PassesPermuted(GraphOf(CFG, store), ID(EMPTY_SET), [TARGET], deps);
    assert |multiset(deps)| == |multiset([TARGET])| == 1;
  }

  /** One Deployment hangs on one DaemonSet, and is restarted at least `n` times for one event that changes nothing. */
  lemma EmptyDaemonSetRestartsForever(n: nat) returns (run: seq<Action>)
    ensures |run| > 0 && run[0] == Update(EMPTY_SET, UNSETTLED) && OnlyOperator(run[1..])
    ensures Sum(IsRestart(), Exec(CFG, EmptySetCluster(), run).log) >= n
  {
    hide Ripe, Exec, GraphOf, Sum, GraphKeptThroughout;
    EmptySetIsRipe();
    run := UnsettledRestartsForever(CFG, EmptySetCluster(), EMPTY_SET, n, "t");
  }
}
