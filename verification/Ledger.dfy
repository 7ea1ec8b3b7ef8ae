/**
 The cascade ledger: while the dependency graph stays the same, restarts are paid for in advance.
 An event from outside that is admitted for `v` brings N(v), the number of walks from `v`; each
 attempt at a restart spends one; and no interleaving, retry, failure or repetition can spend more.
 */
module Ledger {
  import opened Refs
  import opened Extraction
  import opened Objects
  import opened Predicates
  import opened Patches
  import opened Guard
  import opened Job
  import opened Machine
  import opened Justified
  import opened Writes

  /** The restarts a token may still cause. */
  ghost function Pot(g: Graph, tok: Token): nat {
    match tok.phase
    case Running(Clearing(_, targets)) => Cost(g, targets)
    case Running(Triggering(targets, oks)) => if |oks| <= |targets| then Cost(g, targets[|oks|..]) else 0
    case Running(Done(_)) => 0
    case _ => N(g, tok.key)
  }

  ghost function PotOf(g: Graph): Token -> nat {
    tok => Pot(g, tok)
  }

  /** What an admission brings in; one caused by a restart brings nothing of its own. */
  ghost function Credit(g: Graph, e: Event): nat {
    if e.Admission? && !e.origin.FromRestart? then N(g, e.key) else 0
  }

  ghost function CreditOf(g: Graph): Event -> nat {
    e => Credit(g, e)
  }

  /** Restarts attempted, whether or not they succeed. */
  ghost function IsTrigger(): Event -> nat {
    (e: Event) => if e.Trigger? then 1 else 0
  }

  /** Restarts made. */
  ghost function IsRestart(): Event -> nat {
    (e: Event) => if e.Trigger? && e.ok then 1 else 0
  }

  /** A running token's copy still shows the dependencies of its workload. */
  ghost predicate TokenCurrent(cfg: Config, g: Graph, tok: Token) {
    match tok.phase
    case Running(Marking(read)) => tok.key in g && DepsOf(cfg, tok.key, read) == g[tok.key]
    case Running(Checking(read)) => tok.key in g && DepsOf(cfg, tok.key, read) == g[tok.key]
    case Running(Clearing(read, targets)) => HasKindAnnotation(read, cfg.kinds) && targets != [] && AllStored(g, targets)
    case Running(Triggering(targets, oks)) => |oks| < |targets| && AllStored(g, targets)
    case Running(Done(_)) => false
    case _ => true
  }

  ghost predicate AllStored(g: Graph, targets: seq<Key>) {
    forall t | t in targets :: t in g
  }

  /** Every firing was decided on this graph. */
  ghost predicate FiredOn(cfg: Config, g: Graph, log: seq<Event>) {
    forall i | 0 <= i < |log| && log[i].Firing? :: GraphOf(cfg, log[i].store) == g
  }

  ghost predicate Current(cfg: Config, g: Graph, s: State) {
    && GraphOf(cfg, s.store) == g
    && FiredOn(cfg, g, s.log)
    && forall i | 0 <= i < |s.work| :: TokenCurrent(cfg, g, s.work[i])
  }

  ghost predicate Balanced(g: Graph, s: State) {
    Sum(IsTrigger(), s.log) + Sum(PotOf(g), s.work) <= Sum(CreditOf(g), s.log)
  }

  /** Whoever acts on the cluster from outside leaves the dependency graph as it is. */
  ghost predicate GraphKept(cfg: Config, g: Graph, s: State, a: Action) {
    FromEnvironment(a) ==> GraphOf(cfg, Step(cfg, s, a).store) == g
  }

  ghost predicate GraphKeptThroughout(cfg: Config, s: State, run: seq<Action>) {
    forall n | 0 <= n < |run| :: GraphKept(cfg, GraphOf(cfg, s.store), Exec(cfg, s, run[..n]), run[n])
  }

  // ---------- the copy in memory stays current ----------

  lemma OwnKeysKeepDeps(cfg: Config, k: Key, before: Object, after: Object)
    requires cfg.lastObserved !in cfg.kinds && OnlyOwnKeys(cfg, before, after)
    ensures DepsOf(cfg, k, after) == DepsOf(cfg, k, before)
  {
    DepsIgnoreOtherKeys(cfg.kinds, after.annotations, before.annotations, k.namespace);
  }

  /** While the graph is kept, the copy a reconcile goes on with keeps showing the current dependencies. */
  lemma AdvanceKeepsCurrent(cfg: Config, g: Graph, store: Store, tok: Token, wx: Weather)
    requires cfg.lastObserved !in cfg.kinds && Possible(cfg, wx) && tok.phase.Running?
    requires GraphOf(cfg, store) == g && TokenCurrent(cfg, g, tok)
    ensures var (store', after) := Advance(cfg, tok.key, store, tok.phase.stage, wx);
            && GraphOf(cfg, store') == g
            && (!after.Done? ==> TokenCurrent(cfg, g, tok.(phase := Running(after))))
  {
    hide DepsOf, Check, HasKindAnnotation, Marked, Unmarked;
    var v, stage := tok.key, tok.phase.stage;
    AdvanceKeepsGraph(cfg, v, store, stage, wx);
    AdvanceWritesOwnKeys(cfg, v, store, stage, wx);
    match stage
    case Marking(read) =>
      var store' := Advance(cfg, v, store, stage, wx).0;
      if v in store {
        assert OnlyOwnKeys(cfg, store[v], store'[v]);
        OwnKeysKeepDeps(cfg, v, store[v], store'[v]);
      }
    case Checking(read) =>
      CheckShape(cfg, v, store, read, wx);
      if Check(cfg, v, store, read, wx).Clearing? {
        CheckFires(cfg, v, store, read, wx);
        PassingTargetsStored(g, ID(v), Check(cfg, v, store, read, wx).targets);
      }
    case _ =>
  }

  lemma PassingTargetsStored(g: Graph, src: string, targets: seq<Key>)
    requires Passes(g, src, targets)
    ensures AllStored(g, targets)
  {
    forall t | t in targets ensures t in g {
      GuardPassesTargets(g, src, targets, t);
    }
  }

  // ---------- what a step spends ----------

  lemma CostFirst(g: Graph, targets: seq<Key>, i: nat)
    requires i < |targets|
    ensures Cost(g, targets[i..]) == 1 + N(g, targets[i]) + Cost(g, targets[i + 1..])
  {
    assert targets[i..][1..] == targets[i + 1..];
  }

  lemma FiringSpends(cfg: Config, g: Graph, v: Key, store: Store, read: Object, wx: Weather)
    requires Possible(cfg, wx) && GraphOf(cfg, store) == g
    requires v in g && DepsOf(cfg, v, read) == g[v]
    requires Check(cfg, v, store, read, wx).Clearing?
    ensures Cost(g, Check(cfg, v, store, read, wx).targets) == N(g, v)
  {
    CheckFires(cfg, v, store, read, wx);
    FiringCost(g, v, Check(cfg, v, store, read, wx).targets);
  }

  /** A step never adds to what its token may still cause; an attempt pays for itself, and a restart for its target. */
  lemma AdvanceSpends(cfg: Config, g: Graph, store: Store, tok: Token, wx: Weather)
    requires Possible(cfg, wx) && tok.phase.Running?
    requires GraphOf(cfg, store) == g && TokenCurrent(cfg, g, tok)
    ensures var stage := tok.phase.stage;
            var after := Advance(cfg, tok.key, store, stage, wx).1;
            && Pot(g, tok.(phase := Running(after)))
                 + (if Triggers(stage) then 1 else 0)
                 + (if Restarts(store, stage, wx) then N(g, stage.targets[|stage.oks|]) else 0)
               <= Pot(g, tok)
            && (after.Done? && Wakes(OutcomeOf(after.end)) ==> Pot(g, tok) == N(g, tok.key))
  {
    hide Check, N, Cost, GraphOf, DepsOf;
    var stage := tok.phase.stage;
    match stage
    case Checking(read) =>
      CheckShape(cfg, tok.key, store, read, wx);
      if Check(cfg, tok.key, store, read, wx).Clearing? {
        FiringSpends(cfg, g, tok.key, store, read, wx);
        CheckFires(cfg, tok.key, store, read, wx);
      }
    case Clearing(read, targets) =>
      assert targets[0..] == targets;
    case Triggering(targets, oks) =>
      CostFirst(g, targets, |oks|);
    case _ =>
  }

  lemma {:induction false} RemoveSpends(g: Graph, work: seq<Token>, i: nat)
    requires i < |work|
    ensures Sum(PotOf(g), Remove(work, i)) == Sum(PotOf(g), work) - Pot(g, work[i])
  {
    SumAt(PotOf(g), work, i, work[i]);
  }

  /** A token that goes back to waiting may cause what its workload may cause, or is merged. */
  lemma {:induction false} RequeueSpends(g: Graph, work: seq<Token>, i: nat, phase: Phase)
    requires i < |work| && !phase.Running?
    ensures Sum(PotOf(g), Requeue(work, i, phase)) <= Sum(PotOf(g), work) - Pot(g, work[i]) + N(g, work[i].key)
  {
    SumAt(PotOf(g), work, i, work[i].(phase := phase));
  }

  lemma PotIgnoresCause(g: Graph, tok: Token, cause: nat)
    ensures Pot(g, tok.(cause := cause)) == Pot(g, tok)
  {
  }

  lemma {:induction false} PlacedSpends(g: Graph, work: seq<Token>, i: nat, stage: Stage, cause: nat)
    requires i < |work|
    requires stage.Done? && Wakes(OutcomeOf(stage.end)) ==> Pot(g, work[i]) == N(g, work[i].key)
    ensures Sum(PotOf(g), Placed(work, i, stage, cause)) <=
              Sum(PotOf(g), work) - Pot(g, work[i])
              + (if stage.Done? && Wakes(OutcomeOf(stage.end)) then Pot(g, work[i])
                 else Pot(g, work[i].(phase := Running(stage))))
  {
    hide Pot, Requeue;
    PotIgnoresCause(g, work[i].(phase := Running(stage)), cause);
    SumAt(PotOf(g), work, i, work[i].(phase := Running(stage), cause := cause));
    if stage.Done? {
      RemoveSpends(g, work, i);
      RequeueSpends(g, work, i, Delayed);
    }
  }

  /** Admitting work for `k` adds at most N(k) to what is pending, and exactly its credit. */
  lemma AdmitBalance(g: Graph, s: State, k: Key, origin: Origin)
    ensures Sum(PotOf(g), Admit(s, k, origin).work) <= Sum(PotOf(g), s.work) + N(g, k)
    ensures Sum(CreditOf(g), Admit(s, k, origin).log) ==
              Sum(CreditOf(g), s.log) + if origin.FromRestart? then 0 else N(g, k)
    ensures Sum(IsTrigger(), Admit(s, k, origin).log) == Sum(IsTrigger(), s.log)
  {
    SumSnoc(PotOf(g), s.work, Token(k, Ready, |s.log|));
    SumSnoc(CreditOf(g), s.log, Admission(k, origin));
    SumSnoc(IsTrigger(), s.log, Admission(k, origin));
  }

  lemma ObserveFromElsewhere(cfg: Config, g: Graph, s: State, k: Key, store: Store, origin: Origin)
    requires Balanced(g, s) && !origin.FromRestart?
    ensures Balanced(g, Observe(cfg, s, k, store, origin))
  {
    AdmitBalance(g, s.(store := store), k, origin);
  }

  lemma ObserveRestart(cfg: Config, g: Graph, s: State, k: Key, store: Store, origin: Origin)
    requires origin.FromRestart?
    requires Sum(IsTrigger(), s.log) + Sum(PotOf(g), s.work) + N(g, k) <= Sum(CreditOf(g), s.log)
    ensures Balanced(g, Observe(cfg, s, k, store, origin))
  {
    AdmitBalance(g, s.(store := store), k, origin);
  }

  lemma RecordedSums(g: Graph, s: State, tok: Token, stage: Stage, after: Stage, wx: Weather)
    ensures var log := s.log + Recorded(s, tok, stage, after, wx);
            && Sum(CreditOf(g), log) == Sum(CreditOf(g), s.log)
            && Sum(IsTrigger(), log) == Sum(IsTrigger(), s.log) + if Triggers(stage) then 1 else 0
  {
    var events := Recorded(s, tok, stage, after, wx);
    if events == [] {
      assert s.log + events == s.log;
    } else {
      SumSnoc(CreditOf(g), s.log, events[0]);
      SumSnoc(IsTrigger(), s.log, events[0]);
    }
  }

  lemma WorkKeepsBalance(cfg: Config, g: Graph, s: State, i: nat, wx: Weather)
    requires Balanced(g, s) && Current(cfg, g, s)
    requires Possible(cfg, wx) && i < |s.work| && s.work[i].phase.Running?
    ensures Balanced(g, WorkOn(cfg, s, i, wx))
  {
    hide Advance, Pot, N, Placed, Recorded, Observe, Sum;
    var tok := s.work[i];
    var stage := tok.phase.stage;
    var (store, after) := Advance(cfg, tok.key, s.store, stage, wx);
    var cause := if Fires(stage, after) then |s.log| else tok.cause;
    var s' := State(s.store, Placed(s.work, i, after, cause), s.log + Recorded(s, tok, stage, after, wx));
    AdvanceSpends(cfg, g, s.store, tok, wx);
    PlacedSpends(g, s.work, i, after, cause);
    RecordedSums(g, s, tok, stage, after, wx);
    var k, origin := Touched(tok.key, stage), OriginOf(s, tok, stage);
    if Restarts(s.store, stage, wx) {
      RestartGoesOn(cfg, tok.key, s.store, stage, wx);
      ObserveRestart(cfg, g, s', k, store, origin);
    } else if stage.Triggering? {
      RestartGoesOn(cfg, tok.key, s.store, stage, wx);
      FailureWritesNothing(cfg, tok.key, s.store, stage, wx);
      NothingToObserve(cfg, s', k, origin);
    } else {
      ObserveFromElsewhere(cfg, g, s', k, store, origin);
    }
  }

  lemma NothingToObserve(cfg: Config, s: State, k: Key, origin: Origin)
    requires !origin.FromOutside?
    ensures Observe(cfg, s, k, s.store, origin) == s
  {
  }

  lemma {:induction false} RestartsAreTriggers(log: seq<Event>)
    ensures Sum(IsRestart(), log) <= Sum(IsTrigger(), log)
  {
    if log != [] {
      RestartsAreTriggers(log[..|log| - 1]);
    }
  }

  lemma RestartGoesOn(cfg: Config, v: Key, store: Store, stage: Stage, wx: Weather)
    requires Possible(cfg, wx) && stage.Triggering?
    ensures var after := Advance(cfg, v, store, stage, wx).1;
            !(after.Done? && Wakes(OutcomeOf(after.end)))
  {
  }

  lemma FailureWritesNothing(cfg: Config, v: Key, store: Store, stage: Stage, wx: Weather)
    requires Possible(cfg, wx) && stage.Triggering? && !Restarts(store, stage, wx)
    ensures Advance(cfg, v, store, stage, wx).0 == store
  {
  }

  // ---------- the invariant over runs ----------

  lemma AdmitKeepsCurrent(cfg: Config, g: Graph, s: State, k: Key, origin: Origin)
    requires Current(cfg, g, s)
    ensures Current(cfg, g, Admit(s, k, origin))
  {
  }

  lemma {:induction false} WorkKeepsCurrent(cfg: Config, g: Graph, s: State, i: nat, wx: Weather)
    requires cfg.lastObserved !in cfg.kinds && Current(cfg, g, s)
    requires Possible(cfg, wx) && i < |s.work| && s.work[i].phase.Running?
    ensures Current(cfg, g, WorkOn(cfg, s, i, wx))
  {
    hide Advance, GraphOf, DepsOf;
    var tok := s.work[i];
    AdvanceKeepsCurrent(cfg, g, s.store, tok, wx);
  }

  lemma UpdateKeepsLedger(cfg: Config, g: Graph, s: State, k: Key, object': Object)
    requires Balanced(g, s) && Current(cfg, g, s) && k in s.store && GraphOf(cfg, s.store[k := object']) == g
    ensures var t := Observe(cfg, s, k, s.store[k := object'], FromOutside); Balanced(g, t) && Current(cfg, g, t)
  {
    hide Balanced, GraphOf, Reacts;
    ObserveFromElsewhere(cfg, g, s, k, s.store[k := object'], FromOutside);
  }

  lemma AdmitKeepsLedger(cfg: Config, g: Graph, s: State, store: Store, k: Key)
    requires Balanced(g, s) && Current(cfg, g, s) && GraphOf(cfg, store) == g
    ensures var t := Admit(s.(store := store), k, FromOutside); Balanced(g, t) && Current(cfg, g, t)
  {
    hide GraphOf, TokenCurrent, Admit;
    StoreKeepsLedger(cfg, g, s, store);
    AdmitBalance(g, s.(store := store), k, FromOutside);
    AdmitKeepsCurrent(cfg, g, s.(store := store), k, FromOutside);
  }

  lemma WakeKeepsLedger(cfg: Config, g: Graph, s: State, i: nat)
    requires Balanced(g, s) && Current(cfg, g, s) && i < |s.work| && !s.work[i].phase.Running?
    ensures var t := s.(work := Requeue(s.work, i, Ready)); Balanced(g, t) && Current(cfg, g, t)
  {
    WaitingPot(g, s.work[i]);
    RequeueSpends(g, s.work, i, Ready);
  }

  lemma StartKeepsLedger(cfg: Config, g: Graph, s: State, i: nat)
    requires Balanced(g, s) && Current(cfg, g, s) && i < |s.work| && !s.work[i].phase.Running?
    ensures var t := s.(work := s.work[i := s.work[i].(phase := Running(Fetching))]); Balanced(g, t) && Current(cfg, g, t)
  {
    WaitingPot(g, s.work[i]);
    SumAt(PotOf(g), s.work, i, s.work[i].(phase := Running(Fetching)));
  }

  lemma {:induction false} StepKeepsLedger(cfg: Config, g: Graph, s: State, a: Action)
    requires cfg.lastObserved !in cfg.kinds
    requires Balanced(g, s) && Current(cfg, g, s) && GraphKept(cfg, g, s, a)
    ensures Balanced(g, Step(cfg, s, a)) && Current(cfg, g, Step(cfg, s, a))
  {
    hide Balanced, Current, WorkOn, Observe, Requeue;
    if Enabled(cfg, s, a) {
      match a
      case Update(k, object') =>
        ObserveStore(cfg, s, k, s.store[k := object'], FromOutside);
        UpdateKeepsLedger(cfg, g, s, k, object');
      case Create(k, object') =>
        StoreKeepsLedger(cfg, g, s, s.store[k := object']);
      case Delete(k) =>
        if HasKindAnnotation(s.store[k], cfg.kinds) {
          AdmitKeepsLedger(cfg, g, s, s.store - {k}, k);
        } else {
          StoreKeepsLedger(cfg, g, s, s.store - {k});
        }
      case Wake(i) =>
        WakeKeepsLedger(cfg, g, s, i);
      case Start(i) =>
        StartKeepsLedger(cfg, g, s, i);
      case Work(i, wx) =>
        WorkKeepsBalance(cfg, g, s, i, wx);
        WorkKeepsCurrent(cfg, g, s, i, wx);
    }
  }

  lemma ObserveStore(cfg: Config, s: State, k: Key, store: Store, origin: Origin)
    ensures Observe(cfg, s, k, store, origin).store == store
  {
  }

  lemma StoreKeepsLedger(cfg: Config, g: Graph, s: State, store: Store)
    requires Balanced(g, s) && Current(cfg, g, s) && GraphOf(cfg, store) == g
    ensures Balanced(g, s.(store := store)) && Current(cfg, g, s.(store := store))
  {
  }

  lemma WaitingPot(g: Graph, tok: Token)
    requires !tok.phase.Running?
    ensures Pot(g, tok) == Pot(g, tok.(phase := Running(Fetching))) == N(g, tok.key)
  {
  }

  lemma {:induction false} RunsKeepLedger(cfg: Config, s: State, run: seq<Action>)
    requires cfg.lastObserved !in cfg.kinds && Fresh(s) && GraphKeptThroughout(cfg, s, run)
    ensures Balanced(GraphOf(cfg, s.store), Exec(cfg, s, run))
    ensures Current(cfg, GraphOf(cfg, s.store), Exec(cfg, s, run))
  {
    if run != [] {
      var n := |run| - 1;
      var before := run[..n];
      assert forall m | 0 <= m < n :: before[..m] == run[..m] && before[m] == run[m];
      RunsKeepLedger(cfg, s, before);
      StepKeepsLedger(cfg, GraphOf(cfg, s.store), Exec(cfg, s, before), run[n]);
    }
  }

  /**
   The cascade ledger. In every state of every run that keeps the dependency graph, the restarts
   attempted so far, also those that failed, plus all that pending work may still attempt, are at
   most the walks brought in by admissions that were not themselves caused by a restart.
   */
  lemma {:induction false} CascadeLedger(cfg: Config, s: State, run: seq<Action>)
    requires cfg.lastObserved !in cfg.kinds && Fresh(s) && GraphKeptThroughout(cfg, s, run)
    ensures var g, t := GraphOf(cfg, s.store), Exec(cfg, s, run);
            Sum(IsTrigger(), t.log) + Sum(PotOf(g), t.work) <= Sum(CreditOf(g), t.log)
  {
    RunsKeepLedger(cfg, s, run);
  }

  /**
   Once a workload has fired, the guard never blocks one of its targets in its turn: no later
   hop of the cascade is stopped, short of an API failure.
   */
  lemma {:induction false} LaterHopsAreNotBlocked(cfg: Config, s: State, run: seq<Action>, f: nat, i: nat,
                                                  wx: Weather, read: Object)
    requires cfg.lastObserved !in cfg.kinds && Fresh(s) && GraphKeptThroughout(cfg, s, run)
    requires var t := Exec(cfg, s, run);
             && f < |t.log| && t.log[f].Firing?
             && i < |t.work| && t.work[i].phase == Running(Checking(read)) && t.work[i].key in t.log[f].targets
    requires Possible(cfg, wx) && wx.ok
    ensures var t := Exec(cfg, s, run); Check(cfg, t.work[i].key, t.store, read, wx) != Job.Done(Blocked)
  {
    hide Exec, Passes, FiringOk, DepsOf;
    RunsKeepLedger(cfg, s, run);
    RunsKeepHistory(cfg, s, run);
    var g, t := GraphOf(cfg, s.store), Exec(cfg, s, run);
    var v, e := t.work[i].key, t.log[f];
    assert TokenCurrent(cfg, g, t.work[i]);
    assert Linked(cfg, t.log, e, f);
    FiringPassed(cfg, e.key, e.read, e.targets, e.store);
    GuardPassesTargets(g, ID(e.key), e.targets, v);
    NotBlocked(cfg, g, v, t.store, read, wx);
  }

  lemma FiringPassed(cfg: Config, v: Key, read: Object, targets: seq<Key>, store: Store)
    requires FiringOk(cfg, v, read, targets, store)
    ensures Passes(GraphOf(cfg, store), ID(v), targets)
  {
  }

  lemma NotBlocked(cfg: Config, g: Graph, v: Key, store: Store, read: Object, wx: Weather)
    requires Possible(cfg, wx) && wx.ok && GraphOf(cfg, store) == g
    requires v in g && g[v].Success? && DepsOf(cfg, v, read) == g[v] && Passes(g, ID(v), g[v].value)
    ensures Check(cfg, v, store, read, wx) != Job.Done(Blocked)
  {
    GatherAnyOrder(wx.order, cfg.kinds, read.annotations, v.namespace);
    var targets := Gather(wx.order, cfg.kinds, read.annotations, v.namespace).value;
    PassesPermuted(g, ID(v), targets, g[v].value);
  }
}
