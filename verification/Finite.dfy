/**
 Cascades are finite: how much a run can restart is bounded by the actions of others alone. The
 ledger bounds restarts by what admissions bring in; here every admission is charged to an action
 from outside, or to a workload that was there at the start.
 */
module Finite {
  import opened Refs
  import opened Guard
  import opened Objects
  import opened Job
  import opened Machine
  import opened Ledger
  import opened Tokens
  import opened OwnWrites

  // ---------- sums over sets of workloads ----------

  ghost function Pick(ks: set<Key>): (k: Key)
    requires ks != {}
    ensures k in ks
  {
    var k :| k in ks; k
  }

  ghost function Total(f: Key -> nat, ks: set<Key>): nat {
    if ks == {} then 0 else f(Pick(ks)) + Total(f, ks - {Pick(ks)})
  }

  lemma {:induction false} TotalOfOnes(f: Key -> nat, ks: set<Key>, ones: set<Key>)
    requires forall k | k in ks :: f(k) == if k in ones then 1 else 0
    ensures Total(f, ks) == |ks * ones|
  {
    if ks != {} {
      var k := Pick(ks);
      TotalOfOnes(f, ks - {k}, ones);
      if k in ones {
        assert ks * ones == (ks - {k}) * ones + {k};
      } else {
        assert ks * ones == (ks - {k}) * ones;
      }
    }
  }

  lemma {:induction false} TotalSame(f: Key -> nat, g: Key -> nat, ks: set<Key>)
    requires forall k | k in ks :: f(k) == g(k)
    ensures Total(f, ks) == Total(g, ks)
  {
    if ks != {} {
      TotalSame(f, g, ks - {Pick(ks)});
    }
  }

  // ---------- weighing events and actions by their workload ----------

  /** Admissions of the operator's own writes to these workloads. */
  ghost function OwnCost(weight: Key -> nat, ks: set<Key>): Event -> nat {
    (e: Event) => if e.Admission? && e.origin.FromOwnWrite? && e.key in ks then weight(e.key) else 0
  }

  ghost function OutsideCostIn(weight: Key -> nat, ks: set<Key>): Action -> nat {
    (a: Action) => if FromEnvironment(a) && a.key in ks then weight(a.key) else 0
  }

  /** What the actions from outside weigh. */
  ghost function OutsideCost(weight: Key -> nat): Action -> nat {
    a => CostOf(weight, a)
  }

  ghost function CostOf(weight: Key -> nat, a: Action): nat {
    if FromEnvironment(a) then weight(a.key) else 0
  }

  ghost function Scaled(weight: Key -> nat, base: Key -> nat): Key -> nat {
    k => base(k) * weight(k)
  }

  lemma {:induction false} SumScales<T(!new)>(f: T -> nat, g: T -> nat, h: T -> nat, n: nat, s: seq<T>)
    requires forall x :: f(x) == g(x) + n * h(x)
    ensures Sum(f, s) == Sum(g, s) + n * Sum(h, s)
  {
    if s != [] {
      SumScales(f, g, h, n, s[..|s| - 1]);
      assert n * (Sum(h, s[..|s| - 1]) + h(s[|s| - 1])) == n * Sum(h, s[..|s| - 1]) + n * h(s[|s| - 1]);
    }
  }

  lemma {:induction false} SumAtMost<T(!new)>(f: T -> nat, g: T -> nat, s: seq<T>)
    requires forall x | x in s :: f(x) <= g(x)
    ensures Sum(f, s) <= Sum(g, s)
  {
    if s != [] {
      SumAtMost(f, g, s[..|s| - 1]);
    }
  }

  lemma {:induction false} SumOfZeros<T(!new)>(f: T -> nat, s: seq<T>)
    requires forall x | x in s :: f(x) == 0
    ensures Sum(f, s) == 0
  {
    if s != [] {
      SumOfZeros(f, s[..|s| - 1]);
    }
  }

  lemma OwnCostSplits(weight: Key -> nat, ks: set<Key>, k: Key, log: seq<Event>)
    requires k in ks
    ensures Sum(OwnCost(weight, ks), log) == Sum(OwnCost(weight, ks - {k}), log) + weight(k) * Sum(OwnAt(k), log)
  {
    forall e: Event ensures OwnCost(weight, ks)(e) == OwnCost(weight, ks - {k})(e) + weight(k) * OwnAt(k)(e) {
    }
    SumScales(OwnCost(weight, ks), OwnCost(weight, ks - {k}), OwnAt(k), weight(k), log);
  }

  lemma OutsideCostSplits(weight: Key -> nat, ks: set<Key>, k: Key, run: seq<Action>)
    requires k in ks
    ensures Sum(OutsideCostIn(weight, ks), run) == Sum(OutsideCostIn(weight, ks - {k}), run) + weight(k) * Sum(OutsideAt(k), run)
  {
    forall a: Action ensures OutsideCostIn(weight, ks)(a) == OutsideCostIn(weight, ks - {k})(a) + weight(k) * OutsideAt(k)(a) {
    }
    SumScales(OutsideCostIn(weight, ks), OutsideCostIn(weight, ks - {k}), OutsideAt(k), weight(k), run);
  }

  lemma Weighs(w: nat, own: nat, base: nat, outside: nat)
    requires w > 0 ==> own <= base + 2 * outside
    ensures w * own <= base * w + 2 * (w * outside)
  {
    if w > 0 {
      assert w * own <= w * (base + 2 * outside);
    }
  }

  /** A bound for each workload gives a bound for the weighted sum over all of them. */
  lemma {:induction false} OwnCostBound(weight: Key -> nat, base: Key -> nat, ks: set<Key>, log: seq<Event>, run: seq<Action>)
    requires forall k | k in ks && weight(k) > 0 :: Sum(OwnAt(k), log) <= base(k) + 2 * Sum(OutsideAt(k), run)
    ensures Sum(OwnCost(weight, ks), log) <= Total(Scaled(weight, base), ks) + 2 * Sum(OutsideCostIn(weight, ks), run)
  {
    hide Sum;
    if ks == {} {
      SumOfZeros(OwnCost(weight, ks), log);
    } else {
      var k := Pick(ks);
      OwnCostBound(weight, base, ks - {k}, log, run);
      OwnCostSplits(weight, ks, k, log);
      OutsideCostSplits(weight, ks, k, run);
      Weighs(weight(k), Sum(OwnAt(k), log), base(k), Sum(OutsideAt(k), run));
    }
  }

  ghost function AtStart(s: State): Key -> nat {
    k => if k in s.store then 1 else 0
  }

  /** Neither at the start nor by an action from outside is `v` stored stable and in transition at once. */
  ghost predicate SettledThroughout(s: State, run: seq<Action>, v: Key) {
    SettledAt(s.store, v) && SettledActions(run, v)
  }

  /** All admissions of own writes, weighed: twice what the actions from outside weigh, and the start. */
  lemma OwnWritesAreBounded(cfg: Config, s: State, run: seq<Action>, weight: Key -> nat, ks: set<Key>)
    requires cfg.lastObserved !in cfg.kinds && Fresh(s)
    requires forall k | k in ks && weight(k) > 0 :: SettledThroughout(s, run, k)
    ensures Sum(OwnCost(weight, ks), Exec(cfg, s, run).log)
              <= Total(Scaled(weight, AtStart(s)), ks) + 2 * Sum(OutsideCost(weight), run)
  {
    hide Exec, Sum;
    var log := Exec(cfg, s, run).log;
    forall k | k in ks && weight(k) > 0 ensures Sum(OwnAt(k), log) <= AtStart(s)(k) + 2 * Sum(OutsideAt(k), run) {
      OwnWritesArePaidFor(cfg, s, run, k);
    }
    OwnCostBound(weight, AtStart(s), ks, log, run);
    SumAtMost(OutsideCostIn(weight, ks), OutsideCost(weight), run);
  }

  // ---------- admissions from outside ----------

  ghost function FromOutsideCost(weight: Key -> nat): Event -> nat {
    (e: Event) => if e.Admission? && e.origin.FromOutside? then weight(e.key) else 0
  }

  lemma ObserveOutsideCost(cfg: Config, s: State, k: Key, store: Store, origin: Origin, weight: Key -> nat)
    ensures Sum(FromOutsideCost(weight), Observe(cfg, s, k, store, origin).log)
              <= Sum(FromOutsideCost(weight), s.log) + if origin.FromOutside? then weight(k) else 0
  {
    hide Reacts;
    SumSnoc(FromOutsideCost(weight), s.log, Admission(k, origin));
  }

  lemma StepOutsideCost(cfg: Config, s: State, a: Action, weight: Key -> nat)
    ensures Sum(FromOutsideCost(weight), Step(cfg, s, a).log) <= Sum(FromOutsideCost(weight), s.log) + OutsideCost(weight)(a)
  {
    hide Advance, Placed, Recorded, Observe, Sum;
    if Enabled(cfg, s, a) {
      match a
      case Update(k, object') => ObserveOutsideCost(cfg, s, k, s.store[k := object'], FromOutside, weight);
      case Delete(k) => SumSnoc(FromOutsideCost(weight), s.log, Admission(k, FromOutside));
      case Work(i, wx) =>
        var tok := s.work[i];
        var stage := tok.phase.stage;
        var (store, after) := Advance(cfg, tok.key, s.store, stage, wx);
        var s' := State(s.store, Placed(s.work, i, after, if Fires(stage, after) then |s.log| else tok.cause),
                        s.log + Recorded(s, tok, stage, after, wx));
        RecordedOutsideCost(s, tok, stage, after, wx, weight);
        ObserveOutsideCost(cfg, s', Touched(tok.key, stage), store, OriginOf(s, tok, stage), weight);
      case _ =>
    }
  }

  lemma RecordedOutsideCost(s: State, tok: Token, stage: Stage, after: Stage, wx: Weather, weight: Key -> nat)
    ensures Sum(FromOutsideCost(weight), s.log + Recorded(s, tok, stage, after, wx)) == Sum(FromOutsideCost(weight), s.log)
  {
    var events := Recorded(s, tok, stage, after, wx);
    if events == [] {
      assert s.log + events == s.log;
    } else {
      SumSnoc(FromOutsideCost(weight), s.log, events[0]);
    }
  }

  lemma {:induction false} RunOutsideCost(cfg: Config, s: State, run: seq<Action>, weight: Key -> nat)
    requires Fresh(s)
    ensures Sum(FromOutsideCost(weight), Exec(cfg, s, run).log) <= Sum(OutsideCost(weight), run)
  {
    hide Step;
    if run != [] {
      RunOutsideCost(cfg, s, run[..|run| - 1], weight);
      StepOutsideCost(cfg, Exec(cfg, s, run[..|run| - 1]), run[|run| - 1], weight);
    }
  }

  // ---------- the bounds ----------

  ghost function WalksOf(g: Graph): Key -> nat {
    k => N(g, k)
  }

  lemma {:induction false} CreditSplits(g: Graph, log: seq<Event>)
    ensures Sum(CreditOf(g), log) == Sum(FromOutsideCost(WalksOf(g)), log) + Sum(OwnCost(WalksOf(g), g.Keys), log)
  {
    if log != [] {
      CreditSplits(g, log[..|log| - 1]);
    }
  }

  /**
   Cascades are finite. With an unchanging graph, and no workload that has walks being stored stable
   and in transition at once, the restarts attempted in any run, and all that its pending work may
   still attempt, are at most three times the walks of the workloads that others act on, once for
   each action, and the walks of the workloads at the start. So without further actions from outside there is an end
   to it, however the operator's own writes, its retries and its reconciles interleave.
   */
  lemma {:induction false} CascadesAreFinite(cfg: Config, s: State, run: seq<Action>)
    requires cfg.lastObserved !in cfg.kinds && Fresh(s) && GraphKeptThroughout(cfg, s, run)
    requires forall k | k in s.store && N(GraphOf(cfg, s.store), k) > 0 :: SettledThroughout(s, run, k)
    ensures var g, t := GraphOf(cfg, s.store), Exec(cfg, s, run);
            Sum(IsTrigger(), t.log) + Sum(PotOf(g), t.work)
              <= 3 * Sum(OutsideCost(WalksOf(g)), run) + Total(WalksOf(g), s.store.Keys)
  {
    hide Exec, Sum, GraphOf, GraphKeptThroughout, SettledThroughout;
    var g, t := GraphOf(cfg, s.store), Exec(cfg, s, run);
    GraphKeys(cfg, s.store);
    CascadeLedger(cfg, s, run);
    CreditSplits(g, t.log);
    RunOutsideCost(cfg, s, run, WalksOf(g));
    OwnWritesAreBounded(cfg, s, run, WalksOf(g), g.Keys);
    TotalSame(Scaled(WalksOf(g), AtStart(s)), WalksOf(g), g.Keys);
  }

  ghost function One(): Key -> nat {
    k => 1
  }

  lemma {:induction false} AdmissionsAre(log: seq<Event>, ks: set<Key>)
    requires forall e | e in log :: e.key in ks
    ensures Sum(AdmissionOf(k => true), log) ==
              Sum(FromOutsideCost(One()), log) + Sum(OwnCost(One(), ks), log) + Sum(HopOf(), log)
  {
    if log != [] {
      assert log[|log| - 1] in log;
      AdmissionsAre(log[..|log| - 1], ks);
    }
  }

  /**
   So are the rounds of restarts, and the work still pending: three for every action from outside,
   one for every workload at the start, and one for every restart.
   */
  lemma {:induction false} RoundsAreFinite(cfg: Config, s: State, run: seq<Action>)
    requires cfg.lastObserved !in cfg.kinds && Fresh(s) && forall k: Key :: SettledThroughout(s, run, k)
    ensures var t := Exec(cfg, s, run);
            Sum(FiringOf(k => true), t.log) + Sum(PendingOf(k => true), t.work)
              <= 3 * Sum(OutsideCost(One()), run) + |s.store| + Sum(IsRestart(), t.log)
  {
    hide Exec, Sum, SettledThroughout, Total;
    var p: Key -> bool := k => true;
    var log := Exec(cfg, s, run).log;
    var ks := set e | e in log :: e.key;
    RunsConserve(cfg, p, s, run);
    AdmissionsAre(log, ks);
    RunOutsideCost(cfg, s, run, One());
    OwnWritesAreBounded(cfg, s, run, One(), ks);
    TotalOfOnes(Scaled(One(), AtStart(s)), ks, s.store.Keys);
    SubsetBound(ks * s.store.Keys, s.store.Keys);
    assert p == (k => true);
  }
}
