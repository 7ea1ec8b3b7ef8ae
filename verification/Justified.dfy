/**
 Every restart is justified: the history links each restart to the firing that caused it, each
 firing to the admission behind it, and each admission to its own cause, back to an event from
 outside. No assumption on users, failures or interleaving is made.
 */
module Justified {
  import opened Wrappers
  import opened Refs
  import opened Extraction
  import opened Objects
  import opened Predicates
  import opened Patches
  import opened Guard
  import opened Job
  import opened Machine

  /** What a firing shows: a stable copy, its dependencies as targets, and a guard that passed. */
  ghost predicate FiringOk(cfg: Config, v: Key, read: Object, targets: seq<Key>, store: Store) {
    && Stable(read)
    && targets != []
    && SameTargets(Success(targets), DepsOf(cfg, v, read))
    && Passes(GraphOf(cfg, store), ID(v), targets)
  }

  /** The link from an event to its cause, which comes earlier. */
  ghost predicate Linked(cfg: Config, log: seq<Event>, e: Event, i: nat)
    requires i <= |log|
  {
    match e
    case Admission(_, FromOutside) => true
    case Admission(k, FromOwnWrite(c)) => c < i && (log[c].Admission? || log[c].Firing?) && log[c].key == k
    case Admission(k, FromRestart(c)) => c < i && log[c].Trigger? && log[c].ok && log[c].key == k
    case Firing(v, c, read, targets, store) =>
      c < i && log[c].Admission? && log[c].key == v && FiringOk(cfg, v, read, targets, store)
    case Trigger(t, c, _) => c < i && log[c].Firing? && t in log[c].targets
  }

  ghost predicate AllLinked(cfg: Config, log: seq<Event>) {
    forall i | 0 <= i < |log| :: Linked(cfg, log, log[i], i)
  }

  /** A token's cause is the admission of its workload or, once it fired, that firing. */
  ghost predicate TokenLinked(log: seq<Event>, tok: Token) {
    && tok.cause < |log|
    && log[tok.cause].key == tok.key
    && (tok.phase.Running? ==> !tok.phase.stage.Done?)
    && if HasFired(tok.phase)
       then log[tok.cause].Firing? && log[tok.cause].targets == tok.phase.stage.targets
       else log[tok.cause].Admission?
  }

  ghost predicate WorkLinked(log: seq<Event>, work: seq<Token>) {
    forall i | 0 <= i < |work| :: TokenLinked(log, work[i])
  }

  ghost predicate History(cfg: Config, s: State) {
    AllLinked(cfg, s.log) && WorkLinked(s.log, s.work)
  }

  lemma LinkedSnoc(cfg: Config, log: seq<Event>, e: Event)
    requires AllLinked(cfg, log) && Linked(cfg, log, e, |log|)
    ensures AllLinked(cfg, log + [e])
  {
    var more := log + [e];
    forall i | 0 <= i < |more| ensures Linked(cfg, more, more[i], i) {
      if i < |log| {
        assert Linked(cfg, log, log[i], i);
      }
    }
  }

  lemma WorkLinkedSnoc(log: seq<Event>, work: seq<Token>, e: Event)
    requires WorkLinked(log, work)
    ensures WorkLinked(log + [e], work)
  {
    forall i | 0 <= i < |work| ensures TokenLinked(log + [e], work[i]) {
      assert TokenLinked(log, work[i]);
    }
  }

  lemma AdmitKeepsHistory(cfg: Config, s: State, k: Key, origin: Origin)
    requires History(cfg, s) && Linked(cfg, s.log, Admission(k, origin), |s.log|)
    ensures History(cfg, Admit(s, k, origin))
  {
    LinkedSnoc(cfg, s.log, Admission(k, origin));
    WorkLinkedSnoc(s.log, s.work, Admission(k, origin));
  }

  lemma ObserveKeepsHistory(cfg: Config, s: State, k: Key, store: Store, origin: Origin)
    requires History(cfg, s) && Linked(cfg, s.log, Admission(k, origin), |s.log|)
    ensures History(cfg, Observe(cfg, s, k, store, origin))
  {
    AdmitKeepsHistory(cfg, s.(store := store), k, origin);
  }

  /** What the check step needs for a firing. */
  lemma CheckFires(cfg: Config, v: Key, store: Store, read: Object, wx: Weather)
    requires Possible(cfg, wx) && Check(cfg, v, store, read, wx).Clearing?
    ensures var after := Check(cfg, v, store, read, wx);
            after.read == read && FiringOk(cfg, v, read, after.targets, store)
  {
    GatherAnyOrder(wx.order, cfg.kinds, read.annotations, v.namespace);
  }

  lemma CheckShape(cfg: Config, v: Key, store: Store, read: Object, wx: Weather)
    requires Possible(cfg, wx)
    ensures var after := Check(cfg, v, store, read, wx);
            && (after.Done? || after.Clearing?)
            && (after.Clearing? ==> after.read == read && HasKindAnnotation(read, cfg.kinds) && after.targets != [])
  {
    hide Passes, GraphOf, Stable, RequeueDuration, Deps, SameTargets;
    GatherAnyOrder(wx.order, cfg.kinds, read.annotations, v.namespace);
    if Check(cfg, v, store, read, wx).Clearing? {
      TargetsNeedAnnotation(wx.order, cfg.kinds, read, v.namespace);
    }
  }

  lemma RequeueKeepsLinks(log: seq<Event>, work: seq<Token>, i: nat, phase: Phase)
    requires WorkLinked(log, work) && i < |work| && !HasFired(work[i].phase) && !phase.Running?
    ensures WorkLinked(log, Requeue(work, i, phase))
  {
    assert TokenLinked(log, work[i]);
  }

  lemma {:induction false} WorkKeepsHistory(cfg: Config, s: State, i: nat, wx: Weather)
    requires History(cfg, s) && Possible(cfg, wx) && i < |s.work| && s.work[i].phase.Running?
    ensures History(cfg, WorkOn(cfg, s, i, wx))
  {
    hide Placed, Admits, Check, Admit, Restarted, Marked, Unmarked, DepsOf;
    var tok := s.work[i];
    var stage := tok.phase.stage;
    assert TokenLinked(s.log, tok);
    var (store, after) := Advance(cfg, tok.key, s.store, stage, wx);
    var fires := Fires(stage, after);
    var events := Recorded(s, tok, stage, after, wx);
    var work := Placed(s.work, i, after, if fires then |s.log| else tok.cause);
    var s' := State(s.store, work, s.log + events);
    if fires {
      CheckFires(cfg, tok.key, s.store, stage.read, wx);
    }
    if events != [] {
      LinkedSnoc(cfg, s.log, events[0]);
      WorkLinkedSnoc(s.log, s.work, events[0]);
    } else {
      assert s.log + events == s.log;
    }
    PlacedKeepsLinks(cfg, s, i, wx);
    var k, origin := Touched(tok.key, stage), OriginOf(s, tok, stage);
    if k in s.store && k in store && Reacts(cfg, origin, s.store[k], store[k]) {
      assert Linked(cfg, s'.log, Admission(k, origin), |s'.log|);
      ObserveKeepsHistory(cfg, s', k, store, origin);
    }
  }

  /** How the stages follow each other. */
  lemma AdvanceShape(cfg: Config, v: Key, store: Store, stage: Stage, wx: Weather)
    requires Possible(cfg, wx) && !stage.Done?
    ensures var after := Advance(cfg, v, store, stage, wx).1;
            && (after.Done? && Wakes(OutcomeOf(after.end)) ==> !HasFired(Running(stage)))
            && (!after.Done? ==> (HasFired(Running(after)) <==> HasFired(Running(stage)) || Fires(stage, after)))
            && (!after.Done? && HasFired(Running(stage)) ==> after.targets == stage.targets)
  {
  }

  lemma {:induction false} PlacedKeepsLinks(cfg: Config, s: State, i: nat, wx: Weather)
    requires History(cfg, s) && Possible(cfg, wx) && i < |s.work| && s.work[i].phase.Running?
    ensures var tok := s.work[i];
            var after := Advance(cfg, tok.key, s.store, tok.phase.stage, wx).1;
            WorkLinked(s.log + Recorded(s, tok, tok.phase.stage, after, wx),
                       Placed(s.work, i, after, if Fires(tok.phase.stage, after) then |s.log| else tok.cause))
  {
    hide Advance, Linked;
    var tok := s.work[i];
    var stage := tok.phase.stage;
    assert TokenLinked(s.log, tok);
    var after := Advance(cfg, tok.key, s.store, stage, wx).1;
    AdvanceShape(cfg, tok.key, s.store, stage, wx);
    var events := Recorded(s, tok, stage, after, wx);
    var log := s.log + events;
    if events != [] {
      WorkLinkedSnoc(s.log, s.work, events[0]);
    } else {
      assert log == s.log;
    }
    if after.Done? {
      if Wakes(OutcomeOf(after.end)) {
        assert !HasFired(tok.phase);
        RequeueKeepsLinks(log, s.work, i, Delayed);
      }
    } else {
      assert TokenLinked(log, tok);
    }
  }

  lemma {:induction false} StepKeepsHistory(cfg: Config, s: State, a: Action)
    requires History(cfg, s)
    ensures History(cfg, Step(cfg, s, a))
  {
    if Enabled(cfg, s, a) {
      match a
      case Update(k, object') => ObserveKeepsHistory(cfg, s, k, s.store[k := object'], FromOutside);
      case Create(k, object') =>
      case Delete(k) => AdmitKeepsHistory(cfg, s.(store := s.store - {k}), k, FromOutside);
      case Wake(i) => RequeueKeepsLinks(s.log, s.work, i, Ready);
      case Start(i) => assert TokenLinked(s.log, s.work[i]);
      case Work(i, wx) => WorkKeepsHistory(cfg, s, i, wx);
    }
  }

  lemma {:induction false} RunsKeepHistory(cfg: Config, s: State, run: seq<Action>)
    requires Fresh(s)
    ensures History(cfg, Exec(cfg, s, run))
  {
    if run != [] {
      RunsKeepHistory(cfg, s, run[..|run| - 1]);
      StepKeepsHistory(cfg, Exec(cfg, s, run[..|run| - 1]), run[|run| - 1]);
    }
  }

  // ---------- causal chains ----------

  /** Event `a` of the history is the recorded cause of event `b`, and is the kind of event that can be. */
  ghost predicate Causes(cfg: Config, log: seq<Event>, a: nat, b: nat)
    requires a < |log| && b < |log|
  {
    match log[b]
    case Admission(_, FromOutside) => false
    case Admission(k, FromOwnWrite(c)) => c == a && (log[a].Admission? || log[a].Firing?) && log[a].key == k
    case Admission(k, FromRestart(c)) => c == a && log[a].Trigger? && log[a].ok && log[a].key == k
    case Firing(v, c, read, targets, store) =>
      && c == a && log[a].Admission? && log[a].key == v
      && Stable(read)
      && SameTargets(Success(targets), DepsOf(cfg, v, read))
      && Passes(GraphOf(cfg, store), ID(v), targets)
    case Trigger(t, c, _) => c == a && log[a].Firing? && t in log[a].targets
  }

  /**
   History indices in strictly increasing order, from an event from outside, each the recorded
   cause of the next. A hop of the cascade shows as an admission, the firing it led to, the restart
   of a target and the admission of that target.
   */
  ghost predicate CausalChain(cfg: Config, log: seq<Event>, c: seq<nat>) {
    && c != []
    && (forall j | 0 <= j < |c| :: c[j] < |log|)
    && (forall j | 0 <= j < |c| - 1 :: c[j] < c[j + 1] && Causes(cfg, log, c[j], c[j + 1]))
    && log[c[0]].Admission? && log[c[0]].origin.FromOutside?
  }

  lemma ChainOn(cfg: Config, log: seq<Event>, c: seq<nat>, i: nat)
    requires CausalChain(cfg, log, c) && i < |log| && c[|c| - 1] < i && Causes(cfg, log, c[|c| - 1], i)
    ensures CausalChain(cfg, log, c + [i])
  {
    hide Causes;
    var longer := c + [i];
    forall j | 0 <= j < |longer| - 1 ensures longer[j] < longer[j + 1] && Causes(cfg, log, longer[j], longer[j + 1]) {
    }
  }

  lemma LinkedCauses(cfg: Config, log: seq<Event>, i: nat) returns (c: nat)
    requires i < |log| && Linked(cfg, log, log[i], i) && !(log[i].Admission? && log[i].origin.FromOutside?)
    ensures c < i && Causes(cfg, log, c, i)
  {
    c := if log[i].Admission? then log[i].origin.cause else log[i].cause;
  }

  /** Every event of the history ends a causal chain. */
  lemma {:induction false} EventIsJustified(cfg: Config, log: seq<Event>, i: nat) returns (c: seq<nat>)
    requires AllLinked(cfg, log) && i < |log|
    ensures CausalChain(cfg, log, c) && c[|c| - 1] == i
  {
    hide Linked, Causes;
    if log[i].Admission? && log[i].origin.FromOutside? {
      c := [i];
    } else {
      var cause := LinkedCauses(cfg, log, i);
      var before := EventIsJustified(cfg, log, cause);
      ChainOn(cfg, log, before, i);
      c := before + [i];
    }
  }

  /**
   Justified restarts: in every run from a fresh start, every restart is the end of a causal chain
   that begins with an event from outside: each event in it comes after its own cause, each firing
   was decided on a stable copy that the guard passed, with the copy's dependencies as targets, and
   each restart is of a target of the firing before it.
   */
  lemma {:induction false} RestartsAreJustified(cfg: Config, s: State, run: seq<Action>, i: nat) returns (c: seq<nat>)
    requires Fresh(s)
    requires i < |Exec(cfg, s, run).log| && Exec(cfg, s, run).log[i].Trigger?
    ensures CausalChain(cfg, Exec(cfg, s, run).log, c) && |c| >= 3 && c[|c| - 1] == i
    ensures var log := Exec(cfg, s, run).log;
            log[c[|c| - 2]].Firing? && log[i].key in log[c[|c| - 2]].targets
  {
    hide Exec, Linked;
    RunsKeepHistory(cfg, s, run);
    var log := Exec(cfg, s, run).log;
    c := EventIsJustified(cfg, log, i);
    var n := |c| - 1;
    assert n > 0 ==> c[n - 1] < c[n - 1 + 1] && Causes(cfg, log, c[n - 1], c[n - 1 + 1]);
    assert n > 1 ==> c[n - 2] < c[n - 2 + 1] && Causes(cfg, log, c[n - 2], c[n - 2 + 1]);
  }

  // ---------- keys as Kubernetes admits them ----------

  ghost predicate PlainStore(store: Store) {
    forall k | k in store :: Plain(k)
  }

  ghost predicate PlainState(s: State) {
    && PlainStore(s.store)
    && (forall i | 0 <= i < |s.work| :: Plain(s.work[i].key))
    && forall i | 0 <= i < |s.log| && s.log[i].Firing? :: Plain(s.log[i].key) && PlainStore(s.log[i].store)
  }

  ghost predicate PlainCreations(run: seq<Action>) {
    forall a | a in run && a.Create? :: Plain(a.key)
  }

  lemma AdvanceKeepsKeys(cfg: Config, v: Key, store: Store, stage: Stage, wx: Weather)
    requires Possible(cfg, wx)
    ensures Advance(cfg, v, store, stage, wx).0.Keys == store.Keys
  {
  }

  lemma {:induction false} PlacedKeepsPlain(work: seq<Token>, i: nat, stage: Stage, cause: nat)
    requires i < |work| && forall j | 0 <= j < |work| :: Plain(work[j].key)
    ensures forall j | 0 <= j < |Placed(work, i, stage, cause)| :: Plain(Placed(work, i, stage, cause)[j].key)
  {
    hide Plain;
  }

  lemma {:induction false} WorkKeepsPlain(cfg: Config, s: State, i: nat, wx: Weather)
    requires PlainState(s) && Enabled(cfg, s, Work(i, wx))
    ensures PlainState(WorkOn(cfg, s, i, wx))
  {
    hide Advance, Plain, Reacts, Placed;
    var tok := s.work[i];
    var after := Advance(cfg, tok.key, s.store, tok.phase.stage, wx).1;
    AdvanceKeepsKeys(cfg, tok.key, s.store, tok.phase.stage, wx);
    PlacedKeepsPlain(s.work, i, after, if Fires(tok.phase.stage, after) then |s.log| else tok.cause);
  }

  lemma {:induction false} StepKeepsPlain(cfg: Config, s: State, a: Action)
    requires PlainState(s) && (a.Create? ==> Plain(a.key))
    ensures PlainState(Step(cfg, s, a))
  {
    hide WorkOn, Plain, Reacts;
    if a.Work? && Enabled(cfg, s, a) {
      WorkKeepsPlain(cfg, s, a.i, a.wx);
    }
  }

  lemma {:induction false} RunsKeepPlain(cfg: Config, s: State, run: seq<Action>)
    requires PlainState(s) && PlainCreations(run)
    ensures PlainState(Exec(cfg, s, run))
  {
    if run != [] {
      RunsKeepPlain(cfg, s, run[..|run| - 1]);
      StepKeepsPlain(cfg, Exec(cfg, s, run[..|run| - 1]), run[|run| - 1]);
    }
  }

  /**
   Every firing in every run was decided on a stable copy whose dependencies were the targets, and
   in the cluster the guard looked at, no walk from the workload met a cycle or a missing workload.
   */
  lemma {:induction false} FiringsAreSafe(cfg: Config, s: State, run: seq<Action>, i: nat)
    requires Fresh(s) && PlainStore(s.store) && PlainCreations(run)
    requires i < |Exec(cfg, s, run).log| && Exec(cfg, s, run).log[i].Firing?
    ensures var e := Exec(cfg, s, run).log[i];
            && Stable(e.read)
            && SameTargets(Success(e.targets), DepsOf(cfg, e.key, e.read))
            && forall w | IsWalk(GraphOf(cfg, e.store), e.key, e.targets, w) :: Sound(GraphOf(cfg, e.store), w)
  {
    hide Exec;
    RunsKeepHistory(cfg, s, run);
    RunsKeepPlain(cfg, s, run);
    var e := Exec(cfg, s, run).log[i];
    assert Linked(cfg, Exec(cfg, s, run).log, e, i);
    SafeFiring(cfg, e.key, e.read, e.targets, e.store);
  }

  lemma SafeFiring(cfg: Config, v: Key, read: Object, targets: seq<Key>, store: Store)
    requires FiringOk(cfg, v, read, targets, store) && Plain(v) && PlainStore(store)
    ensures forall w | IsWalk(GraphOf(cfg, store), v, targets, w) :: Sound(GraphOf(cfg, store), w)
  {
    var order := SomeOrder(cfg.kinds.Keys);
    OrderKeys(order, cfg.kinds);
    GatherAccepted(order, cfg.kinds, read.annotations, v.namespace);
    SameElements(targets, DepsOf(cfg, v, read).value);
    StoresArePlain(cfg, store);
    GuardIsExact(GraphOf(cfg, store), v, targets);
  }
}
