/**
 The operator as a state machine: a cluster, the work queue's tokens, and a history. Users and
 built-in controllers change the cluster at any time; the watch admits some of the changes as work;
 reconciles of different workloads advance step by step and interleave freely.
 */
module Machine {
  import opened Refs
  import opened Objects
  import opened Predicates
  import opened Patches
  import opened Guard
  import opened Job

  /** Why the watch admitted an event: history indices name the cause of the operator's own writes. */
  datatype Origin = FromOutside | FromOwnWrite(cause: nat) | FromRestart(cause: nat)

  datatype Event =
    | Admission(key: Key, origin: Origin)
    | Firing(key: Key, cause: nat, read: Object, targets: seq<Key>, store: Store)
    | Trigger(key: Key, cause: nat, ok: bool)

  /** A token is work for one workload: queued, waiting for its delay, or being reconciled. */
  datatype Phase = Ready | Delayed | Running(stage: Stage)

  /** `cause` is the history index of the admission behind the token or, once it fired, of the firing. */
  datatype Token = Token(key: Key, phase: Phase, cause: nat)

  datatype State = State(store: Store, work: seq<Token>, log: seq<Event>)

  datatype Action =
    | Update(key: Key, object': Object)
    | Create(key: Key, object': Object)
    | Delete(key: Key)
    | Wake(i: nat)
    | Start(i: nat)
    | Work(i: nat, wx: Weather)

  predicate FromEnvironment(a: Action) {
    a.Update? || a.Create? || a.Delete?
  }

  predicate IsQueued(work: seq<Token>, k: Key, phase: Phase) {
    exists j :: 0 <= j < |work| && work[j].key == k && work[j].phase == phase
  }

  function Remove(work: seq<Token>, i: nat): seq<Token>
    requires i < |work|
  {
    work[..i] + work[i + 1..]
  }

  /** The queue holds a workload at most once in each of its two waiting phases. */
  function Requeue(work: seq<Token>, i: nat, phase: Phase): seq<Token>
    requires i < |work|
  {
    if IsQueued(Remove(work, i), work[i].key, phase) then Remove(work, i) else work[i := work[i].(phase := phase)]
  }

  function Admit(s: State, k: Key, origin: Origin): State {
    s.(log := s.log + [Admission(k, origin)],
       work := if IsQueued(s.work, k, Ready) then s.work else s.work + [Token(k, Ready, |s.log|)])
  }

  /** A patch that changes nothing causes no event; from outside, a resync may deliver an unchanged object. */
  predicate Reacts(cfg: Config, origin: Origin, before: Workload, after: Workload) {
    if origin.FromOutside? then Admits(cfg, before, after) else Notices(cfg, before, after)
  }

  /** A write to `k` replaces the store; the watch may admit the update. */
  function Observe(cfg: Config, s: State, k: Key, store: Store, origin: Origin): State {
    if k in s.store && k in store && Reacts(cfg, origin, s.store[k], store[k])
    then Admit(s.(store := store), k, origin)
    else s.(store := store)
  }

  /** What a step that ended in `stage` leaves of token `i`. */
  function Placed(work: seq<Token>, i: nat, stage: Stage, cause: nat): seq<Token>
    requires i < |work|
  {
    match stage
    case Done(end) => if Wakes(OutcomeOf(end)) then Requeue(work, i, Delayed) else Remove(work, i)
    case _ => work[i := work[i].(phase := Running(stage), cause := cause)]
  }

  predicate Fires(before: Stage, after: Stage) {
    before.Checking? && after.Clearing?
  }

  /** This step attempts to restart the next target. */
  predicate Triggers(stage: Stage) {
    stage.Triggering? && |stage.oks| < |stage.targets|
  }

  /** And succeeds. */
  predicate Restarts(store: Store, stage: Stage, wx: Weather) {
    Triggers(stage) && wx.ok && stage.targets[|stage.oks|] in store
  }

  function Recorded(s: State, tok: Token, stage: Stage, after: Stage, wx: Weather): seq<Event> {
    if Fires(stage, after) then [Firing(tok.key, tok.cause, stage.read, after.targets, s.store)]
    else if Triggers(stage) then [Trigger(stage.targets[|stage.oks|], tok.cause, Restarts(s.store, stage, wx))]
    else []
  }

  /** The workload a step may write. */
  function Touched(v: Key, stage: Stage): Key {
    if Triggers(stage) then stage.targets[|stage.oks|] else v
  }

  function OriginOf(s: State, tok: Token, stage: Stage): Origin {
    if stage.Triggering? then FromRestart(|s.log|) else FromOwnWrite(tok.cause)
  }

  ghost function WorkOn(cfg: Config, s: State, i: nat, wx: Weather): State
    requires Possible(cfg, wx) && i < |s.work| && s.work[i].phase.Running?
  {
    var tok := s.work[i];
    var stage := tok.phase.stage;
    var (store, after) := Advance(cfg, tok.key, s.store, stage, wx);
    var s' := State(s.store,
                    Placed(s.work, i, after, if Fires(stage, after) then |s.log| else tok.cause),
                    s.log + Recorded(s, tok, stage, after, wx));
    Observe(cfg, s', Touched(tok.key, stage), store, OriginOf(s, tok, stage))
  }

  ghost predicate Enabled(cfg: Config, s: State, a: Action) {
    match a
    case Update(k, _) => k in s.store
    case Create(k, _) => k !in s.store
    case Delete(k) => k in s.store
    case Wake(i) => i < |s.work| && s.work[i].phase == Delayed
    case Start(i) =>
      // The queue never hands out a workload that is being reconciled.
      && i < |s.work| && s.work[i].phase == Ready
      && forall j | 0 <= j < |s.work| && s.work[j].key == s.work[i].key :: !s.work[j].phase.Running?
    case Work(i, wx) => i < |s.work| && s.work[i].phase.Running? && Possible(cfg, wx)
  }

  /** One step; an action that is not enabled does nothing. */
  ghost function Step(cfg: Config, s: State, a: Action): State {
    if !Enabled(cfg, s, a) then s
    else match a
      case Update(k, object') => Observe(cfg, s, k, s.store[k := object'], FromOutside)
      case Create(k, object') => s.(store := s.store[k := object'])
      case Delete(k) =>
        var s' := s.(store := s.store - {k});
        if HasKindAnnotation(s.store[k], cfg.kinds) then Admit(s', k, FromOutside) else s'
      case Wake(i) => s.(work := Requeue(s.work, i, Ready))
      case Start(i) => s.(work := s.work[i := s.work[i].(phase := Running(Fetching))])
      case Work(i, wx) => WorkOn(cfg, s, i, wx)
  }

  ghost function Exec(cfg: Config, s: State, run: seq<Action>): State {
    if run == [] then s else Step(cfg, Exec(cfg, s, run[..|run| - 1]), run[|run| - 1])
  }

  lemma ExecSnoc(cfg: Config, s: State, run: seq<Action>, a: Action)
    ensures Exec(cfg, s, run + [a]) == Step(cfg, Exec(cfg, s, run), a)
  {
    assert (run + [a])[..|run|] == run;
  }

  lemma {:induction false} ExecAppend(cfg: Config, s: State, run: seq<Action>, more: seq<Action>)
    ensures Exec(cfg, s, run + more) == Exec(cfg, Exec(cfg, s, run), more)
  {
    hide Step;
    if more == [] {
      assert run + more == run;
    } else {
      var n := |more| - 1;
      ExecAppend(cfg, s, run, more[..n]);
      assert (run + more)[..|run| + n] == run + more[..n];
    }
  }

  lemma ExecOne(cfg: Config, s: State, a: Action, more: seq<Action>)
    ensures Exec(cfg, s, [a] + more) == Exec(cfg, Step(cfg, s, a), more)
  {
    hide Step;
    ExecAppend(cfg, s, [a], more);
    assert [a][..0] == [];
  }

  /** Nothing queued and nothing recorded: the operator has just started. */
  predicate Fresh(s: State) {
    s.work == [] && s.log == []
  }

  predicate HasFired(phase: Phase) {
    phase.Running? && (phase.stage.Clearing? || phase.stage.Triggering?)
  }

  // ---------- sums over sequences ----------

  ghost function Sum<T(!new)>(f: T -> nat, s: seq<T>): nat {
    if s == [] then 0 else Sum(f, s[..|s| - 1]) + f(s[|s| - 1])
  }

  lemma SumSnoc<T(!new)>(f: T -> nat, s: seq<T>, x: T)
    ensures Sum(f, s + [x]) == Sum(f, s) + f(x)
  {
    assert (s + [x])[..|s|] == s;
  }

  lemma {:induction false} SumSplit<T(!new)>(f: T -> nat, a: seq<T>, b: seq<T>)
    ensures Sum(f, a + b) == Sum(f, a) + Sum(f, b)
  {
    if b == [] {
      assert a + b == a;
    } else {
      var n := |b| - 1;
      SumSplit(f, a, b[..n]);
      assert (a + b)[..|a| + n] == a + b[..n];
    }
  }

  lemma SumAt(f: Token -> nat, work: seq<Token>, i: nat, tok: Token)
    requires i < |work|
    ensures Sum(f, work) == Sum(f, Remove(work, i)) + f(work[i])
    ensures Sum(f, work[i := tok]) == Sum(f, Remove(work, i)) + f(tok)
  {
    SumSplit(f, work[..i], work[i + 1..]);
    SumOne(f, work, i);
    SumOne(f, work[i := tok], i);
    assert work[i := tok][..i] == work[..i] && work[i := tok][i + 1..] == work[i + 1..];
  }

  lemma SumOne(f: Token -> nat, work: seq<Token>, i: nat)
    requires i < |work|
    ensures Sum(f, work) == Sum(f, work[..i]) + f(work[i]) + Sum(f, work[i + 1..])
  {
    assert work == work[..i] + [work[i]] + work[i + 1..];
    SumSplit(f, work[..i] + [work[i]], work[i + 1..]);
    SumSnoc(f, work[..i], work[i]);
  }
}
