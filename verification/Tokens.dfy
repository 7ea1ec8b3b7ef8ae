/**
 Conservation of work: rounds never outnumber admissions, and admitted work is only lost in the
 ways the reconciler intends.
 */
module Tokens {
  import opened Refs
  import opened Objects
  import opened Guard
  import opened Job
  import opened Machine
  import opened Justified
  import opened Ledger

  /** Counters for the workloads that `p` selects. */
  ghost function FiringOf(p: Key -> bool): Event -> nat {
    (e: Event) => if e.Firing? && p(e.key) then 1 else 0
  }

  ghost function AdmissionOf(p: Key -> bool): Event -> nat {
    (e: Event) => if e.Admission? && p(e.key) then 1 else 0
  }

  ghost function PendingOf(p: Key -> bool): Token -> nat {
    (tok: Token) => if !HasFired(tok.phase) && p(tok.key) then 1 else 0
  }

  ghost predicate Conserved(p: Key -> bool, s: State) {
    Sum(FiringOf(p), s.log) + Sum(PendingOf(p), s.work) <= Sum(AdmissionOf(p), s.log)
  }

  /** Restarts the watch admits are restarts made. */
  ghost function HopOf(): Event -> nat {
    (e: Event) => if e.Admission? && e.origin.FromRestart? then 1 else 0
  }

  ghost predicate HopsCounted(s: State) {
    Sum(HopOf(), s.log) <= Sum(IsRestart(), s.log)
  }

  lemma AdmitSums(p: Key -> bool, s: State, k: Key, origin: Origin)
    ensures var t := Admit(s, k, origin);
            && Sum(FiringOf(p), t.log) == Sum(FiringOf(p), s.log)
            && Sum(AdmissionOf(p), t.log) == Sum(AdmissionOf(p), s.log) + (if p(k) then 1 else 0)
            && Sum(PendingOf(p), t.work) <= Sum(PendingOf(p), s.work) + (if p(k) then 1 else 0)
            && Sum(HopOf(), t.log) == Sum(HopOf(), s.log) + (if origin.FromRestart? then 1 else 0)
            && Sum(IsRestart(), t.log) == Sum(IsRestart(), s.log)
  {
    var e, tok := Admission(k, origin), Token(k, Ready, |s.log|);
    SumSnoc(FiringOf(p), s.log, e);
    SumSnoc(AdmissionOf(p), s.log, e);
    SumSnoc(PendingOf(p), s.work, tok);
    SumSnoc(HopOf(), s.log, e);
    SumSnoc(IsRestart(), s.log, e);
  }

  lemma {:induction false} RequeueSums(p: Key -> bool, work: seq<Token>, i: nat, phase: Phase)
    requires i < |work| && !HasFired(work[i].phase) && !phase.Running?
    ensures Sum(PendingOf(p), Requeue(work, i, phase)) <= Sum(PendingOf(p), work)
  {
    SumAt(PendingOf(p), work, i, work[i].(phase := phase));
  }

  lemma {:induction false} PlacedSums(p: Key -> bool, work: seq<Token>, i: nat, stage: Stage, after: Stage, cause: nat)
    requires i < |work| && work[i].phase == Running(stage)
    requires after.Done? && Wakes(OutcomeOf(after.end)) ==> !HasFired(Running(stage))
    requires !after.Done? ==> (HasFired(Running(after)) <==> HasFired(Running(stage)) || Fires(stage, after))
    ensures Sum(PendingOf(p), Placed(work, i, after, cause)) + (if Fires(stage, after) && p(work[i].key) then 1 else 0)
              <= Sum(PendingOf(p), work)
  {
    SumAt(PendingOf(p), work, i, work[i].(phase := Running(after), cause := cause));
    if after.Done? && Wakes(OutcomeOf(after.end)) {
      RequeueSums(p, work, i, Delayed);
    }
  }

  lemma RecordedCounts(p: Key -> bool, s: State, tok: Token, stage: Stage, after: Stage, wx: Weather)
    ensures var log := s.log + Recorded(s, tok, stage, after, wx);
            && Sum(FiringOf(p), log) == Sum(FiringOf(p), s.log) + (if Fires(stage, after) && p(tok.key) then 1 else 0)
            && Sum(AdmissionOf(p), log) == Sum(AdmissionOf(p), s.log)
            && Sum(HopOf(), log) == Sum(HopOf(), s.log)
            && Sum(IsRestart(), log) == Sum(IsRestart(), s.log) + (if Restarts(s.store, stage, wx) then 1 else 0)
  {
    var events := Recorded(s, tok, stage, after, wx);
    if events == [] {
      assert s.log + events == s.log;
    } else {
      SumSnoc(FiringOf(p), s.log, events[0]);
      SumSnoc(AdmissionOf(p), s.log, events[0]);
      SumSnoc(HopOf(), s.log, events[0]);
      SumSnoc(IsRestart(), s.log, events[0]);
    }
  }

  lemma WorkConserves(cfg: Config, p: Key -> bool, s: State, i: nat, wx: Weather)
    requires Conserved(p, s) && HopsCounted(s)
    requires Possible(cfg, wx) && i < |s.work| && s.work[i].phase.Running? && !s.work[i].phase.stage.Done?
    ensures Conserved(p, WorkOn(cfg, s, i, wx)) && HopsCounted(WorkOn(cfg, s, i, wx))
  {
    hide Advance, Placed, Recorded, Fires, HasFired, Admit, Reacts;
    var tok := s.work[i];
    var stage := tok.phase.stage;
    var (store, after) := Advance(cfg, tok.key, s.store, stage, wx);
    var cause := if Fires(stage, after) then |s.log| else tok.cause;
    var s' := State(s.store, Placed(s.work, i, after, cause), s.log + Recorded(s, tok, stage, after, wx));
    AdvanceShape(cfg, tok.key, s.store, stage, wx);
    PlacedSums(p, s.work, i, stage, after, cause);
    RecordedCounts(p, s, tok, stage, after, wx);
    if stage.Triggering? && !Restarts(s.store, stage, wx) {
      FailureWritesNothing(cfg, tok.key, s.store, stage, wx);
      NothingToObserve(cfg, s', Touched(tok.key, stage), OriginOf(s, tok, stage));
    }
    AdmitSums(p, s'.(store := store), Touched(tok.key, stage), OriginOf(s, tok, stage));
  }

  lemma {:induction false} StepConserves(cfg: Config, p: Key -> bool, s: State, a: Action)
    requires History(cfg, s) && Conserved(p, s) && HopsCounted(s)
    ensures Conserved(p, Step(cfg, s, a)) && HopsCounted(Step(cfg, s, a))
  {
    hide WorkOn, Linked, Admit, Requeue, Reacts;
    if Enabled(cfg, s, a) {
      match a
      case Update(k, object') => AdmitSums(p, s.(store := s.store[k := object']), k, FromOutside);
      case Create(k, object') =>
      case Delete(k) => AdmitSums(p, s.(store := s.store - {k}), k, FromOutside);
      case Wake(i) => RequeueSums(p, s.work, i, Ready);
      case Start(i) => SumAt(PendingOf(p), s.work, i, s.work[i].(phase := Running(Fetching)));
      case Work(i, wx) =>
        assert TokenLinked(s.log, s.work[i]);
        WorkConserves(cfg, p, s, i, wx);
    }
  }

  lemma {:induction false} RunsConserve(cfg: Config, p: Key -> bool, s: State, run: seq<Action>)
    requires Fresh(s)
    ensures Conserved(p, Exec(cfg, s, run)) && HopsCounted(Exec(cfg, s, run))
  {
    if run != [] {
      var before := run[..|run| - 1];
      RunsConserve(cfg, p, s, before);
      RunsKeepHistory(cfg, s, before);
      StepConserves(cfg, p, Exec(cfg, s, before), run[|run| - 1]);
    }
  }

  /**
   In every run, for every workload: the rounds of restarts it fired, plus its pending work, never
   exceed the events the watch admitted for it.
   */
  lemma {:induction false} RoundsWithinAdmissions(cfg: Config, s: State, run: seq<Action>, v: Key)
    requires Fresh(s)
    ensures var t := Exec(cfg, s, run);
            Sum(FiringOf(k => k == v), t.log) + Sum(PendingOf(k => k == v), t.work) <= Sum(AdmissionOf(k => k == v), t.log)
  {
    RunsConserve(cfg, k => k == v, s, run);
  }

  /** Admissions that no restart caused. */
  ghost function OwnAdmission(): Event -> nat {
    (e: Event) => if e.Admission? && !e.origin.FromRestart? then 1 else 0
  }

  lemma {:induction false} AdmissionsSplit(log: seq<Event>)
    ensures Sum(AdmissionOf(k => true), log) == Sum(OwnAdmission(), log) + Sum(HopOf(), log)
  {
    if log != [] {
      AdmissionsSplit(log[..|log| - 1]);
    }
  }

  /**
   With an unchanging graph, all rounds ever fired are paid for by the admissions no restart caused
   and the walks they brought in. (How many such admissions there can be is the subject of Finite.)
   */
  lemma {:induction false} RoundsArePaidFor(cfg: Config, s: State, run: seq<Action>)
    requires cfg.lastObserved !in cfg.kinds && Fresh(s) && GraphKeptThroughout(cfg, s, run)
    ensures var g, t := GraphOf(cfg, s.store), Exec(cfg, s, run);
            Sum(FiringOf(k => true), t.log) <= Sum(OwnAdmission(), t.log) + Sum(CreditOf(g), t.log)
  {
    var p: Key -> bool := k => true;
    RunsConserve(cfg, p, s, run);
    CascadeLedger(cfg, s, run);
    AdmissionsSplit(Exec(cfg, s, run).log);
    RestartsAreTriggers(Exec(cfg, s, run).log);
    assert p == (k => true);
  }
}
