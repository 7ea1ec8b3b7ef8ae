/**
 Rounds of restarts in every run: each firing leads to one attempt for each of its targets, in order,
 and to no other; and it is over only when all of them have been made, whatever fails meanwhile.
 */
module Rounds {
  import opened Refs
  import opened Objects
  import opened Patches
  import opened Job
  import opened Machine
  import opened Justified
  import opened Turns
  import opened WakeUps

  /** The restarts attempted on account of the firing at history index `f`, in order, with their success. */
  ghost function TriggersOf(log: seq<Event>, f: nat): seq<(Key, bool)> {
    if log == [] then []
    else
      var e := log[|log| - 1];
      TriggersOf(log[..|log| - 1], f) + if e.Trigger? && e.cause == f then [(e.key, e.ok)] else []
  }

  /** What a fired token remembers is what was attempted on its account. */
  ghost predicate Remembers(log: seq<Event>, tok: Token) {
    match tok.phase
    case Running(Clearing(_, targets)) => targets != [] && TriggersOf(log, tok.cause) == []
    case Running(Triggering(targets, oks)) => |oks| < |targets| && AreFirst(TriggersOf(log, tok.cause), targets, oks)
    case _ => true
  }

  /** The round of a firing is under way. */
  ghost predicate UnderWay(work: seq<Token>, f: nat) {
    exists i :: 0 <= i < |work| && HasFired(work[i].phase) && work[i].cause == f
  }

  ghost predicate Complete(log: seq<Event>, f: nat)
    requires f < |log| && log[f].Firing?
  {
    var made := TriggersOf(log, f);
    |made| == |log[f].targets| && forall i | 0 <= i < |made| :: made[i].0 == log[f].targets[i]
  }

  ghost predicate AllRemember(s: State) {
    forall i | 0 <= i < |s.work| :: Remembers(s.log, s.work[i])
  }

  ghost predicate AllComplete(s: State) {
    forall f | 0 <= f < |s.log| && s.log[f].Firing? && !UnderWay(s.work, f) :: Complete(s.log, f)
  }

  ghost predicate InOrder(s: State) {
    AllRemember(s) && AllComplete(s)
  }

  // ---------- what the history gains ----------

  lemma TriggersSnoc(log: seq<Event>, e: Event, f: nat)
    ensures TriggersOf(log + [e], f) == TriggersOf(log, f) + if e.Trigger? && e.cause == f then [(e.key, e.ok)] else []
  {
    assert (log + [e])[..|log|] == log;
  }

  /** Nothing was attempted on account of a firing still to come. */
  lemma {:induction false} NoTriggersYet(cfg: Config, log: seq<Event>, n: nat, f: nat)
    requires AllLinked(cfg, log) && n <= |log| <= f
    ensures TriggersOf(log[..n], f) == []
  {
    if n > 0 {
      NoTriggersYet(cfg, log, n - 1, f);
      assert log[..n][..n - 1] == log[..n - 1];
      assert Linked(cfg, log, log[n - 1], n - 1);
    }
  }

  /** An action that is no step of a reconcile attempts nothing. */
  lemma OthersTriggerNothing(cfg: Config, s: State, a: Action, f: nat)
    requires !a.Work?
    ensures TriggersOf(Step(cfg, s, a).log, f) == TriggersOf(s.log, f)
  {
    hide Reacts;
    if FromEnvironment(a) {
      TriggersSnoc(s.log, Admission(a.key, FromOutside), f);
    }
  }

  /** A step of a reconcile attempts what its stage says, on account of its token's firing. */
  lemma WorkTriggers(cfg: Config, s: State, i: nat, wx: Weather, f: nat)
    requires Enabled(cfg, s, Work(i, wx))
    ensures var tok := s.work[i];
            TriggersOf(Step(cfg, s, Work(i, wx)).log, f) ==
              TriggersOf(s.log, f) + if tok.cause == f then AttemptIn(tok.phase.stage, s.store, wx) else []
  {
    hide Advance, Placed, Reacts, TriggersOf;
    var tok := s.work[i];
    var stage := tok.phase.stage;
    var (store, after) := Advance(cfg, tok.key, s.store, stage, wx);
    var events := Recorded(s, tok, stage, after, wx);
    if events != [] {
      TriggersSnoc(s.log, events[0], f);
    } else {
      assert s.log + events == s.log;
    }
    TriggersSnoc(s.log + events, Admission(Touched(tok.key, stage), OriginOf(s, tok, stage)), f);
  }

  lemma OldFiring(cfg: Config, s: State, a: Action, f: nat)
    requires f < |s.log|
    ensures f < |Step(cfg, s, a).log| && Step(cfg, s, a).log[f] == s.log[f]
  {
    hide Advance, Placed, Reacts;
  }

  /** Only a firing is recorded as one. */
  lemma NewFiring(cfg: Config, s: State, a: Action, f: nat)
    requires |s.log| <= f < |Step(cfg, s, a).log| && Step(cfg, s, a).log[f].Firing?
    ensures a.Work? && Enabled(cfg, s, a) && f == |s.log|
    ensures Fires(s.work[a.i].phase.stage, Advance(cfg, s.work[a.i].key, s.store, s.work[a.i].phase.stage, a.wx).1)
  {
    hide Advance, Placed, Reacts;
  }

  /** A reconcile that goes on keeps its place. */
  lemma AdvancedInPlace(cfg: Config, s: State, i: nat, wx: Weather)
    requires Enabled(cfg, s, Work(i, wx))
    requires !Advance(cfg, s.work[i].key, s.store, s.work[i].phase.stage, wx).1.Done?
    ensures var work := Step(cfg, s, Work(i, wx)).work;
            i < |work| && IsAdvanced(cfg, s, i, wx, work[i])
  {
    hide Advance, Reacts;
  }

  // ---------- the invariant ----------

  lemma AdvancedRemembers(cfg: Config, s: State, i: nat, wx: Weather, tok: Token)
    requires History(cfg, s) && AllRemember(s)
    requires Enabled(cfg, s, Work(i, wx)) && IsAdvanced(cfg, s, i, wx, tok)
    ensures Remembers(Step(cfg, s, Work(i, wx)).log, tok)
  {
    hide Step, Check, TriggersOf, Linked, Marked, Unmarked, Restarted;
    var stage := s.work[i].phase.stage;
    assert Remembers(s.log, s.work[i]);
    WorkTriggers(cfg, s, i, wx, tok.cause);
    if stage.Checking? {
      ClearingHasTargets(cfg, s.work[i].key, s.store, stage.read, wx);
      NoTriggersYet(cfg, s.log, |s.log|, |s.log|);
      assert s.log[..|s.log|] == s.log;
    }
  }

  /** A step of another reconcile attempts nothing on account of this token's firing. */
  lemma OtherAttempts(cfg: Config, s: State, i: nat, wx: Weather, m: nat)
    requires History(cfg, s) && OneTurn(s.work) && Enabled(cfg, s, Work(i, wx))
    requires m < |s.work| && m != i && HasFired(s.work[m].phase)
    ensures TriggersOf(Step(cfg, s, Work(i, wx)).log, s.work[m].cause) == TriggersOf(s.log, s.work[m].cause)
  {
    hide Step, Linked, TriggersOf;
    WorkTriggers(cfg, s, i, wx, s.work[m].cause);
    assert TokenLinked(s.log, s.work[i]) && TokenLinked(s.log, s.work[m]);
  }

  lemma StepRemembers(cfg: Config, s: State, a: Action)
    requires History(cfg, s) && OneTurn(s.work) && AllRemember(s)
    ensures AllRemember(Step(cfg, s, a))
  {
    hide Step, Linked, TriggersOf, IsAdvanced, Enabled;
    var t := Step(cfg, s, a);
    forall j | 0 <= j < |t.work| ensures Remembers(t.log, t.work[j]) {
      if HasFired(t.work[j].phase) {
        RunningOrigin(cfg, s, a, j);
        if a.Work? && Enabled(cfg, s, a) && IsAdvanced(cfg, s, a.i, a.wx, t.work[j]) {
          AdvancedRemembers(cfg, s, a.i, a.wx, t.work[j]);
        } else {
          var m :| 0 <= m < |s.work| && s.work[m] == t.work[j] && !(a.Work? && Enabled(cfg, s, a) && m == a.i);
          SameTriggers(cfg, s, a, m);
          assert Remembers(s.log, s.work[m]);
        }
      }
    }
  }

  lemma SameTriggers(cfg: Config, s: State, a: Action, m: nat)
    requires History(cfg, s) && OneTurn(s.work) && m < |s.work| && HasFired(s.work[m].phase)
    requires !(a.Work? && Enabled(cfg, s, a) && m == a.i)
    ensures TriggersOf(Step(cfg, s, a).log, s.work[m].cause) == TriggersOf(s.log, s.work[m].cause)
  {
    hide WorkOn, TriggersOf, Linked;
    if !a.Work? {
      OthersTriggerNothing(cfg, s, a, s.work[m].cause);
    } else if Enabled(cfg, s, a) {
      OtherAttempts(cfg, s, a.i, a.wx, m);
    }
  }

  /** This step ends the reconcile of token `m`. */
  ghost predicate EndsAt(cfg: Config, s: State, a: Action, m: nat) {
    && a.Work? && Enabled(cfg, s, a) && a.i == m
    && Advance(cfg, s.work[m].key, s.store, s.work[m].phase.stage, a.wx).1.Done?
  }

  lemma StaysUnderWay(cfg: Config, s: State, a: Action, m: nat)
    requires m < |s.work| && HasFired(s.work[m].phase) && !EndsAt(cfg, s, a, m)
    ensures UnderWay(Step(cfg, s, a).work, s.work[m].cause)
  {
    hide WorkOn, Check, Reacts;
    var t := Step(cfg, s, a);
    if !ActsOn(a, m) {
      TokenSurvives(cfg, s, a, m);
      var j :| 0 <= j < |t.work| && t.work[j] == s.work[m];
    } else if Enabled(cfg, s, a) {
      AdvancedInPlace(cfg, s, m, a.wx);
      assert HasFired(t.work[m].phase) && t.work[m].cause == s.work[m].cause;
    }
  }

  /** A fired reconcile ends with the attempt for its last target. */
  lemma EndsWithLastTarget(cfg: Config, s: State, a: Action, m: nat)
    requires m < |s.work| && HasFired(s.work[m].phase) && Remembers(s.log, s.work[m]) && EndsAt(cfg, s, a, m)
    ensures s.work[m].phase.stage.Triggering?
    ensures |s.work[m].phase.stage.oks| + 1 == |s.work[m].phase.stage.targets|
  {
    hide Check, TriggersOf;
  }

  lemma LastAttemptCompletes(cfg: Config, s: State, i: nat, wx: Weather)
    requires History(cfg, s) && AllRemember(s) && Enabled(cfg, s, Work(i, wx))
    requires var stage := s.work[i].phase.stage; stage.Triggering? && |stage.oks| + 1 == |stage.targets|
    ensures var t, f := Step(cfg, s, Work(i, wx)), s.work[i].cause;
            f < |t.log| && t.log[f].Firing? && Complete(t.log, f)
  {
    hide Step, Linked, TriggersOf;
    assert TokenLinked(s.log, s.work[i]) && Remembers(s.log, s.work[i]);
    var f := s.work[i].cause;
    OldFiring(cfg, s, Work(i, wx), f);
    WorkTriggers(cfg, s, i, wx, f);
  }

  lemma StayComplete(cfg: Config, s: State, a: Action, f: nat)
    requires f < |s.log| && s.log[f].Firing? && !UnderWay(s.work, f) && Complete(s.log, f)
    ensures f < |Step(cfg, s, a).log| && Step(cfg, s, a).log[f].Firing? && Complete(Step(cfg, s, a).log, f)
  {
    hide WorkOn, TriggersOf;
    OldFiring(cfg, s, a, f);
    if !a.Work? {
      OthersTriggerNothing(cfg, s, a, f);
    } else if Enabled(cfg, s, a) {
      WorkTriggers(cfg, s, a.i, a.wx, f);
      if s.work[a.i].cause == f {
        assert !HasFired(s.work[a.i].phase);
      }
    }
  }

  lemma FiringIsUnderWay(cfg: Config, s: State, a: Action, f: nat)
    requires |s.log| <= f < |Step(cfg, s, a).log| && Step(cfg, s, a).log[f].Firing?
    ensures UnderWay(Step(cfg, s, a).work, f)
  {
    hide Step, Advance;
    NewFiring(cfg, s, a, f);
    AdvancedInPlace(cfg, s, a.i, a.wx);
    assert HasFired(Step(cfg, s, a).work[a.i].phase) && Step(cfg, s, a).work[a.i].cause == f;
  }

  lemma StepCompletes(cfg: Config, s: State, a: Action)
    requires History(cfg, s) && OneTurn(s.work) && InOrder(s)
    ensures AllComplete(Step(cfg, s, a))
  {
    hide Step, Linked, TriggersOf, Complete, UnderWay, OneTurn, Remembers;
    var t := Step(cfg, s, a);
    forall f | 0 <= f < |t.log| && t.log[f].Firing? && !UnderWay(t.work, f) ensures Complete(t.log, f) {
      if f >= |s.log| {
        FiringIsUnderWay(cfg, s, a, f);
      } else {
        OldFiring(cfg, s, a, f);
        if UnderWay(s.work, f) {
          var m := TokenOf(s.work, f);
          assert Remembers(s.log, s.work[m]);
          if EndsAt(cfg, s, a, m) {
            EndsWithLastTarget(cfg, s, a, m);
            LastAttemptCompletes(cfg, s, m, a.wx);
          } else {
            StaysUnderWay(cfg, s, a, m);
          }
        } else {
          StayComplete(cfg, s, a, f);
        }
      }
    }
  }

  lemma TokenOf(work: seq<Token>, f: nat) returns (m: nat)
    requires UnderWay(work, f)
    ensures m < |work| && HasFired(work[m].phase) && work[m].cause == f
  {
    m :| 0 <= m < |work| && HasFired(work[m].phase) && work[m].cause == f;
  }

  lemma {:induction false} RunsStayInOrder(cfg: Config, s: State, run: seq<Action>)
    requires Fresh(s)
    ensures InOrder(Exec(cfg, s, run))
  {
    hide Step;
    if run != [] {
      var before := run[..|run| - 1];
      var t := Exec(cfg, s, before);
      RunsStayInOrder(cfg, s, before);
      RunsKeepHistory(cfg, s, before);
      RunsKeepOneTurn(cfg, s, before);
      StepRemembers(cfg, t, run[|run| - 1]);
      StepCompletes(cfg, t, run[|run| - 1]);
    }
  }

  /**
   In every run, what is attempted on account of a firing is its targets, in order, each once: all of
   them once its round is over, and the first of them as long as it is under way. No failure, retry,
   interleaving or further event adds an attempt or leaves one out.
   */
  lemma {:induction false} RoundsAreExact(cfg: Config, s: State, run: seq<Action>, f: nat)
    requires Fresh(s) && f < |Exec(cfg, s, run).log| && Exec(cfg, s, run).log[f].Firing?
    ensures var t := Exec(cfg, s, run);
            var made, targets := TriggersOf(t.log, f), t.log[f].targets;
            && |made| <= |targets|
            && (forall i | 0 <= i < |made| :: made[i].0 == targets[i])
            && (!UnderWay(t.work, f) ==> |made| == |targets|)
  {
    hide Exec, TriggersOf, Linked, UnderWay;
    RunsStayInOrder(cfg, s, run);
    RunsKeepHistory(cfg, s, run);
    var t := Exec(cfg, s, run);
    if UnderWay(t.work, f) {
      var m := TokenOf(t.work, f);
      assert TokenLinked(t.log, t.work[m]) && Remembers(t.log, t.work[m]);
    } else {
      assert Complete(t.log, f);
    }
  }
}
