/**
 A workload's turns: from the step in which the queue hands it to a reconciler until that reconcile
 ends. At most one turn of a workload is on at a time, so "the reconcile begun in step m" is
 well defined.
 */
module Turns {
  import opened Refs
  import opened Objects
  import opened Job
  import opened Machine

  ghost predicate Reconciling(s: State, v: Key) {
    exists i :: 0 <= i < |s.work| && s.work[i].key == v && s.work[i].phase.Running?
  }

  /** No two tokens of one workload are being reconciled. */
  ghost predicate OneTurn(work: seq<Token>) {
    forall i, j | 0 <= i < j < |work| && work[i].phase.Running? && work[j].phase.Running? :: work[i].key != work[j].key
  }

  /** The queue hands out work for `v`. */
  ghost predicate Starts(cfg: Config, s: State, a: Action, v: Key) {
    a.Start? && Enabled(cfg, s, a) && s.work[a.i].key == v
  }

  ghost predicate StartsAt(cfg: Config, s: State, run: seq<Action>, m: nat, v: Key) {
    m < |run| && Starts(cfg, Exec(cfg, s, run[..m]), run[m], v)
  }

  /** The turn of `v` that begins in step `m` is still on at point `n` of the run. */
  ghost predicate TurnOf(cfg: Config, s: State, run: seq<Action>, m: nat, n: nat, v: Key)
    requires n <= |run|
  {
    && m < n
    && StartsAt(cfg, s, run, m, v)
    && forall j | m < j <= n :: Reconciling(Exec(cfg, s, run[..j]), v)
  }

  // ---------- where running tokens come from ----------

  /** `tok` is what step `i` of the reconcile makes of the token it works on. */
  ghost predicate IsAdvanced(cfg: Config, s: State, i: nat, wx: Weather, tok: Token)
    requires Enabled(cfg, s, Work(i, wx))
  {
    var stage := s.work[i].phase.stage;
    var after := Advance(cfg, s.work[i].key, s.store, stage, wx).1;
    tok == Token(s.work[i].key, Running(after), if Fires(stage, after) then |s.log| else s.work[i].cause)
  }

  /** A running token of the next state has just been handed out, has just been advanced, or was there before. */
  lemma RunningOrigin(cfg: Config, s: State, a: Action, j: nat)
    requires j < |Step(cfg, s, a).work| && Step(cfg, s, a).work[j].phase.Running?
    ensures var tok := Step(cfg, s, a).work[j];
            || (Starts(cfg, s, a, tok.key) && tok.phase == Running(Fetching))
            || (a.Work? && Enabled(cfg, s, a) && IsAdvanced(cfg, s, a.i, a.wx, tok))
            || exists m :: 0 <= m < |s.work| && s.work[m] == tok && !(a.Work? && Enabled(cfg, s, a) && m == a.i)
  {
    hide Advance;
    var work := Step(cfg, s, a).work;
    if Enabled(cfg, s, a) {
      match a
      case Wake(i) =>
        if work == Remove(s.work, i) && j >= i {
          assert s.work[j + 1] == work[j];
        }
      case Work(i, wx) =>
        WorkOrigin(cfg, s, i, wx, j);
      case _ =>
    }
  }

  lemma WorkOrigin(cfg: Config, s: State, i: nat, wx: Weather, j: nat)
    requires Enabled(cfg, s, Work(i, wx))
    requires j < |WorkOn(cfg, s, i, wx).work| && WorkOn(cfg, s, i, wx).work[j].phase.Running?
    ensures var tok := WorkOn(cfg, s, i, wx).work[j];
            || IsAdvanced(cfg, s, i, wx, tok)
            || exists m :: 0 <= m < |s.work| && s.work[m] == tok && m != i
  {
    hide Advance;
    var work := WorkOn(cfg, s, i, wx).work;
    if j >= i && j + 1 < |s.work| && s.work[j + 1] == work[j] {
    } else if j < |s.work| && s.work[j] == work[j] && j != i {
    }
  }

  lemma WorkStore(cfg: Config, s: State, i: nat, wx: Weather)
    requires Enabled(cfg, s, Work(i, wx))
    ensures Step(cfg, s, Work(i, wx)).store == Advance(cfg, s.work[i].key, s.store, s.work[i].phase.stage, wx).0
  {
    hide Advance;
  }

  // ---------- one turn at a time ----------

  lemma RemoveKeepsOneTurn(work: seq<Token>, i: nat)
    requires OneTurn(work) && i < |work|
    ensures OneTurn(Remove(work, i))
  {
    var rest := Remove(work, i);
    forall x, y | 0 <= x < y < |rest| && rest[x].phase.Running? && rest[y].phase.Running? ensures rest[x].key != rest[y].key {
      assert rest[x] == work[if x < i then x else x + 1] && rest[y] == work[if y < i then y else y + 1];
    }
  }

  lemma PlacedKeepsOneTurn(work: seq<Token>, i: nat, stage: Stage, cause: nat)
    requires OneTurn(work) && i < |work| && work[i].phase.Running?
    ensures OneTurn(Placed(work, i, stage, cause))
  {
    RemoveKeepsOneTurn(work, i);
  }

  lemma StepKeepsOneTurn(cfg: Config, s: State, a: Action)
    requires OneTurn(s.work)
    ensures OneTurn(Step(cfg, s, a).work)
  {
    hide Advance, Placed;
    if Enabled(cfg, s, a) {
      match a
      case Wake(i) =>
        RemoveKeepsOneTurn(s.work, i);
      case Work(i, wx) =>
        var tok := s.work[i];
        var after := Advance(cfg, tok.key, s.store, tok.phase.stage, wx).1;
        PlacedKeepsOneTurn(s.work, i, after, if Fires(tok.phase.stage, after) then |s.log| else tok.cause);
      case _ =>
    }
  }

  lemma {:induction false} RunsKeepOneTurn(cfg: Config, s: State, run: seq<Action>)
    requires Fresh(s)
    ensures OneTurn(Exec(cfg, s, run).work)
  {
    if run != [] {
      RunsKeepOneTurn(cfg, s, run[..|run| - 1]);
      StepKeepsOneTurn(cfg, Exec(cfg, s, run[..|run| - 1]), run[|run| - 1]);
    }
  }

  // ---------- turns along a run ----------

  lemma TurnKept(cfg: Config, s: State, run: seq<Action>, more: seq<Action>, m: nat, n: nat, v: Key)
    requires n <= |run| && TurnOf(cfg, s, run, m, n, v)
    ensures TurnOf(cfg, s, run + more, m, n, v)
  {
    hide Exec, Reconciling, Starts;
    assert forall j | 0 <= j <= n :: (run + more)[..j] == run[..j];
  }

  lemma TurnGoesOn(cfg: Config, s: State, run: seq<Action>, a: Action, m: nat, v: Key)
    requires TurnOf(cfg, s, run, m, |run|, v) && Reconciling(Exec(cfg, s, run + [a]), v)
    ensures TurnOf(cfg, s, run + [a], m, |run| + 1, v)
  {
    hide Exec, Reconciling, Starts;
    TurnKept(cfg, s, run, [a], m, |run|, v);
    assert (run + [a])[..|run| + 1] == run + [a];
  }

  lemma TurnBegins(cfg: Config, s: State, run: seq<Action>, a: Action, v: Key)
    requires Starts(cfg, Exec(cfg, s, run), a, v)
    ensures TurnOf(cfg, s, run + [a], |run|, |run| + 1, v)
  {
    hide Exec;
    assert (run + [a])[..|run|] == run && (run + [a])[..|run| + 1] == run + [a];
    ExecSnoc(cfg, s, run, a);
    var t := Exec(cfg, s, run + [a]);
    assert t.work[a.i].key == v && t.work[a.i].phase.Running?;
  }

  /** Every workload being reconciled is in a turn, which begins in exactly one step. */
  lemma {:induction false} EveryReconcileHasATurn(cfg: Config, s: State, run: seq<Action>, v: Key) returns (m: nat)
    requires Fresh(s) && Reconciling(Exec(cfg, s, run), v)
    ensures TurnOf(cfg, s, run, m, |run|, v)
    ensures forall k | 0 <= k < |run| && TurnOf(cfg, s, run, k, |run|, v) :: k == m
  {
    assert run != [];
    var before, a := run[..|run| - 1], run[|run| - 1];
    var t := Exec(cfg, s, before);
    assert before + [a] == run;
    ExecSnoc(cfg, s, before, a);
    var j :| 0 <= j < |Exec(cfg, s, run).work| && Exec(cfg, s, run).work[j].key == v && Exec(cfg, s, run).work[j].phase.Running?;
    RunningOrigin(cfg, t, a, j);
    if Starts(cfg, t, a, v) {
      m := |before|;
      TurnBegins(cfg, s, before, a, v);
    } else {
      m := EveryReconcileHasATurn(cfg, s, before, v);
      TurnGoesOn(cfg, s, before, a, m, v);
    }
    forall k | 0 <= k < |run| && TurnOf(cfg, s, run, k, |run|, v) ensures k == m {
      TurnsDoNotOverlap(cfg, s, run, k, m, v);
      TurnsDoNotOverlap(cfg, s, run, m, k, v);
    }
  }

  lemma TurnsDoNotOverlap(cfg: Config, s: State, run: seq<Action>, k: nat, m: nat, v: Key)
    requires TurnOf(cfg, s, run, k, |run|, v) && StartsAt(cfg, s, run, m, v)
    ensures m <= k
  {
  }
}
