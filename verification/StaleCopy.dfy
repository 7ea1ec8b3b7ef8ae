/**
 A run in which a Deployment restarts its target although its own current spec has not been
 observed: the spec is written between the read and the check.
 */
module StaleCopy {
  import opened Wrappers
  import opened Text
  import opened Refs
  import opened Extraction
  import opened Objects
  import opened Predicates
  import opened Patches
  import opened Guard
  import opened Job
  import opened Machine
  import opened Rollout

  const KIND_KEY := "d"
  const MARK := "m"
  const SOURCE := Key(DEPLOYMENT, "n", "a")
  const TARGET := Key(DEPLOYMENT, "n", "b")

  const CFG := Config(map[KIND_KEY := DEPLOYMENT], MARK, "r", 5, _ => None, (t: Template) => t.rest)

  /** A Deployment of one replica, up to date as far as its status can tell. */
  function Dep(annotations: Annotations, generation: int, observed: int, rest: string): Object {
    Workload(annotations, generation, observed, Template(map[], rest), DeploymentRollout(Some(1), 1, 1, 1, 0))
  }

  const ANNOTATIONS: Annotations := map[KIND_KEY := "b"]
  const MARKED: Annotations := ANNOTATIONS[MARK := "t"]

  const WX := Weather(true, [KIND_KEY], "t")

  function Initial(): State {
    State(map[SOURCE := Dep(ANNOTATIONS, 1, 1, "v1"), TARGET := Dep(map[], 1, 1, "w")], [], [])
  }

  const COPY := Dep(ANNOTATIONS, 2, 2, "v2")
  const MARKED_COPY := Dep(MARKED, 2, 2, "v2")
  /** A spec no status has observed yet. */
  const UNOBSERVED := Dep(MARKED, 3, 2, "v3")

  /** The cluster with the given source; the target has no dependencies. */
  function Cluster(source: Object): Store {
    map[SOURCE := source, TARGET := Dep(map[], 1, 1, "w")]
  }

  function At(source: Object, phase: Phase): State {
    State(Cluster(source), [Token(SOURCE, phase, 0)], [Admission(SOURCE, FromOutside)])
  }

  /** The source is upgraded, its rollout completes, it is read and marked; then its spec changes again. */
  function Run(): seq<Action> {
    [ Update(SOURCE, Dep(ANNOTATIONS, 2, 1, "v2")),
      Update(SOURCE, COPY),
      Start(0),
      Work(0, WX),
      Work(0, WX),
      Update(SOURCE, UNOBSERVED),
      Work(0, WX) ]
  }

  lemma ReferenceIsTarget()
    ensures TargetsOf(DEPLOYMENT, Items("b"), "n") == Success([TARGET])
  {
    SplitFree("b", ',');
    SplitFree("b", '/');
    assert TrimSpace("b") == "b";
    assert CleanItems([]) == [] && ["b"][1..] == [];
    assert Items("b") == ["b"];
    AfterAfter([TARGET], [], Success([]));
    assert NewTarget(DEPLOYMENT, "b", "n") == Success(TARGET);
    assert TargetsOf(DEPLOYMENT, [], "n") == Success([]);
    assert TargetsOf(DEPLOYMENT, ["b"], "n") == Success([TARGET]);
  }

  lemma TargetsAre(annotations: Annotations)
    requires KIND_KEY in annotations && annotations[KIND_KEY] == "b"
    ensures Possible(CFG, WX)
    ensures Gather([KIND_KEY], CFG.kinds, annotations, "n") == Success([TARGET])
  {
    hide TargetsOf, Items;
    assert CFG.kinds.Keys == {KIND_KEY};
    assert multiset([KIND_KEY]) == multiset({KIND_KEY});
    ReferenceIsTarget();
    assert [KIND_KEY][1..] == [];
    AfterAfter([TARGET], [], Success([]));
    assert Gather([KIND_KEY], CFG.kinds, annotations, "n") == Success([TARGET]);
  }

  /** The guard passes: the target has no dependencies. */
  lemma GuardPasses(source: Key, store: Store)
    requires TARGET in store && store[TARGET].annotations == map[]
    requires Plain(source) && source != TARGET
    ensures Passes(GraphOf(CFG, store), ID(source), [TARGET])
  {
    var g := GraphOf(CFG, store);
    var order := SomeOrder(CFG.kinds.Keys);
    OrderKeys(order, CFG.kinds);
    NoTargetsWithout(order);
    IdsAreIdentity(source, TARGET);
    assert g[TARGET] == Success([]);
  }

  lemma {:induction false} NoTargetsWithout(order: seq<string>)
    requires forall k | k in order :: k in CFG.kinds
    ensures Gather(order, CFG.kinds, map[], "n") == Success([])
  {
    if order != [] {
      NoTargetsWithout(order[1..]);
      AfterAfter([], [], Success([]));
      assert KeyTargets(order[0], CFG.kinds, map[], "n") == Success([]);
    }
  }

  lemma Upgrade()
    ensures Step(CFG, Initial(), Update(SOURCE, Dep(ANNOTATIONS, 2, 1, "v2"))) ==
              At(Dep(ANNOTATIONS, 2, 1, "v2"), Ready)
  {
    var before, after := Dep(ANNOTATIONS, 1, 1, "v1"), Dep(ANNOTATIONS, 2, 1, "v2");
    AdmitsExactly(CFG, before, after);
    assert KIND_KEY in CFG.kinds && KIND_KEY in after.annotations;
    assert Initial().store[SOURCE := after] == Cluster(after);
    assert "v1"[1] != "v2"[1];
  }

  /** An update of the source that no check of the watch reacts to. */
  lemma QuietUpdate(before: Object, after: Object, phase: Phase)
    requires !Admits(CFG, before, after)
    ensures Step(CFG, At(before, phase), Update(SOURCE, after)) == At(after, phase)
  {
    assert Cluster(before)[SOURCE := after] == Cluster(after);
  }

  lemma RolloutCompletes()
    ensures Step(CFG, At(Dep(ANNOTATIONS, 2, 1, "v2"), Ready), Update(SOURCE, COPY)) == At(COPY, Ready)
  {
    AdmitsExactly(CFG, Dep(ANNOTATIONS, 2, 1, "v2"), COPY);
    QuietUpdate(Dep(ANNOTATIONS, 2, 1, "v2"), COPY, Ready);
  }

  lemma Read()
    ensures Step(CFG, At(COPY, Ready), Start(0)) == At(COPY, Running(Fetching))
    ensures Step(CFG, At(COPY, Running(Fetching)), Work(0, WX)) == At(COPY, Running(Marking(COPY)))
  {
    hide Check, Admits, Gather;
    TargetsAre(ANNOTATIONS);
    assert SOURCE in Cluster(COPY);
  }

  lemma MarkIsQuiet()
    ensures Marked(MARK, "t", COPY, COPY) == MARKED_COPY && !Admits(CFG, COPY, MARKED_COPY)
  {
    SetChangesOneKey(ANNOTATIONS, MARK, "t", ANNOTATIONS);
    assert Merge(Diff(map[], map[]), map[]) == map[];
    OwnWriteAdmittedExactly(CFG, COPY, MARKED);
    assert COPY.(annotations := MARKED) == MARKED_COPY;
  }

  lemma MarkAdvances()
    ensures Possible(CFG, WX)
    ensures Advance(CFG, SOURCE, Cluster(COPY), Marking(COPY), WX) == (Cluster(MARKED_COPY), Checking(MARKED_COPY))
  {
    hide Check, Marked, Gather;
    TargetsAre(ANNOTATIONS);
    MarkIsQuiet();
    assert Cluster(COPY)[SOURCE := MARKED_COPY] == Cluster(MARKED_COPY);
  }

  lemma {:induction false} MarkStep()
    ensures Step(CFG, At(COPY, Running(Marking(COPY))), Work(0, WX)) == At(MARKED_COPY, Running(Checking(MARKED_COPY)))
  {
    hide Advance, Admits, Marked;
    MarkAdvances();
    MarkIsQuiet();
  }

  lemma {:induction false} CheckPasses(store: Store)
    requires TARGET in store && store[TARGET].annotations == map[]
    ensures Possible(CFG, WX)
    ensures Check(CFG, SOURCE, store, MARKED_COPY, WX) == Clearing(MARKED_COPY, [TARGET])
  {
    hide Gather, Passes;
    TargetsAre(MARKED);
    GuardPasses(SOURCE, store);
  }

  /** Without the second upgrade the source would fire next; with it, it still does. */
  lemma SecondUpgrade()
    ensures var t := Step(CFG, At(MARKED_COPY, Running(Checking(MARKED_COPY))), Update(SOURCE, UNOBSERVED));
            t.store == Cluster(UNOBSERVED) && FiresNext(CFG, t, 0, WX, SOURCE, MARKED_COPY)
  {
    hide Check, Step;
    var s := At(MARKED_COPY, Running(Checking(MARKED_COPY)));
    CheckPasses(s.store);
    assert s.store[SOURCE := UNOBSERVED] == Cluster(UNOBSERVED);
    SameDeps(CFG, s.store, Cluster(UNOBSERVED));
    LaterSpecIsNotWaitedFor(CFG, s, 0, WX, SOURCE, MARKED_COPY, UNOBSERVED);
    UpdateStores(s, UNOBSERVED);
  }

  lemma UpdateStores(s: State, written: Object)
    requires SOURCE in s.store
    ensures Step(CFG, s, Update(SOURCE, written)).store == s.store[SOURCE := written]
  {
    hide Reacts;
  }

  lemma {:induction false} FiresAnyway(s: State)
    requires FiresNext(CFG, s, 0, WX, SOURCE, MARKED_COPY)
    ensures var t := Step(CFG, s, Work(0, WX));
            t.store == s.store && |t.log| > 0 && t.log[|t.log| - 1].Firing? && t.log[|t.log| - 1].key == SOURCE
  {
    hide Check, Admits;
  }

  lemma {:induction false} ExecIsStepwise(s: State, run: seq<Action>, states: seq<State>)
    requires |states| == |run| + 1 && states[0] == s
    requires forall i | 0 <= i < |run| :: Step(CFG, states[i], run[i]) == states[i + 1]
    ensures Exec(CFG, s, run) == states[|run|]
  {
    if run != [] {
      hide Step;
      var n := |run| - 1;
      ExecIsStepwise(s, run[..n], states[..n + 1]);
    }
  }

  lemma NotRolledOut()
    ensures Fresh(Initial()) && !RolledOut(UNOBSERVED)
  {
  }

  /**
   The run ends with the source firing, although the spec it has in the cluster by then has not
   been observed by any status, let alone rolled out.
   */
  lemma UnobservedSpecDoesNotStopTheFiring()
    ensures var t := Exec(CFG, Initial(), Run());
            && Fresh(Initial())
            && t.store == Cluster(UNOBSERVED) && !RolledOut(UNOBSERVED)
            && |t.log| > 0 && t.log[|t.log| - 1].Firing? && t.log[|t.log| - 1].key == SOURCE
  {
    hide Step, FiresNext, At, Dep, Cluster, RolledOut, Initial;
    NotRolledOut();
    Upgrade();
    RolloutCompletes();
    Read();
    MarkStep();
    SecondUpgrade();
    var run := Run();
    var s6 := Step(CFG, At(MARKED_COPY, Running(Checking(MARKED_COPY))), run[5]);
    FiresAnyway(s6);
    ExecIsStepwise(Initial(), run,
                   [ Initial(), At(Dep(ANNOTATIONS, 2, 1, "v2"), Ready), At(COPY, Ready), At(COPY, Running(Fetching)),
                     At(COPY, Running(Marking(COPY))), At(MARKED_COPY, Running(Checking(MARKED_COPY))),
                     s6, Step(CFG, s6, run[6]) ]);
  }
}
