/**
 The reconciler as it runs: dependency extraction, the cycle search over slices that share backing
 arrays, and one reconcile (internal/controller/base_reconciler.go, cycle_detection.go and the
 `Reconcile` method of each controller). Every method is tied to the specification in Extraction,
 Guard and Job.
 */
module Reconciler {
  import opened Wrappers
  import opened Text
  import opened Refs
  import opened Extraction
  import opened Objects
  import opened Patches
  import opened Guard
  import opened Job
  import opened Session
  import opened Client
  import opened GoSlice

  datatype SearchError = FetchError(id: string) | ExtractError(error: RefError)

  datatype CycleError =
    | Direct(id: string)
    | Indirect(path: seq<string>)
    | CheckFailed(error: SearchError)

  /** A chain of dependencies. */
  ghost predicate IsTrail(g: Graph, trail: seq<Key>) {
    && |trail| > 0
    && forall i | 0 <= i < |trail| - 1 :: trail[i] in g && g[trail[i]].Success? && trail[i + 1] in g[trail[i]].value
  }

  /** Beyond the first `n`, every identifier but the last is new; the last repeats one, or is the source. */
  ghost predicate Lasso(n: nat, src: string, ids: seq<string>) {
    && n < |ids|
    && (forall i | n <= i < |ids| - 1 :: ids[i] !in ids[..i])
    && (ids[|ids| - 1] in ids[..|ids| - 1] || ids[|ids| - 1] == src)
  }

  /** A reported cycle is real: all but its last element differ, and the last occurs earlier. */
  ghost predicate RealCycle(src: string, ids: seq<string>) {
    && |ids| > 1 && ids[0] == src
    && Distinct(ids[..|ids| - 1])
    && ids[|ids| - 1] in ids[..|ids| - 1]
  }

  lemma LassoIsRealCycle(src: string, ids: seq<string>)
    requires |ids| > 0 && ids[0] == src && Lasso(1, src, ids)
    ensures RealCycle(src, ids)
  {
    var front := ids[..|ids| - 1];
    forall i, j | 0 <= i < j < |front| ensures front[i] != front[j] {
      assert front[j] == ids[j] && front[i] == ids[..j][i];
    }
    assert front[0] == src;
  }

  /** What a search from `t` below `path` may report, having made the Gets numbered `from` to `to`. */
  datatype Report = Report(found: bool, cycle: seq<string>, failed: bool, trail: seq<Key>, from: nat, to: nat)

  /**
   Apart from an API failure nothing is reported exactly if the target is clear, with one Get per
   walk; a reported cycle extends the path along dependencies until it closes; an error has a
   missing or unreadable workload at the end of a chain of dependencies, or a failed Get.
   */
  ghost predicate Reported(g: Graph, fails: nat -> bool, src: string, path: seq<string>, t: Key, r: Report) {
    && r.from <= r.to
    && (!r.found && !r.failed <==> Clear(g, src, path, t) && !FailsAmong(fails, r.from, Walks(g, path, t)))
    && (!r.found && !r.failed ==> r.to == r.from + Walks(g, path, t))
    && IsTrail(g, r.trail) && r.trail[0] == t
    && (r.found ==> r.cycle == path + IDs(r.trail) && Lasso(|path|, src, r.cycle))
    && (r.failed ==> !r.found)
    && (r.failed ==> Unreadable(g, r.trail[|r.trail| - 1]) || FailsAmong(fails, r.from, r.to - r.from))
  }

  ghost predicate Unreadable(g: Graph, k: Key) {
    k !in g || g[k].Failure?
  }

  /** The search so far has visited the first dependencies of `t` and found them clear. */
  ghost predicate Visited(g: Graph, fails: nat -> bool, src: string, path: seq<string>, t: Key,
                          rest: seq<Key>, from: nat, to: nat) {
    && t in g && g[t].Success? && ID(t) !in path
    && from <= to
    && to + WalksFrom(g, path + [ID(t)], rest) == from + Walks(g, path, t)
    && !FailsAmong(fails, from, to - from)
    && forall d | d in g[t].value && d !in rest :: ID(d) != src && Clear(g, src, path + [ID(t)], d)
  }

  lemma ReportRepeat(g: Graph, fails: nat -> bool, src: string, path: seq<string>, t: Key, n: nat) returns (r: Report)
    requires ID(t) in path
    ensures r == Report(true, path + [ID(t)], false, [t], n, n)
    ensures Reported(g, fails, src, path, t, r)
  {
    r := Report(true, path + [ID(t)], false, [t], n, n);
    assert IDs([t]) == [ID(t)];
    var ids := path + [ID(t)];
    assert ids[..|ids| - 1] == path;
  }

  lemma ReportUnread(g: Graph, fails: nat -> bool, src: string, path: seq<string>, t: Key, n: nat) returns (r: Report)
    requires ID(t) !in path
    requires Unreadable(g, t) || fails(n)
    ensures r == Report(false, [], true, [t], n, n + 1)
    ensures Reported(g, fails, src, path, t, r)
  {
    r := Report(false, [], true, [t], n, n + 1);
    if fails(n) {
      assert FailsAmong(fails, n, 1) && FailsAmong(fails, n, Walks(g, path, t));
    }
  }

  lemma VisitedNone(g: Graph, fails: nat -> bool, src: string, path: seq<string>, t: Key, deps: seq<Key>, n: nat)
    requires t in g && g[t].Success? && ID(t) !in path
    requires multiset(deps) == multiset(g[t].value) && !fails(n)
    ensures Visited(g, fails, src, path, t, deps, n, n + 1)
  {
    SameElements(deps, g[t].value);
    WalksPermuted(g, path + [ID(t)], deps, g[t].value);
    SearchShrinks(g, path, t);
  }

  lemma VisitedAll(g: Graph, fails: nat -> bool, src: string, path: seq<string>, t: Key, from: nat, to: nat)
    returns (r: Report)
    requires Visited(g, fails, src, path, t, [], from, to)
    ensures r == Report(false, [], false, [t], from, to)
    ensures Reported(g, fails, src, path, t, r)
  {
    r := Report(false, [], false, [t], from, to);
    SearchShrinks(g, path, t);
  }

  lemma ReportSource(g: Graph, fails: nat -> bool, src: string, path: seq<string>, t: Key,
                     rest: seq<Key>, from: nat, to: nat, d: Key)
    returns (r: Report)
    requires Visited(g, fails, src, path, t, rest, from, to)
    requires d in g[t].value && ID(d) == src
    ensures r == Report(true, path + [ID(t)] + [src], false, [t, d], from, to)
    ensures Reported(g, fails, src, path, t, r)
  {
    r := Report(true, path + [ID(t)] + [src], false, [t, d], from, to);
    assert IDs([t, d]) == [ID(t)] + [src];
    var ids := path + [ID(t)] + [src];
    assert ids == path + IDs([t, d]);
    assert ids[..|path|] == path;
  }

  lemma VisitedOneMore(g: Graph, fails: nat -> bool, src: string, path: seq<string>, t: Key,
                       rest: seq<Key>, from: nat, r: Report)
    requires Visited(g, fails, src, path, t, rest, from, r.from)
    requires rest != [] && rest[0] in g[t].value && ID(rest[0]) != src
    requires Reported(g, fails, src, path + [ID(t)], rest[0], r) && !r.found && !r.failed
    ensures Visited(g, fails, src, path, t, rest[1..], from, r.to)
  {
    assert forall d | d in rest :: d == rest[0] || d in rest[1..];
  }

  lemma ReportBelow(g: Graph, fails: nat -> bool, src: string, path: seq<string>, t: Key,
                    rest: seq<Key>, from: nat, below: Report)
    returns (r: Report)
    requires Visited(g, fails, src, path, t, rest, from, below.from)
    requires rest != [] && rest[0] in g[t].value
    requires Reported(g, fails, src, path + [ID(t)], rest[0], below) && (below.found || below.failed)
    ensures r == below.(trail := [t] + below.trail, from := from)
    ensures Reported(g, fails, src, path, t, r)
  {
    r := below.(trail := [t] + below.trail, from := from);
    BelowNotClear(g, fails, src, path, t, rest, from, below);
    BelowTrail(g, path, t, below);
    if r.failed && FailsAmong(fails, below.from, below.to - below.from) {
      assert FailsAmong(fails, from, r.to - from);
    }
    if r.found {
      assert r.cycle[..|path|] == path && r.cycle[|path|] == ID(t);
    }
  }

  lemma BelowNotClear(g: Graph, fails: nat -> bool, src: string, path: seq<string>, t: Key,
                      rest: seq<Key>, from: nat, r: Report)
    requires Visited(g, fails, src, path, t, rest, from, r.from)
    requires rest != [] && rest[0] in g[t].value
    requires Reported(g, fails, src, path + [ID(t)], rest[0], r) && (r.found || r.failed)
    ensures !(Clear(g, src, path, t) && !FailsAmong(fails, from, Walks(g, path, t)))
  {
    var below := Walks(g, path + [ID(t)], rest[0]);
    assert r.from + below <= from + Walks(g, path, t);
    assert FailsAmong(fails, r.from, below) ==> FailsAmong(fails, from, Walks(g, path, t));
  }

  lemma BelowTrail(g: Graph, path: seq<string>, t: Key, r: Report)
    requires t in g && g[t].Success? && IsTrail(g, r.trail) && r.trail[0] in g[t].value
    ensures IsTrail(g, [t] + r.trail)
    ensures path + [ID(t)] + IDs(r.trail) == path + IDs([t] + r.trail)
  {
    var trail := [t] + r.trail;
    assert IDs(trail) == [ID(t)] + IDs(r.trail);
    assert forall i | 0 < i < |trail| :: trail[i] == r.trail[i - 1];
  }

  class BaseReconciler {
    const cfg: Config
    const client: KubeClient

    constructor (cfg: Config, client: KubeClient)
      ensures this.cfg == cfg && this.client == client
    {
      this.cfg := cfg;
      this.client := client;
    }

    ghost function Graph(): Graph
      reads client`store
    {
      GraphOf(cfg, client.store)
    }

    /** The targets in an annotation map; the map iteration picks its keys in any order. */
    method ExtractTargets(annotations: Annotations, ns: string) returns (r: Targets, ghost order: seq<string>)
      ensures IsOrder(order, cfg.kinds)
      ensures forall k | k in order :: k in cfg.kinds
      ensures r == Gather(order, cfg.kinds, annotations, ns)
      ensures SameTargets(r, Deps(cfg.kinds, annotations, ns))
    {
      var targetList: seq<Key> := [];
      var todo := cfg.kinds.Keys;
      order := [];
      while todo != {}
        invariant todo <= cfg.kinds.Keys
        invariant multiset(order) + multiset(todo) == multiset(cfg.kinds.Keys)
        invariant forall k | k in order :: k in cfg.kinds
        invariant Gather(order, cfg.kinds, annotations, ns) == Success(targetList)
        decreases todo
      {
        var key :| key in todo;
        assert multiset(todo) == multiset{key} + multiset(todo - {key});
        ghost var rest := SomeOrder(todo - {key});
        OrderRest(order, key, todo);
        todo := todo - {key};
        GatherSnoc(order, key, cfg.kinds, annotations, ns);
        GatherAppend(order + [key], rest, cfg.kinds, annotations, ns);
        if key in annotations {
          var targets := KeyTargetsLoop(key, annotations, ns);
          if targets.Failure? {
            r := Failure(targets.error);
            order := order + [key] + rest;
            GatherAnyOrder(order, cfg.kinds, annotations, ns);
            return;
          }
          targetList := targetList + targets.value;
        } else {
          assert targetList + [] == targetList;
        }
        order := order + [key];
      }
      r := Success(targetList);
      GatherAnyOrder(order, cfg.kinds, annotations, ns);
    }

    ghost predicate Parts(done: seq<Key>, all: seq<string>, rest: seq<string>, kind: Kind, ns: string) {
      TargetsOf(kind, CleanItems(all), ns) == After(done, TargetsOf(kind, CleanItems(rest), ns))
    }

    /** The inner loop: the comma separated references of one annotation. */
    method KeyTargetsLoop(key: string, annotations: Annotations, ns: string) returns (r: Targets)
      requires key in cfg.kinds && key in annotations
      ensures r == KeyTargets(key, cfg.kinds, annotations, ns)
    {
      var parts := Split(annotations[key], ',');
      var targetList: seq<Key> := [];
      AfterAfter([], [], TargetsOf(cfg.kinds[key], CleanItems(parts), ns));
      for i := 0 to |parts|
        invariant Parts(targetList, parts, parts[i..], cfg.kinds[key], ns)
      {
        var ref := TrimSpace(parts[i]);
        assert parts[i..][1..] == parts[i + 1..];
        if ref == "" {
          continue;
        }
        var t := NewTarget(cfg.kinds[key], ref, ns);
        ghost var rest := CleanItems(parts[i + 1..]);
        assert CleanItems(parts[i..]) == [ref] + rest;
        assert ([ref] + rest)[1..] == rest;
        if t.Failure? {
          return Failure(t.error);
        }
        AfterAfter(targetList, [t.value], TargetsOf(cfg.kinds[key], rest, ns));
        targetList := targetList + [t.value];
      }
      AfterAfter(targetList, [], Success([]));
      r := Success(targetList);
    }

    /**
     The recursive search, reporting as `Reported` says. The caller's path keeps its contents
     although sibling calls append in place to the same backing array. (The ghost parameters name the
     graph and the path as values, and the depth of the recursion: a call at some level calls at the
     next level only, and the level plus the number of stored identifiers off the path never exceeds
     the number of stored workloads plus one.)
     */
    method DetectCycle(target: Key, srcID: string, path: Slice, ghost g: Graph, ghost before: seq<string>, ghost level: nat)
      returns (found: bool, cycle: Slice, err: Option<SearchError>, ghost r: Report)
      requires path.Valid() && path.Contents() == before && g == Graph()
      requires level + |StoredIDs(g) - Elems(before)| <= |g| + 1
      modifies client`gets, path.Arrays()
      decreases |g| + 1 - level, 1
      ensures path.Contents() == before
      ensures cycle.Valid()
      ensures Reported(g, client.getFails, srcID, before, target, r)
      ensures r.found == found && r.failed == err.Some? && (found ==> r.cycle == cycle.Contents())
      ensures r.from == old(client.gets) && r.to == client.gets
    {
      hide Reported, Visited, GraphOf, StoredIDs, Elems, ID;
      ghost var fails, start := client.getFails, client.gets;
      assert path.len == |before|;
      var targetID := ID(target);

      // A target already in the path closes a cycle.
      var seen := Contains(path, targetID);
      if seen {
        r := ReportRepeat(g, fails, srcID, before, target, start);
        cycle := Append(path, targetID);
        return true, cycle, None, r;
      }

      var p := Append(path, targetID);

      var got := client.Get(target);
      GraphKeys(cfg, client.store);
      if got.Failure? {
        r := ReportUnread(g, fails, srcID, before, target, start);
        return false, NIL, Some(FetchError(targetID)), r;
      }

      var dependencies, bad := Dependencies(target, got.value, g);
      if bad.Some? {
        r := ReportUnread(g, fails, srcID, before, target, start);
        return false, NIL, Some(ExtractError(bad.value)), r;
      }

      VisitedNone(g, fails, srcID, before, target, dependencies, start);
      ShrinkBound(g, before, target);
      found, cycle, err, r := SearchDependencies(target, dependencies, srcID, p, g, before, start, level);
      if path.SharedBy(p) { SharedContents(path, p); }
    }

    /** The loop of the search over the dependencies of a target, with the path up to that target. */
    method SearchDependencies(target: Key, dependencies: seq<Key>, srcID: string, p: Slice,
                              ghost g: Graph, ghost before: seq<string>, ghost start: nat, ghost level: nat)
      returns (found: bool, cycle: Slice, err: Option<SearchError>, ghost r: Report)
      requires p.Valid() && p.Contents() == before + [ID(target)] && g == Graph()
      requires Visited(g, client.getFails, srcID, before, target, dependencies, start, client.gets)
      requires forall d | d in dependencies :: d in g[target].value
      requires level + |StoredIDs(g) - Elems(before + [ID(target)])| <= |g|
      modifies client`gets, p.Arrays()
      decreases |g| + 1 - level, 0
      ensures p.Contents() == before + [ID(target)]
      ensures cycle.Valid()
      ensures Reported(g, client.getFails, srcID, before, target, r)
      ensures r.found == found && r.failed == err.Some? && (found ==> r.cycle == cycle.Contents())
      ensures r.from == start && r.to == client.gets
    {
      hide Reported, Visited, GraphOf, StoredIDs, Elems;
      ghost var fails, longer := client.getFails, before + [ID(target)];
      for i := 0 to |dependencies|
        invariant p.Contents() == longer
        invariant Visited(g, fails, srcID, before, target, dependencies[i..], start, client.gets)
      {
        var dependency := dependencies[i];
        ghost var rest := dependencies[i..];
        assert rest[0] == dependency && rest[1..] == dependencies[i + 1..];
        if ID(dependency) == srcID {
          r := ReportSource(g, fails, srcID, before, target, rest, start, client.gets, dependency);
          cycle := Append(p, srcID);
          return true, cycle, None, r;
        }

        ghost var below;
        found, cycle, err, below := DetectCycle(dependency, srcID, p, g, longer, level + 1);
        if err.Some? {
          r := ReportBelow(g, fails, srcID, before, target, rest, start, below);
          return;
        }
        if found {
          r := ReportBelow(g, fails, srcID, before, target, rest, start, below);
          return;
        }
        VisitedOneMore(g, fails, srcID, before, target, rest, start, below);
      }
      r := VisitedAll(g, fails, srcID, before, target, start, client.gets);
      return false, NIL, None, r;
    }

    /** The extraction step of the search, related to the graph. */
    method Dependencies(target: Key, res: Object, ghost g: Graph) returns (dependencies: seq<Key>, bad: Option<RefError>)
      requires g == Graph() && target in client.store && client.store[target] == res
      ensures target in g && (bad.Some? <==> g[target].Failure?)
      ensures bad.None? ==> multiset(dependencies) == multiset(g[target].value)
      ensures bad.None? ==> forall d :: d in dependencies <==> d in g[target].value
    {
      ghost var order;
      var extracted;
      extracted, order := ExtractTargets(res.annotations, target.namespace);
      if extracted.Failure? {
        return [], Some(extracted.error);
      }
      SameElements(extracted.value, g[target].value);
      return extracted.value, None;
    }

    /**
     The guard as run: nil exactly if the specification passes and no Get failed, at the cost of
     one Get per non-empty walk from the source; and a reported cycle is a genuine one. The search
     starts at level 1, so its recursion is never deeper than the number of stored workloads plus one.
     */
    method CheckCycle(srcID: string, targets: seq<Key>, ghost g: Graph)
      returns (err: Option<CycleError>, ghost trail: seq<Key>)
      requires g == Graph()
      modifies client`gets
      ensures Verdict(g, client.getFails, srcID, targets, old(client.gets), client.gets, err, trail)
    {
      hide Reported, GraphOf, StoredIDs, Elems, Cleared, Verdict, ID;
      ClearedNone(g, client.getFails, srcID, targets, client.gets);
      ghost var fails, start := client.getFails, client.gets;
      trail := [];
      for i := 0 to |targets|
        invariant Cleared(g, fails, srcID, targets, i, start, client.gets)
      {
        var target := targets[i];
        if ID(target) == srcID {
          DirectCycleBlocks(g, fails, srcID, targets, i, start, client.gets);
          return Some(Direct(ID(target))), [target];
        }
        var path := Literal(srcID);
        ghost var r;
        var found, cycle, e;
        DepthBound(g, [srcID]);
        found, cycle, e, r := DetectCycle(target, srcID, path, g, [srcID], 1);
        if e.Some? {
          FailedAt(g, fails, srcID, targets, i, start, r, e.value);
          return Some(CheckFailed(e.value)), r.trail;
        }
        if found {
          CycleAt(g, fails, srcID, targets, i, start, r);
          var ids := cycle.ToSeq();
          return Some(Indirect(ids)), r.trail;
        }
        ClearedOneMore(g, fails, srcID, targets, i, start, r);
      }
      ClearedAll(g, fails, srcID, targets, start, client.gets, trail);
      return None, trail;
    }

    ghost function API(): Api {
      Api(client.getFails, client.patchFails, client.clock)
    }

    ghost function Now(stage: Stage): JobState
      reads client
    {
      JobState(client.store, stage, Calls(client.gets, client.patches))
    }

    /**
     Restarts every target in turn; a failure is counted and does not stop the loop. One Get is made
     per target, one patch per target that could be fetched, and a restart succeeds exactly if the
     target exists and neither of its two calls fails.
     */
    method TriggerReloads(v: Key, targets: seq<Key>)
      returns (succ: nat, fail: nat, ghost ws: seq<Weather>, ghost oks: seq<bool>)
      requires targets != []
      modifies client`store, client`gets, client`patches
      ensures Leads(cfg, API(), v, old(Now(Triggering(targets, []))), ws, Now(Done(Fired(targets, oks))))
      ensures client.gets == old(client.gets) + |targets|
      ensures |oks| == |targets| == succ + fail
      ensures succ == CountTrue(oks)
      ensures SucceedsExactly(API(), Calls(old(client.gets), old(client.patches)), old(client.store).Keys, targets, oks)
    {
      hide JobStep, Leads, Restarted, Fair, Possible, CountTrue, Fetched, SucceedsExactly;
      ghost var st, keys := Now(Triggering(targets, [])), client.store.Keys;
      LeadsNone(cfg, API(), v, st);
      CountNone();
      SucceedsNone(API(), st.calls, keys, targets);
      succ, fail, ws, oks := 0, 0, [], [];
      for i := 0 to |targets|
        invariant |oks| == i == succ + fail
        invariant succ == CountTrue(oks)
        invariant client.gets == st.calls.gets + i && client.store.Keys == keys
        invariant client.patches == st.calls.patches + Fetched(API(), st.calls, keys, targets, i)
        invariant SucceedsExactly(API(), st.calls, keys, targets, oks)
        invariant Leads(cfg, API(), v, st, ws, Now(AfterTriggers(targets, oks)))
      {
        ghost var wx := Fair(cfg, !client.getFails(client.gets) && !client.patchFails(client.patches),
                             client.clock(client.patches));
        ghost var before := Now(AfterTriggers(targets, oks));
        TriggerStep(cfg, API(), v, before, targets, oks, wx);
        LeadsSnoc(cfg, API(), v, st, ws, before, wx);
        SucceedsSnoc(API(), st.calls, keys, targets, oks);
        ws := ws + [wx];
        var err := Trigger(client, targets[i]);
        CountSnoc(oks, err.None?);
        oks := oks + [err.None?];
        if err.Some? {
          fail := fail + 1;
          continue;
        }
        succ := succ + 1;
      }
    }

    method SetLastObservedRestart(obj: Loaded) returns (err: Option<ApiError>, ghost wx: Weather)
      requires cfg.lastObserved !in obj.copy.annotations
      modifies client`store, client`patches, obj`copy
      ensures Possible(cfg, wx) && Fits(cfg, API(), obj.key, old(Now(Marking(obj.copy))), wx)
      ensures JobStep(cfg, API(), obj.key, old(Now(Marking(obj.copy))), wx) ==
                Now(if err.None? then Checking(obj.copy) else Done(MarkFailed))
    {
      hide Marked, Fair;
      wx := Fair(cfg, !client.patchFails(client.patches), client.clock(client.patches));
      err := PatchWorkloadAnnotation(client, obj, cfg.lastObserved, client.clock(client.patches));
    }

    method ClearLastObservedRestart(obj: Loaded, targets: seq<Key>) returns (err: Option<ApiError>, ghost wx: Weather)
      modifies client`store, client`patches, obj`copy
      ensures Possible(cfg, wx) && Fits(cfg, API(), obj.key, old(Now(Clearing(obj.copy, targets))), wx)
      ensures JobStep(cfg, API(), obj.key, old(Now(Clearing(obj.copy, targets))), wx) == Now(Triggering(targets, []))
    {
      hide Unmarked, Fair;
      wx := Fair(cfg, !client.patchFails(client.patches), "");
      err := DeleteWorkloadAnnotation(client, obj, cfg.lastObserved);
    }

    /** Where a reconcile stands; how many Gets a check that blocks has made is left open. */
    ghost predicate Reached(st: JobState)
      reads client
    {
      && st.store == client.store
      && st.calls.patches == client.patches
      && st.calls.gets <= client.gets
      && (st.stage != Done(Blocked) ==> st.calls.gets == client.gets)
    }

    /** Extraction, cycle guard and stability test: either the reconcile ends, or the targets may restart. */
    method Examine(v: Key, copy: Object)
      returns (targets: seq<Key>, out: Option<Outcome>, ghost end: End, ghost wx: Weather)
      modifies client`gets
      ensures Possible(cfg, wx) && Fits(cfg, API(), v, old(Now(Checking(copy))), wx)
      ensures var st := JobStep(cfg, API(), v, old(Now(Checking(copy))), wx);
              Reached(st) && st.stage == if out.Some? then Done(end) else Clearing(copy, targets)
      ensures out.Some? ==> out.value == OutcomeOf(end)
      ensures out.None? ==> targets != []
    {
      hide Gather, Deps, SameTargets, Passes, GraphOf, FailsAmong, Stable, RequeueDuration;
      ghost var order, trail;
      var extracted;
      extracted, order := ExtractTargets(copy.annotations, v.namespace);
      wx := Weather(true, order, "");
      if extracted.Failure? {
        NoWalks(API(), client.gets, Graph(), v);
        return [], Some(Error), BadReference, wx;
      }
      targets := extracted.value;
      if |targets| == 0 {
        NoWalks(API(), client.gets, Graph(), v);
        return [], Some(Result(0)), NoTargets, wx;
      }

      var dur := RequeueDuration(cfg, copy);

      wx := Weather(!FailsAmong(client.getFails, client.gets, WalksFrom(Graph(), [ID(v)], targets)), order, "");
      var err;
      err, trail := CheckCycle(ID(v), targets, Graph());
      if err.Some? {
        return targets, Some(Result(0)), Blocked, wx;
      }
      if !Stable(copy) {
        return targets, Some(Result(dur)), Unstable(dur), wx;
      }
      return targets, None, Gone, wx;
    }

    /**
     One reconcile of a loaded workload. With nothing else acting on the cluster it takes the steps
     of Job one after the other, each meeting what its own calls to the API meet, and its outcome is
     that of the step it ends in.
     */
    method ReconcileWorkload(obj: Loaded) returns (out: Outcome, ghost ws: seq<Weather>, ghost st': JobState)
      modifies client`store, client`gets, client`patches, obj`copy
      ensures Leads(cfg, API(), obj.key, old(Now(Marking(obj.copy))), ws, st')
      ensures Reached(st') && st'.stage.Done?
      ensures out == OutcomeOf(st'.stage.end)
    {
      hide JobStep, Leads, Fits, Fair;
      var v := obj.key;
      ghost var st, wx := Now(Marking(obj.copy)), Fair(cfg, true, "");
      LeadsNone(cfg, API(), v, st);

      var observed := cfg.lastObserved in obj.copy.annotations;
      if !observed {
        var err;
        err, wx := SetLastObservedRestart(obj);
        LeadsSnoc(cfg, API(), v, st, [], st, wx);
        if err.Some? {
          return Error, [] + [wx], Now(Done(MarkFailed));
        }
      } else {
        MarkPresent(cfg, API(), v, st, wx);
        LeadsSnoc(cfg, API(), v, st, [], st, wx);
      }
      ws := [] + [wx];

      ghost var end;
      ghost var checking := Now(Checking(obj.copy));
      var targets, ended;
      targets, ended, end, wx := Examine(v, obj.copy);
      LeadsSnoc(cfg, API(), v, st, ws, checking, wx);
      ws := ws + [wx];
      if ended.Some? {
        return ended.value, ws, JobStep(cfg, API(), v, checking, wx);
      }

      ghost var clearing := Now(Clearing(obj.copy, targets));
      assert JobStep(cfg, API(), v, checking, wx) == clearing;
      var err;
      err, wx := ClearLastObservedRestart(obj, targets);
      LeadsSnoc(cfg, API(), v, st, ws, clearing, wx);
      ws := ws + [wx];

      ghost var triggering := Now(Triggering(targets, []));
      ghost var more, oks;
      var succ, fail;
      succ, fail, more, oks := TriggerReloads(v, targets);
      st' := Now(Done(Fired(targets, oks)));
      LeadsAppend(cfg, API(), v, st, ws, triggering, more, st');
      return Result(0), ws + more, st';
    }

    /** The work queue's entry point; the three controllers differ only in the kind they load. */
    method Reconcile(v: Key) returns (out: Outcome, ghost ws: seq<Weather>, ghost st': JobState)
      modifies client`store, client`gets, client`patches
      ensures Leads(cfg, API(), v, old(Now(Fetching)), ws, st')
      ensures Reached(st') && st'.stage.Done?
      ensures out == OutcomeOf(st'.stage.end)
    {
      hide Leads;
      ghost var st := Now(Fetching);
      ghost var wx := Fair(cfg, !client.getFails(client.gets), "");
      LeadsNone(cfg, API(), v, st);
      LeadsSnoc(cfg, API(), v, st, [], st, wx);
      var got := client.Get(v);
      if got.Failure? {
        if got.error == NotFound {
          return Result(0), [] + [wx], Now(Done(Gone));
        }
        return Error, [] + [wx], Now(Done(FetchFailed));
      }
      var obj := new Loaded(v, got.value);
      ghost var marking, rest := Now(Marking(obj.copy)), [];
      out, rest, st' := ReconcileWorkload(obj);
      LeadsAppend(cfg, API(), v, st, [] + [wx], marking, rest, st');
      ws := [] + [wx] + rest;
    }
  }

  /** How many of the first `i` targets could be fetched, and so were patched. */
  ghost function Fetched(api: Api, from: Calls, keys: set<Key>, targets: seq<Key>, i: nat): nat
    requires i <= |targets|
  {
    if i == 0 then 0
    else Fetched(api, from, keys, targets, i - 1)
         + if !api.getFails(from.gets + i - 1) && targets[i - 1] in keys then 1 else 0
  }

  ghost predicate Succeeds(api: Api, from: Calls, keys: set<Key>, targets: seq<Key>, i: nat)
    requires i < |targets|
  {
    && targets[i] in keys
    && !api.getFails(from.gets + i)
    && !api.patchFails(from.patches + Fetched(api, from, keys, targets, i))
  }

  /** A restart succeeds exactly if its target exists and neither of its own two calls fails. */
  ghost predicate SucceedsExactly(api: Api, from: Calls, keys: set<Key>, targets: seq<Key>, oks: seq<bool>) {
    |oks| <= |targets| && forall i | 0 <= i < |oks| :: oks[i] <==> Succeeds(api, from, keys, targets, i)
  }

  lemma SucceedsNone(api: Api, from: Calls, keys: set<Key>, targets: seq<Key>)
    ensures SucceedsExactly(api, from, keys, targets, []) && Fetched(api, from, keys, targets, 0) == 0
  {
  }

  lemma SucceedsSnoc(api: Api, from: Calls, keys: set<Key>, targets: seq<Key>, oks: seq<bool>)
    requires SucceedsExactly(api, from, keys, targets, oks) && |oks| < |targets|
    ensures var i := |oks|;
            var patch := from.patches + Fetched(api, from, keys, targets, i);
            var ok := targets[i] in keys && !api.getFails(from.gets + i) && !api.patchFails(patch);
            && SucceedsExactly(api, from, keys, targets, oks + [ok])
            && Fetched(api, from, keys, targets, i + 1) ==
                 Fetched(api, from, keys, targets, i) + if !api.getFails(from.gets + i) && targets[i] in keys then 1 else 0
  {
  }

  /** Where there is no target there is nothing to fetch. */
  lemma NoWalks(api: Api, gets: nat, g: Graph, v: Key)
    ensures WalksFrom(g, [ID(v)], []) == 0 && !FailsAmong(api.getFails, gets, 0)
  {
  }

  /** A workload that carries the mark is not marked again. */
  lemma MarkPresent(cfg: Config, api: Api, v: Key, st: JobState, wx: Weather)
    requires Possible(cfg, wx) && st.stage.Marking? && cfg.lastObserved in st.stage.read.annotations
    ensures Fits(cfg, api, v, st, wx) && JobStep(cfg, api, v, st, wx) == st.(stage := Checking(st.stage.read))
  {
  }

  ghost function AfterTriggers(targets: seq<Key>, oks: seq<bool>): Stage {
    if |oks| == |targets| then Done(Fired(targets, oks)) else Triggering(targets, oks)
  }

  /** One iteration of the trigger loop. */
  lemma TriggerStep(cfg: Config, api: Api, v: Key, st: JobState, targets: seq<Key>, oks: seq<bool>, wx: Weather)
    requires Possible(cfg, wx) && |oks| < |targets| && st.stage == AfterTriggers(targets, oks)
    requires wx.ok <==> !api.getFails(st.calls.gets) && !api.patchFails(st.calls.patches)
    requires wx.now == api.clock(st.calls.patches)
    ensures Fits(cfg, api, v, st, wx)
    ensures var t := targets[|oks|];
            var ok := wx.ok && t in st.store;
            JobStep(cfg, api, v, st, wx) ==
              JobState(if ok then st.store[t := Restarted(wx.now, st.store[t], st.store[t])] else st.store,
                       AfterTriggers(targets, oks + [ok]),
                       Calls(st.calls.gets + 1,
                             st.calls.patches + if !api.getFails(st.calls.gets) && t in st.store then 1 else 0))
  {
    hide Restarted;
  }

  function CountTrue(oks: seq<bool>): nat {
    if oks == [] then 0 else CountTrue(oks[..|oks| - 1]) + if oks[|oks| - 1] then 1 else 0
  }

  lemma CountNone()
    ensures CountTrue([]) == 0
  {
  }

  lemma CountSnoc(oks: seq<bool>, ok: bool)
    ensures CountTrue(oks + [ok]) == CountTrue(oks) + if ok then 1 else 0
  {
    assert (oks + [ok])[..|oks|] == oks;
  }

  /**
   What the guard may answer, having made the Gets numbered `from` to `to`: nothing exactly if the
   specification passes and none of the Gets it takes fails, one per non-empty walk from the
   source; otherwise the end of a chain of dependencies from one of the targets: the source itself,
   a genuine cycle, a workload that is missing or unreadable, or a failed Get.
   */
  ghost predicate Verdict(g: Graph, fails: nat -> bool, src: string, ts: seq<Key>, from: nat, to: nat,
                          err: Option<CycleError>, trail: seq<Key>) {
    && from <= to
    && (err.None? <==> Passes(g, src, ts) && !FailsAmong(fails, from, WalksFrom(g, [src], ts)))
    && (err.None? ==> to == from + WalksFrom(g, [src], ts))
    && (err.Some? ==> IsTrail(g, trail) && trail[0] in ts)
    && (err.Some? && err.value.Direct? ==> err.value.id == src == ID(trail[0]))
    && (err.Some? && err.value.Indirect? ==> err.value.path == [src] + IDs(trail) && RealCycle(src, err.value.path))
    && (err.Some? && err.value.CheckFailed? ==>
          Unreadable(g, trail[|trail| - 1]) || FailsAmong(fails, from, to - from))
  }

  /** The first `i` targets are clear, found so without an API failure. */
  ghost predicate Cleared(g: Graph, fails: nat -> bool, src: string, ts: seq<Key>, i: nat, from: nat, to: nat) {
    && i <= |ts|
    && from <= to
    && to + WalksFrom(g, [src], ts[i..]) == from + WalksFrom(g, [src], ts)
    && !FailsAmong(fails, from, to - from)
    && forall j | 0 <= j < i :: Clear(g, src, [src], ts[j])
  }

  lemma ClearedNone(g: Graph, fails: nat -> bool, src: string, ts: seq<Key>, from: nat)
    ensures Cleared(g, fails, src, ts, 0, from, from)
  {
    assert ts[0..] == ts;
  }

  lemma ClearedAll(g: Graph, fails: nat -> bool, src: string, ts: seq<Key>, from: nat, to: nat, trail: seq<Key>)
    requires Cleared(g, fails, src, ts, |ts|, from, to)
    ensures Verdict(g, fails, src, ts, from, to, None, trail)
  {
  }

  lemma DirectCycleBlocks(g: Graph, fails: nat -> bool, src: string, ts: seq<Key>, i: nat, from: nat, to: nat)
    requires i < |ts| && ID(ts[i]) == src && Cleared(g, fails, src, ts, i, from, to)
    ensures Verdict(g, fails, src, ts, from, to, Some(Direct(src)), [ts[i]])
  {
    assert !Clear(g, src, [src], ts[i]);
  }

  lemma FailedAt(g: Graph, fails: nat -> bool, src: string, ts: seq<Key>, i: nat, from: nat, r: Report, e: SearchError)
    requires i < |ts| && Cleared(g, fails, src, ts, i, from, r.from)
    requires Reported(g, fails, src, [src], ts[i], r) && r.failed
    ensures Verdict(g, fails, src, ts, from, r.to, Some(CheckFailed(e)), r.trail)
  {
    BlockedAt(g, fails, src, ts, i, from, r);
  }

  lemma CycleAt(g: Graph, fails: nat -> bool, src: string, ts: seq<Key>, i: nat, from: nat, r: Report)
    requires i < |ts| && Cleared(g, fails, src, ts, i, from, r.from)
    requires Reported(g, fails, src, [src], ts[i], r) && r.found
    ensures Verdict(g, fails, src, ts, from, r.to, Some(Indirect(r.cycle)), r.trail)
  {
    BlockedAt(g, fails, src, ts, i, from, r);
    LassoIsRealCycle(src, r.cycle);
  }

  lemma ClearedOneMore(g: Graph, fails: nat -> bool, src: string, ts: seq<Key>, i: nat, from: nat, r: Report)
    requires i < |ts| && Cleared(g, fails, src, ts, i, from, r.from)
    requires Reported(g, fails, src, [src], ts[i], r) && !r.found && !r.failed
    ensures Cleared(g, fails, src, ts, i + 1, from, r.to)
  {
    assert ts[i..][1..] == ts[i + 1..];
  }

  lemma BlockedAt(g: Graph, fails: nat -> bool, src: string, ts: seq<Key>, i: nat, from: nat, r: Report)
    requires i < |ts| && Cleared(g, fails, src, ts, i, from, r.from)
    requires Reported(g, fails, src, [src], ts[i], r) && (r.found || r.failed)
    ensures !(Passes(g, src, ts) && !FailsAmong(fails, from, WalksFrom(g, [src], ts)))
    ensures from <= r.to && IsTrail(g, r.trail) && r.trail[0] in ts && r.trail[0] == ts[i]
    ensures r.found ==> r.cycle == [src] + IDs(r.trail) && Lasso(1, src, r.cycle)
    ensures r.failed ==> Unreadable(g, r.trail[|r.trail| - 1]) || FailsAmong(fails, from, r.to - from)
  {
    assert ts[i..][0] == ts[i] && ts[i] in ts;
    assert r.from + Walks(g, [src], ts[i]) <= from + WalksFrom(g, [src], ts);
  }

  lemma DepthBound(g: Graph, path: seq<string>)
    ensures |StoredIDs(g) - Elems(path)| <= |g|
  {
    StoredIDsBound(g);
    SubsetBound(StoredIDs(g) - Elems(path), StoredIDs(g));
  }

  lemma {:induction false} OrderRest(order: seq<string>, key: string, todo: set<string>)
    requires key in todo
    ensures multiset(order + [key]) + multiset(todo - {key}) == multiset(order) + multiset(todo)
    ensures multiset(order + [key] + SomeOrder(todo - {key})) == multiset(order) + multiset(todo)
    ensures forall k | k in SomeOrder(todo - {key}) :: k in todo
  {
    assert multiset(todo) == multiset{key} + multiset(todo - {key});
    var rest := SomeOrder(todo - {key});
    forall k | k in rest ensures k in todo {
      assert k in multiset(rest);
    }
  }

  lemma {:induction false} GatherAppend(a: seq<string>, b: seq<string>, kinds: KindMap, ann: Annotations, ns: string)
    requires (forall k | k in a :: k in kinds) && (forall k | k in b :: k in kinds)
    ensures Gather(a + b, kinds, ann, ns) ==
              match Gather(a, kinds, ann, ns)
              case Failure(e) => Failure(e)
              case Success(ts) => After(ts, Gather(b, kinds, ann, ns))
  {
    if a == [] {
      assert a + b == b;
      AfterAfter([], [], Gather(b, kinds, ann, ns));
    } else {
      assert (a + b)[1..] == a[1..] + b;
      GatherAppend(a[1..], b, kinds, ann, ns);
      if KeyTargets(a[0], kinds, ann, ns).Success? && Gather(a[1..], kinds, ann, ns).Success? {
        AfterAfter(KeyTargets(a[0], kinds, ann, ns).value, Gather(a[1..], kinds, ann, ns).value, Gather(b, kinds, ann, ns));
      }
    }
  }

  lemma GatherSnoc(order: seq<string>, key: string, kinds: KindMap, ann: Annotations, ns: string)
    requires (forall k | k in order :: k in kinds) && key in kinds
    ensures Gather(order + [key], kinds, ann, ns) ==
              match Gather(order, kinds, ann, ns)
              case Failure(e) => Failure(e)
              case Success(ts) => After(ts, KeyTargets(key, kinds, ann, ns))
  {
    GatherAppend(order, [key], kinds, ann, ns);
    var r := KeyTargets(key, kinds, ann, ns);
    AfterAfter(if r.Success? then r.value else [], [], Success([]));
  }

  lemma ShrinkBound(g: Graph, path: seq<string>, t: Key)
    requires t in g && ID(t) !in path
    ensures |StoredIDs(g) - Elems(path + [ID(t)])| < |StoredIDs(g) - Elems(path)|
  {
    SearchShrinks(g, path, t);
    var big, small := StoredIDs(g) - Elems(path), StoredIDs(g) - Elems(path + [ID(t)]);
    SubsetBound(small + {ID(t)}, big);
    assert ID(t) in Elems(path + [ID(t)]);
  }
}
