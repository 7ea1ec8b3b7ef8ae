/**
 The cycle guard as a specification (internal/controller/cycle_detection.go).

 A graph maps every stored workload to its targets, or to the error that extracting them gives.
 `Clear` says that the search from a target reports nothing; it quantifies over targets, so it
 cannot depend on the order in which they are visited. The theorems relate it to walks.
 */
module Guard {
  import opened Refs
  import opened Extraction
  import opened Objects

  type Graph = map<Key, Targets>

  type Store = map<Key, Object>

  ghost function GraphOf(cfg: Config, store: Store): Graph {
    map k | k in store :: DepsOf(cfg, k, store[k])
  }

  lemma GraphKeys(cfg: Config, store: Store)
    ensures GraphOf(cfg, store).Keys == store.Keys
  {
  }

  /** The graph depends on the annotations alone. */
  lemma SameDeps(cfg: Config, before: Store, after: Store)
    requires before.Keys == after.Keys && forall k | k in before :: before[k].annotations == after[k].annotations
    ensures GraphOf(cfg, after) == GraphOf(cfg, before)
  {
    var a, b := GraphOf(cfg, after), GraphOf(cfg, before);
    assert a.Keys == b.Keys;
  }

  ghost function StoredIDs(g: Graph): set<string> {
    set k | k in g :: ID(k)
  }

  ghost function Elems(path: seq<string>): set<string> {
    set x | x in path
  }

  /** What makes the search terminate on every store: stored identifiers off the path shrink. */
  lemma SearchShrinks(g: Graph, path: seq<string>, t: Key)
    requires t in g && ID(t) !in path
    ensures StoredIDs(g) - Elems(path + [ID(t)]) < StoredIDs(g) - Elems(path)
  {
    assert ID(t) in StoredIDs(g) - Elems(path);
    assert ID(t) in Elems(path + [ID(t)]);
    assert Elems(path) <= Elems(path + [ID(t)]);
  }

  /** The search from `t`, below the given path, finds neither a repeated identifier nor an error. */
  ghost predicate Clear(g: Graph, src: string, path: seq<string>, t: Key)
    decreases StoredIDs(g) - Elems(path)
  {
    && ID(t) !in path
    && t in g
    && g[t].Success?
    && (SearchShrinks(g, path, t);
        forall d | d in g[t].value :: ID(d) != src && Clear(g, src, path + [ID(t)], d))
  }

  /** `checkCycle` reports nothing. */
  ghost predicate Passes(g: Graph, src: string, ts: seq<Key>) {
    forall t | t in ts :: Clear(g, src, [src], t)
  }

  /** The number of walks from `t` that stay off the path, the one-node walk included. */
  ghost function Walks(g: Graph, path: seq<string>, t: Key): nat
    decreases StoredIDs(g) - Elems(path), 0
  {
    if ID(t) in path || t !in g || g[t].Failure? then 1
    else
      SearchShrinks(g, path, t);
      1 + WalksFrom(g, path + [ID(t)], g[t].value)
  }

  ghost function WalksFrom(g: Graph, path: seq<string>, ts: seq<Key>): nat
    decreases StoredIDs(g) - Elems(path), |ts|
  {
    if ts == [] then 0 else Walks(g, path, ts[0]) + WalksFrom(g, path, ts[1..])
  }

  lemma TargetsAreOthers(g: Graph, v: Key, ts: seq<Key>)
    requires Passes(g, ID(v), ts)
    ensures v !in ts
  {
    assert forall t | t in ts :: ID(t) !in [ID(v)];
  }

  // ---------- independence of the visiting order ----------

  lemma {:induction false} WalksMoveFront(g: Graph, path: seq<string>, ts: seq<Key>, i: nat)
    requires i < |ts|
    ensures WalksFrom(g, path, ts) == Walks(g, path, ts[i]) + WalksFrom(g, path, ts[..i] + ts[i + 1..])
  {
    if i == 0 {
      assert ts[..0] + ts[1..] == ts[1..];
    } else {
      WalksMoveFront(g, path, ts[1..], i - 1);
      assert ts[1..][..i - 1] + ts[1..][i..] == (ts[..i] + ts[i + 1..])[1..];
    }
  }

  lemma {:induction false} WalksPermuted(g: Graph, path: seq<string>, a: seq<Key>, b: seq<Key>)
    requires multiset(a) == multiset(b)
    ensures WalksFrom(g, path, a) == WalksFrom(g, path, b)
  {
    if a == [] {
      assert |multiset(a)| == 0 && |multiset(b)| == |b|;
    } else {
      var i := RemoveFirst(a, b);
      WalksPermuted(g, path, a[1..], b[..i] + b[i + 1..]);
      WalksMoveFront(g, path, b, i);
    }
  }

  lemma SameElements<T>(a: seq<T>, b: seq<T>)
    requires multiset(a) == multiset(b)
    ensures forall x :: x in a <==> x in b
  {
    forall x ensures x in a <==> x in b {
      assert x in a <==> x in multiset(a);
      assert x in b <==> x in multiset(b);
    }
  }

  lemma PassesPermuted(g: Graph, src: string, a: seq<Key>, b: seq<Key>)
    requires multiset(a) == multiset(b)
    ensures Passes(g, src, a) <==> Passes(g, src, b)
  {
    SameElements(a, b);
  }

  /** The same graph with the targets of each workload found in another order, or another error found first. */
  ghost predicate Reordered(g: Graph, h: Graph) {
    g.Keys == h.Keys && forall k | k in g :: SameTargets(g[k], h[k])
  }

  lemma {:induction false} ClearReordered(g: Graph, h: Graph, src: string, path: seq<string>, t: Key)
    requires Reordered(g, h)
    ensures Clear(g, src, path, t) <==> Clear(h, src, path, t)
    ensures Walks(g, path, t) == Walks(h, path, t)
    decreases StoredIDs(g) - Elems(path), 0
  {
    if ID(t) !in path && t in g && g[t].Success? {
      var p := path + [ID(t)];
      SearchShrinks(g, path, t);
      SameElements(g[t].value, h[t].value);
      forall d | d in g[t].value ensures Clear(g, src, p, d) <==> Clear(h, src, p, d) {
        ClearReordered(g, h, src, p, d);
      }
      WalksPermuted(g, p, g[t].value, h[t].value);
      WalksReordered(g, h, src, p, h[t].value);
    }
  }

  lemma {:induction false} WalksReordered(g: Graph, h: Graph, src: string, path: seq<string>, ts: seq<Key>)
    requires Reordered(g, h)
    ensures WalksFrom(g, path, ts) == WalksFrom(h, path, ts)
    decreases StoredIDs(g) - Elems(path), 1, |ts|
  {
    if ts != [] {
      ClearReordered(g, h, src, path, ts[0]);
      WalksReordered(g, h, src, path, ts[1..]);
    }
  }

  /** An iteration order of the kind map for every workload whose annotations may be read. */
  ghost predicate AreOrders(order: Key -> seq<string>, kinds: KindMap) {
    forall k: Key :: IsOrder(order(k), kinds)
  }

  /** What the annotations of `w`, stored under `k`, give in the order chosen for it. */
  ghost function Extracted(cfg: Config, order: Key -> seq<string>, k: Key, w: Workload): Targets
    requires AreOrders(order, cfg.kinds)
  {
    OrderKeys(order(k), cfg.kinds);
    Gather(order(k), cfg.kinds, w.annotations, k.namespace)
  }

  ghost function GraphIn(cfg: Config, order: Key -> seq<string>, store: Store): Graph
    requires AreOrders(order, cfg.kinds)
  {
    map k | k in store :: Extracted(cfg, order, k, store[k])
  }

  lemma ExtractedAnyOrder(cfg: Config, a: Key -> seq<string>, b: Key -> seq<string>, k: Key, w: Workload)
    requires AreOrders(a, cfg.kinds) && AreOrders(b, cfg.kinds)
    ensures SameTargets(Extracted(cfg, a, k, w), Extracted(cfg, b, k, w))
  {
    GatherAnyOrder(a(k), cfg.kinds, w.annotations, k.namespace);
    GatherAnyOrder(b(k), cfg.kinds, w.annotations, k.namespace);
  }

  /**
   Whatever order the annotation keys are visited in, at the source and at every workload the
   search reaches: extraction at the source fails for both orders or for neither, the guard's
   verdict is the same, and so is the number of Gets of a check that finds nothing.
   */
  lemma VerdictIgnoresOrder(cfg: Config, store: Store, v: Key, w: Workload, a: Key -> seq<string>, b: Key -> seq<string>)
    requires AreOrders(a, cfg.kinds) && AreOrders(b, cfg.kinds)
    ensures var x, y := Extracted(cfg, a, v, w), Extracted(cfg, b, v, w);
            var g, h := GraphIn(cfg, a, store), GraphIn(cfg, b, store);
            && (x.Failure? <==> y.Failure?)
            && (x.Success? ==>
                  && (Passes(g, ID(v), x.value) <==> Passes(h, ID(v), y.value))
                  && WalksFrom(g, [ID(v)], x.value) == WalksFrom(h, [ID(v)], y.value))
  {
    hide Extracted, Clear, WalksFrom;
    var x, y := Extracted(cfg, a, v, w), Extracted(cfg, b, v, w);
    var g, h := GraphIn(cfg, a, store), GraphIn(cfg, b, store);
    ExtractedAnyOrder(cfg, a, b, v, w);
    forall k | k in g ensures SameTargets(g[k], h[k]) {
      ExtractedAnyOrder(cfg, a, b, k, store[k]);
    }
    if x.Success? {
      SameElements(x.value, y.value);
      forall t | t in x.value ensures Clear(g, ID(v), [ID(v)], t) <==> Clear(h, ID(v), [ID(v)], t) {
        ClearReordered(g, h, ID(v), [ID(v)], t);
      }
      WalksPermuted(g, [ID(v)], x.value, y.value);
      WalksReordered(g, h, ID(v), [ID(v)], y.value);
    }
  }

  // ---------- the guard is hereditary ----------

  /** A search that reports nothing reports nothing, and walks the same, below a shorter path. */
  lemma {:induction false} ClearBelowLess(g: Graph, src: string, path: seq<string>, src': string, path': seq<string>, t: Key)
    requires Clear(g, src, path, t)
    requires Elems(path') <= Elems(path) && src' in path
    ensures Clear(g, src', path', t)
    ensures Walks(g, path', t) == Walks(g, path, t)
    decreases StoredIDs(g) - Elems(path), 0
  {
    assert ID(t) !in path' by {
      assert ID(t) !in Elems(path);
    }
    SearchShrinks(g, path, t);
    var p, p' := path + [ID(t)], path' + [ID(t)];
    assert Elems(p') <= Elems(p) by {
      assert Elems(p) == Elems(path) + {ID(t)} && Elems(p') == Elems(path') + {ID(t)};
    }
    forall d | d in g[t].value
      ensures ID(d) != src' && Clear(g, src', p', d)
    {
      ClearBelowLess(g, src, p, src', p', d);
    }
    WalksBelowLess(g, src, p, src', p', g[t].value);
  }

  lemma {:induction false} WalksBelowLess(g: Graph, src: string, path: seq<string>, src': string, path': seq<string>, ts: seq<Key>)
    requires forall t | t in ts :: Clear(g, src, path, t)
    requires Elems(path') <= Elems(path) && src' in path
    ensures WalksFrom(g, path', ts) == WalksFrom(g, path, ts)
    decreases StoredIDs(g) - Elems(path), 1, |ts|
  {
    if ts != [] {
      ClearBelowLess(g, src, path, src', path', ts[0]);
      WalksBelowLess(g, src, path, src', path', ts[1..]);
    }
  }

  /** The number of non-empty walks along dependencies from `v`; 0 if the guard blocks `v`. */
  ghost function N(g: Graph, v: Key): nat {
    if v in g && g[v].Success? && Passes(g, ID(v), g[v].value) then WalksFrom(g, [ID(v)], g[v].value) else 0
  }

  /** One restart of each target, plus everything that may follow from it. */
  ghost function Cost(g: Graph, ts: seq<Key>): nat {
    if ts == [] then 0 else 1 + N(g, ts[0]) + Cost(g, ts[1..])
  }

  /** If the guard passes a workload it passes each of its targets, which has one walk fewer. */
  lemma GuardPassesTargets(g: Graph, src: string, ts: seq<Key>, t: Key)
    requires Passes(g, src, ts) && t in ts
    ensures t in g && g[t].Success? && Passes(g, ID(t), g[t].value)
    ensures Walks(g, [src], t) == 1 + N(g, t)
  {
    SearchShrinks(g, [src], t);
    var p := [src] + [ID(t)];
    assert ID(t) in p && Elems([ID(t)]) <= Elems(p);
    forall d | d in g[t].value ensures Clear(g, ID(t), [ID(t)], d) {
      ClearBelowLess(g, src, p, ID(t), [ID(t)], d);
    }
    WalksBelowLess(g, src, p, ID(t), [ID(t)], g[t].value);
  }

  lemma {:induction false} CostIsWalks(g: Graph, src: string, ts: seq<Key>)
    requires Passes(g, src, ts)
    ensures Cost(g, ts) == WalksFrom(g, [src], ts)
  {
    if ts != [] {
      GuardPassesTargets(g, src, ts, ts[0]);
      CostIsWalks(g, src, ts[1..]);
    }
  }

  /** Firing an unblocked workload, in any order of its targets, costs exactly its walks. */
  lemma FiringCost(g: Graph, v: Key, ts: seq<Key>)
    requires v in g && g[v].Success? && multiset(ts) == multiset(g[v].value)
    requires Passes(g, ID(v), ts)
    ensures Cost(g, ts) == N(g, v)
  {
    PassesPermuted(g, ID(v), ts, g[v].value);
    CostIsWalks(g, ID(v), ts);
    WalksPermuted(g, [ID(v)], ts, g[v].value);
  }

  // ---------- walks over workloads ----------

  /** Workload keys as Kubernetes admits them, here and in every reference. */
  ghost predicate PlainGraph(g: Graph) {
    forall k | k in g :: Plain(k) && (g[k].Success? ==> forall t | t in g[k].value :: Plain(t))
  }

  /** A walk from `src`: its first step goes to a given target, later steps follow the graph. */
  ghost predicate IsWalk(g: Graph, src: Key, ts: seq<Key>, w: seq<Key>) {
    && |w| > 0 && w[0] == src
    && (|w| > 1 ==> w[1] in ts)
    && forall i | 1 <= i < |w| - 1 :: w[i] in g && g[w[i]].Success? && w[i + 1] in g[w[i]].value
  }

  ghost predicate Distinct<T>(w: seq<T>) {
    forall i, j | 0 <= i < j < |w| :: w[i] != w[j]
  }

  /** No workload twice, and every workload stepped to exists and has readable dependencies. */
  ghost predicate Sound(g: Graph, w: seq<Key>) {
    Distinct(w) && forall i | 1 <= i < |w| :: w[i] in g && g[w[i]].Success?
  }

  lemma IDsSnoc(w: seq<Key>, t: Key)
    ensures IDs(w + [t]) == IDs(w) + [ID(t)]
  {
  }

  lemma {:induction false} WalkIsClear(g: Graph, src: Key, ts: seq<Key>, w: seq<Key>)
    requires Passes(g, ID(src), ts) && IsWalk(g, src, ts, w)
    requires |w| > 1
    ensures Clear(g, ID(src), IDs(w[..|w| - 1]), w[|w| - 1])
  {
    var n := |w| - 1;
    if n == 1 {
      assert IDs(w[..1]) == [ID(src)];
    } else {
      assert IsWalk(g, src, ts, w[..n]);
      WalkIsClear(g, src, ts, w[..n]);
      assert w[..n][..n - 1] == w[..n - 1];
      assert w[n - 1] in g && w[n] in g[w[n - 1]].value;
      IDsSnoc(w[..n - 1], w[n - 1]);
      assert w[..n - 1] + [w[n - 1]] == w[..n];
    }
  }

  lemma {:induction false} WalkIsSound(g: Graph, src: Key, ts: seq<Key>, w: seq<Key>)
    requires Passes(g, ID(src), ts) && IsWalk(g, src, ts, w)
    ensures Sound(g, w)
  {
    var n := |w| - 1;
    if n > 0 {
      assert IsWalk(g, src, ts, w[..n]);
      WalkIsSound(g, src, ts, w[..n]);
      WalkIsClear(g, src, ts, w);
      forall i | 0 <= i < n ensures w[i] != w[n] {
        assert IDs(w[..n])[i] == ID(w[i]);
      }
      assert forall i | 0 <= i < n :: w[..n][i] == w[i];
    }
  }

  lemma WalkIsPlain(g: Graph, src: Key, ts: seq<Key>, w: seq<Key>)
    requires PlainGraph(g) && Plain(src) && (forall t | t in ts :: Plain(t))
    requires IsWalk(g, src, ts, w)
    ensures forall i | 0 <= i < |w| :: Plain(w[i])
  {
    forall i | 0 <= i < |w| ensures Plain(w[i]) {
      if i > 1 {
        assert w[i - 1] in g && w[i - 1 + 1] in g[w[i - 1]].value;
      }
    }
  }

  lemma {:induction false} SoundWalksAreClear(g: Graph, src: Key, ts: seq<Key>, w: seq<Key>, t: Key)
    requires PlainGraph(g) && Plain(src) && (forall t' | t' in ts :: Plain(t'))
    requires forall w' | IsWalk(g, src, ts, w') :: Sound(g, w')
    requires |w| > 0 && IsWalk(g, src, ts, w + [t])
    ensures Clear(g, ID(src), IDs(w), t)
    decreases StoredIDs(g) - Elems(IDs(w))
  {
    var wt := w + [t];
    assert Sound(g, wt);
    WalkIsPlain(g, src, ts, wt);
    assert wt[|w|] == t;
    forall i | 0 <= i < |w| ensures IDs(w)[i] != ID(t) {
      assert wt[i] == w[i];
      IdsAreIdentity(w[i], t);
    }
    SearchShrinks(g, IDs(w), t);
    IDsSnoc(w, t);
    forall d | d in g[t].value ensures ID(d) != ID(src) && Clear(g, ID(src), IDs(wt), d) {
      var wd := wt + [d];
      assert forall i | 0 <= i < |wt| :: wd[i] == wt[i];
      assert IsWalk(g, src, ts, wd);
      SoundWalksAreClear(g, src, ts, wt, d);
      assert IDs(wt)[0] == ID(src);
    }
  }

  /**
   The guard is exact: it passes if and only if no walk from the source ever meets a workload
   twice, and every workload a walk reaches exists and has readable dependencies.
   */
  lemma GuardIsExact(g: Graph, src: Key, ts: seq<Key>)
    requires PlainGraph(g) && Plain(src) && (forall t | t in ts :: Plain(t))
    ensures Passes(g, ID(src), ts) <==> forall w | IsWalk(g, src, ts, w) :: Sound(g, w)
  {
    if Passes(g, ID(src), ts) {
      forall w | IsWalk(g, src, ts, w) ensures Sound(g, w) {
        WalkIsSound(g, src, ts, w);
      }
    }
    if forall w | IsWalk(g, src, ts, w) :: Sound(g, w) {
      forall t | t in ts ensures Clear(g, ID(src), [ID(src)], t) {
        assert IsWalk(g, src, ts, [src] + [t]);
        SoundWalksAreClear(g, src, ts, [src], t);
        assert IDs([src]) == [ID(src)];
      }
    }
  }

  /**
   The guard is hereditary: once it passes a root, it passes every workload a walk reaches, so no
   later hop of the cascade is blocked by it.
   */
  lemma {:induction false} GuardIsHereditary(g: Graph, src: Key, ts: seq<Key>, w: seq<Key>)
    requires Passes(g, ID(src), ts) && IsWalk(g, src, ts, w) && |w| > 1
    ensures var v := w[|w| - 1]; v in g && g[v].Success? && Passes(g, ID(v), g[v].value)
  {
    var n := |w| - 1;
    if n == 1 {
      GuardPassesTargets(g, ID(src), ts, w[1]);
    } else {
      assert IsWalk(g, src, ts, w[..n]);
      GuardIsHereditary(g, src, ts, w[..n]);
      var u := w[n - 1];
      assert u in g && w[n] in g[u].value;
      GuardPassesTargets(g, ID(u), g[u].value, w[n]);
    }
  }

  /** Namespaces without slashes are all that a well-formed store needs for a well-formed graph. */
  lemma StoresArePlain(cfg: Config, store: Store)
    requires forall k | k in store :: Plain(k)
    ensures PlainGraph(GraphOf(cfg, store))
  {
    var g := GraphOf(cfg, store);
    forall k | k in g && g[k].Success? ensures forall t | t in g[k].value :: Plain(t) {
      var order := SomeOrder(cfg.kinds.Keys);
      OrderKeys(order, cfg.kinds);
      GatherAccepted(order, cfg.kinds, store[k].annotations, k.namespace);
    }
  }

  lemma SubsetBound<T>(a: set<T>, b: set<T>)
    requires a <= b
    ensures |a| <= |b|
  {
    assert b == a + (b - a);
  }

  /** At most as many identifiers as workloads, which bounds the depth of the search. */
  lemma StoredIDsBound(g: Graph)
    ensures |StoredIDs(g)| <= |g|
  {
    ImageBound(g.Keys);
    assert StoredIDs(g) == set k | k in g.Keys :: ID(k);
  }

  lemma {:induction false} ImageBound(ks: set<Key>)
    ensures |set k | k in ks :: ID(k)| <= |ks|
  {
    if ks != {} {
      var x :| x in ks;
      var rest := ks - {x};
      ImageBound(rest);
      assert (set k | k in ks :: ID(k)) == (set k | k in rest :: ID(k)) + {ID(x)};
    }
  }
}
