/**
 What `WalksFrom` counts. A walk from a list of targets is a sequence of choices: which entry of
 the list to step to, then which entry of that workload's own list, and so on. So a target that is
 listed twice makes two walks, as it makes two restarts and two fetches.
 */
module WalkCount {
  import opened Refs
  import opened Guard

  /** A non-empty walk along dependencies that begins in the list `ts`. */
  ghost predicate IsChoice(g: Graph, ts: seq<Key>, c: seq<nat>)
    decreases |c|
  {
    && c != []
    && c[0] < |ts|
    && (|c| > 1 ==> ts[c[0]] in g && g[ts[c[0]]].Success? && IsChoice(g, g[ts[c[0]]].value, c[1..]))
  }

  function Below(c: seq<nat>): seq<nat> {
    [0] + c
  }

  function Shift(c: seq<nat>): seq<nat>
    requires c != []
  {
    [c[0] + 1] + c[1..]
  }

  lemma {:induction false} ImageSize<A, B>(s: set<A>, f: A -> B, image: set<B>)
    requires forall a, b | a in s && b in s && f(a) == f(b) :: a == b
    requires image == set a | a in s :: f(a)
    ensures |image| == |s|
  {
    if s != {} {
      var x :| x in s;
      var rest := set a | a in s - {x} :: f(a);
      ImageSize(s - {x}, f, rest);
      assert f(x) !in rest;
      assert image == rest + {f(x)};
    }
  }

  lemma BelowSize(s: set<seq<nat>>)
    ensures |set c | c in s :: Below(c)| == |s|
  {
    forall a, b | a in s && b in s && Below(a) == Below(b) ensures a == b {
      assert Below(a)[1..] == a && Below(b)[1..] == b;
    }
    ImageSize(s, Below, set c | c in s :: Below(c));
  }

  function ShiftAny(c: seq<nat>): seq<nat> {
    if c == [] then [] else Shift(c)
  }

  lemma ShiftSize(s: set<seq<nat>>)
    ensures |set c | c in s :: ShiftAny(c)| == |s|
  {
    forall a, b | a in s && b in s && ShiftAny(a) == ShiftAny(b) ensures a == b {
      if a != [] && b != [] {
        assert Shift(a)[0] == a[0] + 1 && Shift(b)[0] == b[0] + 1;
        assert Shift(a)[1..] == a[1..] && Shift(b)[1..] == b[1..];
        assert a == [a[0]] + a[1..] && b == [b[0]] + b[1..];
      }
    }
    ImageSize(s, ShiftAny, set c | c in s :: ShiftAny(c));
  }

  /** The walks through the first target and those through the others make up all of them. */
  lemma ChoiceCases(g: Graph, ts: seq<Key>, c: seq<nat>)
    requires ts != [] && ts[0] in g && g[ts[0]].Success?
    ensures IsChoice(g, ts, c) <==>
              || c == [0]
              || (|c| > 1 && c[0] == 0 && IsChoice(g, g[ts[0]].value, c[1..]))
              || (c != [] && c[0] > 0 && IsChoice(g, ts[1..], [c[0] - 1] + c[1..]))
  {
    if c != [] && c[0] > 0 {
      var d := [c[0] - 1] + c[1..];
      assert d[1..] == c[1..];
      if c[0] < |ts| {
        assert ts[1..][c[0] - 1] == ts[c[0]];
      }
    }
  }

  /** There are exactly `WalksFrom` walks if the search from the targets finds nothing. */
  lemma {:induction false} WalksAreCounted(g: Graph, src: string, path: seq<string>, ts: seq<Key>) returns (all: set<seq<nat>>)
    requires forall t | t in ts :: Clear(g, src, path, t)
    ensures forall c :: c in all <==> IsChoice(g, ts, c)
    ensures |all| == WalksFrom(g, path, ts)
    decreases StoredIDs(g) - Elems(path), |ts|
  {
    if ts == [] {
      all := {};
    } else {
      var t := ts[0];
      assert Clear(g, src, path, t);
      SearchShrinks(g, path, t);
      var deeper := WalksAreCounted(g, src, path + [ID(t)], g[t].value);
      var others := WalksAreCounted(g, src, path, ts[1..]);
      all := Combine(g, ts, deeper, others);
    }
  }

  lemma Combine(g: Graph, ts: seq<Key>, deeper: set<seq<nat>>, others: set<seq<nat>>) returns (all: set<seq<nat>>)
    requires ts != [] && ts[0] in g && g[ts[0]].Success?
    requires forall c :: c in deeper <==> IsChoice(g, g[ts[0]].value, c)
    requires forall c :: c in others <==> IsChoice(g, ts[1..], c)
    ensures forall c :: c in all <==> IsChoice(g, ts, c)
    ensures |all| == 1 + |deeper| + |others|
  {
    hide IsChoice;
    var first := set c | c in deeper :: Below(c);
    var rest := set c | c in others :: ShiftAny(c);
    NoEmptyWalk(g, g[ts[0]].value);
    NoEmptyWalk(g, ts[1..]);
    BelowSize(deeper);
    ShiftSize(others);
    all := {[0]} + first + rest;
    forall c ensures c in all <==> IsChoice(g, ts, c) {
      ChoiceCases(g, ts, c);
      InFirst(deeper, c);
      InRest(others, c);
    }
    InFirst(deeper, [0]);
    InRest(others, [0]);
    forall c | c in first ensures c !in rest {
      InFirst(deeper, c);
      InRest(others, c);
    }
    assert {[0]} !! first && {[0]} + first !! rest;
  }

  lemma NoEmptyWalk(g: Graph, ts: seq<Key>)
    ensures !IsChoice(g, ts, [])
  {
  }

  lemma InFirst(s: set<seq<nat>>, c: seq<nat>)
    ensures c in (set d | d in s :: Below(d)) <==> c != [] && c[0] == 0 && c[1..] in s
  {
    if c != [] && c[0] == 0 {
      assert c == Below(c[1..]);
    }
    if c in (set d | d in s :: Below(d)) {
      var d :| d in s && c == Below(d);
      assert c[1..] == d;
    }
  }

  lemma InRest(s: set<seq<nat>>, c: seq<nat>)
    requires [] !in s
    ensures c in (set d | d in s :: ShiftAny(d)) <==> c != [] && c[0] > 0 && [c[0] - 1] + c[1..] in s
  {
    if c != [] && c[0] > 0 {
      var d := [c[0] - 1] + c[1..];
      assert c == Shift(d);
    }
    if c in (set d | d in s :: ShiftAny(d)) {
      var d :| d in s && c == ShiftAny(d);
      assert c[1..] == d[1..] && d == [d[0]] + d[1..];
    }
  }

  /**
   So `N` of an unblocked workload is the number of walks along dependencies from it, and a check
   that finds nothing makes one Get for each.
   */
  lemma NIsNumberOfWalks(g: Graph, v: Key) returns (all: set<seq<nat>>)
    requires v in g && g[v].Success? && Passes(g, ID(v), g[v].value)
    ensures forall c :: c in all <==> IsChoice(g, g[v].value, c)
    ensures |all| == N(g, v)
  {
    all := WalksAreCounted(g, ID(v), [ID(v)], g[v].value);
  }
}
