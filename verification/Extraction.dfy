/**
 Dependency extraction (internal/controller/base_reconciler.go, `extractTargets`).

 Go iterates over the annotation-kind map in an unspecified order that may differ from call to
 call, so the specification takes the order as an argument, and `GatherAnyOrder` shows what of
 the result does not depend on it.
 */
module Extraction {
  import opened Wrappers
  import opened Text
  import opened Refs

  type Annotations = map<string, string>
  type KindMap = map<string, Kind>
  type Targets = Result<seq<Key>, RefError>

  /** The references in an annotation value: comma separated, trimmed, empty items skipped. */
  function Items(val: string): seq<string> {
    CleanItems(Split(val, ','))
  }

  function CleanItems(parts: seq<string>): seq<string> {
    if parts == [] then []
    else
      var ref := TrimSpace(parts[0]);
      if ref == "" then CleanItems(parts[1..]) else [ref] + CleanItems(parts[1..])
  }

  function After(done: seq<Key>, rest: Targets): Targets {
    match rest
    case Success(ts) => Success(done + ts)
    case Failure(e) => Failure(e)
  }

  lemma AfterAfter(a: seq<Key>, b: seq<Key>, r: Targets)
    ensures After(a, After(b, r)) == After(a + b, r)
    ensures After([], r) == r
    ensures After(a, Success([])) == Success(a)
  {
    assert a + [] == a;
    if r.Success? {
      assert a + (b + r.value) == a + b + r.value;
      assert [] + r.value == r.value;
    }
  }

  /** The targets of one annotation, up to the first reference that is rejected. */
  function TargetsOf(kind: Kind, refs: seq<string>, ns: string): Targets {
    if refs == [] then Success([])
    else match NewTarget(kind, refs[0], ns)
      case Failure(e) => Failure(e)
      case Success(t) => After([t], TargetsOf(kind, refs[1..], ns))
  }

  /** The targets of one annotation key; an absent key contributes none. */
  function KeyTargets(key: string, kinds: KindMap, ann: Annotations, ns: string): Targets
    requires key in kinds
  {
    if key in ann then TargetsOf(kinds[key], Items(ann[key]), ns) else Success([])
  }

  /** All targets, visiting the annotation keys in the given order. */
  function Gather(order: seq<string>, kinds: KindMap, ann: Annotations, ns: string): Targets
    requires forall k | k in order :: k in kinds
  {
    if order == [] then Success([])
    else match KeyTargets(order[0], kinds, ann, ns)
      case Failure(e) => Failure(e)
      case Success(ts) => After(ts, Gather(order[1..], kinds, ann, ns))
  }

  /** An iteration order of the map: every key once. */
  ghost predicate IsOrder(order: seq<string>, kinds: KindMap) {
    multiset(order) == multiset(kinds.Keys)
  }

  lemma OrderKeys(order: seq<string>, kinds: KindMap)
    requires IsOrder(order, kinds)
    ensures forall k :: k in order <==> k in kinds
  {
    forall k ensures k in order <==> k in kinds {
      assert k in order <==> k in multiset(order);
      assert k in kinds.Keys <==> k in multiset(kinds.Keys);
    }
  }

  /** Some order, the same one for the same set of keys. */
  ghost function SomeOrder(keys: set<string>): (order: seq<string>)
    ensures multiset(order) == multiset(keys)
  {
    if keys == {} then []
    else
      var k :| k in keys;
      assert multiset(keys) == multiset{k} + multiset(keys - {k});
      [k] + SomeOrder(keys - {k})
  }

  /** The targets of a workload in namespace `ns`, in the reference order. */
  ghost function Deps(kinds: KindMap, ann: Annotations, ns: string): Targets {
    OrderKeys(SomeOrder(kinds.Keys), kinds);
    Gather(SomeOrder(kinds.Keys), kinds, ann, ns)
  }

  /** Two extraction results that agree up to the order of targets and the error reported. */
  ghost predicate SameTargets(a: Targets, b: Targets) {
    && (a.Success? <==> b.Success?)
    && (a.Success? ==> multiset(a.value) == multiset(b.value))
  }

  lemma {:induction false} GatherMoveFront(order: seq<string>, i: nat, kinds: KindMap, ann: Annotations, ns: string)
    requires forall k | k in order :: k in kinds
    requires i < |order|
    ensures forall k | k in [order[i]] + order[..i] + order[i + 1..] :: k in kinds
    ensures SameTargets(Gather(order, kinds, ann, ns), Gather([order[i]] + order[..i] + order[i + 1..], kinds, ann, ns))
  {
    var moved := [order[i]] + order[..i] + order[i + 1..];
    if i == 0 {
      assert moved == order;
    } else {
      var tail := order[1..];
      GatherMoveFront(tail, i - 1, kinds, ann, ns);
      var tailMoved := [tail[i - 1]] + tail[..i - 1] + tail[i..];
      var rest := order[1..i] + order[i + 1..];
      assert tail[..i - 1] + tail[i..] == rest;
      assert tailMoved[1..] == rest;
      assert moved[1..] == [order[0]] + rest;
      assert ([order[0]] + rest)[1..] == rest;
    }
  }

  lemma WithoutElement<T>(s: seq<T>, i: nat)
    requires i < |s|
    ensures multiset(s[..i] + s[i + 1..]) == multiset(s) - multiset{s[i]}
  {
    var front, back := s[..i], s[i + 1..];
    assert s == front + ([s[i]] + back);
  }

  /** Two permutations agree once the first element of one is removed from both. */
  lemma RemoveFirst<T>(a: seq<T>, b: seq<T>) returns (i: nat)
    requires multiset(a) == multiset(b) && a != []
    ensures i < |b| && b[i] == a[0]
    ensures multiset(a[1..]) == multiset(b[..i] + b[i + 1..])
  {
    assert a[0] in multiset(b);
    i :| 0 <= i < |b| && b[i] == a[0];
    WithoutElement(a, 0);
    assert a[..0] + a[1..] == a[1..];
    WithoutElement(b, i);
  }

  lemma {:induction false} GatherPermuted(a: seq<string>, b: seq<string>, kinds: KindMap, ann: Annotations, ns: string)
    requires multiset(a) == multiset(b)
    requires (forall k | k in a :: k in kinds) && (forall k | k in b :: k in kinds)
    ensures SameTargets(Gather(a, kinds, ann, ns), Gather(b, kinds, ann, ns))
  {
    if a == [] {
      assert |multiset(a)| == 0 && |multiset(b)| == |b|;
    } else {
      var i := RemoveFirst(a, b);
      var rest := b[..i] + b[i + 1..];
      GatherPermuted(a[1..], rest, kinds, ann, ns);
      GatherMoveFront(b, i, kinds, ann, ns);
      var moved := [b[i]] + b[..i] + b[i + 1..];
      assert moved[0] == a[0] && moved[1..] == rest;
    }
  }

  /**
   Whatever the iteration order: success or failure and, on success, the targets with their
   multiplicities are those of the reference order.
   */
  lemma GatherAnyOrder(order: seq<string>, kinds: KindMap, ann: Annotations, ns: string)
    requires IsOrder(order, kinds)
    ensures forall k | k in order :: k in kinds
    ensures SameTargets(Gather(order, kinds, ann, ns), Deps(kinds, ann, ns))
  {
    OrderKeys(order, kinds);
    OrderKeys(SomeOrder(kinds.Keys), kinds);
    GatherPermuted(order, SomeOrder(kinds.Keys), kinds, ann, ns);
  }

  // ---------- when extraction fails ----------

  lemma {:induction false} TargetsOfAccepted(kind: Kind, refs: seq<string>, ns: string)
    ensures TargetsOf(kind, refs, ns).Success? <==> forall r | r in refs :: NewTarget(kind, r, ns).Success?
    ensures TargetsOf(kind, refs, ns).Success? ==>
              |TargetsOf(kind, refs, ns).value| == |refs| &&
              forall i | 0 <= i < |refs| :: NewTarget(kind, refs[i], ns) == Success(TargetsOf(kind, refs, ns).value[i])
  {
    if refs != [] {
      TargetsOfAccepted(kind, refs[1..], ns);
      assert forall r :: r in refs <==> r == refs[0] || r in refs[1..];
    }
  }

  ghost predicate KeyAccepted(key: string, kinds: KindMap, ann: Annotations)
    requires key in kinds
  {
    key in ann ==> forall r | r in Items(ann[key]) :: Count(r, '/') < 2 && Supported(kinds[key])
  }

  lemma KeyTargetsAccepted(key: string, kinds: KindMap, ann: Annotations, ns: string)
    requires key in kinds
    ensures KeyTargets(key, kinds, ann, ns).Success? <==> KeyAccepted(key, kinds, ann)
    ensures Free(ns, '/') && KeyTargets(key, kinds, ann, ns).Success? ==>
              forall t | t in KeyTargets(key, kinds, ann, ns).value :: Plain(t)
  {
    if key in ann {
      var refs := Items(ann[key]);
      TargetsOfAccepted(kinds[key], refs, ns);
      forall r ensures NewTarget(kinds[key], r, ns).Success? <==> Count(r, '/') < 2 && Supported(kinds[key])
        ensures Free(ns, '/') && NewTarget(kinds[key], r, ns).Success? ==> Plain(NewTarget(kinds[key], r, ns).value)
      {
        TargetAccepted(kinds[key], r, ns);
      }
    }
  }

  lemma {:induction false} GatherAccepted(order: seq<string>, kinds: KindMap, ann: Annotations, ns: string)
    requires forall k | k in order :: k in kinds
    ensures Gather(order, kinds, ann, ns).Success? <==> forall k | k in order :: KeyAccepted(k, kinds, ann)
    ensures Free(ns, '/') && Gather(order, kinds, ann, ns).Success? ==>
              forall t | t in Gather(order, kinds, ann, ns).value :: Plain(t)
  {
    if order != [] {
      KeyTargetsAccepted(order[0], kinds, ann, ns);
      GatherAccepted(order[1..], kinds, ann, ns);
      assert forall k :: k in order <==> k == order[0] || k in order[1..];
    }
  }

  /** An item of a kind annotation with two or more slashes. */
  ghost predicate MalformedItem(kinds: KindMap, ann: Annotations, k: string, r: string) {
    k in kinds && k in ann && r in Items(ann[k]) && Count(r, '/') >= 2
  }

  /**
   For the supported kinds extraction fails exactly when some item of some kind annotation has
   two or more slashes; otherwise every target is a well-formed key.
   */
  lemma ExtractionFailsExactly(order: seq<string>, kinds: KindMap, ann: Annotations, ns: string)
    requires IsOrder(order, kinds)
    requires forall k | k in kinds :: Supported(kinds[k])
    ensures forall k | k in order :: k in kinds
    ensures Gather(order, kinds, ann, ns).Failure? <==> exists k, r :: MalformedItem(kinds, ann, k, r)
    ensures Free(ns, '/') && Gather(order, kinds, ann, ns).Success? ==>
              forall t | t in Gather(order, kinds, ann, ns).value :: Plain(t)
  {
    hide Gather, Items, Count, Supported, Plain;
    OrderKeys(order, kinds);
    GatherAccepted(order, kinds, ann, ns);
    forall k | k in kinds
      ensures KeyAccepted(k, kinds, ann) <==> forall r :: !MalformedItem(kinds, ann, k, r)
    {
      AcceptedExactly(kinds, ann, k);
    }
  }

  lemma AcceptedExactly(kinds: KindMap, ann: Annotations, k: string)
    requires k in kinds && Supported(kinds[k])
    ensures KeyAccepted(k, kinds, ann) <==> forall r :: !MalformedItem(kinds, ann, k, r)
  {
    hide Items, Count;
    if !KeyAccepted(k, kinds, ann) {
      var r :| r in Items(ann[k]) && Count(r, '/') >= 2;
      assert MalformedItem(kinds, ann, k, r);
    }
  }

  // ---------- round trip of a printed reference list ----------

  /** What a user may write between two commas: padding, or a padded reference. */
  datatype Written =
    | Padding(blank: string)
    | Reference(left: string, target: Key, qualified: bool, right: string)

  predicate Writable(w: Written, kind: Kind, ns: string) {
    match w
    case Padding(blank) => Blank(blank)
    case Reference(left, t, qualified, right) =>
      && Blank(left) && Blank(right)
      && t.kind == kind && Plain(t) && Free(t.name, '/')
      && (qualified || t.namespace == ns)
      && var text := PrintRef(t, qualified); text != "" && Trimmed(text) && Free(text, ',')
  }

  function WrittenText(w: Written): string {
    match w
    case Padding(blank) => blank
    case Reference(left, t, qualified, right) => left + PrintRef(t, qualified) + right
  }

  function WrittenTexts(ws: seq<Written>): (texts: seq<string>)
    ensures |texts| == |ws|
    ensures forall i | 0 <= i < |ws| :: texts[i] == WrittenText(ws[i])
  {
    seq(|ws|, i requires 0 <= i < |ws| => WrittenText(ws[i]))
  }

  /** The references of a written list, in order and with their multiplicity. */
  function WrittenTargets(ws: seq<Written>): seq<Key> {
    if ws == [] then []
    else (match ws[0] case Padding(_) => [] case Reference(_, t, _, _) => [t]) + WrittenTargets(ws[1..])
  }

  lemma BlankIsFree(s: string)
    requires Blank(s)
    ensures Free(s, ',')
  {
    assert forall i | 0 <= i < |s| :: s[i] != ',';
  }

  lemma {:induction false} WrittenItems(ws: seq<Written>, kind: Kind, ns: string)
    requires forall w | w in ws :: Writable(w, kind, ns)
    ensures TargetsOf(kind, CleanItems(WrittenTexts(ws)), ns) == Success(WrittenTargets(ws))
    ensures forall i | 0 <= i < |ws| :: Free(WrittenTexts(ws)[i], ',')
  {
    if ws != [] {
      assert ws[0] in ws;
      WrittenItems(ws[1..], kind, ns);
      var texts := WrittenTexts(ws);
      assert texts[1..] == WrittenTexts(ws[1..]);
      match ws[0]
      case Padding(blank) =>
        TrimOfPadded(blank, "", "");
        assert blank + "" + "" == blank;
        BlankIsFree(blank);
        assert WrittenTargets(ws) == WrittenTargets(ws[1..]);
      case Reference(left, t, qualified, right) =>
        var text := PrintRef(t, qualified);
        TrimOfPadded(left, text, right);
        ParsePrinted(t, qualified, ns);
        BlankIsFree(left);
        BlankIsFree(right);
        var rest := CleanItems(texts[1..]);
        assert ([text] + rest)[1..] == rest;
    }
  }

  /**
   Printing a list of references with any padding and empty items, then extracting, recovers
   exactly that list: order and multiplicity included.
   */
  lemma PrintedListRoundTrip(key: string, kinds: KindMap, ann: Annotations, ns: string, ws: seq<Written>)
    requires key in kinds && ws != []
    requires forall w | w in ws :: Writable(w, kinds[key], ns)
    requires key in ann && ann[key] == Join(WrittenTexts(ws), ',')
    ensures KeyTargets(key, kinds, ann, ns) == Success(WrittenTargets(ws))
  {
    WrittenItems(ws, kinds[key], ns);
    SplitOfJoin(WrittenTexts(ws), ',');
  }

  /** The references written in all annotations, one annotation after the other. */
  function AllWritten(order: seq<string>, ann: Annotations, written: map<string, seq<Written>>): seq<Key>
    requires forall k | k in order && k in ann :: k in written
  {
    if order == [] then []
    else (if order[0] in ann then WrittenTargets(written[order[0]]) else []) + AllWritten(order[1..], ann, written)
  }

  /** So for all annotations together: whatever the order they are visited in, nothing is lost or added. */
  lemma {:induction false} PrintedAnnotationsRoundTrip(order: seq<string>, kinds: KindMap, ann: Annotations, ns: string,
                                                       written: map<string, seq<Written>>)
    requires forall k | k in order :: k in kinds
    requires forall k | k in order && k in ann ::
               k in written && written[k] != [] && ann[k] == Join(WrittenTexts(written[k]), ',')
    requires forall k | k in order && k in ann :: forall w | w in written[k] :: Writable(w, kinds[k], ns)
    ensures Gather(order, kinds, ann, ns) == Success(AllWritten(order, ann, written))
  {
    hide TargetsOf, Items, Writable, WrittenTexts, WrittenTargets;
    if order != [] {
      var k := order[0];
      if k in ann {
        PrintedListRoundTrip(k, kinds, ann, ns, written[k]);
      }
      assert forall j | j in order[1..] :: j in order;
      PrintedAnnotationsRoundTrip(order[1..], kinds, ann, ns, written);
    }
  }
}
