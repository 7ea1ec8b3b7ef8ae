/**
 Annotation writes as JSON merge patches (section 2 of RFC 7396): the client sends the difference
 between the object it read and its modified copy, and the server merges that into its own copy,
 which may have changed meanwhile (internal/utils/helper.go).
 */
module Patches {
  import opened Wrappers
  import opened Refs
  import opened Extraction
  import opened Objects
  import opened Predicates

  /** The key `Trigger` writes, whatever key the operator is configured to use for its mark. */
  const RESTART_KEY := "cascader.tkb.ch/last-observed-restart"

  /** The patch member for an annotation map: missing, null, or new values with None for removal. */
  datatype MapPatch = Missing | Null | Fields(fields: map<string, Option<string>>)

  function Lookup(m: Annotations, k: string): Option<string> {
    if k in m then Some(m[k]) else None
  }

  /** An empty map is left out of the JSON text, so emptying one yields null for the whole map. */
  function Diff(original: Annotations, modified: Annotations): MapPatch {
    if original == modified then Missing
    else if modified == map[] then Null
    else Fields(map k | k in original.Keys + modified.Keys && Lookup(original, k) != Lookup(modified, k)
                    :: Lookup(modified, k))
  }

  function Merge(patch: MapPatch, server: Annotations): Annotations {
    match patch
    case Missing => server
    case Null => map[]
    case Fields(fields) =>
      map k | k in server.Keys + fields.Keys && (k in fields ==> fields[k].Some?)
        :: if k in fields then fields[k].value else server[k]
  }

  /** Patching the copy the difference was taken from gives the modified object. */
  lemma MergeOfDiff(original: Annotations, modified: Annotations)
    ensures Merge(Diff(original, modified), original) == modified
  {
    var merged := Merge(Diff(original, modified), original);
    forall k ensures Lookup(merged, k) == Lookup(modified, k) {
    }
    assert forall k :: k in merged <==> Lookup(merged, k).Some?;
    assert forall k :: k in modified <==> Lookup(modified, k).Some?;
    assert forall k | k in modified :: merged[k] == Lookup(merged, k).value && modified[k] == Lookup(modified, k).value;
  }

  /** Setting a key changes that key only, even on a server copy that has changed meanwhile. */
  lemma SetChangesOneKey(original: Annotations, key: string, value: string, server: Annotations)
    ensures Merge(Diff(original, original[key := value]), server) ==
              if Lookup(original, key) == Some(value) then server else server[key := value]
  {
    var modified := original[key := value];
    if Lookup(original, key) == Some(value) {
      assert modified == original;
    } else {
      assert key in modified && Lookup(modified, key) != Lookup(original, key);
      assert modified != original;
      assert Diff(original, modified) == Fields(map[key := Some(value)]);
    }
  }

  /** Clearing a key removes that key only, unless it was the only annotation of the copy read. */
  lemma ClearChangesOneKey(original: Annotations, key: string, server: Annotations)
    ensures Merge(Diff(original, original - {key}), server) ==
              if key !in original then server else if original.Keys == {key} then map[] else server - {key}
  {
    var modified := original - {key};
    if key !in original {
      assert modified == original;
    } else {
      assert modified != original;
      if original.Keys == {key} {
        assert modified == map[];
      } else {
        assert modified != map[] by {
          var k :| k in original.Keys && k != key;
          assert k in modified;
        }
        assert Diff(original, modified) == Fields(map[key := None]);
      }
    }
  }

  /**
   Exactly when clearing a key destroys an annotation it should not touch: the copy read had no
   other annotation, and the server copy has gained one.
   */
  lemma ClearLosesOthersExactly(original: Annotations, key: string, server: Annotations)
    ensures (exists k :: k != key && Lookup(Merge(Diff(original, original - {key}), server), k) != Lookup(server, k)) <==>
              original.Keys == {key} && exists k :: k != key && k in server
  {
    ClearChangesOneKey(original, key, server);
    var merged := Merge(Diff(original, original - {key}), server);
    if original.Keys == {key} && exists k :: k != key && k in server {
      var k :| k != key && k in server;
      assert Lookup(merged, k) != Lookup(server, k);
    }
  }

  // ---------- the three writes of the operator, on whole objects ----------

  /**
   The server's object after a patch with the difference between `read` and `modified`. A change of
   the pod template is a spec change, for which the server bumps the generation.
   */
  function MergeObject(read: Object, modified: Object, server: Object): Object {
    var annotations := Merge(Diff(read.annotations, modified.annotations), server.annotations);
    var templateAnnotations := Merge(Diff(read.template.annotations, modified.template.annotations), server.template.annotations);
    var template := server.template.(annotations := templateAnnotations);
    server.(annotations := annotations,
            template := template,
            generation := if template == server.template then server.generation else server.generation + 1)
  }

  function Marked(key: string, value: string, read: Object, server: Object): Object {
    MergeObject(read, read.(annotations := read.annotations[key := value]), server)
  }

  function Unmarked(key: string, read: Object, server: Object): Object {
    MergeObject(read, read.(annotations := read.annotations - {key}), server)
  }

  function Stamped(key: string, value: string, read: Object, server: Object): Object {
    MergeObject(read, read.(template := read.template.(annotations := read.template.annotations[key := value])), server)
  }

  function Restarted(value: string, read: Object, server: Object): Object {
    Stamped(RESTART_KEY, value, read, server)
  }

  /** Each write reaches one annotation of the server copy, whatever copy was read. */
  lemma MarkedIs(key: string, value: string, read: Object, server: Object)
    ensures Marked(key, value, read, server) ==
              if Lookup(read.annotations, key) == Some(value) then server
              else server.(annotations := server.annotations[key := value])
  {
    SetChangesOneKey(read.annotations, key, value, server.annotations);
    assert server.template.(annotations := server.template.annotations) == server.template;
  }

  lemma UnmarkedIs(key: string, read: Object, server: Object)
    requires exists a :: a != key && a in read.annotations
    ensures Unmarked(key, read, server) ==
              if key !in read.annotations then server else server.(annotations := server.annotations - {key})
  {
    ClearChangesOneKey(read.annotations, key, server.annotations);
    assert server.template.(annotations := server.template.annotations) == server.template;
    var a :| a != key && a in read.annotations;
    assert a in read.annotations.Keys && a !in {key};
  }

  lemma StampedIs(key: string, value: string, read: Object, server: Object)
    ensures Stamped(key, value, read, server) ==
              if Lookup(read.template.annotations, key) == Some(value) || Lookup(server.template.annotations, key) == Some(value)
              then server
              else server.(template := server.template.(annotations := server.template.annotations[key := value]),
                           generation := server.generation + 1)
  {
    SetChangesOneKey(read.template.annotations, key, value, server.template.annotations);
    var after := Stamped(key, value, read, server);
    assert server.template.(annotations := server.template.annotations) == server.template;
    if Lookup(server.template.annotations, key) == Some(value) {
      assert server.template.annotations[key := value] == server.template.annotations;
    } else if Lookup(read.template.annotations, key) != Some(value) {
      assert Lookup(after.template.annotations, key) == Some(value);
    }
  }

  /** A write changed the object, and the watch admitted the resulting update. */
  predicate Notices(cfg: Config, before: Workload, after: Workload) {
    before != after && Admits(cfg, before, after)
  }

  /**
   A restart is noticed by the target's controller exactly when the target has dependencies of its
   own and the timestamp is new both to the copy read and to the server's copy, which may have
   changed in between; provided the hash tells the two templates apart.
   */
  lemma HopNoticedExactly(cfg: Config, read: Object, server: Object, value: string)
    requires Restarted(value, read, server).template != server.template ==>
               cfg.hash(Restarted(value, read, server).template) != cfg.hash(server.template)
    ensures Notices(cfg, server, Restarted(value, read, server)) <==>
              && HasKindAnnotation(server, cfg.kinds)
              && Lookup(read.template.annotations, RESTART_KEY) != Some(value)
              && Lookup(server.template.annotations, RESTART_KEY) != Some(value)
  {
    hide Stamped;
    StampedIs(RESTART_KEY, value, read, server);
    var after := Restarted(value, read, server);
    AdmitsExactly(cfg, server, after);
    if after != server {
      assert Lookup(after.template.annotations, RESTART_KEY) == Some(value);
      assert HasKindAnnotation(after, cfg.kinds) <==> HasKindAnnotation(server, cfg.kinds);
    }
  }

  /**
   A restart with a new timestamp leaves a workload whose status was not ahead of its spec unstable,
   so its own targets wait for a status that has seen the restart; any other restart changes nothing.
   */
  lemma RestartAwaitsStatus(read: Object, server: Object, value: string)
    requires server.observedGeneration <= server.generation
    ensures if Lookup(read.template.annotations, RESTART_KEY) == Some(value) ||
               Lookup(server.template.annotations, RESTART_KEY) == Some(value)
            then Restarted(value, read, server) == server
            else !Stable(Restarted(value, read, server))
  {
    hide Stamped;
    StampedIs(RESTART_KEY, value, read, server);
  }

  /**
   Two restarts in the same second are one: once the server's copy carries the timestamp, a further
   restart with it changes nothing and is not noticed, whatever copy it was based on.
   */
  lemma SameSecondCoalesces(cfg: Config, read: Object, server: Object, value: string, later: Object)
    requires Lookup(read.template.annotations, RESTART_KEY) != Some(value)
    ensures var once := Restarted(value, read, server);
            Restarted(value, later, once) == once && !Notices(cfg, once, Restarted(value, later, once))
  {
    hide Stamped;
    StampedIs(RESTART_KEY, value, read, server);
    var once := Restarted(value, read, server);
    assert Lookup(once.template.annotations, RESTART_KEY) == Some(value);
    StampedIs(RESTART_KEY, value, later, once);
  }

  /** Whatever the hash: a noticed restart did change the pod template. */
  lemma NoticedHopChangedTemplate(cfg: Config, read: Object, server: Object, value: string)
    requires Notices(cfg, server, Restarted(value, read, server))
    ensures Restarted(value, read, server).template != server.template
  {
    hide Stamped;
    StampedIs(RESTART_KEY, value, read, server);
    var after := Restarted(value, read, server);
    assert Lookup(after.template.annotations, RESTART_KEY) == Some(value);
  }

  lemma DepsIgnoreOtherKeys(kinds: KindMap, a: Annotations, b: Annotations, ns: string)
    requires forall k | k in kinds :: Lookup(a, k) == Lookup(b, k)
    ensures Deps(kinds, a, ns) == Deps(kinds, b, ns)
  {
    var order := SomeOrder(kinds.Keys);
    OrderKeys(order, kinds);
    GatherIgnoresOtherKeys(order, kinds, a, b, ns);
  }

  lemma {:induction false} GatherIgnoresOtherKeys(order: seq<string>, kinds: KindMap, a: Annotations, b: Annotations, ns: string)
    requires forall k | k in order :: k in kinds
    requires forall k | k in kinds :: Lookup(a, k) == Lookup(b, k)
    ensures Gather(order, kinds, a, ns) == Gather(order, kinds, b, ns)
  {
    if order != [] {
      assert Lookup(a, order[0]) == Lookup(b, order[0]);
      GatherIgnoresOtherKeys(order[1..], kinds, a, b, ns);
    }
  }

  // ---------- bookkeeping keeps the dependencies ----------

  /** Setting the mark keeps the dependencies of the server copy, whatever copy was read. */
  lemma MarkKeepsDeps(cfg: Config, k: Key, value: string, read: Object, server: Object)
    requires cfg.lastObserved !in cfg.kinds
    ensures DepsOf(cfg, k, Marked(cfg.lastObserved, value, read, server)) == DepsOf(cfg, k, server)
  {
    SetChangesOneKey(read.annotations, cfg.lastObserved, value, server.annotations);
    DepsIgnoreOtherKeys(cfg.kinds, Marked(cfg.lastObserved, value, read, server).annotations, server.annotations, k.namespace);
  }

  /**
   So does clearing it, if the copy read carries a kind annotation; the operator only clears the
   mark of a workload that has targets, hence such an annotation.
   */
  lemma UnmarkKeepsDeps(cfg: Config, k: Key, read: Object, server: Object)
    requires cfg.lastObserved !in cfg.kinds && HasKindAnnotation(read, cfg.kinds)
    ensures DepsOf(cfg, k, Unmarked(cfg.lastObserved, read, server)) == DepsOf(cfg, k, server)
  {
    ClearChangesOneKey(read.annotations, cfg.lastObserved, server.annotations);
    var a :| a in cfg.kinds && a in read.annotations;
    assert read.annotations.Keys != {cfg.lastObserved};
    DepsIgnoreOtherKeys(cfg.kinds, Unmarked(cfg.lastObserved, read, server).annotations, server.annotations, k.namespace);
  }

  /** A workload without any kind annotation has no targets. */
  lemma {:induction false} TargetsNeedAnnotation(order: seq<string>, kinds: KindMap, w: Workload, ns: string)
    requires forall k | k in order :: k in kinds
    requires Gather(order, kinds, w.annotations, ns).Success? && Gather(order, kinds, w.annotations, ns).value != []
    ensures HasKindAnnotation(w, kinds)
  {
    if order[0] in w.annotations {
      assert order[0] in kinds;
    } else {
      TargetsNeedAnnotation(order[1..], kinds, w, ns);
    }
  }
}
