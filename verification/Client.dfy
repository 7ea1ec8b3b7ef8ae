/**
 The cluster as the operator's client sees it, and the annotation writes built on it
 (internal/utils/helper.go). Calls are numbered, and any call may fail.
 */
module Client {
  import opened Wrappers
  import opened Refs
  import opened Extraction
  import opened Objects
  import opened Patches
  import opened Guard

  datatype ApiError = NotFound | Unavailable

  /** A workload in memory: what was last read from, or returned by, the server, possibly edited. */
  class Loaded {
    const key: Key
    var copy: Object

    constructor (key: Key, copy: Object)
      ensures this.key == key && this.copy == copy
    {
      this.key := key;
      this.copy := copy;
    }
  }

  class KubeClient {
    var store: Store
    var gets: nat
    var patches: nat
    const getFails: nat -> bool
    const patchFails: nat -> bool
    /** The text of the current time when the n-th patch is built. */
    const clock: nat -> string

    constructor (store: Store, getFails: nat -> bool, patchFails: nat -> bool, clock: nat -> string)
      ensures this.store == store && gets == 0 && patches == 0
      ensures this.getFails == getFails && this.patchFails == patchFails && this.clock == clock
    {
      this.store := store;
      this.gets, this.patches := 0, 0;
      this.getFails, this.patchFails, this.clock := getFails, patchFails, clock;
    }

    method Get(k: Key) returns (r: Result<Object, ApiError>)
      modifies this`gets
      ensures gets == old(gets) + 1
      ensures r == if getFails(old(gets)) then Failure(Unavailable)
                   else if k in store then Success(store[k]) else Failure(NotFound)
    {
      r := if getFails(gets) then Failure(Unavailable)
           else if k in store then Success(store[k]) else Failure(NotFound);
      gets := gets + 1;
    }

    /** Sends the difference between `original` and the edited object; refreshes the object. */
    method Patch(obj: Loaded, original: Object) returns (err: Option<ApiError>)
      modifies this`store, this`patches, obj`copy
      ensures patches == old(patches) + 1
      ensures err.None? <==> !patchFails(old(patches)) && obj.key in old(store)
      ensures err.None? ==> store == old(store)[obj.key := MergeObject(original, old(obj.copy), old(store)[obj.key])]
      ensures err.None? ==> obj.copy == store[obj.key]
      ensures err.Some? ==> store == old(store) && obj.copy == old(obj.copy)
    {
      if patchFails(patches) {
        err := Some(Unavailable);
      } else if obj.key !in store {
        err := Some(NotFound);
      } else {
        store := store[obj.key := MergeObject(original, obj.copy, store[obj.key])];
        obj.copy := store[obj.key];
        err := None;
      }
      patches := patches + 1;
    }
  }

  method PatchWorkloadAnnotation(c: KubeClient, obj: Loaded, key: string, value: string) returns (err: Option<ApiError>)
    modifies c`store, c`patches, obj`copy
    ensures c.patches == old(c.patches) + 1
    ensures err.None? <==> !c.patchFails(old(c.patches)) && obj.key in old(c.store)
    ensures err.None? ==> c.store == old(c.store)[obj.key := Marked(key, value, old(obj.copy), old(c.store)[obj.key])]
    ensures err.None? ==> obj.copy == c.store[obj.key]
    ensures err.Some? ==> c.store == old(c.store)
  {
    var original := obj.copy;
    var annotations := obj.copy.annotations[key := value];
    obj.copy := obj.copy.(annotations := annotations);
    err := c.Patch(obj, original);
  }

  method DeleteWorkloadAnnotation(c: KubeClient, obj: Loaded, key: string) returns (err: Option<ApiError>)
    modifies c`store, c`patches, obj`copy
    ensures c.patches == old(c.patches) + 1
    ensures err.None? <==> !c.patchFails(old(c.patches)) && obj.key in old(c.store)
    ensures err.None? ==> c.store == old(c.store)[obj.key := Unmarked(key, old(obj.copy), old(c.store)[obj.key])]
    ensures err.Some? ==> c.store == old(c.store)
  {
    var original := obj.copy;
    obj.copy := obj.copy.(annotations := obj.copy.annotations - {key});
    err := c.Patch(obj, original);
  }

  method PatchPodTemplateAnnotation(c: KubeClient, obj: Loaded, key: string, value: string) returns (err: Option<ApiError>)
    modifies c`store, c`patches, obj`copy
    ensures c.patches == old(c.patches) + 1
    ensures err.None? <==> !c.patchFails(old(c.patches)) && obj.key in old(c.store)
    ensures err.None? ==> c.store == old(c.store)[obj.key := Stamped(key, value, old(obj.copy), old(c.store)[obj.key])]
    ensures err.Some? ==> c.store == old(c.store)
  {
    var original := obj.copy;
    var template := obj.copy.template;
    template := template.(annotations := template.annotations[key := value]);
    obj.copy := obj.copy.(template := template);
    err := c.Patch(obj, original);
  }

  /** A target's restart: read the workload, then stamp its pod template. */
  method Trigger(c: KubeClient, t: Key) returns (err: Option<ApiError>)
    modifies c`store, c`gets, c`patches
    ensures c.gets == old(c.gets) + 1
    ensures c.patches == old(c.patches) + if !c.getFails(old(c.gets)) && t in old(c.store) then 1 else 0
    ensures err.None? <==> !c.getFails(old(c.gets)) && t in old(c.store) && !c.patchFails(old(c.patches))
    ensures c.store == if err.None?
                       then old(c.store)[t := Restarted(c.clock(old(c.patches)), old(c.store)[t], old(c.store)[t])]
                       else old(c.store)
  {
    var got := c.Get(t);
    if got.Failure? {
      return Some(got.error);
    }
    var obj := new Loaded(t, got.value);
    err := PatchPodTemplateAnnotation(c, obj, RESTART_KEY, c.clock(c.patches));
  }

  /** The start-up check that all configured annotation keys differ. */
  method UniqueAnnotations(annotations: map<string, string>) returns (ok: bool)
    ensures ok <==> annotations != map[] &&
                    forall a, b | a in annotations && b in annotations && annotations[a] == annotations[b] :: a == b
  {
    if |annotations| == 0 {
      assert annotations == map[];
      return false;
    }
    var seen: map<string, string> := map[];
    var todo := annotations.Keys;
    while todo != {}
      invariant todo <= annotations.Keys
      invariant forall v | v in seen :: seen[v] in annotations.Keys - todo && annotations[seen[v]] == v
      invariant forall k | k in annotations.Keys - todo :: annotations[k] in seen && seen[annotations[k]] == k
      decreases todo
    {
      var k :| k in todo;
      var v := annotations[k];
      if v in seen {
        return false;
      }
      seen := seen[v := k];
      todo := todo - {k};
    }
    ok := true;
  }

  /** The kind map built from the configured keys, after the start-up check. */
  function KindMapOf(daemonSet: string, deployment: string, statefulSet: string): KindMap {
    map[daemonSet := DAEMON_SET, deployment := DEPLOYMENT, statefulSet := STATEFUL_SET]
  }

  /**
   What passing the start-up check is for: the kind map has an entry per kind, and neither the mark
   nor the requeue key is a kind annotation.
   */
  lemma CheckedKeysAreApart(keys: map<string, string>)
    requires keys.Keys == {"DaemonSet", "Deployment", "StatefulSet", "LastObservedRestart", "RequeueAfter"}
    requires forall a, b | a in keys && b in keys && keys[a] == keys[b] :: a == b
    ensures var kinds := KindMapOf(keys["DaemonSet"], keys["Deployment"], keys["StatefulSet"]);
            && kinds[keys["DaemonSet"]] == "DaemonSet"
            && kinds[keys["Deployment"]] == "Deployment"
            && kinds[keys["StatefulSet"]] == "StatefulSet"
            && (forall k | k in kinds :: Supported(kinds[k]))
            && keys["LastObservedRestart"] !in kinds
            && keys["RequeueAfter"] !in kinds
  {
    assert |"DaemonSet"| == 9 && |"Deployment"| == 10 && |"StatefulSet"| == 11;
    assert |"LastObservedRestart"| == 19 && |"RequeueAfter"| == 12;
  }

  /**
   The default keys pass the check. A restart is stamped under the default key of the mark, in the
   pod template, whatever key the mark has been given.
   */
  lemma DefaultKeysPass()
    ensures var keys := map["DaemonSet" := "cascader.tkb.ch/daemonset",
                            "Deployment" := "cascader.tkb.ch/deployment",
                            "StatefulSet" := "cascader.tkb.ch/statefulset",
                            "LastObservedRestart" := "cascader.tkb.ch/last-observed-restart",
                            "RequeueAfter" := "cascader.tkb.ch/requeue-after"];
            && (forall a, b | a in keys && b in keys && keys[a] == keys[b] :: a == b)
            && keys["LastObservedRestart"] == RESTART_KEY
  {
    assert |"cascader.tkb.ch/daemonset"| == 25 && |"cascader.tkb.ch/deployment"| == 26;
    assert |"cascader.tkb.ch/statefulset"| == 27 && |"cascader.tkb.ch/requeue-after"| == 29;
    assert |"cascader.tkb.ch/last-observed-restart"| == 37;
  }
}
