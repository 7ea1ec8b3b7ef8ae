/**
 Workload kinds, workload keys, textual identifiers and target references
 (internal/kinds/kind.go, internal/utils/helper.go, internal/targets/target.go).
 */
module Refs {
  import opened Wrappers
  import opened Text

  type Kind = string

  const DAEMON_SET: Kind := "DaemonSet"
  const DEPLOYMENT: Kind := "Deployment"
  const STATEFUL_SET: Kind := "StatefulSet"

  predicate Supported(kind: Kind) {
    kind == DAEMON_SET || kind == DEPLOYMENT || kind == STATEFUL_SET
  }

  /** What identifies a workload in the cluster; also what a target holds. */
  datatype Key = Key(kind: Kind, namespace: string, name: string)

  /** Kubernetes never admits a slash in a namespace, and the supported kinds contain none. */
  predicate Plain(k: Key) {
    Supported(k.kind) && Free(k.namespace, '/')
  }

  function GenerateID(kind: Kind, namespace: string, name: string): string {
    kind + "/" + namespace + "/" + name
  }

  function ID(k: Key): string {
    GenerateID(k.kind, k.namespace, k.name)
  }

  function IDs(ks: seq<Key>): (ids: seq<string>)
    ensures |ids| == |ks|
    ensures forall i | 0 <= i < |ks| :: ids[i] == ID(ks[i])
  {
    seq(|ks|, i requires 0 <= i < |ks| => ID(ks[i]))
  }

  datatype RefError = InvalidFormat(ref: string) | UnsupportedKind(kind: Kind)

  /** Namespace and name of a reference such as "ns/name" or "name". */
  function ParseTargetRef(ref: string, defaultNS: string): Result<(string, string), RefError> {
    var parts := Split(ref, '/');
    if |parts| == 1 then Success((defaultNS, parts[0]))
    else if |parts| == 2 then Success((parts[0], parts[1]))
    else Failure(InvalidFormat(ref))
  }

  function NewTarget(kind: Kind, ref: string, sourceNS: string): Result<Key, RefError> {
    match ParseTargetRef(ref, sourceNS)
    case Failure(e) => Failure(e)
    case Success((ns, name)) =>
      if Supported(kind) then Success(Key(kind, ns, name)) else Failure(UnsupportedKind(kind))
  }

  // ---------- identifiers identify ----------

  lemma {:induction false} FirstSlash(a: string, x: string, b: string, y: string)
    requires Free(a, '/') && Free(b, '/')
    requires a + "/" + x == b + "/" + y
    ensures a == b && x == y
  {
    var s := a + "/" + x;
    var t := b + "/" + y;
    assert s[|a|] == '/' && t[|b|] == '/';
    assert |a| == |b|;
    assert s[..|a|] == a && t[..|b|] == b;
    assert s[|a| + 1..] == x && t[|b| + 1..] == y;
  }

  /** Comparing identifiers is comparing workloads, even if names contain slashes. */
  lemma IdsAreIdentity(a: Key, b: Key)
    requires Plain(a) && Plain(b)
    ensures ID(a) == ID(b) <==> a == b
  {
    if ID(a) == ID(b) {
      assert ID(a) == a.kind + "/" + (a.namespace + "/" + a.name);
      assert ID(b) == b.kind + "/" + (b.namespace + "/" + b.name);
      FirstSlash(a.kind, a.namespace + "/" + a.name, b.kind, b.namespace + "/" + b.name);
      FirstSlash(a.namespace, a.name, b.namespace, b.name);
    }
  }

  /** Without that rule two different workloads can share an identifier. */
  lemma SlashedNamespacesCollide()
    ensures Key(DEPLOYMENT, "a/b", "c") != Key(DEPLOYMENT, "a", "b/c")
    ensures ID(Key(DEPLOYMENT, "a/b", "c")) == ID(Key(DEPLOYMENT, "a", "b/c"))
  {
    assert "Deployment" + "/" + "a/b" + "/" + "c" == "Deployment/a/b/c";
    assert "Deployment" + "/" + "a" + "/" + "b/c" == "Deployment/a/b/c";
  }

  // ---------- which references are accepted ----------

  /** A reference is rejected exactly when it has two or more slashes (or its kind is unknown). */
  lemma TargetAccepted(kind: Kind, ref: string, sourceNS: string)
    ensures NewTarget(kind, ref, sourceNS).Success? <==> Count(ref, '/') < 2 && Supported(kind)
    ensures Free(sourceNS, '/') && NewTarget(kind, ref, sourceNS).Success? ==>
              Plain(NewTarget(kind, ref, sourceNS).value) && Free(NewTarget(kind, ref, sourceNS).value.name, '/')
  {
    var parts := Split(ref, '/');
    assert |parts| == Count(ref, '/') + 1;
  }

  /** A reference text for target `k`: qualified by its namespace or, in that namespace, bare. */
  function PrintRef(k: Key, qualified: bool): string {
    if qualified then k.namespace + "/" + k.name else k.name
  }

  /** Parsing a printed reference recovers the target. */
  lemma ParsePrinted(k: Key, qualified: bool, sourceNS: string)
    requires Plain(k) && Free(k.name, '/')
    requires qualified || sourceNS == k.namespace
    ensures NewTarget(k.kind, PrintRef(k, qualified), sourceNS) == Success(k)
  {
    if qualified {
      SplitOfJoin([k.namespace, k.name], '/');
      assert Join([k.namespace, k.name], '/') == PrintRef(k, true);
    } else {
      SplitFree(k.name, '/');
    }
  }
}
