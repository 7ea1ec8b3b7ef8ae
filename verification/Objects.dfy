/**
 The part of a Deployment, StatefulSet or DaemonSet that the operator reads, the operator's
 configuration, and the stability test of each kind (internal/workloads).
 */
module Objects {
  import opened Wrappers
  import opened Refs
  import opened Extraction

  /** The pod template: its annotations, and the rest of it as opaque text. */
  datatype Template = Template(annotations: Annotations, rest: string)

  datatype Rollout =
    | DeploymentRollout(replicas: Option<int>, updated: int, ready: int, available: int, unavailable: int)
    | StatefulSetRollout(replicas: Option<int>, updated: int, ready: int)
    | DaemonSetRollout(desired: int, updated: int, ready: int, available: int, unavailable: int)

  datatype Workload = Workload(
    annotations: Annotations,
    generation: int,
    observedGeneration: int,
    template: Template,
    rollout: Rollout)

  /** The API server fills in `spec.replicas`; `Stable` dereferences it. */
  predicate Defaulted(w: Workload) {
    w.rollout.DaemonSetRollout? || w.rollout.replicas.Some?
  }

  type Object = w: Workload | Defaulted(w)
    witness Workload(map[], 0, 0, Template(map[], ""), DaemonSetRollout(0, 0, 0, 0, 0))

  /** `parseDuration` and `hash` stand for time.ParseDuration and the pod template hash. */
  datatype Config = Config(
    kinds: KindMap,
    lastObserved: string,
    requeueAfter: string,
    requeueDefault: int,
    parseDuration: string -> Option<int>,
    hash: Template -> string)

  /** Number of pods wanted: from the spec, for a DaemonSet from the status. */
  function Desired(w: Object): int {
    match w.rollout
    case DeploymentRollout(replicas, _, _, _, _) => replicas.value
    case StatefulSetRollout(replicas, _, _) => replicas.value
    case DaemonSetRollout(desired, _, _, _, _) => desired
  }

  predicate Stable(w: Object) {
    if w.observedGeneration < w.generation then false
    else match w.rollout
      case DeploymentRollout(replicas, updated, ready, available, unavailable) =>
        var desired := replicas.value;
        if desired == 0 then true
        else if unavailable > 0 then false
        else if updated != desired then false
        else if ready != desired then false
        else available == desired
      case StatefulSetRollout(replicas, updated, ready) =>
        var desired := replicas.value;
        if desired == 0 then true
        else if updated != desired then false
        else ready == desired
      case DaemonSetRollout(desired, updated, ready, available, unavailable) =>
        if desired == 0 then true
        else if unavailable > 0 then false
        else if updated != desired then false
        else if ready != desired then false
        else available == desired
  }

  /**
   The rollout of the current spec is complete: its status has observed the spec, and either no pod
   is wanted, or the pods wanted are all updated, ready and (where that is reported) available.
   */
  predicate RolledOut(w: Object) {
    && w.observedGeneration >= w.generation
    && (Desired(w) == 0 ||
        (w.rollout.updated == w.rollout.ready == Desired(w) &&
         (w.rollout.StatefulSetRollout? || (w.rollout.available == Desired(w) && w.rollout.unavailable <= 0))))
  }

  /** `Stable` decides exactly that. */
  lemma StableExactly(w: Object)
    ensures Stable(w) <==> RolledOut(w)
  {
  }

  /** The dependencies of a stored workload. */
  ghost function DepsOf(cfg: Config, k: Key, w: Workload): Targets {
    Deps(cfg.kinds, w.annotations, k.namespace)
  }
}
