/**
 Which watch events become work (internal/predicates, and the check lists that
 the three reconcilers pass to `NewPredicate`).
 */
module Predicates {
  import opened Wrappers
  import opened Extraction
  import opened Objects

  type UpdateCheck = (Workload, Workload) -> bool

  predicate HasKindAnnotation(w: Workload, kinds: KindMap) {
    exists a :: a in kinds && a in w.annotations
  }

  predicate SpecChanged(hash: Template -> string, before: Workload, after: Workload) {
    hash(before.template) != hash(after.template)
  }

  /** -1 stands for "not set". */
  function GetReplicas(w: Workload): int {
    match w.rollout
    case DeploymentRollout(replicas, _, _, _, _) => if replicas.Some? then replicas.value else -1
    case StatefulSetRollout(replicas, _, _) => if replicas.Some? then replicas.value else -1
    case DaemonSetRollout(desired, _, _, _, _) => desired
  }

  predicate ScaledToZero(before: Workload, after: Workload) {
    GetReplicas(before) > 0 && GetReplicas(after) == 0
  }

  predicate ScaledFromZero(before: Workload, after: Workload) {
    GetReplicas(before) == 0 && GetReplicas(after) > 0
  }

  predicate SingleReplicaPodDeleted(before: Workload, after: Workload) {
    match (before.rollout, after.rollout)
    case (DeploymentRollout(r0, _, ready0, available0, _), DeploymentRollout(r1, _, ready1, available1, _)) =>
      r0.Some? && r1.Some? && r0.value == 1 &&
      ready0 == 1 && ready1 == 0 && available0 == 1 && available1 == 0
    case (StatefulSetRollout(r0, _, ready0), StatefulSetRollout(r1, _, ready1)) =>
      r0.Some? && r1.Some? && r0.value == 1 && ready0 == 1 && ready1 == 0
    case _ => false
  }

  predicate DaemonSetTransitioning(w: Workload) {
    w.rollout.DaemonSetRollout? && (w.rollout.updated != w.rollout.desired || w.rollout.unavailable > 0)
  }

  function WrapSingleObjectCheck(check: Workload -> bool): UpdateCheck {
    (_, after) => check(after)
  }

  /** The checks of the controller that watches objects of this kind. */
  function Checks(cfg: Config, w: Workload): seq<UpdateCheck> {
    var hash := cfg.hash;
    [ (before, after) => SpecChanged(hash, before, after),
      if w.rollout.DaemonSetRollout? then WrapSingleObjectCheck(DaemonSetTransitioning) else SingleReplicaPodDeleted,
      ScaledToZero,
      ScaledFromZero ]
  }

  /** `NewPredicate`'s update filter: a kind annotation on the new object, and some check holds. */
  predicate UpdateAdmitted(kinds: KindMap, checks: seq<UpdateCheck>, before: Workload, after: Workload) {
    HasKindAnnotation(after, kinds) && exists i | 0 <= i < |checks| :: checks[i](before, after)
  }

  predicate Admits(cfg: Config, before: Workload, after: Workload) {
    UpdateAdmitted(cfg.kinds, Checks(cfg, after), before, after)
  }

  lemma AdmitsExactly(cfg: Config, before: Workload, after: Workload)
    ensures Admits(cfg, before, after) <==>
              && HasKindAnnotation(after, cfg.kinds)
              && (|| SpecChanged(cfg.hash, before, after)
                  || DaemonSetTransitioning(after)
                  || (!after.rollout.DaemonSetRollout? && SingleReplicaPodDeleted(before, after))
                  || ScaledToZero(before, after)
                  || ScaledFromZero(before, after))
  {
    var checks := Checks(cfg, after);
    assert checks[0](before, after) <==> SpecChanged(cfg.hash, before, after);
    assert checks[1](before, after) <==>
           if after.rollout.DaemonSetRollout? then DaemonSetTransitioning(after) else SingleReplicaPodDeleted(before, after);
    assert checks[2](before, after) <==> ScaledToZero(before, after);
    assert checks[3](before, after) <==> ScaledFromZero(before, after);
  }

  // ---------- admission by the numbers ----------

  lemma AnnotatedExactly(w: Workload, kinds: KindMap)
    ensures HasKindAnnotation(w, kinds) <==> w.annotations.Keys * kinds.Keys != {}
  {
    if HasKindAnnotation(w, kinds) {
      var a :| a in kinds && a in w.annotations;
      assert a in w.annotations.Keys * kinds.Keys;
    }
  }

  /** The only pod wanted was ready, and for a Deployment available, and is so no longer. */
  predicate OnlyPodLost(before: Rollout, after: Rollout) {
    || (&& before.DeploymentRollout? && after.DeploymentRollout? && before.replicas == Some(1)
        && before.ready == 1 && after.ready == 0 && before.available == 1 && after.available == 0)
    || (&& before.StatefulSetRollout? && after.StatefulSetRollout? && before.replicas == Some(1)
        && before.ready == 1 && after.ready == 0)
  }

  /** The number of pods wanted comes down to zero, or up from it. */
  predicate CrossesZero(before: int, after: int) {
    (before > 0 && after == 0) || (before == 0 && after > 0)
  }

  /**
   What is admitted, as the documentation lists it, in terms of spec and status numbers: an update
   of a workload that names targets, if the hash tells its old pod template from the new one, its
   scale goes to or from zero, its only pod is lost, or it is a DaemonSet not all of whose pods are
   updated, or of which one is unavailable.
   */
  lemma AdmittedByTheNumbers(cfg: Config, before: Object, after: Object)
    ensures Admits(cfg, before, after) <==>
              && after.annotations.Keys * cfg.kinds.Keys != {}
              && (|| cfg.hash(before.template) != cfg.hash(after.template)
                  || CrossesZero(Desired(before), Desired(after))
                  || OnlyPodLost(before.rollout, after.rollout)
                  || (&& after.rollout.DaemonSetRollout?
                      && (after.rollout.updated != Desired(after) || after.rollout.unavailable > 0)))
  {
    AdmitsExactly(cfg, before, after);
    AnnotatedExactly(after, cfg.kinds);
  }

  /** A rollout starts a cascade: a template that the hash tells from the old one is admitted, whatever the kind. */
  lemma NewTemplateIsAdmitted(cfg: Config, before: Object, after: Object)
    requires HasKindAnnotation(after, cfg.kinds) && cfg.hash(before.template) != cfg.hash(after.template)
    ensures Admits(cfg, before, after)
  {
    AdmittedByTheNumbers(cfg, before, after);
    AnnotatedExactly(after, cfg.kinds);
  }

  /** With the template and the number wanted unchanged, a DaemonSet is left alone exactly while it is complete. */
  lemma CompleteDaemonSetIsIgnored(cfg: Config, before: Object, after: Object)
    requires before.rollout.DaemonSetRollout? && after.rollout.DaemonSetRollout? && HasKindAnnotation(after, cfg.kinds)
    requires before.template == after.template && Desired(before) == Desired(after)
    ensures !Admits(cfg, before, after) <==>
              after.rollout.updated == Desired(after) && after.rollout.unavailable <= 0
  {
    AdmittedByTheNumbers(cfg, before, after);
    AnnotatedExactly(after, cfg.kinds);
  }

  /** In particular the loss of any pod of a rolled-out DaemonSet is admitted, however it is counted. */
  lemma DaemonSetPodLossIsAdmitted(cfg: Config, before: Object, after: Object)
    requires before.rollout.DaemonSetRollout? && HasKindAnnotation(after, cfg.kinds)
    requires RolledOut(before) && Desired(before) != 0
    requires after.template == before.template && after.rollout.DaemonSetRollout? && Desired(after) == Desired(before)
    requires after.rollout.unavailable > 0 || after.rollout.updated != before.rollout.updated
    ensures Admits(cfg, before, after)
  {
    CompleteDaemonSetIsIgnored(cfg, before, after);
  }

  /**
   A write that only touches metadata annotations, as the operator's own bookkeeping does, is
   admitted exactly for an annotated DaemonSet that is transitioning.
   */
  lemma OwnWriteAdmittedExactly(cfg: Config, before: Workload, annotations: Annotations)
    ensures Admits(cfg, before, before.(annotations := annotations)) <==>
              HasKindAnnotation(before.(annotations := annotations), cfg.kinds) && DaemonSetTransitioning(before)
  {
    AdmitsExactly(cfg, before, before.(annotations := annotations));
  }

  /** So bookkeeping on a stable workload that wants pods, or on any non-DaemonSet, is quiet. */
  lemma OwnWriteIsQuiet(cfg: Config, before: Object, annotations: Annotations)
    requires !before.rollout.DaemonSetRollout? || (Stable(before) && Desired(before) != 0)
    ensures !Admits(cfg, before, before.(annotations := annotations))
  {
    OwnWriteAdmittedExactly(cfg, before, annotations);
  }

  /** The exception is real: a stable DaemonSet with no pod wanted, yet one counted as updated. */
  lemma OwnWriteOfEmptyDaemonSetIsNoticed(cfg: Config, key: string, value: string, mark: string, now: string)
    requires key in cfg.kinds
    ensures var w := Workload(map[key := value], 1, 1, Template(map[], ""), DaemonSetRollout(0, 1, 0, 0, 0));
            Stable(w) && Admits(cfg, w, w.(annotations := w.annotations[mark := now]))
  {
    var w := Workload(map[key := value], 1, 1, Template(map[], ""), DaemonSetRollout(0, 1, 0, 0, 0));
    var marked := w.annotations[mark := now];
    assert key in marked;
    OwnWriteAdmittedExactly(cfg, w, marked);
  }

  /**
   No workload should be stable and transitioning at once. For a DaemonSet that wants no pods this
   is a demand on its status, which Kubernetes meets: no pod is counted as updated or unavailable.
   */
  predicate Settled(w: Object) {
    Stable(w) ==> !DaemonSetTransitioning(w)
  }

  lemma UnsettledExactly(w: Object)
    ensures !Settled(w) <==>
              && w.rollout.DaemonSetRollout? && w.observedGeneration >= w.generation
              && Desired(w) == 0 && (w.rollout.updated != 0 || w.rollout.unavailable > 0)
  {
  }

  /**
   Pods that come and go in a Deployment or StatefulSet of several replicas are not noticed: only a
   new template, a change of scale from or to zero, or the loss of an only replica is.
   */
  lemma PodChurnIsIgnored(cfg: Config, before: Workload, after: Workload)
    requires before.template == after.template && !after.rollout.DaemonSetRollout?
    requires GetReplicas(before) == GetReplicas(after) != 1
    ensures !Admits(cfg, before, after)
  {
    AdmitsExactly(cfg, before, after);
  }

  /** The loss of the only pod of a rolled-out workload is seen exactly when no pod is ready or available. */
  lemma OnlyPodLossExactly(before: Object, after: Object)
    requires Stable(before) && Desired(before) == 1 && !before.rollout.DaemonSetRollout?
    requires before.rollout.DeploymentRollout? <==> after.rollout.DeploymentRollout?
    requires before.rollout.StatefulSetRollout? <==> after.rollout.StatefulSetRollout?
    ensures SingleReplicaPodDeleted(before, after) <==>
              after.rollout.ready == 0 && (after.rollout.DeploymentRollout? ==> after.rollout.available == 0)
  {
  }

  /** Scaling is noticed exactly when it crosses zero, whichever way. */
  lemma ScalingAcrossZero(before: Workload, after: Workload)
    requires GetReplicas(before) >= 0 && GetReplicas(after) >= 0
    ensures ScaledToZero(before, after) || ScaledFromZero(before, after) <==>
              (GetReplicas(before) == 0) != (GetReplicas(after) == 0)
    ensures ScaledToZero(before, after) <==> ScaledFromZero(after, before)
  {
  }

  /** The scale compared is the number of pods `Stable` waits for. */
  lemma ScaleIsDesired(w: Object)
    ensures GetReplicas(w) == Desired(w)
  {
  }

  /** In terms of the pods wanted: an update is admitted for its scale exactly if one side, and one only, wants none. */
  lemma AdmitsByScale(cfg: Config, before: Object, after: Object)
    requires Desired(before) >= 0 && Desired(after) >= 0
    ensures Admits(cfg, before, after) <==>
              && HasKindAnnotation(after, cfg.kinds)
              && (|| SpecChanged(cfg.hash, before, after)
                  || DaemonSetTransitioning(after)
                  || (!after.rollout.DaemonSetRollout? && SingleReplicaPodDeleted(before, after))
                  || (Desired(before) == 0) != (Desired(after) == 0))
  {
    hide SpecChanged, DaemonSetTransitioning, SingleReplicaPodDeleted, GetReplicas, Desired, HasKindAnnotation;
    AdmitsExactly(cfg, before, after);
    ScaleIsDesired(before);
    ScaleIsDesired(after);
    ScalingAcrossZero(before, after);
  }

  /** A DaemonSet that wants pods and whose status is current is stable exactly when it is settled and has them. */
  lemma SettledDaemonSetExactly(w: Object)
    requires w.rollout.DaemonSetRollout? && Desired(w) != 0 && w.observedGeneration >= w.generation
    ensures Stable(w) <==> !DaemonSetTransitioning(w) && w.rollout.ready == w.rollout.available == Desired(w)
  {
  }

  /** An update admitted as pod loss or as a DaemonSet transition shows a workload that is not stable. */
  lemma LostPodsAreNotStable(before: Workload, after: Object)
    requires SingleReplicaPodDeleted(before, after) || DaemonSetTransitioning(after)
    requires Desired(after) != 0
    ensures !Stable(after)
  {
    match after.rollout
    case DeploymentRollout(replicas, _, ready, _, _) => assert ready == 0;
    case StatefulSetRollout(replicas, _, ready) => assert ready == 0;
    case DaemonSetRollout(_, _, _, _, _) =>
  }
}
