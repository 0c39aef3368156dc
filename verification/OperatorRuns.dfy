/** Concrete runs of the operator: a whole pass to Ready, a step skipped because it was refused,
    and what is left when the resource is gone. */
module OperatorRuns {
  import opened Text
  import opened Manifests
  import opened Backends
  import opened Operators
  import opened Attribution
  import opened Finalizers
  import K = Kubernetes

  /** n actions in a row, each answered well. */
  function Acts(p: nat, n: nat): seq<Label> {
    seq(n, i => Act(p, FINE))
  }

  /** No object in the way of the resource's Ensures belongs to anyone else. */
  predicate Free(env: Setting, objects: K.Objects, cr: CR) {
    K.NoConflict(EnsuringAdapter(env, cr), objects, ManifestOf(env, cr))
  }

  /** The manifest tolerates an error rate of zero wherever it looks at one. */
  predicate Tolerant(cr: CR, todo: seq<Stage>) {
    todo != [] && forall i :: 0 <= i < |todo| && todo[i].gated ==> cr.spec.rollout.maxErrorRate >= 0.0
  }

  /** The Deployment as a stage leaves it: in the manifest's own namespace where it names one, with the
      stage's replicas, the manifest's image and the resource's revision. */
  predicate Scaled(env: Setting, objects: K.Objects, cr: CR, stage: Stage) {
    var namespace := if cr.spec.namespace != "" then cr.spec.namespace else if env.namespace != "" then env.namespace else "default";
    var key := K.Key(K.Deployment, namespace, env.name);
    && key in objects
    && objects[key].spec.replicas == stage.replicas
    && objects[key].spec.image == cr.spec.image
    && objects[key].revision == if cr.revision < 1 then 1 else cr.revision
  }

  /** An accepted stage scales the Deployment, whatever was there before. */
  lemma AcceptedStageScales(env: Setting, objects: K.Objects, cr: CR, stage: Stage, answer: Answer)
    requires Asking(env, objects, cr, stage, answer).1.Accepted?
    ensures Scaled(env, Asking(env, objects, cr, stage, answer).0, cr, stage)
  {
    var b := EnsuringAdapter(env, cr);
    var m := Staged(ManifestOf(env, cr), stage);
    K.CompletedEnsureInstalls(b, objects, m, RevisionOf(cr), env.alloc);
    assert K.InstalledAt(b, m, RevisionOf(cr), K.Ensured(b, objects, m, RevisionOf(cr), env.alloc).0, K.Deployment);
  }

  /** At the j-th configured step that is the least count that reaches its percentage. */
  lemma AcceptedStepScales(env: Setting, objects: K.Objects, cr: CR, j: nat, answer: Answer)
    requires j < |Steps(cr.spec)| && Asking(env, objects, cr, StageAt(cr.spec, j), answer).1.Accepted?
    ensures var namespace := if cr.spec.namespace != "" then cr.spec.namespace else if env.namespace != "" then env.namespace else "default";
            var key := K.Key(K.Deployment, namespace, env.name);
            var after := Asking(env, objects, cr, StageAt(cr.spec, j), answer).0;
            key in after && after[key].spec.replicas == RolloutReplicas(cr.spec.replicas, Steps(cr.spec)[j])
  {
    AcceptedStageScales(env, objects, cr, StageAt(cr.spec, j), answer);
  }

  lemma StageAccepted(env: Setting, objects: K.Objects, cr: CR, stage: Stage, answer: Answer)
    requires Free(env, objects, cr) && answer.reply.Accepted?
    ensures Asking(env, objects, cr, stage, answer).1 == answer.reply
    ensures Free(env, Asking(env, objects, cr, stage, answer).0, cr)
  {
    var b := EnsuringAdapter(env, cr);
    var m := Staged(ManifestOf(env, cr), stage);
    forall kind | kind in K.KINDS
      ensures var o := K.At(objects, K.KeyFor(b, kind, m)); o.Some? ==> K.Owned(b, o.value)
    {
      assert K.KeyFor(b, kind, m) == K.KeyFor(b, kind, ManifestOf(env, cr));
    }
    K.EnsuredPointwise(b, objects, m, RevisionOf(cr), env.alloc, K.KeyFor(b, K.Deployment, m));
    forall kind | kind in K.KINDS
      ensures var o := K.At(K.Ensured(b, objects, m, RevisionOf(cr), env.alloc).0, K.KeyFor(b, kind, ManifestOf(env, cr)));
              o.Some? ==> K.Owned(b, o.value)
    {
      var key := K.KeyFor(b, kind, m);
      K.EnsuredPointwise(b, objects, m, RevisionOf(cr), env.alloc, key);
      K.UpsertedIsOwned(b, key, K.At(objects, key), m, RevisionOf(cr), env.alloc);
    }
  }

  /** What a pass at its stages comes to when every one of them passes. */
  predicate StagedThrough(env: Setting, s: System, p: nat, cr: CR, todo: seq<Stage>, t: System)
    requires todo != []
  {
    && t.cr == s.cr && t.clock == s.clock && t.seen == s.seen && t.uids == s.uids && t.specs == s.specs
    && t.passes == s.passes[p := Reporting(cr, 0, Ready, todo[|todo| - 1].step)]
    && t.trace == s.trace + Answers(cr, todo)
    && Free(env, t.objects, cr) && Scaled(env, t.objects, cr, todo[|todo| - 1])
  }

  function Answers(cr: CR, todo: seq<Stage>): seq<Event> {
    seq(|todo|, i requires 0 <= i < |todo| => Asked(cr.uid, cr.generation, todo[i], FINE.reply))
  }

  /** One stage of a pass, answered well. */
  lemma OneStagePasses(env: Setting, s: System, p: nat, cr: CR, todo: seq<Stage>)
    requires p in s.passes && s.passes[p] == Staging(cr, 0, todo) && Tolerant(cr, todo) && Free(env, s.objects, cr)
    ensures var t := Run(env, s, [Act(p, FINE)]);
            && Free(env, t.objects, cr) && Scaled(env, t.objects, cr, todo[0])
            && t == s.(objects := t.objects, trace := s.trace + [Asked(cr.uid, cr.generation, todo[0], FINE.reply)],
                       passes := s.passes[p := if |todo| > 1 then Staging(cr, 0, todo[1..]) else Reporting(cr, 0, Ready, todo[0].step)])
  {
    StageAccepted(env, s.objects, cr, todo[0], FINE);
    AcceptedStageScales(env, s.objects, cr, todo[0], FINE);
    assert [] + [Act(p, FINE)] == [Act(p, FINE)];
    RunSnoc(env, s, [], Act(p, FINE));
    assert Judge(todo[0], cr.spec.rollout.maxErrorRate, FINE.reply).Pass?;
    NextIsAct(env, s, p, FINE);
    ActIsStaging(env, s, p, FINE);
  }

  lemma MoreAnswers(cr: CR, todo: seq<Stage>)
    requires todo != []
    ensures Answers(cr, todo) == [Asked(cr.uid, cr.generation, todo[0], FINE.reply)] + Answers(cr, todo[1..])
  {
  }

  lemma {:induction false} StagesPass(env: Setting, s: System, p: nat, cr: CR, todo: seq<Stage>)
    requires p in s.passes && s.passes[p] == Staging(cr, 0, todo) && Tolerant(cr, todo) && Free(env, s.objects, cr)
    ensures StagedThrough(env, s, p, cr, todo, Run(env, s, Acts(p, |todo|)))
    decreases |todo|
  {
    var next := Run(env, s, [Act(p, FINE)]);
    OneStagePasses(env, s, p, cr, todo);
    MoreAnswers(cr, todo);
    if |todo| > 1 {
      assert Acts(p, |todo|) == [Act(p, FINE)] + Acts(p, |todo| - 1);
      RunAppend(env, s, [Act(p, FINE)], Acts(p, |todo| - 1));
      StagesPass(env, next, p, cr, todo[1..]);
      ThroughTheRest(env, s, next, p, cr, todo, Run(env, next, Acts(p, |todo| - 1)));
    } else {
      assert Acts(p, 1) == [Act(p, FINE)];
    }
  }

  lemma ThroughTheRest(env: Setting, s: System, next: System, p: nat, cr: CR, todo: seq<Stage>, t: System)
    requires |todo| > 1 && StagedThrough(env, next, p, cr, todo[1..], t)
    requires next == s.(objects := next.objects, trace := s.trace + [Asked(cr.uid, cr.generation, todo[0], FINE.reply)],
                        passes := s.passes[p := Staging(cr, 0, todo[1..])])
    ensures StagedThrough(env, s, p, cr, todo, t)
  {
    MoreAnswers(cr, todo);
    var last := Reporting(cr, 0, Ready, todo[|todo| - 1].step);
    assert s.passes[p := Staging(cr, 0, todo[1..])][p := last] == s.passes[p := last];
  }

  /** A whole pass over a resource that carries the finalizer, on a free cluster, all going well. */
  function WholePass(p: nat, cr: CR, n: nat): seq<Label> {
    [Open(p, cr)] + [Act(p, FINE)] + [Act(p, FINE)] + Acts(p, n) + [Act(p, FINE)]
  }

  function PlanOf(env: Setting, cr: CR): seq<Stage> {
    Plan(ManifestOf(env, cr), Completed(cr))
  }

  /** The version such a pass reports. */
  function ReadyCR(cr: CR, step: int, version: nat): CR {
    cr.(status := Some(Status(Ready, step, cr.generation)), version := version)
  }

  lemma TolerantPlan(env: Setting, cr: CR)
    requires Valid(env.libs, ManifestOf(env, cr))
    ensures Tolerant(cr, PlanOf(env, cr))
  {
    ValidIsAdmissible(env.libs, ManifestOf(env, cr));
    PlanNonEmpty(ManifestOf(env, cr), Completed(cr));
  }

  lemma PassToStaging(env: Setting, s: System, p: nat, cr: CR)
    requires cr in s.seen && p !in s.passes && !cr.deleting && FINALIZER in cr.finalizers
    requires Valid(env.libs, ManifestOf(env, cr))
    ensures Run(env, s, [Open(p, cr)] + [Act(p, FINE)] + [Act(p, FINE)]) == SetPass(s, p, Staging(cr, 0, PlanOf(env, cr)))
  {
    OpensStale(env, s, p, cr);
    RunSnoc(env, s, [Open(p, cr)] + [Act(p, FINE)], Act(p, FINE));
    assert s.passes[p := Prepared(cr, 0)][p := Staging(cr, 0, PlanOf(env, cr))] == s.passes[p := Staging(cr, 0, PlanOf(env, cr))];
  }

  lemma PassReachesReady(env: Setting, s: System, p: nat, cr: CR)
    requires s.cr == Some(cr) && cr in s.seen && p !in s.passes && !cr.deleting && FINALIZER in cr.finalizers
    requires Valid(env.libs, ManifestOf(env, cr)) && Free(env, s.objects, cr)
    ensures PlanOf(env, cr) != []
    ensures var todo := PlanOf(env, cr);
            var t := Run(env, s, WholePass(p, cr, |todo|));
            && t.cr == Some(ReadyCR(cr, todo[|todo| - 1].step, s.clock + 1)) && t.clock == s.clock + 1
            && t.seen == s.seen + {t.cr.value} && t.passes == s.passes && t.trace == s.trace + Answers(cr, todo)
            && Scaled(env, t.objects, cr, todo[|todo| - 1])
  {
    var todo := PlanOf(env, cr);
    TolerantPlan(env, cr);
    PassToStaging(env, s, p, cr);
    var opening := [Open(p, cr)] + [Act(p, FINE)] + [Act(p, FINE)];
    var staging := SetPass(s, p, Staging(cr, 0, todo));
    StagesPass(env, staging, p, cr, todo);
    RunAppend(env, s, opening, Acts(p, |todo|));
    RunSnoc(env, s, opening + Acts(p, |todo|), Act(p, FINE));
    PassReported(env, s, staging, Run(env, s, opening + Acts(p, |todo|)), p, cr, todo);
  }

  lemma PassReported(env: Setting, s: System, staging: System, reporting: System, p: nat, cr: CR, todo: seq<Stage>)
    requires s.cr == Some(cr) && p !in s.passes && todo != []
    requires staging == SetPass(s, p, Staging(cr, 0, todo)) && StagedThrough(env, staging, p, cr, todo, reporting)
    ensures var t := Next(env, reporting, Act(p, FINE));
            && t.cr == Some(ReadyCR(cr, todo[|todo| - 1].step, s.clock + 1)) && t.clock == s.clock + 1
            && t.seen == s.seen + {t.cr.value} && t.passes == s.passes && t.trace == s.trace + Answers(cr, todo)
            && Scaled(env, t.objects, cr, todo[|todo| - 1])
  {
    ReportGoesThrough(env, reporting, p, cr, todo[|todo| - 1].step);
    assert reporting.passes - {p} == s.passes;
  }

  lemma ReportGoesThrough(env: Setting, s: System, p: nat, cr: CR, step: int)
    requires s.cr == Some(cr) && p in s.passes && s.passes[p] == Reporting(cr, 0, Ready, step)
    ensures Next(env, s, Act(p, FINE)) == EndPass(Store(s, ReadyCR(cr, step, s.clock + 1)), p)
  {
  }

  // ---------- Gone, but something left ----------

  /** The resource's whole life: created, brought to Ready in one pass, deleted and finalized. */
  function Life(env: Setting, uid: string, spec: Manifest): seq<Label> {
    var cr := Fresh(uid, spec);
    [Create(uid, spec, 1, [FINALIZER])] + WholePass(0, cr, |PlanOf(env, cr)|) + Death(env, uid, spec)
  }

  /** The version that is deleted, and its end. */
  function Dying(env: Setting, uid: string, spec: Manifest): CR {
    var cr := Fresh(uid, spec);
    PlanNonEmpty(ManifestOf(env, cr), Completed(cr));
    ReadyCR(cr, PlanOf(env, cr)[|PlanOf(env, cr)| - 1].step, 3).(deleting := true)
  }

  function Death(env: Setting, uid: string, spec: Manifest): seq<Label> {
    [Delete(false)] + Finalize(0, Dying(env, uid, spec))
  }

  /** A resource is created, reaches Ready, is deleted and finalized: it is gone, and each of its
      six objects is still there, labelled as the operator's. */
  lemma GoneButLeft(env: Setting, objects: K.Objects, uid: string, spec: Manifest, kind: K.Kind)
    requires Valid(env.libs, spec.(name := env.name)) && Free(env, objects, Fresh(uid, spec))
    ensures var cr := Fresh(uid, spec);
            var t := Run(env, Initial(objects), Life(env, uid, spec));
            && t.cr.None? && |t.trace| == |PlanOf(env, cr)| > 0
            && KeptAt(t.objects, K.KeyFor(EnsuringAdapter(env, cr), kind, ManifestOf(env, cr)), t.uids)
  {
    LifeEnds(env, objects, uid, spec);
    LeftAfterPass(env, objects, uid, spec, kind, Death(env, uid, spec));
  }

  lemma LifeEnds(env: Setting, objects: K.Objects, uid: string, spec: Manifest)
    requires Valid(env.libs, spec.(name := env.name)) && Free(env, objects, Fresh(uid, spec))
    ensures var t := Run(env, Initial(objects), Life(env, uid, spec));
            t.cr.None? && |t.trace| == |PlanOf(env, Fresh(uid, spec))| > 0
  {
    var cr := Fresh(uid, spec);
    var create := [Create(uid, spec, 1, [FINALIZER])];
    Created(env, objects, uid, spec);
    PassReachesReady(env, Store(Initial(objects), cr), 0, cr);
    var pass := WholePass(0, cr, |PlanOf(env, cr)|);
    RunAppend(env, Initial(objects), create, pass);
    RunAppend(env, Initial(objects), create + pass, Death(env, uid, spec));
    DeathComes(env, Run(env, Initial(objects), create + pass), Dying(env, uid, spec));
  }

  lemma DeathComes(env: Setting, s: System, dying: CR)
    requires s.cr.Some? && !s.cr.value.deleting && s.cr.value.finalizers == [FINALIZER] && 0 !in s.passes
    requires dying == s.cr.value.(deleting := true, version := s.clock + 1)
    ensures var t := Run(env, s, [Delete(false)] + Finalize(0, dying));
            t.cr.None? && t.trace == s.trace
  {
    RunAppend(env, s, [Delete(false)], Finalize(0, dying));
    RunSnoc(env, s, [], Delete(false));
    assert [] + [Delete(false)] == [Delete(false)];
    DeletionStored(env, s, dying);
    Finalized(env, Next(env, s, Delete(false)), 0, dying);
  }

  lemma DeletionStored(env: Setting, s: System, dying: CR)
    requires s.cr.Some? && !s.cr.value.deleting && s.cr.value.finalizers == [FINALIZER]
    requires dying == s.cr.value.(deleting := true, version := s.clock + 1)
    ensures var t := Next(env, s, Delete(false));
            t.cr == Some(dying) && dying in t.seen && t.passes == s.passes && t.trace == s.trace
  {
  }

  lemma Created(env: Setting, objects: K.Objects, uid: string, spec: Manifest)
    ensures Run(env, Initial(objects), [Create(uid, spec, 1, [FINALIZER])]) == Store(Initial(objects), Fresh(uid, spec))
  {
    RunSnoc(env, Initial(objects), [], Create(uid, spec, 1, [FINALIZER]));
    assert [] + [Create(uid, spec, 1, [FINALIZER])] == [Create(uid, spec, 1, [FINALIZER])];
  }

  /** The first stage of the pass installs the objects, and nothing after it removes them. */
  lemma LeftAfterPass(env: Setting, objects: K.Objects, uid: string, spec: Manifest, kind: K.Kind, more: seq<Label>)
    requires Valid(env.libs, spec.(name := env.name)) && Free(env, objects, Fresh(uid, spec))
    ensures var cr := Fresh(uid, spec);
            var ls := [Create(uid, spec, 1, [FINALIZER])] + WholePass(0, cr, |PlanOf(env, cr)|) + more;
            var t := Run(env, Initial(objects), ls);
            KeptAt(t.objects, K.KeyFor(EnsuringAdapter(env, cr), kind, ManifestOf(env, cr)), t.uids)
  {
    var cr := Fresh(uid, spec);
    var todo := PlanOf(env, cr);
    TolerantPlan(env, cr);
    var create := [Create(uid, spec, 1, [FINALIZER])];
    var opening := [Open(0, cr)] + [Act(0, FINE)] + [Act(0, FINE)];
    var rest := Acts(0, |todo| - 1) + [Act(0, FINE)];
    FirstStageInstalls(env, objects, uid, spec);
    FinalizerRemovesNothingOfTheOperators(env, objects, create + opening, Act(0, FINE), rest + more, kind);
    RunSnoc(env, Initial(objects), create + opening, Act(0, FINE));
    RunAppend(env, Initial(objects), create + opening + [Act(0, FINE)], rest + more);
    PassSplits(create, opening, cr, |todo|, more);
  }

  lemma PassSplits(create: seq<Label>, opening: seq<Label>, cr: CR, n: nat, more: seq<Label>)
    requires n > 0 && opening == [Open(0, cr)] + [Act(0, FINE)] + [Act(0, FINE)]
    ensures create + WholePass(0, cr, n) + more == create + opening + [Act(0, FINE)] + (Acts(0, n - 1) + [Act(0, FINE)] + more)
  {
    assert Acts(0, n) == [Act(0, FINE)] + Acts(0, n - 1);
  }

  lemma FirstStageInstalls(env: Setting, objects: K.Objects, uid: string, spec: Manifest)
    requires Valid(env.libs, spec.(name := env.name)) && Free(env, objects, Fresh(uid, spec))
    ensures var cr := Fresh(uid, spec);
            var ls := [Create(uid, spec, 1, [FINALIZER])] + ([Open(0, cr)] + [Act(0, FINE)] + [Act(0, FINE)]);
            var s := Run(env, Initial(objects), ls);
            Installs(env, s, Act(0, FINE)) && s.passes[0].snap == cr
  {
    var cr := Fresh(uid, spec);
    var todo := PlanOf(env, cr);
    TolerantPlan(env, cr);
    var create := [Create(uid, spec, 1, [FINALIZER])];
    var opening := [Open(0, cr)] + [Act(0, FINE)] + [Act(0, FINE)];
    Created(env, objects, uid, spec);
    var born := Store(Initial(objects), cr);
    PassToStaging(env, born, 0, cr);
    RunAppend(env, Initial(objects), create, opening);
    StageAccepted(env, born.objects, cr, todo[0], FINE);
    assert Run(env, Initial(objects), create + opening) == SetPass(born, 0, Staging(cr, 0, todo));
  }

  // ---------- A refused step is skipped ----------

  const REFUSED := Answer(Refused(None), 0, false, {})

  /** The pass whose first stage is refused, up to the report of it. */
  function RefusedPass(p: nat, cr: CR): seq<Label> {
    [Open(p, cr)] + [Act(p, FINE)] + [Act(p, FINE)] + [Act(p, REFUSED)] + [Act(p, FINE)]
  }

  function FailedCR(cr: CR, step: int, version: nat): CR {
    cr.(status := Some(Status(Failed, step, cr.generation)), version := version)
  }

  lemma FirstStageRefused(env: Setting, s: System, p: nat, cr: CR)
    requires s.cr == Some(cr) && cr in s.seen && p !in s.passes && !cr.deleting && FINALIZER in cr.finalizers
    requires Valid(env.libs, ManifestOf(env, cr))
    ensures PlanOf(env, cr) != []
    ensures var stage := PlanOf(env, cr)[0];
            Run(env, s, RefusedPass(p, cr))
            == Store(s, FailedCR(cr, stage.step, s.clock + 1)).(trace := s.trace + [Asked(cr.uid, cr.generation, stage, Refused(None))])
  {
    var todo := PlanOf(env, cr);
    TolerantPlan(env, cr);
    PassToStaging(env, s, p, cr);
    var opening := [Open(p, cr)] + [Act(p, FINE)] + [Act(p, FINE)];
    var staging := SetPass(s, p, Staging(cr, 0, todo));
    RunSnoc(env, s, opening, Act(p, REFUSED));
    RunSnoc(env, s, opening + [Act(p, REFUSED)], Act(p, FINE));
    StageRefused(env, s, p, cr, todo);
    FailureReported(env, s, p, cr, todo[0]);
  }

  lemma StageRefused(env: Setting, s: System, p: nat, cr: CR, todo: seq<Stage>)
    requires todo != []
    ensures Next(env, SetPass(s, p, Staging(cr, 0, todo)), Act(p, REFUSED))
            == SetPass(s, p, Reporting(cr, 0, Failed, todo[0].step)).(trace := s.trace + [Asked(cr.uid, cr.generation, todo[0], Refused(None))])
  {
    var staging := SetPass(s, p, Staging(cr, 0, todo));
    NothingDone(env, s.objects, cr, todo[0]);
    NextIsAct(env, staging, p, REFUSED);
    ActIsStaging(env, staging, p, REFUSED);
    assert s.passes[p := Staging(cr, 0, todo)][p := Reporting(cr, 0, Failed, todo[0].step)]
        == s.passes[p := Reporting(cr, 0, Failed, todo[0].step)];
  }

  lemma FailureReported(env: Setting, s: System, p: nat, cr: CR, stage: Stage)
    requires s.cr == Some(cr) && p !in s.passes
    ensures var refused := SetPass(s, p, Reporting(cr, 0, Failed, stage.step))
                             .(trace := s.trace + [Asked(cr.uid, cr.generation, stage, Refused(None))]);
            Next(env, refused, Act(p, FINE))
            == Store(s, FailedCR(cr, stage.step, s.clock + 1)).(trace := refused.trace)
  {
    assert s.passes[p := Reporting(cr, 0, Failed, stage.step)] - {p} == s.passes;
  }

  lemma NothingDone(env: Setting, objects: K.Objects, cr: CR, stage: Stage)
    ensures Asking(env, objects, cr, stage, REFUSED) == (objects, Refused(None))
  {
    assert K.KINDS[..0] == [];
  }

  /** One process, nothing interleaved: the first step of a rollout is refused, and the next pass
      reports Ready, though that step never passed. The operator does not restore anything. */
  lemma RefusedStepIsSkipped(env: Setting, objects: K.Objects, uid: string, spec: Manifest)
    requires RollsOut(env, spec) && Free(env, objects, Fresh(uid, spec))
    ensures var cr := Fresh(uid, spec);
            var failed := FailedCR(cr, Steps(spec)[0], 2);
            var ls := [Create(uid, spec, 1, [FINALIZER])] + RefusedPass(0, cr) + WholePass(0, failed, |PlanOf(env, failed)|);
            var t := Run(env, Initial(objects), ls);
            && t.cr.Some? && t.cr.value.status.Some?
            && t.cr.value.status.value.phase.Ready? && t.cr.value.status.value.observedGeneration == 1
            && !StepPassed(RecordOf(t), uid, 1, StageAt(spec, 0), spec.rollout.maxErrorRate)
  {
    var failed := FailedCR(Fresh(uid, spec), Steps(spec)[0], 2);
    var before := [Create(uid, spec, 1, [FINALIZER])] + RefusedPass(0, Fresh(uid, spec));
    AfterRefusal(env, objects, uid, spec);
    var s := Run(env, Initial(objects), before);
    PassReachesReady(env, s, 0, failed);
    RunAppend(env, Initial(objects), before, WholePass(0, failed, |PlanOf(env, failed)|));
    FirstNeverPassed(env, failed, RecordOf(Run(env, s, WholePass(0, failed, |PlanOf(env, failed)|))));
  }

  /** The state after the refusal has been reported. */
  lemma AfterRefusal(env: Setting, objects: K.Objects, uid: string, spec: Manifest)
    requires RollsOut(env, spec)
    ensures var failed := FailedCR(Fresh(uid, spec), Steps(spec)[0], 2);
            var s := Run(env, Initial(objects), [Create(uid, spec, 1, [FINALIZER])] + RefusedPass(0, Fresh(uid, spec)));
            && s.cr == Some(failed) && failed in s.seen && s.objects == objects && s.passes == map[]
            && s.trace == [Asked(uid, 1, StageAt(spec, 0), Refused(None))]
  {
    var cr := Fresh(uid, spec);
    Created(env, objects, uid, spec);
    FirstPlanned(env, cr);
    FirstStageRefused(env, Store(Initial(objects), cr), 0, cr);
    RunAppend(env, Initial(objects), [Create(uid, spec, 1, [FINALIZER])], RefusedPass(0, cr));
  }

  lemma FirstNeverPassed(env: Setting, failed: CR, r: Record)
    requires RollsOut(env, failed.spec) && Completed(failed) >= Steps(failed.spec)[0]
    requires r.trace == [Asked(failed.uid, 1, StageAt(failed.spec, 0), Refused(None))] + Answers(failed, PlanOf(env, failed))
    ensures !StepPassed(r, failed.uid, 1, StageAt(failed.spec, 0), failed.spec.rollout.maxErrorRate)
  {
    NotFirstAgain(env, failed);
    forall i | 1 <= i < |r.trace| ensures r.trace[i].stage != StageAt(failed.spec, 0) {
      assert r.trace[i] == Answers(failed, PlanOf(env, failed))[i - 1];
    }
  }

  /** A rollout from nothing starts with its first step. */
  lemma FirstPlanned(env: Setting, cr: CR)
    requires RollsOut(env, cr.spec) && Completed(cr) == 0
    ensures PlanOf(env, cr) != [] && PlanOf(env, cr)[0] == StageAt(cr.spec, 0)
  {
    var m := ManifestOf(env, cr);
    ValidIsAdmissible(env.libs, m);
    PlanNonEmpty(m, 0);
    RenamingKeepsPlan(cr.spec, env.name, 0);
    FirstAfterSplits(Steps(m), 0);
    StagesAreContiguous(m, 0, 0);
    assert Steps(m)[0..] == Steps(m);
  }

  /** A rollout resumed after its first step does not come back to it. */
  lemma NotFirstAgain(env: Setting, cr: CR)
    requires RollsOut(env, cr.spec) && Completed(cr) >= Steps(cr.spec)[0]
    ensures forall i :: 0 <= i < |PlanOf(env, cr)| ==> PlanOf(env, cr)[i] != StageAt(cr.spec, 0)
  {
    var m := ManifestOf(env, cr);
    StagesAfterExceed(m, Steps(m), Completed(cr));
    RenamingKeepsPlan(cr.spec, env.name, Completed(cr));
  }

  // ---------- The other ends of a pass ----------

  /** A pass whose first stage is answered so, up to the report of it. */
  function StoppedPass(p: nat, cr: CR, answer: Answer): seq<Label> {
    [Open(p, cr)] + [Act(p, FINE)] + [Act(p, FINE)] + [Act(p, answer)] + [Act(p, FINE)]
  }

  /** What is stored when the first stage does not pass: its step, and the phase its answer calls for. */
  lemma FirstStageStops(env: Setting, s: System, p: nat, cr: CR, answer: Answer)
    requires s.cr == Some(cr) && cr in s.seen && p !in s.passes && !cr.deleting && FINALIZER in cr.finalizers
    requires Valid(env.libs, ManifestOf(env, cr)) && PlanOf(env, cr) != []
    requires !GoesOn(PlanOf(env, cr)[0], cr.spec.rollout.maxErrorRate, Asking(env, s.objects, cr, PlanOf(env, cr)[0], answer).1)
    ensures var stage := PlanOf(env, cr)[0];
            var (objects, reply) := Asking(env, s.objects, cr, stage, answer);
            var t := Run(env, s, StoppedPass(p, cr, answer));
            && t.objects == objects && t.trace == s.trace + [Asked(cr.uid, cr.generation, stage, reply)]
            && t.cr.Some? && t.cr.value.status.Some?
            && var status := t.cr.value.status.value;
            && status.observedGeneration == cr.generation && status.rolloutStep == stage.step
            && PhaseFits(status.phase, stage, cr.spec.rollout.maxErrorRate, reply)
  {
    var todo := PlanOf(env, cr);
    var opening := [Open(p, cr)] + [Act(p, FINE)] + [Act(p, FINE)];
    PassToStaging(env, s, p, cr);
    RunSnoc(env, s, opening, Act(p, answer));
    RunSnoc(env, s, opening + [Act(p, answer)], Act(p, FINE));
    StageStops(env, s, p, cr, todo, answer);
  }

  lemma StageStops(env: Setting, s: System, p: nat, cr: CR, todo: seq<Stage>, answer: Answer)
    requires s.cr == Some(cr) && p !in s.passes && todo != []
    requires !GoesOn(todo[0], cr.spec.rollout.maxErrorRate, Asking(env, s.objects, cr, todo[0], answer).1)
    ensures var (objects, reply) := Asking(env, s.objects, cr, todo[0], answer);
            var t := Next(env, Next(env, SetPass(s, p, Staging(cr, 0, todo)), Act(p, answer)), Act(p, FINE));
            && t.objects == objects && t.trace == s.trace + [Asked(cr.uid, cr.generation, todo[0], reply)]
            && t.cr == Some(cr.(status := Some(Status(AfterStage(Staging(cr, 0, todo), reply).phase, todo[0].step, cr.generation)),
                                version := s.clock + 1))
            && PhaseFits(AfterStage(Staging(cr, 0, todo), reply).phase, todo[0], cr.spec.rollout.maxErrorRate, reply)
  {
    var (objects, reply) := Asking(env, s.objects, cr, todo[0], answer);
    StageAnswered(Staging(cr, 0, todo), reply);
    StageToReport(env, s, p, cr, todo, answer);
    StoppedReported(env, s, p, cr, AfterStage(Staging(cr, 0, todo), reply).phase, todo[0].step, objects,
                    s.trace + [Asked(cr.uid, cr.generation, todo[0], reply)]);
  }

  lemma StoppedReported(env: Setting, s: System, p: nat, cr: CR, phase: Phase, step: int, objects: K.Objects, trace: seq<Event>)
    requires s.cr == Some(cr)
    ensures var stopped := SetPass(s, p, Reporting(cr, 0, phase, step)).(objects := objects, trace := trace);
            var t := Next(env, stopped, Act(p, FINE));
            && t.objects == objects && t.trace == trace
            && t.cr == Some(cr.(status := Some(Status(phase, step, cr.generation)), version := s.clock + 1))
  {
    PhaseReported(env, SetPass(s, p, Reporting(cr, 0, phase, step)).(objects := objects, trace := trace), p, cr, phase, step);
  }

  lemma StageToReport(env: Setting, s: System, p: nat, cr: CR, todo: seq<Stage>, answer: Answer)
    requires todo != []
    ensures var (objects, reply) := Asking(env, s.objects, cr, todo[0], answer);
            Next(env, SetPass(s, p, Staging(cr, 0, todo)), Act(p, answer))
            == SetPass(s, p, AfterStage(Staging(cr, 0, todo), reply))
                 .(objects := objects, trace := s.trace + [Asked(cr.uid, cr.generation, todo[0], reply)])
  {
    var staging := SetPass(s, p, Staging(cr, 0, todo));
    NextIsAct(env, staging, p, answer);
    ActIsStaging(env, staging, p, answer);
    var next := AfterStage(Staging(cr, 0, todo), Asking(env, s.objects, cr, todo[0], answer).1);
    assert s.passes[p := Staging(cr, 0, todo)][p := next] == s.passes[p := next];
  }

  lemma PhaseReported(env: Setting, s: System, p: nat, cr: CR, phase: Phase, step: int)
    requires s.cr == Some(cr) && p in s.passes && s.passes[p] == Reporting(cr, 0, phase, step)
    ensures Next(env, s, Act(p, FINE))
            == EndPass(Store(s, cr.(status := Some(Status(phase, step, cr.generation)), version := s.clock + 1)), p)
  {
    NextIsAct(env, s, p, FINE);
  }

  const STARTING := Answer(Accepted(false, 0.0, NoReader), 0, false, {})

  /** A Deployment that is still starting: the pass stores Reconciling, at the first planned step. */
  lemma StartingIsReconciling(env: Setting, s: System, p: nat, cr: CR)
    requires s.cr == Some(cr) && cr in s.seen && p !in s.passes && !cr.deleting && FINALIZER in cr.finalizers
    requires Valid(env.libs, ManifestOf(env, cr)) && Free(env, s.objects, cr)
    ensures PlanOf(env, cr) != []
    ensures var t := Run(env, s, StoppedPass(p, cr, STARTING));
            && t.cr.Some? && t.cr.value.status == Some(Status(Reconciling, PlanOf(env, cr)[0].step, cr.generation))
            && Scaled(env, t.objects, cr, PlanOf(env, cr)[0])
  {
    TolerantPlan(env, cr);
    StageAccepted(env, s.objects, cr, PlanOf(env, cr)[0], STARTING);
    AcceptedStageScales(env, s.objects, cr, PlanOf(env, cr)[0], STARTING);
    FirstStageStops(env, s, p, cr, STARTING);
  }

  /** An invalid manifest: the pass stores Failed with no step, and asks for nothing. */
  lemma InvalidIsFailed(env: Setting, s: System, p: nat, cr: CR)
    requires s.cr == Some(cr) && cr in s.seen && p !in s.passes && !cr.deleting && FINALIZER in cr.finalizers
    requires !Valid(env.libs, ManifestOf(env, cr))
    ensures var t := Run(env, s, [Open(p, cr)] + [Act(p, FINE)] + [Act(p, FINE)] + [Act(p, FINE)]);
            && t.cr.Some? && t.cr.value.status == Some(Status(Failed, 0, cr.generation))
            && t.trace == s.trace && t.objects == s.objects
  {
    OpensStale(env, s, p, cr);
    RunSnoc(env, s, [Open(p, cr)] + [Act(p, FINE)], Act(p, FINE));
    RunSnoc(env, s, [Open(p, cr)] + [Act(p, FINE)] + [Act(p, FINE)], Act(p, FINE));
    InvalidReported(env, s, p, cr);
  }

  lemma InvalidReported(env: Setting, s: System, p: nat, cr: CR)
    requires s.cr == Some(cr) && !Valid(env.libs, ManifestOf(env, cr))
    ensures var t := Next(env, Next(env, SetPass(s, p, Prepared(cr, 0)), Act(p, FINE)), Act(p, FINE));
            && t.cr.Some? && t.cr.value.status == Some(Status(Failed, 0, cr.generation))
            && t.trace == s.trace && t.objects == s.objects
  {
    var prepared := SetPass(s, p, Prepared(cr, 0));
    NextIsAct(env, prepared, p, FINE);
    assert ActStep(env, prepared, p, FINE) == SetPass(prepared, p, Reporting(cr, 0, Failed, 0));
    NextIsAct(env, SetPass(prepared, p, Reporting(cr, 0, Failed, 0)), p, FINE);
  }
}
