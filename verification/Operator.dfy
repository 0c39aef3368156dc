/** The operator: several replicas reconciling one custom resource through an API server with
    optimistic concurrency (operator/main.go). */
module Operators {
  import opened Text
  import opened Manifests
  import opened Backends
  import K = Kubernetes

  const FINALIZER := "plinth.dev/finalizer"
  const MAX_ATTEMPTS := 3

  datatype Phase = Failed | Reconciling | Ready

  datatype Status = Status(phase: Phase, rolloutStep: int, observedGeneration: nat)

  /** One stored version of the custom resource. */
  datatype CR = CR(
    uid: string,
    version: nat,
    generation: nat,
    spec: Manifest,
    revision: int,
    status: Option<Status>,
    finalizers: seq<string>,
    deleting: bool)

  // ---------- The small helpers ----------

  function RemoveFinalizer(values: seq<string>, unwanted: string): seq<string> {
    if values == [] then []
    else (if values[0] == unwanted then [] else [values[0]]) + RemoveFinalizer(values[1..], unwanted)
  }

  lemma {:induction false} RemoveFinalizerRemoves(values: seq<string>, unwanted: string, other: string)
    ensures unwanted !in RemoveFinalizer(values, unwanted)
    ensures other != unwanted ==> (other in RemoveFinalizer(values, unwanted) <==> other in values)
  {
    if values != [] {
      RemoveFinalizerRemoves(values[1..], unwanted, other);
    }
  }

  /** The others stay in their order. */
  lemma {:induction false} RemoveFinalizerSplits(values: seq<string>, more: seq<string>, unwanted: string)
    ensures RemoveFinalizer(values + more, unwanted) == RemoveFinalizer(values, unwanted) + RemoveFinalizer(more, unwanted)
    ensures forall value :: RemoveFinalizer([value], unwanted) == if value == unwanted then [] else [value]
  {
    forall value: string ensures RemoveFinalizer([value], unwanted) == if value == unwanted then [] else [value] {
      assert [value][1..] == [];
    }
    if values == [] {
      assert values + more == more;
    } else {
      assert (values + more)[0] == values[0] && (values + more)[1..] == values[1..] + more;
      RemoveFinalizerSplits(values[1..], more, unwanted);
    }
  }

  lemma OneMoreFinalizer(values: seq<string>, unwanted: string, i: nat, rest: seq<string>)
    requires i < |values|
    ensures unwanted in values[..i + 1] <==> unwanted in values[..i] || values[i] == unwanted
    ensures rest + RemoveFinalizer(values[i..], unwanted)
            == (if values[i] == unwanted then rest else rest + [values[i]]) + RemoveFinalizer(values[i + 1..], unwanted)
  {
    assert values[i..][1..] == values[i + 1..];
    assert values[..i + 1] == values[..i] + [values[i]];
  }

  /** The loops of contains and removeFinalizer. */
  method FilterFinalizers(values: seq<string>, unwanted: string) returns (found: bool, rest: seq<string>)
    ensures found == (unwanted in values) && rest == RemoveFinalizer(values, unwanted)
  {
    found, rest := false, [];
    for i := 0 to |values|
      invariant found == (unwanted in values[..i])
      invariant rest + RemoveFinalizer(values[i..], unwanted) == RemoveFinalizer(values, unwanted)
    {
      OneMoreFinalizer(values, unwanted, i, rest);
      if values[i] == unwanted {
        found := true;
      } else {
        rest := rest + [values[i]];
      }
    }
    assert values[..|values|] == values;
  }

  function RevisionOf(cr: CR): nat {
    if cr.revision < 1 then 1 else cr.revision
  }

  /** The step a pass resumes from: the recorded one, unless it belongs to another generation. */
  function Completed(cr: CR): int {
    if cr.status.Some? && cr.status.value.observedGeneration == cr.generation && cr.status.value.rolloutStep > 0 then
      cr.status.value.rolloutStep
    else 0
  }

  // ---------- The system ----------

  /** Where one replica's pass over the resource has got to. `snap` is the version it acts on. */
  datatype Pass =
    | Started(snap: CR, attempt: nat)
    | Refetching(snap: CR, attempt: nat)
    | Finalizing(snap: CR, attempt: nat)
    | Prepared(snap: CR, attempt: nat)
    | Staging(snap: CR, attempt: nat, todo: seq<Stage>)
    | Reporting(snap: CR, attempt: nat, phase: Phase, step: int)

  /** An Ensure the backend was asked for, on behalf of a generation of a resource, and its answer. */
  datatype Event = Asked(uid: string, generation: nat, stage: Stage, reply: Reply)

  datatype Setting = Setting(libs: Libraries, namespace: string, name: string, alloc: K.Allocator)

  datatype System = System(
    cr: Option<CR>,
    clock: nat,
    uids: set<string>,
    specs: map<(string, nat), Manifest>,
    seen: set<CR>,
    passes: map<nat, Pass>,
    objects: K.Objects,
    trace: seq<Event>)

  function Initial(objects: K.Objects): System {
    System(None, 0, {}, map[], {}, map[], objects, [])
  }

  /** How the world answers one action of a pass: the backend's reply to an Ensure, how far an
      Ensure that is refused got, and the kinds a Delete finished. */
  datatype Answer = Answer(reply: Reply, upserts: nat, torn: bool, deleted: set<K.Kind>)

  datatype Label =
    | Create(uid: string, spec: Manifest, revision: int, finalizers: seq<string>)
    | Edit(spec: Manifest, revision: int)
    | Delete(bump: bool)
    | ReleaseForeign(finalizer: string)
    | Open(replica: nat, snapshot: CR)
    | Act(replica: nat, answer: Answer)
    | Abort(replica: nat)

  /** The API server stores a new version of the resource. */
  function Store(s: System, cr: CR): System {
    s.(cr := Some(cr), clock := cr.version, uids := s.uids + {cr.uid}, seen := s.seen + {cr}, specs := s.specs[(cr.uid, cr.generation) := cr.spec])
  }

  /** A resource being deleted goes once nothing holds it. */
  function StoreOrDrop(s: System, cr: CR): System {
    if cr.deleting && cr.finalizers == [] then s.(cr := None, clock := cr.version) else Store(s, cr)
  }

  datatype Written = Done | Conflict | NotFound

  function WriteOutcome(s: System, snap: CR): Written {
    if s.cr.None? then NotFound else if s.cr.value.version != snap.version then Conflict else Done
  }

  function EndPass(s: System, p: nat): System { s.(passes := s.passes - {p}) }

  function SetPass(s: System, p: nat, pass: Pass): System { s.(passes := s.passes[p := pass]) }

  /** After a conflict the pass starts over on the latest version, at most three times in all. */
  function Retry(s: System, p: nat, attempt: nat): System {
    if attempt + 1 >= MAX_ATTEMPTS || s.cr.None? then EndPass(s, p)
    else SetPass(s, p, Started(s.cr.value, attempt + 1))
  }

  function AfterWrite(s: System, p: nat, pass: Pass, done: System): System {
    match WriteOutcome(s, pass.snap)
    case Done => done
    case Conflict => SetPass(s, p, Refetching(pass.snap, pass.attempt))
    case NotFound => EndPass(s, p)
  }

  function ManifestOf(env: Setting, snap: CR): Manifest {
    snap.spec.(name := env.name)
  }

  /** The adapter that ensures: it carries the resource's owner reference, which makes it the operator's. */
  function EnsuringAdapter(env: Setting, snap: CR): K.Adapter {
    K.WithOwner(K.NewAdapter(env.namespace), snap.uid)
  }

  /** The adapter that deletes on finalization: the factory's, without an owner reference. */
  function FinalizingAdapter(env: Setting): K.Adapter {
    K.NewAdapter(env.namespace)
  }

  /** The versions a pass writes: with the finalizer added, with it removed, and with a new status. */
  function Marked(s: System, pass: Pass): CR
    requires s.cr.Some?
  {
    s.cr.value.(finalizers := pass.snap.finalizers + [FINALIZER], version := s.clock + 1)
  }

  function Released(s: System, pass: Pass): CR
    requires s.cr.Some?
  {
    s.cr.value.(finalizers := RemoveFinalizer(pass.snap.finalizers, FINALIZER), version := s.clock + 1)
  }

  function Reported(s: System, pass: Pass): CR
    requires s.cr.Some? && pass.Reporting?
  {
    s.cr.value.(status := Some(Status(pass.phase, pass.step, pass.snap.generation)), version := s.clock + 1)
  }

  function StartedStep(env: Setting, s: System, p: nat, pass: Pass, answer: Answer): System
    requires pass.Started?
  {
    var snap := pass.snap;
    if snap.deleting then
      var after := K.Applied(s.objects, K.DeleteOp(FinalizingAdapter(env), answer.deleted, env.name), env.alloc);
      if forall kind: K.Kind :: kind in answer.deleted then SetPass(s.(objects := after), p, Finalizing(snap, pass.attempt))
      else EndPass(s.(objects := after), p)
    else if FINALIZER in snap.finalizers then SetPass(s, p, Prepared(snap, pass.attempt))
    else if s.cr.None? then EndPass(s, p)
    else AfterWrite(s, p, pass, SetPass(Store(s, Marked(s, pass)), p, Prepared(Marked(s, pass), pass.attempt)))
  }

  function FinalizingStep(s: System, p: nat, pass: Pass): System
    requires pass.Finalizing?
  {
    if s.cr.None? then EndPass(s, p)
    else AfterWrite(s, p, pass, EndPass(StoreOrDrop(s, Released(s, pass)), p))
  }

  function PreparedStep(env: Setting, s: System, p: nat, pass: Pass): System
    requires pass.Prepared?
  {
    var m := ManifestOf(env, pass.snap);
    if Valid(env.libs, m) then SetPass(s, p, Staging(pass.snap, pass.attempt, Plan(m, Completed(pass.snap))))
    else SetPass(s, p, Reporting(pass.snap, pass.attempt, Failed, 0))
  }

  function PhaseOf(result: RolloutResult): Phase {
    if result.failed then Failed else if !result.ready then Reconciling else Ready
  }

  /** What the cluster makes of a stage's Ensure: the objects left, and the reply. An Ensure that
      meets another owner's object, or is refused otherwise, may have done part of its work. */
  function Asking(env: Setting, objects: K.Objects, snap: CR, stage: Stage, answer: Answer): (K.Objects, Reply) {
    var b := EnsuringAdapter(env, snap);
    var m := Staged(ManifestOf(env, snap), stage);
    var (after, ok) := K.Ensured(b, objects, m, RevisionOf(snap), env.alloc);
    if ok && answer.reply.Accepted? then (after, answer.reply)
    else (K.Applied(objects, K.EnsureOp(b, answer.upserts, answer.torn, m, RevisionOf(snap)), env.alloc), Refused(None))
  }

  /** Where a stage's answer leaves the pass: at the next stage, or reporting how the rollout ended. */
  function AfterStage(pass: Pass, reply: Reply): Pass
    requires pass.Staging? && pass.todo != []
  {
    var stage := pass.todo[0];
    var maxRate := pass.snap.spec.rollout.maxErrorRate;
    if Judge(stage, maxRate, reply).Pass? && |pass.todo| > 1 then Staging(pass.snap, pass.attempt, pass.todo[1..])
    else Reporting(pass.snap, pass.attempt, PhaseOf(ResultOf(stage, maxRate, reply)), stage.step)
  }

  function StagingStep(env: Setting, s: System, p: nat, pass: Pass, answer: Answer): System
    requires pass.Staging? && pass.todo != []
  {
    var stage := pass.todo[0];
    var (objects, reply) := Asking(env, s.objects, pass.snap, stage, answer);
    var asked := s.(objects := objects, trace := s.trace + [Asked(pass.snap.uid, pass.snap.generation, stage, reply)]);
    SetPass(asked, p, AfterStage(pass, reply))
  }

  function ReportingStep(s: System, p: nat, pass: Pass): System
    requires pass.Reporting?
  {
    if s.cr.None? then EndPass(s, p)
    else AfterWrite(s, p, pass, EndPass(Store(s, Reported(s, pass)), p))
  }

  function ActStep(env: Setting, s: System, p: nat, answer: Answer): System
    requires p in s.passes
  {
    var pass := s.passes[p];
    match pass
    case Started(_, _) => StartedStep(env, s, p, pass, answer)
    case Refetching(_, attempt) => Retry(s, p, attempt)
    case Finalizing(_, _) => FinalizingStep(s, p, pass)
    case Prepared(_, _) => PreparedStep(env, s, p, pass)
    case Staging(_, _, todo) =>
      if todo == [] then EndPass(s, p) else StagingStep(env, s, p, pass, answer)
    case Reporting(_, _, _, _) => ReportingStep(s, p, pass)
  }

  /** The versions others write: a new spec, a deletion request, a finalizer of someone else's dropped. */
  function Edited(s: System, spec: Manifest, revision: int): CR
    requires s.cr.Some?
  {
    s.cr.value.(spec := spec, revision := revision, generation := s.cr.value.generation + 1, version := s.clock + 1)
  }

  function Dying(s: System, bump: bool): CR
    requires s.cr.Some?
  {
    s.cr.value.(deleting := true, version := s.clock + 1, generation := s.cr.value.generation + if bump then 1 else 0)
  }

  function ForeignReleased(s: System, finalizer: string): CR
    requires s.cr.Some?
  {
    s.cr.value.(finalizers := RemoveFinalizer(s.cr.value.finalizers, finalizer), version := s.clock + 1)
  }

  function Next(env: Setting, s: System, l: Label): System {
    match l
    case Create(uid, spec, revision, finalizers) =>
      if s.cr.Some? || uid in s.uids then s
      else Store(s, CR(uid, s.clock + 1, 1, spec, revision, None, finalizers, false))
    case Edit(spec, revision) => if s.cr.None? then s else Store(s, Edited(s, spec, revision))
    case Delete(bump) => if s.cr.None? || s.cr.value.deleting then s else StoreOrDrop(s, Dying(s, bump))
    case ReleaseForeign(finalizer) =>
      if s.cr.None? || finalizer == FINALIZER then s else StoreOrDrop(s, ForeignReleased(s, finalizer))
    case Open(p, snapshot) => if p in s.passes || snapshot !in s.seen then s else SetPass(s, p, Started(snapshot, 0))
    case Act(p, answer) => if p in s.passes then ActStep(env, s, p, answer) else s
    case Abort(p) => EndPass(s, p)
  }

  function Run(env: Setting, s: System, ls: seq<Label>): System
    decreases |ls|
  {
    if ls == [] then s else Next(env, Run(env, s, ls[..|ls| - 1]), ls[|ls| - 1])
  }

  /** The action of a pass, and the stage of one. */
  lemma NextIsAct(env: Setting, s: System, p: nat, answer: Answer)
    requires p in s.passes
    ensures Next(env, s, Act(p, answer)) == ActStep(env, s, p, answer)
  {
  }

  lemma ActIsStaging(env: Setting, s: System, p: nat, answer: Answer)
    requires p in s.passes && s.passes[p].Staging? && s.passes[p].todo != []
    ensures ActStep(env, s, p, answer) == StagingStep(env, s, p, s.passes[p], answer)
  {
  }

  lemma RunSnoc(env: Setting, s: System, ls: seq<Label>, l: Label)
    ensures Run(env, s, ls + [l]) == Next(env, Run(env, s, ls), l)
  {
    assert (ls + [l])[..|ls + [l]| - 1] == ls;
  }

  lemma SplitLast(ls: seq<Label>, more: seq<Label>)
    requires more != []
    ensures more[..|more| - 1] + [more[|more| - 1]] == more
    ensures ls + more[..|more| - 1] + [more[|more| - 1]] == ls + more
  {
  }

  lemma RunAppendLast(env: Setting, s: System, ls: seq<Label>, shorter: seq<Label>, l: Label)
    requires Run(env, s, ls + shorter) == Run(env, Run(env, s, ls), shorter)
    ensures Run(env, s, ls + shorter + [l]) == Run(env, Run(env, s, ls), shorter + [l])
  {
    RunSnoc(env, s, ls + shorter, l);
    RunSnoc(env, Run(env, s, ls), shorter, l);
  }

  lemma RunAppendNone(env: Setting, s: System, ls: seq<Label>)
    ensures Run(env, s, ls + []) == Run(env, Run(env, s, ls), [])
  {
    assert ls + [] == ls;
  }

  lemma {:induction false} RunAppend(env: Setting, s: System, ls: seq<Label>, more: seq<Label>)
    ensures Run(env, s, ls + more) == Run(env, Run(env, s, ls), more)
    decreases |more|
  {
    if more == [] {
      RunAppendNone(env, s, ls);
    } else {
      RunAppend(env, s, ls, more[..|more| - 1]);
      RunAppendLast(env, s, ls, more[..|more| - 1], more[|more| - 1]);
      SplitLast(ls, more);
    }
  }
}
