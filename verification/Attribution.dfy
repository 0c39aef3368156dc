/** What the operator's status can be trusted for: in every run of any number of replicas, on
    snapshots of any age, with edits, deletion and re-creation of the resource in between. */
module Attribution {
  import opened Text
  import opened Manifests
  import opened Backends
  import opened Operators
  import L = Locked

  // ---------- Versions ----------

  /** The API server's bookkeeping: versions are never reused, a generation has one spec, and
      no generation beyond the current one has been seen. */
  predicate Versioned(s: System, cr: CR) {
    && cr.version <= s.clock
    && cr.uid in s.uids
    && (cr.uid, cr.generation) in s.specs
    && s.specs[(cr.uid, cr.generation)] == cr.spec
    && (s.cr.Some? && cr.uid == s.cr.value.uid ==> cr.generation <= s.cr.value.generation)
  }

  ghost predicate Bookkeeping(s: System) {
    && (forall cr :: cr in s.seen ==> Versioned(s, cr))
    && (forall a, b :: a in s.seen && b in s.seen && a.version == b.version ==> a == b)
    && (s.cr.Some? ==> s.cr.value in s.seen)
    && (forall p :: p in s.passes ==> s.passes[p].snap in s.seen)
  }

  /** Every write the API server accepts carries a new version, and a new generation if the spec changed. */
  predicate Successor(s: System, cr: CR) {
    && cr.version == s.clock + 1
    && if s.cr.None? then cr.uid !in s.uids
       else
         && cr.uid == s.cr.value.uid
         && (cr.generation > s.cr.value.generation || (cr.generation == s.cr.value.generation && cr.spec == s.cr.value.spec))
  }

  lemma StoreKeepsBookkeeping(s: System, cr: CR)
    requires Bookkeeping(s) && Successor(s, cr)
    ensures Bookkeeping(Store(s, cr))
  {
  }

  lemma StoreOrDropKeepsBookkeeping(s: System, cr: CR)
    requires Bookkeeping(s) && Successor(s, cr)
    ensures Bookkeeping(StoreOrDrop(s, cr))
  {
    StoreKeepsBookkeeping(s, cr);
  }

  lemma SetPassKeepsBookkeeping(s: System, p: nat, pass: Pass)
    requires Bookkeeping(s) && pass.snap in s.seen
    ensures Bookkeeping(SetPass(s, p, pass))
  {
  }

  lemma RetryKeepsBookkeeping(s: System, p: nat, attempt: nat)
    requires Bookkeeping(s)
    ensures Bookkeeping(Retry(s, p, attempt))
  {
  }

  lemma AfterWriteKeepsBookkeeping(s: System, p: nat, pass: Pass, done: System)
    requires Bookkeeping(s) && Bookkeeping(done) && pass.snap in s.seen
    ensures Bookkeeping(AfterWrite(s, p, pass, done))
  {
    SetPassKeepsBookkeeping(s, p, Refetching(pass.snap, pass.attempt));
  }

  lemma ObjectsDoNotMatter(s: System, objects: K.Objects, trace: seq<Event>)
    requires Bookkeeping(s)
    ensures Bookkeeping(s.(objects := objects, trace := trace))
  {
  }

  lemma StartedKeepsBookkeeping(env: Setting, s: System, p: nat, pass: Pass, answer: Answer)
    requires Bookkeeping(s) && pass.snap in s.seen && pass.Started?
    ensures Bookkeeping(StartedStep(env, s, p, pass, answer))
  {
    if pass.snap.deleting {
      var after := K.Applied(s.objects, K.DeleteOp(FinalizingAdapter(env), answer.deleted, env.name), env.alloc);
      ObjectsDoNotMatter(s, after, s.trace);
    } else if FINALIZER !in pass.snap.finalizers && s.cr.Some? {
      StoreKeepsBookkeeping(s, Marked(s, pass));
      SetPassKeepsBookkeeping(Store(s, Marked(s, pass)), p, Prepared(Marked(s, pass), pass.attempt));
      AfterWriteKeepsBookkeeping(s, p, pass, SetPass(Store(s, Marked(s, pass)), p, Prepared(Marked(s, pass), pass.attempt)));
    }
  }

  lemma FinalizingKeepsBookkeeping(s: System, p: nat, pass: Pass)
    requires Bookkeeping(s) && pass.snap in s.seen && pass.Finalizing?
    ensures Bookkeeping(FinalizingStep(s, p, pass))
  {
    if s.cr.Some? {
      StoreOrDropKeepsBookkeeping(s, Released(s, pass));
      AfterWriteKeepsBookkeeping(s, p, pass, EndPass(StoreOrDrop(s, Released(s, pass)), p));
    }
  }

  lemma ReportingKeepsBookkeeping(s: System, p: nat, pass: Pass)
    requires Bookkeeping(s) && pass.snap in s.seen && pass.Reporting?
    ensures Bookkeeping(ReportingStep(s, p, pass))
  {
    if s.cr.Some? {
      StoreKeepsBookkeeping(s, Reported(s, pass));
      AfterWriteKeepsBookkeeping(s, p, pass, EndPass(Store(s, Reported(s, pass)), p));
    }
  }

  lemma StagingKeepsBookkeeping(env: Setting, s: System, p: nat, pass: Pass, answer: Answer)
    requires Bookkeeping(s) && pass.snap in s.seen && pass.Staging? && pass.todo != []
    ensures Bookkeeping(StagingStep(env, s, p, pass, answer))
  {
    var (objects, reply) := Asking(env, s.objects, pass.snap, pass.todo[0], answer);
    ObjectsDoNotMatter(s, objects, s.trace + [Asked(pass.snap.uid, pass.snap.generation, pass.todo[0], reply)]);
  }

  lemma ActKeepsBookkeeping(env: Setting, s: System, p: nat, answer: Answer)
    requires Bookkeeping(s) && p in s.passes
    ensures Bookkeeping(ActStep(env, s, p, answer))
  {
    var pass := s.passes[p];
    match pass {
      case Started(_, _) => StartedKeepsBookkeeping(env, s, p, pass, answer);
      case Finalizing(_, _) => FinalizingKeepsBookkeeping(s, p, pass);
      case Staging(_, _, todo) => if todo != [] { StagingKeepsBookkeeping(env, s, p, pass, answer); }
      case Reporting(_, _, _, _) => ReportingKeepsBookkeeping(s, p, pass);
      case Refetching(_, attempt) => RetryKeepsBookkeeping(s, p, attempt);
      case Prepared(_, _) =>
    }
  }

  lemma NextKeepsBookkeeping(env: Setting, s: System, l: Label)
    requires Bookkeeping(s)
    ensures Bookkeeping(Next(env, s, l))
  {
    match l {
      case Create(uid, spec, revision, finalizers) =>
        if s.cr.None? && uid !in s.uids {
          StoreKeepsBookkeeping(s, CR(uid, s.clock + 1, 1, spec, revision, None, finalizers, false));
        }
      case Edit(spec, revision) => if s.cr.Some? { StoreKeepsBookkeeping(s, Edited(s, spec, revision)); }
      case Delete(bump) =>
        if s.cr.Some? {
          StoreOrDropKeepsBookkeeping(s, Dying(s, bump));
        }
      case ReleaseForeign(finalizer) =>
        if s.cr.Some? {
          StoreOrDropKeepsBookkeeping(s, ForeignReleased(s, finalizer));
        }
      case Act(p, answer) => if p in s.passes { ActKeepsBookkeeping(env, s, p, answer); }
      case _ =>
    }
  }

  lemma {:induction false} BookkeepingInEveryRun(env: Setting, objects: K.Objects, ls: seq<Label>)
    ensures Bookkeeping(Run(env, Initial(objects), ls))
    decreases |ls|
  {
    if ls != [] {
      BookkeepingInEveryRun(env, objects, ls[..|ls| - 1]);
      NextKeepsBookkeeping(env, Run(env, Initial(objects), ls[..|ls| - 1]), ls[|ls| - 1]);
    }
  }

  // ---------- Attribution ----------

  /** What is on record before a version: the Ensures asked for so far, and the versions stored. */
  datatype Record = Record(trace: seq<Event>, seen: set<CR>, before: nat)

  function RecordOf(s: System): Record {
    Record(s.trace, s.seen, s.clock + 1)
  }

  predicate Within(r: Record, q: Record) {
    r.trace <= q.trace && r.seen <= q.seen && r.before <= q.before
  }

  /** The stage was asked of the backend on behalf of the generation. */
  predicate StepAsked(r: Record, uid: string, generation: nat, stage: Stage) {
    exists i :: 0 <= i < |r.trace| && IsAsked(r.trace[i], uid, generation, stage)
  }

  predicate IsAsked(e: Event, uid: string, generation: nat, stage: Stage) {
    e.uid == uid && e.generation == generation && e.stage == stage
  }

  /** It was, and passed readiness and the error-rate threshold. */
  predicate StepPassed(r: Record, uid: string, generation: nat, stage: Stage, maxRate: real) {
    exists i :: 0 <= i < |r.trace| && IsAsked(r.trace[i], uid, generation, stage)
                && GoesOn(stage, maxRate, r.trace[i].reply)
  }

  /** The version reports that a rollout of the generation ended at step p short of ready. */
  predicate ReportsStop(cr: CR, uid: string, generation: nat, p: int) {
    && cr.uid == uid && cr.status.Some? && cr.status.value.observedGeneration == generation
    && cr.status.value.rolloutStep == p && !cr.status.value.phase.Ready?
  }

  predicate StepStopped(r: Record, uid: string, generation: nat, p: int) {
    exists cr :: cr in r.seen && cr.version < r.before && ReportsStop(cr, uid, generation, p)
  }

  /** The j-th configured step passed, or an earlier status reports that a rollout ended there. */
  predicate StepAccounted(r: Record, uid: string, generation: nat, spec: Manifest, j: nat)
    requires j < |Steps(spec)|
  {
    || StepPassed(r, uid, generation, StageAt(spec, j), spec.rollout.maxErrorRate)
    || StepStopped(r, uid, generation, Steps(spec)[j])
  }

  /** The spec goes through a staged rollout at all. */
  predicate RollsOut(env: Setting, spec: Manifest) {
    Valid(env.libs, spec.(name := env.name)) && spec.rollout.enabled
  }

  /** The first n configured steps were asked for, and are accounted for. */
  predicate First(r: Record, uid: string, generation: nat, spec: Manifest, n: int) {
    forall j :: 0 <= j < n && j < |Steps(spec)| ==>
      StepAsked(r, uid, generation, StageAt(spec, j)) && StepAccounted(r, uid, generation, spec, j)
  }

  /** Every configured step up to k was asked for, and every one below it is accounted for. */
  predicate UpTo(r: Record, uid: string, generation: nat, spec: Manifest, k: int) {
    forall j :: 0 <= j < |Steps(spec)| && Steps(spec)[j] <= k ==>
      && StepAsked(r, uid, generation, StageAt(spec, j))
      && (Steps(spec)[j] < k ==> StepAccounted(r, uid, generation, spec, j))
  }

  /** The phase a stage's answer calls for: Failed for a refusal, or a ready answer whose rate cannot be
      measured or exceeds the threshold; Reconciling for one that is not ready; else Ready. */
  predicate PhaseFits(phase: Phase, stage: Stage, maxRate: real, reply: Reply) {
    match reply
    case Refused(_) => phase == Failed
    case Accepted(false, _, _) => phase == Reconciling
    case Accepted(true, own, NoReader) => phase == if stage.gated && own > maxRate then Failed else Ready
    case Accepted(true, _, Measured(rate)) => phase == if stage.gated && rate > maxRate then Failed else Ready
    case Accepted(true, _, Unreadable) => phase == if stage.gated then Failed else Ready
  }

  /** The event is an Ensure of the generation that a status of this phase and step can report. */
  predicate Tells(e: Event, uid: string, maxRate: real, status: Status) {
    && e.uid == uid && e.generation == status.observedGeneration && e.stage.step == status.rolloutStep
    && PhaseFits(status.phase, e.stage, maxRate, e.reply)
  }

  /** A status says how an Ensure of its generation was answered, or that the manifest is invalid. */
  predicate Told(env: Setting, r: Record, uid: string, spec: Manifest, status: Status) {
    if Valid(env.libs, spec.(name := env.name)) then
      exists i :: 0 <= i < |r.trace| && Tells(r.trace[i], uid, spec.rollout.maxErrorRate, status)
    else status.phase == Failed && status.rolloutStep == 0
  }

  lemma ToldStays(env: Setting, r: Record, q: Record, uid: string, spec: Manifest, status: Status)
    requires Within(r, q) && Told(env, r, uid, spec, status)
    ensures Told(env, q, uid, spec, status)
  {
    if Valid(env.libs, spec.(name := env.name)) {
      var i :| 0 <= i < |r.trace| && Tells(r.trace[i], uid, spec.rollout.maxErrorRate, status);
      assert q.trace[i] == r.trace[i];
    }
  }

  /** What a status claims of a generation with this spec, if it is true: the steps up to the
      recorded one were asked for, those below it are accounted for, and if it says ready, all are;
      and the phase is what the answer at the recorded step calls for. */
  predicate Honest(env: Setting, r: Record, uid: string, spec: Manifest, status: Status) {
    && Told(env, r, uid, spec, status)
    && if RollsOut(env, spec) then
      && UpTo(r, uid, status.observedGeneration, spec, status.rolloutStep)
      && (status.phase.Ready? ==> First(r, uid, status.observedGeneration, spec, |Steps(spec)|))
    else status.rolloutStep == 0
  }

  predicate StatusHonest(env: Setting, s: System, cr: CR) {
    cr.status.Some? ==>
      var g := cr.status.value.observedGeneration;
      && g <= cr.generation
      && (cr.uid, g) in s.specs
      && Honest(env, Record(s.trace, s.seen, cr.version), cr.uid, s.specs[(cr.uid, g)], cr.status.value)
  }

  /** Every version of the resource ever stored has an honest status. */
  ghost predicate StatusesHonest(env: Setting, s: System) {
    forall cr :: cr in s.seen ==> StatusHonest(env, s, cr)
  }

  predicate PassHonest(env: Setting, r: Record, pass: Pass) {
    var cr := pass.snap;
    match pass
    case Staging(_, _, todo) =>
      && todo != [] && Valid(env.libs, cr.spec.(name := env.name))
      && (forall i :: 0 <= i < |todo| ==> todo[i].step >= Completed(cr))
      && (if RollsOut(env, cr.spec) then
            L.IsTail(cr.spec, todo) && First(r, cr.uid, cr.generation, cr.spec, L.DoneCount(cr.spec, todo))
          else forall i :: 0 <= i < |todo| ==> todo[i].step == 0)
    case Reporting(_, _, phase, step) =>
      step >= Completed(cr) && Honest(env, r, cr.uid, cr.spec, Status(phase, step, cr.generation))
    case _ => true
  }

  ghost predicate PassesHonest(env: Setting, s: System) {
    forall p :: p in s.passes ==> PassHonest(env, RecordOf(s), s.passes[p])
  }

  ghost predicate AllHonest(env: Setting, s: System) {
    Bookkeeping(s) && StatusesHonest(env, s) && PassesHonest(env, s)
  }

  lemma AskedStays(r: Record, q: Record, uid: string, generation: nat, stage: Stage)
    requires Within(r, q) && StepAsked(r, uid, generation, stage)
    ensures StepAsked(q, uid, generation, stage)
  {
    var i :| 0 <= i < |r.trace| && IsAsked(r.trace[i], uid, generation, stage);
    assert q.trace[i] == r.trace[i];
  }

  lemma AccountedStays(r: Record, q: Record, uid: string, generation: nat, spec: Manifest, j: nat)
    requires Within(r, q) && j < |Steps(spec)| && StepAccounted(r, uid, generation, spec, j)
    ensures StepAccounted(q, uid, generation, spec, j)
  {
    var stage, maxRate := StageAt(spec, j), spec.rollout.maxErrorRate;
    if StepPassed(r, uid, generation, stage, maxRate) {
      var i :| 0 <= i < |r.trace| && IsAsked(r.trace[i], uid, generation, stage) && GoesOn(stage, maxRate, r.trace[i].reply);
      assert q.trace[i] == r.trace[i];
    } else {
      var cr :| cr in r.seen && cr.version < r.before && ReportsStop(cr, uid, generation, Steps(spec)[j]);
      assert cr in q.seen;
    }
  }

  lemma FirstStays(r: Record, q: Record, uid: string, generation: nat, spec: Manifest, n: int)
    requires Within(r, q) && First(r, uid, generation, spec, n)
    ensures First(q, uid, generation, spec, n)
  {
    forall j | 0 <= j < n && j < |Steps(spec)|
      ensures StepAsked(q, uid, generation, StageAt(spec, j)) && StepAccounted(q, uid, generation, spec, j)
    {
      AskedStays(r, q, uid, generation, StageAt(spec, j));
      AccountedStays(r, q, uid, generation, spec, j);
    }
  }

  lemma HonestStays(env: Setting, r: Record, q: Record, uid: string, spec: Manifest, status: Status)
    requires Within(r, q) && Honest(env, r, uid, spec, status)
    ensures Honest(env, q, uid, spec, status)
  {
    ToldStays(env, r, q, uid, spec, status);
    if RollsOut(env, spec) {
      var g, k := status.observedGeneration, status.rolloutStep;
      forall j | 0 <= j < |Steps(spec)| && Steps(spec)[j] <= k
        ensures StepAsked(q, uid, g, StageAt(spec, j)) && (Steps(spec)[j] < k ==> StepAccounted(q, uid, g, spec, j))
      {
        AskedStays(r, q, uid, g, StageAt(spec, j));
        if Steps(spec)[j] < k { AccountedStays(r, q, uid, g, spec, j); }
      }
      if status.phase.Ready? {
        FirstStays(r, q, uid, g, spec, |Steps(spec)|);
      }
    }
  }

  lemma PassHonestStays(env: Setting, r: Record, q: Record, pass: Pass)
    requires Within(r, q) && PassHonest(env, r, pass)
    ensures PassHonest(env, q, pass)
  {
    var cr := pass.snap;
    match pass {
      case Reporting(_, _, phase, step) => HonestStays(env, r, q, cr.uid, cr.spec, Status(phase, step, cr.generation));
      case Staging(_, _, todo) =>
        if RollsOut(env, cr.spec) { FirstStays(r, q, cr.uid, cr.generation, cr.spec, L.DoneCount(cr.spec, todo)); }
      case _ =>
    }
  }

  lemma PassesStayHonest(env: Setting, s: System, t: System)
    requires PassesHonest(env, s) && t.passes == s.passes && Within(RecordOf(s), RecordOf(t))
    ensures PassesHonest(env, t)
  {
    forall p | p in t.passes ensures PassHonest(env, RecordOf(t), t.passes[p]) {
      PassHonestStays(env, RecordOf(s), RecordOf(t), s.passes[p]);
    }
  }

  /** A claim about an old version stays as true as it was when a new version is stored. */
  lemma StatusStays(env: Setting, s: System, cr: CR, a: CR, b: CR)
    requires Bookkeeping(s) && Successor(s, cr) && a in s.seen && StatusHonest(env, s, a)
    requires b.uid == a.uid && b.status == a.status && b.version >= a.version && b.generation >= a.generation
    ensures StatusHonest(env, Store(s, cr), b)
  {
    assert Versioned(s, a);
    if a.status.Some? {
      var g := a.status.value.observedGeneration;
      var t := Store(s, cr);
      if s.cr.Some? { assert Versioned(s, s.cr.value); }
      assert t.specs[(a.uid, g)] == s.specs[(a.uid, g)];
      HonestStays(env, Record(s.trace, s.seen, a.version), Record(t.trace, t.seen, b.version), a.uid, s.specs[(a.uid, g)], a.status.value);
    }
  }

  lemma StoreKeepsHonest(env: Setting, s: System, cr: CR)
    requires AllHonest(env, s) && Successor(s, cr)
    requires StatusHonest(env, Store(s, cr), cr)
    ensures AllHonest(env, Store(s, cr))
  {
    StoreKeepsBookkeeping(s, cr);
    PassesStayHonest(env, s, Store(s, cr));
    forall a | a in s.seen ensures StatusHonest(env, Store(s, cr), a) {
      StatusStays(env, s, cr, a, a);
    }
  }

  lemma DropKeepsHonest(env: Setting, s: System, cr: CR)
    requires AllHonest(env, s) && Successor(s, cr)
    ensures AllHonest(env, s.(cr := None, clock := cr.version))
  {
    var t := s.(cr := None, clock := cr.version);
    PassesStayHonest(env, s, t);
    SameVersionsSameStatuses(env, s, t);
  }

  /** Writes that leave the status alone. */
  lemma StoreSameStatus(env: Setting, s: System, cr: CR)
    requires AllHonest(env, s) && Successor(s, cr)
    requires if s.cr.Some? then cr.status == s.cr.value.status else cr.status.None?
    ensures AllHonest(env, Store(s, cr)) && AllHonest(env, StoreOrDrop(s, cr))
  {
    if s.cr.Some? {
      assert Versioned(s, s.cr.value);
      StatusStays(env, s, cr, s.cr.value, cr);
    }
    StoreKeepsHonest(env, s, cr);
    DropKeepsHonest(env, s, cr);
  }

  lemma SetPassKeepsHonest(env: Setting, s: System, p: nat, pass: Pass)
    requires AllHonest(env, s) && pass.snap in s.seen && PassHonest(env, RecordOf(s), pass)
    ensures AllHonest(env, SetPass(s, p, pass))
  {
    SetPassKeepsBookkeeping(s, p, pass);
    var t := SetPass(s, p, pass);
    SameVersionsSameStatuses(env, s, t);
    assert RecordOf(t) == RecordOf(s);
    forall q | q in t.passes ensures PassHonest(env, RecordOf(t), t.passes[q]) {
      if q != p { assert t.passes[q] == s.passes[q]; }
    }
  }

  lemma SameVersionsSameStatuses(env: Setting, s: System, t: System)
    requires StatusesHonest(env, s) && t.seen == s.seen && t.specs == s.specs && t.trace == s.trace
    ensures StatusesHonest(env, t)
  {
    forall a | a in t.seen ensures StatusHonest(env, t, a) {
      assert StatusHonest(env, s, a);
    }
  }

  lemma EndPassKeepsHonest(env: Setting, s: System, p: nat)
    requires AllHonest(env, s)
    ensures AllHonest(env, EndPass(s, p))
  {
    var t := EndPass(s, p);
    SameVersionsSameStatuses(env, s, t);
    assert RecordOf(t) == RecordOf(s);
  }

  lemma AfterWriteKeepsHonest(env: Setting, s: System, p: nat, pass: Pass, done: System)
    requires AllHonest(env, s) && pass.snap in s.seen
    requires WriteOutcome(s, pass.snap).Done? ==> AllHonest(env, done)
    ensures AllHonest(env, AfterWrite(s, p, pass, done))
  {
    SetPassKeepsHonest(env, s, p, Refetching(pass.snap, pass.attempt));
    EndPassKeepsHonest(env, s, p);
  }

  lemma ObjectsKeepHonest(env: Setting, s: System, objects: K.Objects)
    requires AllHonest(env, s)
    ensures AllHonest(env, s.(objects := objects))
  {
    ObjectsDoNotMatter(s, objects, s.trace);
    SameVersionsSameStatuses(env, s, s.(objects := objects));
  }

  lemma AskKeepsHonest(env: Setting, s: System, objects: K.Objects, e: Event)
    requires AllHonest(env, s)
    ensures AllHonest(env, s.(objects := objects, trace := s.trace + [e]))
  {
    ObjectsDoNotMatter(s, objects, s.trace + [e]);
    var t := s.(objects := objects, trace := s.trace + [e]);
    PassesStayHonest(env, s, t);
    forall a | a in t.seen ensures StatusHonest(env, t, a) {
      assert StatusHonest(env, s, a);
      if a.status.Some? {
        HonestStays(env, Record(s.trace, s.seen, a.version), Record(t.trace, t.seen, a.version), a.uid,
                    s.specs[(a.uid, a.status.value.observedGeneration)], a.status.value);
      }
    }
  }

  lemma StartedKeepsHonest(env: Setting, s: System, p: nat, pass: Pass, answer: Answer)
    requires AllHonest(env, s) && pass.snap in s.seen && pass.Started?
    ensures AllHonest(env, StartedStep(env, s, p, pass, answer))
  {
    if pass.snap.deleting {
      var after := K.Applied(s.objects, K.DeleteOp(FinalizingAdapter(env), answer.deleted, env.name), env.alloc);
      ObjectsKeepHonest(env, s, after);
      SetPassKeepsHonest(env, s.(objects := after), p, Finalizing(pass.snap, pass.attempt));
      EndPassKeepsHonest(env, s.(objects := after), p);
    } else if FINALIZER in pass.snap.finalizers {
      SetPassKeepsHonest(env, s, p, Prepared(pass.snap, pass.attempt));
    } else if s.cr.Some? {
      StoreSameStatus(env, s, Marked(s, pass));
      SetPassKeepsHonest(env, Store(s, Marked(s, pass)), p, Prepared(Marked(s, pass), pass.attempt));
      AfterWriteKeepsHonest(env, s, p, pass, SetPass(Store(s, Marked(s, pass)), p, Prepared(Marked(s, pass), pass.attempt)));
    } else {
      EndPassKeepsHonest(env, s, p);
    }
  }

  lemma FinalizingKeepsHonest(env: Setting, s: System, p: nat, pass: Pass)
    requires AllHonest(env, s) && pass.snap in s.seen && pass.Finalizing?
    ensures AllHonest(env, FinalizingStep(s, p, pass))
  {
    if s.cr.Some? {
      StoreSameStatus(env, s, Released(s, pass));
      EndPassKeepsHonest(env, StoreOrDrop(s, Released(s, pass)), p);
      AfterWriteKeepsHonest(env, s, p, pass, EndPass(StoreOrDrop(s, Released(s, pass)), p));
    } else {
      EndPassKeepsHonest(env, s, p);
    }
  }

  /** The stages of a plan never go below the step resumed from. */
  lemma {:induction false} StagesAfterExceed(m: Manifest, steps: seq<int>, completed: int)
    ensures forall i :: 0 <= i < |StagesAfter(m, steps, completed)| ==> StagesAfter(m, steps, completed)[i].step > completed
  {
    if steps != [] {
      StagesAfterExceed(m, steps[1..], completed);
    }
  }

  /** Naming the service does not change its rollout. */
  lemma RenamingKeepsPlan(m: Manifest, name: string, completed: int)
    ensures Steps(m.(name := name)) == Steps(m)
    ensures Plan(m.(name := name), completed) == Plan(m, completed)
  {
    RenamingKeepsStages(m, name, Steps(m), completed);
  }

  lemma {:induction false} RenamingKeepsStages(m: Manifest, name: string, steps: seq<int>, completed: int)
    ensures StagesAfter(m.(name := name), steps, completed) == StagesAfter(m, steps, completed)
  {
    if steps != [] {
      RenamingKeepsStages(m, name, steps[1..], completed);
    }
  }

  lemma PlanIsHonest(env: Setting, s: System, pass: Pass)
    requires AllHonest(env, s) && pass.snap in s.seen && pass.Prepared?
    requires Valid(env.libs, ManifestOf(env, pass.snap))
    ensures PassHonest(env, RecordOf(s), Staging(pass.snap, pass.attempt, Plan(ManifestOf(env, pass.snap), Completed(pass.snap))))
  {
    var cr := pass.snap;
    var m := cr.spec;
    var completed := Completed(cr);
    assert Versioned(s, cr) && StatusHonest(env, s, cr);
    RenamingKeepsPlan(m, env.name, completed);
    ValidIsAdmissible(env.libs, ManifestOf(env, cr));
    PlanNonEmpty(m, completed);
    StagesAfterExceed(m, Steps(m), completed);
    if m.rollout.enabled {
      L.PlanIsTail(m, completed);
      FirstAfterSplits(Steps(m), completed);
      forall j | 0 <= j < |Steps(m)| && Steps(m)[j] <= completed
        ensures StepAsked(RecordOf(s), cr.uid, cr.generation, StageAt(m, j))
        ensures StepAccounted(RecordOf(s), cr.uid, cr.generation, m, j)
      {
        CompletedIsAccounted(env, s, cr, j);
      }
    }
  }

  /** The steps a pass does not repeat: each was asked for, and passed or is a reported stop, the
      last of them possibly in the very status the pass resumes from. */
  lemma CompletedIsAccounted(env: Setting, s: System, cr: CR, j: nat)
    requires cr in s.seen && StatusHonest(env, s, cr) && Versioned(s, cr)
    requires RollsOut(env, cr.spec) && Admissible(cr.spec) && j < |Steps(cr.spec)| && Steps(cr.spec)[j] <= Completed(cr)
    ensures StepAsked(RecordOf(s), cr.uid, cr.generation, StageAt(cr.spec, j))
    ensures StepAccounted(RecordOf(s), cr.uid, cr.generation, cr.spec, j)
  {
    var r, q := Record(s.trace, s.seen, cr.version), RecordOf(s);
    AskedStays(r, q, cr.uid, cr.generation, StageAt(cr.spec, j));
    if cr.status.value.phase.Ready? || Steps(cr.spec)[j] < Completed(cr) {
      AccountedStays(r, q, cr.uid, cr.generation, cr.spec, j);
    } else {
      assert ReportsStop(cr, cr.uid, cr.generation, Steps(cr.spec)[j]);
    }
  }

  lemma PreparedKeepsHonest(env: Setting, s: System, p: nat, pass: Pass)
    requires AllHonest(env, s) && pass.snap in s.seen && pass.Prepared?
    ensures AllHonest(env, PreparedStep(env, s, p, pass))
  {
    if Valid(env.libs, ManifestOf(env, pass.snap)) {
      PlanIsHonest(env, s, pass);
      SetPassKeepsHonest(env, s, p, Staging(pass.snap, pass.attempt, Plan(ManifestOf(env, pass.snap), Completed(pass.snap))));
    } else {
      assert Versioned(s, pass.snap) && StatusHonest(env, s, pass.snap);
      SetPassKeepsHonest(env, s, p, Reporting(pass.snap, pass.attempt, Failed, 0));
    }
  }

  /** The bookkeeping of one stage of a rollout: a pass accounts for one step more. */
  lemma StageIsHonest(env: Setting, r: Record, pass: Pass, reply: Reply)
    requires pass.Staging? && PassHonest(env, r, pass)
    requires RollsOut(env, pass.snap.spec) && Admissible(pass.snap.spec)
    ensures var cr := pass.snap;
            var stage := pass.todo[0];
            var after := r.(trace := r.trace + [Asked(cr.uid, cr.generation, stage, reply)]);
            var n := L.DoneCount(cr.spec, pass.todo);
            && First(after, cr.uid, cr.generation, cr.spec, n)
            && UpTo(after, cr.uid, cr.generation, cr.spec, stage.step)
            && (GoesOn(stage, cr.spec.rollout.maxErrorRate, reply) ==>
                  First(after, cr.uid, cr.generation, cr.spec, n + 1))
  {
    var cr := pass.snap;
    var stage := pass.todo[0];
    var e := Asked(cr.uid, cr.generation, stage, reply);
    var after := r.(trace := r.trace + [e]);
    var n := L.DoneCount(cr.spec, pass.todo);
    assert after.trace[|r.trace|] == e && IsAsked(e, cr.uid, cr.generation, stage);
    FirstStays(r, after, cr.uid, cr.generation, cr.spec, n);
    if stage.gated {
      assert stage == StageAt(cr.spec, n);
      assert forall j :: n < j < |Steps(cr.spec)| ==> Steps(cr.spec)[n] < Steps(cr.spec)[j];
    }
  }

  lemma AfterStageSnap(pass: Pass, reply: Reply)
    requires pass.Staging? && pass.todo != []
    ensures AfterStage(pass, reply).snap == pass.snap
  {
  }

  lemma StagingKeepsHonest(env: Setting, s: System, p: nat, pass: Pass, answer: Answer)
    requires AllHonest(env, s) && p in s.passes && pass == s.passes[p] && pass.Staging? && pass.todo != []
    ensures AllHonest(env, StagingStep(env, s, p, pass, answer))
  {
    var cr := pass.snap;
    var stage := pass.todo[0];
    var (objects, reply) := Asking(env, s.objects, cr, stage, answer);
    var e := Asked(cr.uid, cr.generation, stage, reply);
    var asked := s.(objects := objects, trace := s.trace + [e]);
    assert PassHonest(env, RecordOf(s), pass);
    StagedPassIsHonest(env, RecordOf(s), pass, reply);
    assert RecordOf(asked) == RecordOf(s).(trace := s.trace + [e]);
    AskKeepsHonest(env, s, objects, e);
    AfterStageSnap(pass, reply);
    SetPassKeepsHonest(env, asked, p, AfterStage(pass, reply));
  }

  lemma StagedPassIsHonest(env: Setting, r: Record, pass: Pass, reply: Reply)
    requires pass.Staging? && PassHonest(env, r, pass)
    ensures var cr := pass.snap;
            PassHonest(env, r.(trace := r.trace + [Asked(cr.uid, cr.generation, pass.todo[0], reply)]), AfterStage(pass, reply))
  {
    var cr := pass.snap;
    if RollsOut(env, cr.spec) {
      ValidIsAdmissible(env.libs, ManifestOf(env, cr));
      assert Steps(cr.spec) == Steps(ManifestOf(env, cr));
      StageIsHonest(env, r, pass, reply);
      if |pass.todo| > 1 {
        L.TailShrinks(cr.spec, pass.todo);
      }
    }
    StageIsTold(pass, reply);
    var e := Asked(cr.uid, cr.generation, pass.todo[0], reply);
    assert (r.trace + [e])[|r.trace|] == e;
  }

  /** Where a stage's answer leaves the pass, answer by answer: it goes on to the next stage or reports
      Ready exactly on a pass, and else reports the phase the answer calls for. */
  lemma StageAnswered(pass: Pass, reply: Reply)
    requires pass.Staging? && pass.todo != []
    ensures var stage, next := pass.todo[0], AfterStage(pass, reply);
            var maxRate := pass.snap.spec.rollout.maxErrorRate;
            if GoesOn(stage, maxRate, reply) && |pass.todo| > 1 then next == Staging(pass.snap, pass.attempt, pass.todo[1..])
            else
              && next.Reporting? && next.snap == pass.snap && next.attempt == pass.attempt && next.step == stage.step
              && PhaseFits(next.phase, stage, maxRate, reply)
              && (next.phase == Ready <==> GoesOn(stage, maxRate, reply) && |pass.todo| == 1)
  {
  }

  lemma StageIsTold(pass: Pass, reply: Reply)
    requires pass.Staging? && pass.todo != []
    ensures var cr, next := pass.snap, AfterStage(pass, reply);
            next.Reporting? ==>
              Tells(Asked(cr.uid, cr.generation, pass.todo[0], reply), cr.uid, cr.spec.rollout.maxErrorRate,
                    Status(next.phase, next.step, cr.generation))
  {
    StageAnswered(pass, reply);
  }

  /** A write that goes through was made from the current version. */
  lemma WrittenFromCurrent(s: System, pass: Pass)
    requires Bookkeeping(s) && pass.snap in s.seen && WriteOutcome(s, pass.snap).Done?
    ensures s.cr == Some(pass.snap)
  {
  }

  lemma ReportIsHonest(env: Setting, s: System, pass: Pass)
    requires Bookkeeping(s) && pass.snap in s.seen && s.cr == Some(pass.snap)
    requires pass.Reporting? && PassHonest(env, RecordOf(s), pass)
    ensures StatusHonest(env, Store(s, Reported(s, pass)), Reported(s, pass))
  {
    var cr := pass.snap;
    var t := Store(s, Reported(s, pass));
    assert Versioned(s, cr);
    HonestStays(env, RecordOf(s), Record(t.trace, t.seen, s.clock + 1), cr.uid, cr.spec, Status(pass.phase, pass.step, cr.generation));
  }

  lemma ReportingKeepsHonest(env: Setting, s: System, p: nat, pass: Pass)
    requires AllHonest(env, s) && p in s.passes && pass == s.passes[p] && pass.Reporting?
    ensures AllHonest(env, ReportingStep(s, p, pass))
  {
    if s.cr.Some? {
      if WriteOutcome(s, pass.snap).Done? {
        WrittenFromCurrent(s, pass);
        assert PassHonest(env, RecordOf(s), pass) && Versioned(s, pass.snap);
        ReportIsHonest(env, s, pass);
        StoreKeepsHonest(env, s, Reported(s, pass));
        EndPassKeepsHonest(env, Store(s, Reported(s, pass)), p);
      }
      AfterWriteKeepsHonest(env, s, p, pass, EndPass(Store(s, Reported(s, pass)), p));
    } else {
      EndPassKeepsHonest(env, s, p);
    }
  }

  lemma RetryKeepsHonest(env: Setting, s: System, p: nat, attempt: nat)
    requires AllHonest(env, s)
    ensures AllHonest(env, Retry(s, p, attempt))
  {
    if attempt + 1 >= MAX_ATTEMPTS || s.cr.None? {
      EndPassKeepsHonest(env, s, p);
    } else {
      SetPassKeepsHonest(env, s, p, Started(s.cr.value, attempt + 1));
    }
  }

  lemma ActKeepsHonest(env: Setting, s: System, p: nat, answer: Answer)
    requires AllHonest(env, s) && p in s.passes
    ensures AllHonest(env, ActStep(env, s, p, answer))
  {
    var pass := s.passes[p];
    match pass {
      case Started(_, _) => StartedKeepsHonest(env, s, p, pass, answer);
      case Refetching(_, attempt) => RetryKeepsHonest(env, s, p, attempt);
      case Finalizing(_, _) => FinalizingKeepsHonest(env, s, p, pass);
      case Prepared(_, _) => PreparedKeepsHonest(env, s, p, pass);
      case Staging(_, _, todo) =>
        if todo != [] { StagingKeepsHonest(env, s, p, pass, answer); } else { EndPassKeepsHonest(env, s, p); }
      case Reporting(_, _, _, _) => ReportingKeepsHonest(env, s, p, pass);
    }
  }

  lemma NextKeepsHonest(env: Setting, s: System, l: Label)
    requires AllHonest(env, s)
    ensures AllHonest(env, Next(env, s, l))
  {
    match l {
      case Open(p, snapshot) =>
        if snapshot in s.seen { SetPassKeepsHonest(env, s, p, Started(snapshot, 0)); }
      case Act(p, answer) => if p in s.passes { ActKeepsHonest(env, s, p, answer); }
      case Abort(p) => EndPassKeepsHonest(env, s, p);
      case _ => OthersKeepHonest(env, s, l);
    }
  }

  /** Nobody but the operator writes a status. */
  lemma OthersKeepHonest(env: Setting, s: System, l: Label)
    requires AllHonest(env, s) && (l.Create? || l.Edit? || l.Delete? || l.ReleaseForeign?)
    ensures AllHonest(env, Next(env, s, l))
  {
    if s.cr.Some? {
      match l {
        case Create(_, _, _, _) =>
        case Edit(spec, revision) => StoreSameStatus(env, s, Edited(s, spec, revision));
        case Delete(bump) => StoreSameStatus(env, s, Dying(s, bump));
        case ReleaseForeign(finalizer) => StoreSameStatus(env, s, ForeignReleased(s, finalizer));
      }
    } else if l.Create? && l.uid !in s.uids {
      StoreSameStatus(env, s, CR(l.uid, s.clock + 1, 1, l.spec, l.revision, None, l.finalizers, false));
    }
  }

  /** In every run: a recorded step k for generation g means that every configured step up to k
      of generation g's own spec was asked of the backend with the replicas that step stands for,
      and that every one below k passed readiness and the threshold, or is the step at which an
      earlier status of g reports that the rollout waited or failed. A phase of Ready means so of
      all the steps. */
  lemma {:induction false} StatusesHonestInEveryRun(env: Setting, objects: K.Objects, ls: seq<Label>)
    ensures AllHonest(env, Run(env, Initial(objects), ls))
    decreases |ls|
  {
    if ls != [] {
      StatusesHonestInEveryRun(env, objects, ls[..|ls| - 1]);
      NextKeepsHonest(env, Run(env, Initial(objects), ls[..|ls| - 1]), ls[|ls| - 1]);
    }
  }

  // ---------- One replica's steps leave the others' passes alone ----------

  predicate SamePass(s: System, t: System, me: nat) {
    (me in t.passes <==> me in s.passes) && (me in s.passes ==> t.passes[me] == s.passes[me])
  }

  lemma ActKeepsOtherPass(env: Setting, s: System, p: nat, answer: Answer, me: nat)
    requires p in s.passes && me != p
    ensures SamePass(s, ActStep(env, s, p, answer), me)
  {
    var pass := s.passes[p];
    match pass {
      case Started(_, _) => StartedKeepsOtherPass(env, s, p, pass, answer, me);
      case _ =>
    }
  }

  lemma StartedKeepsOtherPass(env: Setting, s: System, p: nat, pass: Pass, answer: Answer, me: nat)
    requires pass.Started? && me != p
    ensures SamePass(s, StartedStep(env, s, p, pass, answer), me)
  {
  }

  // ---------- The status never goes back ----------

  function Progress(cr: CR): (int, int) {
    if cr.status.None? then (0, 0) else (cr.status.value.observedGeneration, cr.status.value.rolloutStep)
  }

  predicate NotBefore(later: (int, int), earlier: (int, int)) {
    later.0 > earlier.0 || (later.0 == earlier.0 && later.1 >= earlier.1)
  }

  /** While the resource lives, the pair of observed generation and rollout step never decreases. */
  predicate OneWay(s: System, t: System) {
    s.cr.Some? && t.cr.Some? && s.cr.value.uid == t.cr.value.uid ==> NotBefore(Progress(t.cr.value), Progress(s.cr.value))
  }

  /** A resource that was known does not come into being again. */
  predicate SameLife(s: System, t: System) {
    && s.uids <= t.uids
    && (t.cr.Some? && t.cr.value.uid in s.uids ==> s.cr.Some? && s.cr.value.uid == t.cr.value.uid)
  }

  lemma ReportingGoesForward(env: Setting, s: System, p: nat, pass: Pass)
    requires AllHonest(env, s) && p in s.passes && pass == s.passes[p] && pass.Reporting?
    ensures OneWay(s, ReportingStep(s, p, pass))
  {
    if s.cr.Some? && WriteOutcome(s, pass.snap).Done? {
      WrittenFromCurrent(s, pass);
      assert PassHonest(env, RecordOf(s), pass) && StatusHonest(env, s, pass.snap) && Versioned(s, pass.snap);
    }
  }

  lemma StartedGoesForward(env: Setting, s: System, p: nat, pass: Pass, answer: Answer)
    requires Bookkeeping(s) && pass.Started?
    ensures OneWay(s, StartedStep(env, s, p, pass, answer)) && SameLife(s, StartedStep(env, s, p, pass, answer))
  {
  }

  lemma ActGoesForward(env: Setting, s: System, p: nat, answer: Answer)
    requires AllHonest(env, s) && p in s.passes
    ensures OneWay(s, ActStep(env, s, p, answer)) && SameLife(s, ActStep(env, s, p, answer))
  {
    var pass := s.passes[p];
    match pass {
      case Started(_, _) => StartedGoesForward(env, s, p, pass, answer);
      case Reporting(_, _, _, _) => ReportingGoesForward(env, s, p, pass);
      case _ =>
    }
  }

  lemma NextGoesForward(env: Setting, s: System, l: Label)
    requires AllHonest(env, s)
    ensures OneWay(s, Next(env, s, l)) && SameLife(s, Next(env, s, l))
  {
    match l {
      case Act(p, answer) => if p in s.passes { ActGoesForward(env, s, p, answer); }
      case Open(_, _) =>
      case Abort(_) =>
      case _ => OthersGoForward(env, s, l);
    }
  }

  lemma OthersGoForward(env: Setting, s: System, l: Label)
    requires Bookkeeping(s) && (l.Create? || l.Edit? || l.Delete? || l.ReleaseForeign?)
    ensures OneWay(s, Next(env, s, l)) && SameLife(s, Next(env, s, l))
  {
  }

  /** However replicas, stale snapshots, edits and crashes interleave, the recorded progress of
      one resource only moves forward: a later generation, or a step at least as high. */
  lemma {:induction false} StatusNeverGoesBack(env: Setting, objects: K.Objects, ls: seq<Label>, more: seq<Label>)
    ensures var s, t := Run(env, Initial(objects), ls), Run(env, Initial(objects), ls + more);
            OneWay(s, t) && SameLife(s, t)
    decreases |more|
  {
    if more == [] {
      assert ls + more == ls;
      BookkeepingInEveryRun(env, objects, ls);
    } else {
      var shorter := more[..|more| - 1];
      StatusNeverGoesBack(env, objects, ls, shorter);
      assert (ls + more)[..|ls + more| - 1] == ls + shorter;
      assert (ls + more)[|ls + more| - 1] == more[|more| - 1];
      StatusesHonestInEveryRun(env, objects, ls + shorter);
      BookkeepingInEveryRun(env, objects, ls);
      NextGoesForward(env, Run(env, Initial(objects), ls + shorter), more[|more| - 1]);
    }
  }
}
