/** One operator process at work: the retry loop, one pass, and the API calls it makes, with
    everyone else's steps falling between any two of them (operator/main.go). */
module OperatorProcess {
  import opened Text
  import opened Manifests
  import opened Backends
  import opened Operators
  import opened Attribution
  import K = Kubernetes

  /** A step of someone else: a user, another controller of the resource, or another replica. */
  predicate Foreign(me: nat, l: Label) {
    match l
    case Open(p, _) => p != me
    case Act(p, _) => p != me
    case Abort(p) => p != me
    case _ => true
  }

  predicate AllForeign(me: nat, ls: seq<Label>) {
    forall i :: 0 <= i < |ls| ==> Foreign(me, ls[i])
  }

  lemma {:induction false} ForeignKeepsPass(env: Setting, s: System, ls: seq<Label>, me: nat)
    requires AllForeign(me, ls)
    ensures SamePass(s, Run(env, s, ls), me)
    decreases |ls|
  {
    if ls != [] {
      ForeignKeepsPass(env, s, ls[..|ls| - 1], me);
      ForeignStepKeepsPass(env, Run(env, s, ls[..|ls| - 1]), ls[|ls| - 1], me);
    }
  }

  lemma ForeignStepKeepsPass(env: Setting, s: System, l: Label, me: nat)
    requires Foreign(me, l)
    ensures SamePass(s, Next(env, s, l), me)
  {
    if l.Act? && l.replica in s.passes {
      ActKeepsOtherPass(env, s, l.replica, l.answer, me);
    }
  }

  /** After the first journal come only calls of this process's pass and other people's steps. */
  predicate Continues(me: nat, before: seq<Label>, after: seq<Label>) {
    && before <= after
    && forall i :: |before| <= i < |after| ==> Foreign(me, after[i]) || (after[i].Act? && after[i].replica == me)
  }

  lemma ContinuesTransitive(me: nat, a: seq<Label>, b: seq<Label>, c: seq<Label>)
    requires Continues(me, a, b) && Continues(me, b, c)
    ensures Continues(me, a, c)
  {
  }

  /** The API server and the cluster as one process meets them. `others` is whatever everyone
      else does before this process's n-th call, `answers` how the world answers that call. */
  class World {
    const env: Setting
    const me: nat
    const others: nat -> seq<Label>
    const answers: nat -> Answer
    ghost const origin: K.Objects
    var system: System
    var ticks: nat
    ghost var journal: seq<Label>

    /** The system is where the machine gets by the journal's steps. */
    ghost predicate Sound()
      reads this
    {
      && system == Run(env, Initial(origin), journal)
      && forall n :: AllForeign(me, others(n))
    }

    predicate At(pass: Pass)
      reads this
    {
      me in system.passes && system.passes[me] == pass
    }

    constructor (env: Setting, me: nat, others: nat -> seq<Label>, answers: nat -> Answer, objects: K.Objects)
      requires forall n :: AllForeign(me, others(n))
      ensures Sound() && journal == [] && me !in system.passes && origin == objects
      ensures this.env == env && this.me == me && this.others == others && this.answers == answers
    {
      this.env, this.me, this.others, this.answers, origin := env, me, others, answers, objects;
      system, ticks, journal := Initial(objects), 0, [];
    }

    /** Others move before the next call. */
    method Await() returns (answer: Answer)
      requires Sound()
      modifies this
      ensures Sound() && Continues(me, old(journal), journal)
      ensures me in system.passes <==> me in old(system.passes)
      ensures me in system.passes ==> system.passes[me] == old(system.passes)[me]
    {
      var ls := others(ticks);
      answer := answers(ticks);
      RunAppend(env, Initial(origin), journal, ls);
      ForeignKeepsPass(env, system, ls, me);
      system := Run(env, system, ls);
      ticks := ticks + 1;
      journal := journal + ls;
    }

    /** A pass begins on a snapshot the process has been handed. */
    method Begin(snapshot: CR)
      requires Sound() && me !in system.passes && snapshot in system.seen
      modifies this
      ensures Sound() && At(Started(snapshot, 0)) && journal == old(journal) + [Open(me, snapshot)]
    {
      RunSnoc(env, Initial(origin), journal, Open(me, snapshot));
      system := SetPass(system, me, Started(snapshot, 0));
      journal := journal + [Open(me, snapshot)];
    }

    method Get() returns (cr: Option<CR>)
      ensures cr == system.cr
    {
      return system.cr;
    }

    /** An update names the version it was made from, and is refused if that is not the current one. */
    method Update(sent: CR) returns (outcome: Written, stored: CR)
      modifies this`system
      ensures outcome == WriteOutcome(old(system), sent)
      ensures stored == sent.(version := old(system).clock + 1)
      ensures system == if outcome.Done? then StoreOrDrop(old(system), stored) else old(system)
    {
      stored := sent.(version := system.clock + 1);
      if system.cr.None? { return NotFound, stored; }
      if system.cr.value.version != sent.version { return Conflict, stored; }
      system := StoreOrDrop(system, stored);
      return Done, stored;
    }

    /** An update of the status subresource, which changes the status and nothing else. */
    method UpdateStatus(sent: CR) returns (outcome: Written)
      modifies this`system
      ensures outcome == WriteOutcome(old(system), sent)
      ensures system == if outcome.Done? then
                          Store(old(system), old(system).cr.value.(status := sent.status, version := old(system).clock + 1))
                        else old(system)
    {
      if system.cr.None? { return NotFound; }
      if system.cr.value.version != sent.version { return Conflict; }
      system := Store(system, system.cr.value.(status := sent.status, version := system.clock + 1));
      return Done;
    }

    /** One labelled step of this process has been carried out. */
    ghost method Carried(before: System, l: Label)
      requires before == Run(env, Initial(origin), journal) && system == Next(env, before, l)
      requires l.Act? && l.replica == me
      requires forall n :: AllForeign(me, others(n))
      modifies this`journal
      ensures Sound() && journal == old(journal) + [l] && Continues(me, old(journal), journal)
    {
      RunSnoc(env, Initial(origin), journal, l);
      journal := journal + [l];
    }
  }

  /** A write that goes through was made from the current version. */
  lemma CurrentIsSnap(env: Setting, origin: K.Objects, journal: seq<Label>, p: nat)
    ensures var s := Run(env, Initial(origin), journal);
            p in s.passes && WriteOutcome(s, s.passes[p].snap).Done? ==> s.cr == Some(s.passes[p].snap)
  {
    var s := Run(env, Initial(origin), journal);
    BookkeepingInEveryRun(env, origin, journal);
    if p in s.passes && WriteOutcome(s, s.passes[p].snap).Done? {
      WrittenFromCurrent(s, s.passes[p]);
    }
  }

  /** A pass over a resource being deleted. */
  method Finalize(w: World, snap: CR, attempt: nat) returns (outcome: Written)
    requires w.Sound() && w.At(Started(snap, attempt)) && snap.deleting
    modifies w
    ensures w.Sound() && Continues(w.me, old(w.journal), w.journal)
    ensures if outcome.Conflict? then w.At(Refetching(snap, attempt)) else w.me !in w.system.passes
  {
    var env, me := w.env, w.me;
    var answer := w.Await();
    ghost var before := w.system;
    var b := FinalizingAdapter(env);
    w.system := w.system.(objects := K.Applied(w.system.objects, K.DeleteOp(b, answer.deleted, env.name), env.alloc));
    if exists kind: K.Kind :: kind !in answer.deleted {
      w.system := EndPass(w.system, me);
      w.Carried(before, Act(me, answer));
      return NotFound;
    }
    w.system := SetPass(w.system, me, Finalizing(snap, attempt));
    w.Carried(before, Act(me, answer));
    outcome := Release(w, snap, attempt);
  }

  method Release(w: World, snap: CR, attempt: nat) returns (outcome: Written)
    requires w.Sound() && w.At(Finalizing(snap, attempt))
    modifies w
    ensures w.Sound() && Continues(w.me, old(w.journal), w.journal)
    ensures if outcome.Conflict? then w.At(Refetching(snap, attempt)) else w.me !in w.system.passes
  {
    var me := w.me;
    var found, rest := FilterFinalizers(snap.finalizers, FINALIZER);
    var answer := w.Await();
    ghost var before := w.system;
    CurrentIsSnap(w.env, w.origin, w.journal, me);
    var stored;
    outcome, stored := w.Update(snap.(finalizers := rest));
    w.system := if outcome.Conflict? then SetPass(w.system, me, Refetching(snap, attempt)) else EndPass(w.system, me);
    assert w.system == FinalizingStep(before, me, Finalizing(snap, attempt));
    w.Carried(before, Act(me, answer));
  }

  /** Make sure the resource carries the finalizer before anything is made for it. */
  method Prepare(w: World, snap: CR, attempt: nat) returns (outcome: Written, current: CR)
    requires w.Sound() && w.At(Started(snap, attempt)) && !snap.deleting
    modifies w
    ensures w.Sound() && Continues(w.me, old(w.journal), w.journal)
    ensures match outcome
            case Done =>
              && w.At(Prepared(current, attempt)) && FINALIZER in current.finalizers
              && current.finalizers == if FINALIZER in snap.finalizers then snap.finalizers else snap.finalizers + [FINALIZER]
            case Conflict => w.At(Refetching(snap, attempt))
            case NotFound => w.me !in w.system.passes
  {
    var me := w.me;
    var found, rest := FilterFinalizers(snap.finalizers, FINALIZER);
    var answer := w.Await();
    ghost var before := w.system;
    if found {
      w.system := SetPass(w.system, me, Prepared(snap, attempt));
      w.Carried(before, Act(me, answer));
      return Done, snap;
    }
    outcome, current := AddFinalizer(w, snap, attempt, answer);
  }

  method AddFinalizer(w: World, snap: CR, attempt: nat, ghost answer: Answer) returns (outcome: Written, current: CR)
    requires w.Sound() && w.At(Started(snap, attempt)) && !snap.deleting && FINALIZER !in snap.finalizers
    modifies w
    ensures w.Sound() && Continues(w.me, old(w.journal), w.journal)
    ensures match outcome
            case Done => w.At(Prepared(current, attempt)) && current.finalizers == snap.finalizers + [FINALIZER]
            case Conflict => w.At(Refetching(snap, attempt))
            case NotFound => w.me !in w.system.passes
  {
    var me := w.me;
    ghost var before := w.system;
    CurrentIsSnap(w.env, w.origin, w.journal, me);
    outcome, current := w.Update(snap.(finalizers := snap.finalizers + [FINALIZER]));
    match outcome {
      case Done => w.system := SetPass(w.system, me, Prepared(current, attempt));
      case Conflict => w.system := SetPass(w.system, me, Refetching(snap, attempt));
      case NotFound => w.system := EndPass(w.system, me);
    }
    MarkCarried(w.env, before, me, snap, attempt, answer);
    w.Carried(before, Act(me, answer));
  }

  /** The machine's step for adding the finalizer, written out. */
  lemma MarkCarried(env: Setting, s: System, me: nat, snap: CR, attempt: nat, answer: Answer)
    requires me in s.passes && s.passes[me] == Started(snap, attempt) && !snap.deleting && FINALIZER !in snap.finalizers
    requires WriteOutcome(s, snap).Done? ==> s.cr == Some(snap)
    ensures var stored := snap.(finalizers := snap.finalizers + [FINALIZER], version := s.clock + 1);
            Next(env, s, Act(me, answer))
            == match WriteOutcome(s, snap)
               case Done => SetPass(StoreOrDrop(s, stored), me, Prepared(stored, attempt))
               case Conflict => SetPass(s, me, Refetching(snap, attempt))
               case NotFound => EndPass(s, me)
  {
    NextIsAct(env, s, me, answer);
    assert ActStep(env, s, me, answer) == StartedStep(env, s, me, Started(snap, attempt), answer);
  }

  /** What a pass is about to report is how its stage was answered. */
  lemma ReportIsTold(env: Setting, origin: K.Objects, journal: seq<Label>, p: nat)
    ensures var s := Run(env, Initial(origin), journal);
            p in s.passes && s.passes[p].Reporting? ==>
              var pass := s.passes[p];
              Told(env, RecordOf(s), pass.snap.uid, pass.snap.spec, Status(pass.phase, pass.step, pass.snap.generation))
  {
    StatusesHonestInEveryRun(env, origin, journal);
    var s := Run(env, Initial(origin), journal);
    if p in s.passes {
      assert PassHonest(env, RecordOf(s), s.passes[p]);
    }
  }

  /** Run the rollout's stages until one does not pass, with others at work between any two. */
  method RollOut(w: World, snap: CR, attempt: nat) returns (phase: Phase, step: int)
    requires w.Sound() && w.At(Prepared(snap, attempt))
    modifies w
    ensures w.Sound() && Continues(w.me, old(w.journal), w.journal)
    ensures w.At(Reporting(snap, attempt, phase, step))
    ensures Told(w.env, RecordOf(w.system), snap.uid, snap.spec, Status(phase, step, snap.generation))
  {
    var env, me := w.env, w.me;
    var m := ManifestOf(env, snap);
    var problem := Validate(env.libs, m);
    var answer := w.Await();
    ghost var before := w.system;
    if problem.Some? {
      w.system := SetPass(w.system, me, Reporting(snap, attempt, Failed, 0));
      w.Carried(before, Act(me, answer));
      ReportIsTold(env, w.origin, w.journal, me);
      return Failed, 0;
    }
    var todo := Plan(m, Completed(snap));
    PlanNonEmpty(m, Completed(snap));
    w.system := SetPass(w.system, me, Staging(snap, attempt, todo));
    w.Carried(before, Act(me, answer));
    while true
      invariant todo != []
      invariant w.Sound() && Continues(me, old(w.journal), w.journal) && w.At(Staging(snap, attempt, todo))
      decreases |todo|
    {
      var reply;
      phase, step, reply := AskStage(w, snap, attempt, todo);
      if !(GoesOn(todo[0], snap.spec.rollout.maxErrorRate, reply) && |todo| > 1) {
        ReportIsTold(env, w.origin, w.journal, me);
        return;
      }
      todo := todo[1..];
    }
  }

  /** The machine's step for a stage, written out. */
  lemma StageCarried(env: Setting, s: System, me: nat, snap: CR, attempt: nat, todo: seq<Stage>, answer: Answer)
    requires me in s.passes && s.passes[me] == Staging(snap, attempt, todo) && todo != []
    ensures var (objects, reply) := Asking(env, s.objects, snap, todo[0], answer);
            var result := ResultOf(todo[0], snap.spec.rollout.maxErrorRate, reply);
            var next := if GoesOn(todo[0], snap.spec.rollout.maxErrorRate, reply) && |todo| > 1 then
                          Staging(snap, attempt, todo[1..])
                        else Reporting(snap, attempt, PhaseOf(result), result.step);
            Next(env, s, Act(me, answer))
            == SetPass(s.(objects := objects, trace := s.trace + [Asked(snap.uid, snap.generation, todo[0], reply)]), me, next)
  {
    NextIsAct(env, s, me, answer);
    ActIsStaging(env, s, me, answer);
  }

  method AskStage(w: World, snap: CR, attempt: nat, todo: seq<Stage>) returns (phase: Phase, step: int, reply: Reply)
    requires w.Sound() && w.At(Staging(snap, attempt, todo)) && todo != []
    modifies w
    ensures w.Sound() && Continues(w.me, old(w.journal), w.journal)
    ensures if GoesOn(todo[0], snap.spec.rollout.maxErrorRate, reply) && |todo| > 1
            then w.At(Staging(snap, attempt, todo[1..])) else w.At(Reporting(snap, attempt, phase, step))
    ensures PhaseFits(phase, todo[0], snap.spec.rollout.maxErrorRate, reply) && step == todo[0].step
  {
    var env, me := w.env, w.me;
    var maxRate := snap.spec.rollout.maxErrorRate;
    var answer := w.Await();
    ghost var before := w.system;
    var asking := Asking(env, w.system.objects, snap, todo[0], answer);
    reply := asking.1;
    var result := ResultOf(todo[0], maxRate, reply);
    phase := if result.failed then Failed else if !result.ready then Reconciling else Ready;
    step := result.step;
    var verdict := Judge(todo[0], maxRate, reply);
    var next := if verdict.Pass? && |todo| > 1 then Staging(snap, attempt, todo[1..]) else Reporting(snap, attempt, phase, step);
    w.system := SetPass(w.system.(objects := asking.0,
                                  trace := w.system.trace + [Asked(snap.uid, snap.generation, todo[0], reply)]), me, next);
    StageCarried(env, before, me, snap, attempt, todo, answer);
    w.Carried(before, Act(me, answer));
  }

  method Report(w: World, snap: CR, attempt: nat, phase: Phase, step: int) returns (outcome: Written)
    requires w.Sound() && w.At(Reporting(snap, attempt, phase, step))
    modifies w
    ensures w.Sound() && Continues(w.me, old(w.journal), w.journal)
    ensures if outcome.Conflict? then w.At(Refetching(snap, attempt)) else w.me !in w.system.passes
  {
    var me := w.me;
    var answer := w.Await();
    ghost var before := w.system;
    outcome := w.UpdateStatus(snap.(status := Some(Status(phase, step, snap.generation))));
    w.system := if outcome.Conflict? then SetPass(w.system, me, Refetching(snap, attempt)) else EndPass(w.system, me);
    assert w.system == ReportingStep(before, me, Reporting(snap, attempt, phase, step));
    w.Carried(before, Act(me, answer));
  }

  method ReconcileOnce(w: World, snap: CR, attempt: nat) returns (outcome: Written, last: CR)
    requires w.Sound() && w.At(Started(snap, attempt))
    modifies w
    ensures w.Sound() && Continues(w.me, old(w.journal), w.journal)
    ensures if outcome.Conflict? then w.At(Refetching(last, attempt)) else w.me !in w.system.passes
  {
    last := snap;
    if snap.deleting {
      outcome := Finalize(w, snap, attempt);
      return;
    }
    var current;
    outcome, current := Prepare(w, snap, attempt);
    if !outcome.Done? {
      return;
    }
    last := current;
    var phase, step := RollOut(w, current, attempt);
    outcome := Report(w, current, attempt, phase, step);
  }

  /** After a conflict: the latest version, if there is one and an attempt is left for it. */
  method Refetch(w: World, last: CR, attempt: nat) returns (latest: Option<CR>)
    requires w.Sound() && w.At(Refetching(last, attempt))
    modifies w
    ensures w.Sound() && Continues(w.me, old(w.journal), w.journal)
    ensures latest == if attempt < 2 then w.system.cr else None
    ensures if latest.Some? then attempt < 2 && w.At(Started(latest.value, attempt + 1))
            else w.me !in w.system.passes
  {
    var me := w.me;
    var answer := w.Await();
    latest := w.Get();
    ghost var before := w.system;
    if latest.None? || attempt + 1 >= MAX_ATTEMPTS {
      w.system := EndPass(w.system, me);
      latest := None;
    } else {
      w.system := SetPass(w.system, me, Started(latest.value, attempt + 1));
    }
    w.Carried(before, Act(me, answer));
  }

  /** Whatever others do in between, the process carries out one pass of the machine, to its end:
      it opens on the snapshot it was given, and every later step of its own is an API call of
      that pass. What holds in every run of the machine therefore holds of the process. */
  method Reconcile(w: World, snapshot: CR)
    requires w.Sound() && w.me !in w.system.passes && snapshot in w.system.seen
    modifies w
    ensures w.Sound() && w.me !in w.system.passes
    ensures Continues(w.me, old(w.journal) + [Open(w.me, snapshot)], w.journal)
  {
    w.Begin(snapshot);
    ghost var begun := w.journal;
    var current := snapshot;
    var attempt := 0;
    while true
      invariant attempt < MAX_ATTEMPTS
      invariant w.Sound() && w.At(Started(current, attempt))
      invariant Continues(w.me, begun, w.journal)
      decreases MAX_ATTEMPTS - attempt
    {
      ghost var before := w.journal;
      var outcome, last := ReconcileOnce(w, current, attempt);
      ContinuesTransitive(w.me, begun, before, w.journal);
      if !outcome.Conflict? {
        return;
      }
      before := w.journal;
      var latest := Refetch(w, last, attempt);
      ContinuesTransitive(w.me, begun, before, w.journal);
      if latest.None? {
        return;
      }
      current, attempt := latest.value, attempt + 1;
    }
  }
}
