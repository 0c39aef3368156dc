/** What holds in the runs where every store write is made under the service's lock; crashes
    are still allowed anywhere unless a theorem says otherwise. */
module Locked {
  import opened Text
  import opened Manifests
  import opened Backends
  import opened Stores
  import opened ControlLoop
  import opened Safety

  /** The label does not write to the store beside a job in flight. */
  predicate Orderly(c: Config, l: Label) {
    l.ApplyDesired? ==> c.job.Idle?
  }

  // ---------- The joint store and backend invariant ----------

  predicate Carries(res: Contents, revision: nat) {
    forall kind :: kind in res ==> res[kind].revision == revision
  }

  predicate JobHoldsDesired(s: Service, res: Contents, job: Job) {
    && (Working(job) ==> Target(job) == s.desired)
    && match job
       case AtMark(_, from, _) => from == s.rolloutStep
       case AtStage(_, _, _) => s.phase.Reconciling?
       case AtRecord(rev, result, _) => s.phase.Reconciling? && (!result.failed ==> Carries(res, rev.number))
       case AtRestore(_, _) => s.phase.Failing?
       case AtRestoreRecord(_, good, restored) => s.phase.Failing? && (restored ==> Carries(res, good.number))
       case _ => true
  }

  predicate Settled(s: Service, res: Contents) {
    s.desired == s.active == s.lastGood && s.lastGood >= 1 && Carries(res, s.desired)
  }

  predicate Joint(c: Config) {
    c.svc.Some? ==>
      && JobHoldsDesired(c.svc.value, c.res, c.job)
      && (c.svc.value.phase.Ready? || c.svc.value.phase.RolledBack? ==> Settled(c.svc.value, c.res))
  }

  lemma RecordKeepsJoint(c: Config)
    requires Lineage(c) && Joint(c) && c.job.AtRecord? && c.svc.Some?
    ensures Joint(RecordStep(c))
  {
    LookupNumbered(c.svc.value.history, c.svc.value.lastGood);
  }

  lemma RestoreRecordKeepsJoint(c: Config)
    requires Lineage(c) && Joint(c) && c.job.AtRestoreRecord? && c.svc.Some?
    ensures Joint(RestoreRecordStep(c))
  {
  }

  lemma AdvanceKeepsJoint(c: Config, reply: Reply)
    requires Lineage(c) && Joint(c)
    ensures Joint(Advanced(c, reply))
  {
    match c.job {
      case AtGet => if c.svc.Some? { LookupNumbered(c.svc.value.history, c.svc.value.desired); }
      case AtRecord(_, _, _) => RecordKeepsJoint(c);
      case AtRestoreRecord(_, _, _) => RestoreRecordKeepsJoint(c);
      case _ =>
    }
  }

  lemma NextKeepsJoint(c: Config, l: Label)
    requires Lineage(c) && Joint(c) && Orderly(c, l)
    ensures Joint(Next(c, l))
  {
    match l {
      case Advance(reply) => AdvanceKeepsJoint(c, reply);
      case _ =>
    }
  }

  /** In every locked run, crashes included: a phase of ready or rolled_back means that the
      desired, active and last known good revisions are one and the same, and that every
      resource the backend still holds carries it. */
  lemma {:induction false} JointInEveryLockedRun(name: string, leftovers: Contents, ls: seq<Label>)
    requires LockedOnly(Initial(name, leftovers), ls)
    ensures Joint(Run(Initial(name, leftovers), ls))
    decreases |ls|
  {
    if ls != [] {
      JointInEveryLockedRun(name, leftovers, ls[..|ls| - 1]);
      LineageInEveryRun(name, leftovers, ls[..|ls| - 1]);
      NextKeepsJoint(Run(Initial(name, leftovers), ls[..|ls| - 1]), ls[|ls| - 1]);
    }
  }

  // ---------- No accepted revision is lost ----------

  /** The trace ends in: the revision was recorded as failed, and then the restore of the good one
      was accepted. */
  predicate EndsInFailure(trace: seq<Event>, bad: nat) {
    trace != [] && var e := trace[|trace| - 1]; e.Rejected? && e.revision == bad
  }

  predicate EndsInRestore(trace: seq<Event>, bad: nat, good: nat) {
    && trace != []
    && var e := trace[|trace| - 1];
    && e.Called? && e.restore && e.call.revision == good && e.call.reply.Accepted?
    && EndsInFailure(trace[..|trace| - 1], bad)
  }

  predicate JobRemembersFailure(c: Config) {
    match c.job
    case AtRestore(bad, _) => EndsInFailure(c.trace, bad.number)
    case AtRestoreRecord(bad, good, restored) => restored ==> EndsInRestore(c.trace, bad.number, good.number)
    case _ => true
  }

  lemma NextKeepsFailure(c: Config, l: Label)
    requires JobRemembersFailure(c) && Orderly(c, l)
    ensures JobRemembersFailure(Next(c, l))
  {
    var d := Next(c, l);
    NextLogsAtMostOne(c, l);
    if d.trace != c.trace {
      assert d.trace[..|d.trace| - 1] == c.trace;
    }
  }

  lemma {:induction false} FailureInEveryLockedRun(name: string, leftovers: Contents, ls: seq<Label>)
    requires LockedOnly(Initial(name, leftovers), ls)
    ensures JobRemembersFailure(Run(Initial(name, leftovers), ls))
    decreases |ls|
  {
    if ls != [] {
      FailureInEveryLockedRun(name, leftovers, ls[..|ls| - 1]);
      NextKeepsFailure(Run(Initial(name, leftovers), ls[..|ls| - 1]), ls[|ls| - 1]);
    }
  }

  /** In every locked run the desired revision changes in two ways only: to a newly accepted
      revision, which is the highest; or back to the last known good one, directly after the
      revision it leaves was recorded as failed and the restore was accepted. */
  lemma NoAcceptedRevisionIsLost(name: string, leftovers: Contents, ls: seq<Label>, l: Label)
    requires LockedOnly(Initial(name, leftovers), ls + [l])
    ensures var c, d := Run(Initial(name, leftovers), ls), Run(Initial(name, leftovers), ls + [l]);
            c.svc.Some? && d.svc.Some? && c.svc.value.desired != d.svc.value.desired ==>
              var from, to := c.svc.value.desired, d.svc.value.desired;
              || (to == |d.svc.value.history| == |c.svc.value.history| + 1 && to > from)
              || (to == c.svc.value.lastGood && d.trace == c.trace + [Restored(from, to)] && EndsInRestore(c.trace, from, to))
  {
    assert (ls + [l])[..|ls + [l]| - 1] == ls;
    var c := Run(Initial(name, leftovers), ls);
    LineageInEveryRun(name, leftovers, ls);
    JointInEveryLockedRun(name, leftovers, ls);
    FailureInEveryLockedRun(name, leftovers, ls);
    if c.svc.Some? { DesiredMoves(c, l); }
  }

  lemma DesiredMoves(c: Config, l: Label)
    requires Lineage(c) && Joint(c) && JobRemembersFailure(c) && c.svc.Some?
    ensures var d := Next(c, l);
            d.svc.Some? && c.svc.value.desired != d.svc.value.desired ==>
              var from, to := c.svc.value.desired, d.svc.value.desired;
              || (to == |d.svc.value.history| == |c.svc.value.history| + 1 && to > from)
              || (to == c.svc.value.lastGood && d.trace == c.trace + [Restored(from, to)] && EndsInRestore(c.trace, from, to))
  {
  }

  // ---------- The rollout guard over whole runs ----------

  /** A gated stage of the revision passed readiness and the error-rate threshold at step p. */
  predicate PassedAt(e: Event, rev: Revision, p: int) {
    && e.Called? && !e.restore && e.call.revision == rev.number
    && e.call.stage.gated && e.call.stage.step == p && Passed(rev.manifest, e.call)
  }

  /** A rollout call of the revision returned early at step p, and the store recorded it. */
  predicate StoppedAt(e: Event, rev: Revision, p: int) {
    (e.Waited? || e.Rejected?) && e.revision == rev.number && e.step == p
  }

  predicate Accounted(trace: seq<Event>, rev: Revision, p: int) {
    exists i :: 0 <= i < |trace| && (PassedAt(trace[i], rev, p) || StoppedAt(trace[i], rev, p))
  }

  /** Every configured step of the revision up to `step` passed, or stopped a recorded call. */
  predicate CoveredTo(trace: seq<Event>, rev: Revision, step: int) {
    forall j :: 0 <= j < |Steps(rev.manifest)| && Steps(rev.manifest)[j] <= step ==>
      Accounted(trace, rev, Steps(rev.manifest)[j])
  }

  /** The first n configured steps did. */
  predicate CoveredFirst(trace: seq<Event>, rev: Revision, n: int) {
    forall j :: 0 <= j < n && j < |Steps(rev.manifest)| ==> Accounted(trace, rev, Steps(rev.manifest)[j])
  }

  lemma AccountedLog(trace: seq<Event>, e: Event, rev: Revision, p: int)
    ensures Accounted(trace, rev, p) ==> Accounted(trace + [e], rev, p)
    ensures PassedAt(e, rev, p) || StoppedAt(e, rev, p) ==> Accounted(trace + [e], rev, p)
  {
    if Accounted(trace, rev, p) {
      var i :| 0 <= i < |trace| && (PassedAt(trace[i], rev, p) || StoppedAt(trace[i], rev, p));
      assert (trace + [e])[i] == trace[i];
    }
    assert (trace + [e])[|trace|] == e;
  }

  lemma CoveredLog(trace: seq<Event>, e: Event, rev: Revision)
    ensures forall step :: CoveredTo(trace, rev, step) ==> CoveredTo(trace + [e], rev, step)
    ensures forall n :: CoveredFirst(trace, rev, n) ==> CoveredFirst(trace + [e], rev, n)
  {
    forall p ensures Accounted(trace, rev, p) ==> Accounted(trace + [e], rev, p) {
      AccountedLog(trace, e, rev, p);
    }
  }

  /** What is left to do of a staged rollout is the tail of the step list. */
  predicate IsTail(m: Manifest, todo: seq<Stage>) {
    todo != [] &&
    if todo[0].gated then
      && |todo| <= |Steps(m)|
      && forall k :: 0 <= k < |todo| ==> todo[k] == StageAt(m, |Steps(m)| - |todo| + k)
    else |todo| == 1 && todo[0].step >= Last(Steps(m))
  }

  function DoneCount(m: Manifest, todo: seq<Stage>): int {
    if todo != [] && todo[0].gated then |Steps(m)| - |todo| else |Steps(m)|
  }

  predicate JobCovered(trace: seq<Event>, job: Job) {
    match job
    case AtStage(rev, todo, _) =>
      rev.manifest.rollout.enabled ==>
        IsTail(rev.manifest, todo) && CoveredFirst(trace, rev, DoneCount(rev.manifest, todo))
    case AtRecord(rev, result, _) =>
      rev.manifest.rollout.enabled ==>
        && CoveredTo(trace, rev, result.step - 1)
        && (!result.failed && result.ready ==> CoveredFirst(trace, rev, |Steps(rev.manifest)|))
    case _ => true
  }

  predicate Guarded(s: Service, trace: seq<Event>) {
    forall i :: 0 <= i < |trace| && trace[i].Converged? ==>
      && 1 <= trace[i].revision <= |s.history|
      && var rev := s.history[trace[i].revision - 1];
      (rev.manifest.rollout.enabled ==> CoveredFirst(trace[..i], rev, |Steps(rev.manifest)|))
  }

  predicate RolloutGuard(c: Config) {
    match c.svc
    case None => forall i :: 0 <= i < |c.trace| ==> !c.trace[i].Converged?
    case Some(s) =>
      && 1 <= s.desired <= |s.history|
      && (var rev := s.history[s.desired - 1];
          rev.manifest.rollout.enabled ==> CoveredTo(c.trace, rev, s.rolloutStep))
      && JobCovered(c.trace, c.job)
      && Guarded(s, c.trace)
  }

  lemma GuardedLog(s: Service, t: Service, trace: seq<Event>, e: Event)
    requires Guarded(s, trace) && s.history <= t.history
    requires e.Converged? ==>
               && 1 <= e.revision <= |t.history|
               && var rev := t.history[e.revision - 1];
               (rev.manifest.rollout.enabled ==> CoveredFirst(trace, rev, |Steps(rev.manifest)|))
    ensures Guarded(t, trace + [e])
  {
    forall i | 0 <= i < |trace + [e]| && (trace + [e])[i].Converged?
      ensures 1 <= (trace + [e])[i].revision <= |t.history|
      ensures var rev := t.history[(trace + [e])[i].revision - 1];
              rev.manifest.rollout.enabled ==> CoveredFirst((trace + [e])[..i], rev, |Steps(rev.manifest)|)
    {
      if i < |trace| {
        assert (trace + [e])[..i] == trace[..i];
        assert (trace + [e])[i] == trace[i];
        assert t.history[trace[i].revision - 1] == s.history[trace[i].revision - 1];
      } else {
        assert (trace + [e])[..i] == trace;
      }
    }
  }

  lemma PlanIsTail(m: Manifest, completed: int)
    requires Admissible(m) && m.rollout.enabled
    ensures IsTail(m, Plan(m, completed))
    ensures DoneCount(m, Plan(m, completed))
            == if completed < Last(Steps(m)) then FirstAfter(Steps(m), completed) else |Steps(m)|
  {
    if completed < Last(Steps(m)) {
      StagesAfterNonEmpty(m, Steps(m), completed);
      TailOfSteps(m, completed, StagesAfter(m, Steps(m), completed));
    }
  }

  lemma TailOfSteps(m: Manifest, completed: int, todo: seq<Stage>)
    requires StrictlyIncreasing(Steps(m)) && todo == StagesAfter(m, Steps(m), completed) != []
    ensures IsTail(m, todo) && todo[0].gated && DoneCount(m, todo) == FirstAfter(Steps(m), completed)
  {
    var first := FirstAfter(Steps(m), completed);
    StagesAreContiguous(m, completed, 0);
    assert Steps(m)[0..] == Steps(m);
    assert |todo| == |Steps(m)| - first;
    assert todo[0] == StageAt(m, first);
    forall k | 0 <= k < |todo| ensures todo[k] == StageAt(m, |Steps(m)| - |todo| + k) {
    }
  }

  lemma LastIsGreatest(steps: seq<int>)
    requires steps != [] && StrictlyIncreasing(steps)
    ensures forall j :: 0 <= j < |steps| ==> steps[j] <= Last(steps)
  {
  }

  /** A call resumed after `from` begins with what is covered up to there. */
  lemma PlanCovered(trace: seq<Event>, rev: Revision, from: int)
    requires Admissible(rev.manifest) && rev.manifest.rollout.enabled && CoveredTo(trace, rev, from)
    ensures IsTail(rev.manifest, Plan(rev.manifest, from))
    ensures CoveredFirst(trace, rev, DoneCount(rev.manifest, Plan(rev.manifest, from)))
  {
    var steps := Steps(rev.manifest);
    PlanIsTail(rev.manifest, from);
    FirstAfterSplits(steps, from);
    LastIsGreatest(steps);
    forall j | 0 <= j < DoneCount(rev.manifest, Plan(rev.manifest, from)) && j < |steps| ensures Accounted(trace, rev, steps[j]) {
      assert steps[j] <= from;
    }
  }

  lemma MarkKeepsGuard(c: Config)
    requires Lineage(c) && Joint(c) && RolloutGuard(c) && c.job.AtMark? && c.svc.Some?
    ensures RolloutGuard(MarkStep(c))
  {
    var AtMark(rev, from, _) := c.job;
    if rev.manifest.rollout.enabled {
      PlanCovered(c.trace, rev, from);
    }
  }

  /** One more stage of a staged rollout: what was done stays accounted for, a pass adds its step. */
  lemma StageCovers(trace: seq<Event>, rev: Revision, todo: seq<Stage>, reply: Reply)
    requires Admissible(rev.manifest) && rev.manifest.rollout.enabled && IsTail(rev.manifest, todo)
    requires CoveredFirst(trace, rev, DoneCount(rev.manifest, todo))
    ensures var e := Called(Call(rev.number, todo[0], reply), false);
            var n := DoneCount(rev.manifest, todo);
            && CoveredFirst(trace + [e], rev, n)
            && CoveredTo(trace + [e], rev, todo[0].step - 1)
            && (GoesOn(todo[0], rev.manifest.rollout.maxErrorRate, reply) ==> CoveredFirst(trace + [e], rev, n + 1))
  {
    var m := rev.manifest;
    var e := Called(Call(rev.number, todo[0], reply), false);
    var n := DoneCount(m, todo);
    CoveredLog(trace, e, rev);
    if todo[0].gated {
      assert todo[0] == StageAt(m, n);
      AccountedLog(trace, e, rev, Steps(m)[n]);
      assert forall j :: n < j < |Steps(m)| ==> Steps(m)[n] < Steps(m)[j];
    }
  }

  lemma TailShrinks(m: Manifest, todo: seq<Stage>)
    requires IsTail(m, todo) && |todo| > 1
    ensures IsTail(m, todo[1..]) && DoneCount(m, todo[1..]) == DoneCount(m, todo) + 1
  {
  }

  lemma StageKeepsJobCovered(c: Config, reply: Reply)
    requires Lineage(c) && RolloutGuard(c) && c.job.AtStage? && c.svc.Some?
    ensures JobCovered(StageStep(c, reply).trace, StageStep(c, reply).job)
  {
    var AtStage(rev, todo, _) := c.job;
    if rev.manifest.rollout.enabled {
      StageCovers(c.trace, rev, todo, reply);
      if |todo| > 1 {
        TailShrinks(rev.manifest, todo);
      }
    }
  }

  lemma StageKeepsGuard(c: Config, reply: Reply)
    requires Lineage(c) && RolloutGuard(c) && c.job.AtStage? && c.svc.Some?
    ensures RolloutGuard(StageStep(c, reply))
  {
    var AtStage(rev, todo, _) := c.job;
    var s := c.svc.value;
    var e := Called(Call(rev.number, todo[0], reply), false);
    StageKeepsJobCovered(c, reply);
    GuardedLog(s, s, c.trace, e);
    CoveredLog(c.trace, e, s.history[s.desired - 1]);
  }

  function RecordedEvent(rev: Revision, result: RolloutResult): Event {
    if !result.failed && !result.ready then Waited(rev.number, result.step)
    else if !result.failed then Converged(rev.number)
    else Rejected(rev.number, result.step)
  }

  lemma RecordLogs(c: Config)
    requires c.job.AtRecord? && c.svc.Some?
    ensures var d := RecordStep(c);
            && d.trace == c.trace + [RecordedEvent(c.job.rev, c.job.result)]
            && d.svc.Some? && d.svc.value.history == c.svc.value.history && d.svc.value.desired == c.svc.value.desired
            && d.svc.value.rolloutStep == c.job.result.step && !d.job.AtStage? && !d.job.AtRecord?
  {
  }

  /** The recorded step is covered: a pass or the recorded stop accounts for it. */
  lemma RecordCovers(trace: seq<Event>, rev: Revision, result: RolloutResult)
    requires CoveredTo(trace, rev, result.step - 1)
    requires !result.failed && result.ready ==> CoveredFirst(trace, rev, |Steps(rev.manifest)|)
    ensures CoveredTo(trace + [RecordedEvent(rev, result)], rev, result.step)
  {
    var e := RecordedEvent(rev, result);
    CoveredLog(trace, e, rev);
    AccountedLog(trace, e, rev, result.step);
    forall j | 0 <= j < |Steps(rev.manifest)| && Steps(rev.manifest)[j] <= result.step
      ensures Accounted(trace + [e], rev, Steps(rev.manifest)[j])
    {
      if !result.failed && result.ready {
        AccountedLog(trace, e, rev, Steps(rev.manifest)[j]);
      }
    }
  }

  lemma RecordKeepsGuard(c: Config)
    requires Lineage(c) && Joint(c) && RolloutGuard(c) && c.job.AtRecord? && c.svc.Some?
    ensures RolloutGuard(RecordStep(c))
  {
    var AtRecord(rev, result, _) := c.job;
    var d := RecordStep(c);
    RecordLogs(c);
    GuardedLog(c.svc.value, d.svc.value, c.trace, RecordedEvent(rev, result));
    if rev.manifest.rollout.enabled {
      RecordCovers(c.trace, rev, result);
    }
  }

  lemma LogKeepsGuard(c: Config, d: Config, e: Event)
    requires Lineage(c) && Lineage(d) && RolloutGuard(c) && d.trace == c.trace + [e] && !e.Converged?
    requires d.svc.Some? && !d.job.AtStage? && !d.job.AtRecord?
    requires c.svc.Some? ==> c.svc.value.history <= d.svc.value.history
    requires var s := d.svc.value;
             s.rolloutStep == 0 || (c.svc.Some? && c.svc.value.desired == s.desired && c.svc.value.rolloutStep == s.rolloutStep)
    ensures RolloutGuard(d)
  {
    var s := d.svc.value;
    if c.svc.Some? {
      GuardedLog(c.svc.value, s, c.trace, e);
    }
    CoveredLog(c.trace, e, s.history[s.desired - 1]);
  }

  lemma OtherLogs(c: Config, l: Label)
    requires Lineage(c) && Orderly(c, l) && Next(c, l).trace != c.trace
    requires !(l.Advance? && c.svc.Some? && (c.job.AtMark? || c.job.AtStage? || c.job.AtRecord?))
    ensures var d := Next(c, l);
            && |d.trace| == |c.trace| + 1 && !d.trace[|c.trace|].Converged?
            && d.svc.Some? && !d.job.AtStage? && !d.job.AtRecord?
            && (d.svc.value.rolloutStep == 0 ||
                (c.svc.Some? && c.svc.value.desired == d.svc.value.desired && c.svc.value.rolloutStep == d.svc.value.rolloutStep))
  {
  }

  predicate QuietStep(c: Config, d: Config) {
    && d.trace == c.trace
    && (d.job == c.job || (!d.job.AtStage? && !d.job.AtRecord?))
    && (c.svc.None? <==> d.svc.None?)
    && (c.svc.Some? ==>
        && c.svc.value.history == d.svc.value.history && c.svc.value.desired == d.svc.value.desired
        && c.svc.value.rolloutStep == d.svc.value.rolloutStep)
  }

  lemma StepsWithoutEventAreQuiet(c: Config, l: Label)
    requires Lineage(c) && Next(c, l).trace == c.trace
    requires !(l.Advance? && c.svc.Some? && c.job.AtMark?)
    ensures QuietStep(c, Next(c, l))
  {
  }

  lemma QuietKeepsGuard(c: Config, d: Config)
    requires RolloutGuard(c) && QuietStep(c, d)
    ensures RolloutGuard(d)
  {
  }

  lemma NextKeepsGuard(c: Config, l: Label)
    requires Lineage(c) && Joint(c) && RolloutGuard(c) && Orderly(c, l)
    ensures RolloutGuard(Next(c, l))
  {
    if l.Advance? && c.svc.Some? && c.job.AtMark? {
      MarkKeepsGuard(c);
    } else if l.Advance? && c.svc.Some? && c.job.AtStage? {
      StageKeepsGuard(c, l.reply);
    } else if l.Advance? && c.svc.Some? && c.job.AtRecord? {
      RecordKeepsGuard(c);
    } else if Next(c, l).trace == c.trace {
      StepsWithoutEventAreQuiet(c, l);
      QuietKeepsGuard(c, Next(c, l));
    } else {
      NextKeepsLineage(c, l);
      NextExtendsHistory(c, l);
      NextLogsAtMostOne(c, l);
      OtherLogs(c, l);
      LogKeepsGuard(c, Next(c, l), Next(c, l).trace[|c.trace|]);
    }
  }

  /** The bookkeeping behind the rollout guard: the recorded step, the job in flight and every
      convergence so far are backed by the trace. */
  lemma {:induction false} GuardInEveryLockedRun(name: string, leftovers: Contents, ls: seq<Label>)
    requires LockedOnly(Initial(name, leftovers), ls)
    ensures RolloutGuard(Run(Initial(name, leftovers), ls))
    decreases |ls|
  {
    if ls != [] {
      GuardInEveryLockedRun(name, leftovers, ls[..|ls| - 1]);
      JointInEveryLockedRun(name, leftovers, ls[..|ls| - 1]);
      LineageInEveryRun(name, leftovers, ls[..|ls| - 1]);
      NextKeepsGuard(Run(Initial(name, leftovers), ls[..|ls| - 1]), ls[|ls| - 1]);
    }
  }

  predicate PassedIn(trace: seq<Event>, rev: Revision, p: int) {
    exists i :: 0 <= i < |trace| && PassedAt(trace[i], rev, p)
  }

  predicate StoppedIn(trace: seq<Event>, rev: Revision, p: int) {
    exists i :: 0 <= i < |trace| && StoppedAt(trace[i], rev, p)
  }

  lemma AccountedIn(trace: seq<Event>, rev: Revision, p: int)
    requires Accounted(trace, rev, p)
    ensures PassedIn(trace, rev, p) || StoppedIn(trace, rev, p)
  {
  }

  /** The rollout guard. In every locked run, crashes included, when a rollout-enabled revision
      is recorded as converged, each configured step either passed readiness and the threshold
      in an Ensure of that revision, or is the step at which an earlier recorded call of that
      revision waited or failed. So a step can be skipped only by having stopped the rollout
      before; if nothing was recorded as stopped, every step passed. */
  lemma ConvergedMeansEveryStepAccounted(name: string, leftovers: Contents, ls: seq<Label>, i: nat)
    requires LockedOnly(Initial(name, leftovers), ls)
    requires var trace := Run(Initial(name, leftovers), ls).trace; i < |trace| && trace[i].Converged?
    ensures var c := Run(Initial(name, leftovers), ls);
            && c.svc.Some? && 1 <= c.trace[i].revision <= |c.svc.value.history|
            && var rev := c.svc.value.history[c.trace[i].revision - 1];
            (rev.manifest.rollout.enabled ==>
              forall j :: 0 <= j < |Steps(rev.manifest)| ==>
                var p := Steps(rev.manifest)[j];
                PassedIn(c.trace[..i], rev, p) || StoppedIn(c.trace[..i], rev, p))
  {
    GuardInEveryLockedRun(name, leftovers, ls);
    var c := Run(Initial(name, leftovers), ls);
    var rev := c.svc.value.history[c.trace[i].revision - 1];
    if rev.manifest.rollout.enabled {
      forall j | 0 <= j < |Steps(rev.manifest)|
        ensures PassedIn(c.trace[..i], rev, Steps(rev.manifest)[j]) || StoppedIn(c.trace[..i], rev, Steps(rev.manifest)[j])
      {
        AccountedIn(c.trace[..i], rev, Steps(rev.manifest)[j]);
      }
    }
  }
}
