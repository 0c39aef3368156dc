/** The rollout guard at a revision's first convergence, exactly: over locked runs without crashes. */
module Guard {
  import opened Text
  import opened Manifests
  import opened Backends
  import opened Stores
  import opened ControlLoop
  import opened Safety
  import opened Locked
  import opened Scale

  /** A rollout call of the revision returned early, and the store recorded it. */
  predicate Stopped(e: Event, rev: Revision) {
    (e.Waited? || e.Rejected?) && e.revision == rev.number
  }

  /** A gated stage of the revision passed. */
  predicate Passes(e: Event, rev: Revision) {
    e.Called? && PassedAt(e, rev, e.call.stage.step)
  }

  predicate NotPassed(trace: seq<Event>, rev: Revision, p: int) {
    forall i :: 0 <= i < |trace| ==> !PassedAt(trace[i], rev, p)
  }

  /** Every stop of the revision was at a configured step, which no Ensure of it passed. */
  predicate StopsApart(trace: seq<Event>, rev: Revision) {
    forall i :: 0 <= i < |trace| && Stopped(trace[i], rev) ==>
      trace[i].step in Steps(rev.manifest) && NotPassed(trace, rev, trace[i].step)
  }

  /** Neither a passed stage of the revision nor a stop was beyond p. */
  predicate Reached(trace: seq<Event>, rev: Revision, p: int) {
    forall i :: 0 <= i < |trace| ==>
      && (Stopped(trace[i], rev) ==> trace[i].step <= p)
      && (Passes(trace[i], rev) ==> trace[i].call.stage.step <= p)
  }

  /** A step at which the revision stopped, so that the next call starts beyond it. */
  predicate StoppedStep(trace: seq<Event>, rev: Revision, p: int) {
    p in Steps(rev.manifest) && NotPassed(trace, rev, p)
  }

  predicate Unconverged(trace: seq<Event>, number: nat) {
    forall i :: 0 <= i < |trace| && trace[i].Converged? ==> trace[i].revision != number
  }

  /** How far the desired revision's first rollout has got. */
  predicate FirstTry(s: Service, trace: seq<Event>, job: Job, rev: Revision) {
    && StopsApart(trace, rev)
    && match job
       case AtStage(_, todo, _) =>
         && IsTail(rev.manifest, todo)
         && (if todo[0].gated then Reached(trace, rev, todo[0].step - 1)
             else StoppedStep(trace, rev, todo[0].step) && Reached(trace, rev, todo[0].step))
       case AtRecord(_, result, _) =>
         && Reached(trace, rev, result.step)
         && (result.failed || !result.ready ==> StoppedStep(trace, rev, result.step))
       case _ =>
         && Reached(trace, rev, s.rolloutStep)
         && (s.rolloutStep == 0 || StoppedStep(trace, rev, s.rolloutStep))
  }

  /** Only revisions of the history have been called or recorded. */
  predicate Known(trace: seq<Event>, n: nat) {
    forall i :: 0 <= i < |trace| ==>
      && (trace[i].Called? ==> trace[i].call.revision <= n)
      && (trace[i].Waited? || trace[i].Rejected? ==> trace[i].revision <= n)
  }

  predicate FirstTryOk(c: Config) {
    match c.svc
    case None => Known(c.trace, 0)
    case Some(s) =>
      && Known(c.trace, |s.history|)
      && 1 <= s.desired <= |s.history|
      && var rev := s.history[s.desired - 1];
      (rev.manifest.rollout.enabled && Unconverged(c.trace, rev.number) ==> FirstTry(s, c.trace, c.job, rev))
  }

  /** An event that says nothing of the revision's rollout. */
  predicate Neutral(e: Event, rev: Revision) {
    !Stopped(e, rev) && !Passes(e, rev)
  }

  lemma NeutralLog(trace: seq<Event>, e: Event, rev: Revision, p: int)
    requires Neutral(e, rev)
    ensures StopsApart(trace, rev) ==> StopsApart(trace + [e], rev)
    ensures Reached(trace, rev, p) ==> Reached(trace + [e], rev, p)
    ensures NotPassed(trace, rev, p) ==> NotPassed(trace + [e], rev, p)
  {
    if StopsApart(trace, rev) {
      forall i | 0 <= i < |trace + [e]| && Stopped((trace + [e])[i], rev)
        ensures (trace + [e])[i].step in Steps(rev.manifest) && NotPassed(trace + [e], rev, (trace + [e])[i].step)
      {
        assert (trace + [e])[i] == trace[i];
      }
    }
  }

  lemma UnconvergedLog(trace: seq<Event>, e: Event, number: nat)
    requires Unconverged(trace + [e], number)
    ensures Unconverged(trace, number) && !(e.Converged? && e.revision == number)
  {
    assert (trace + [e])[|trace|] == e;
    forall i | 0 <= i < |trace| && trace[i].Converged? ensures trace[i].revision != number {
      assert (trace + [e])[i] == trace[i];
    }
  }

  /** A call resumed after a recorded step starts beyond all that was passed or stopped at. */
  lemma PlanStartsBeyond(trace: seq<Event>, rev: Revision, from: int)
    requires Admissible(rev.manifest) && rev.manifest.rollout.enabled && Reached(trace, rev, from)
    requires from == 0 || StoppedStep(trace, rev, from)
    ensures var todo := Plan(rev.manifest, from);
            && IsTail(rev.manifest, todo)
            && (if todo[0].gated then Reached(trace, rev, todo[0].step - 1)
                else StoppedStep(trace, rev, todo[0].step) && Reached(trace, rev, todo[0].step))
  {
    PlanIsTail(rev.manifest, from);
    if from < Last(Steps(rev.manifest)) {
      FirstStage(rev.manifest, from);
      FirstAfterSplits(Steps(rev.manifest), from);
    }
  }

  lemma MarkKeepsFirstTry(c: Config)
    requires Lineage(c) && Joint(c) && FirstTryOk(c) && c.job.AtMark? && c.svc.Some?
    ensures FirstTryOk(MarkStep(c))
  {
    var AtMark(rev, from, _) := c.job;
    if rev.manifest.rollout.enabled && Unconverged(c.trace, rev.number) {
      PlanStartsBeyond(c.trace, rev, from);
    }
    Assembled(MarkStep(c));
  }

  /** A gated stage: the first event at its step. */
  lemma GatedStage(trace: seq<Event>, rev: Revision, stage: Stage, reply: Reply)
    requires stage.gated && StopsApart(trace, rev) && Reached(trace, rev, stage.step - 1)
    ensures var after := trace + [Called(Call(rev.number, stage, reply), false)];
            && StopsApart(after, rev) && Reached(after, rev, stage.step)
            && (!GoesOn(stage, rev.manifest.rollout.maxErrorRate, reply) ==> NotPassed(after, rev, stage.step))
  {
    var e := Called(Call(rev.number, stage, reply), false);
    var after := trace + [e];
    assert forall i :: 0 <= i < |trace| ==> after[i] == trace[i];
    assert after[|trace|] == e && !Stopped(e, rev);
    forall i | 0 <= i < |after| && Stopped(after[i], rev)
      ensures after[i].step in Steps(rev.manifest) && NotPassed(after, rev, after[i].step)
    {
      assert after[i] == trace[i];
    }
  }

  lemma StageKeepsFirstTry(c: Config, reply: Reply)
    requires Lineage(c) && Joint(c) && FirstTryOk(c) && c.job.AtStage? && c.svc.Some?
    ensures FirstTryOk(StageStep(c, reply))
  {
    var AtStage(rev, todo, _) := c.job;
    var e := Called(Call(rev.number, todo[0], reply), false);
    var d := StageStep(c, reply);
    StageLogs(c, reply);
    if rev.manifest.rollout.enabled && Unconverged(d.trace, rev.number) {
      UnconvergedLog(c.trace, e, rev.number);
      StageFirstTry(c, rev, reply);
    }
    KnownCall(c.trace, e, |c.svc.value.history|);
    Assembled(d);
  }

  lemma StageLogs(c: Config, reply: Reply)
    requires c.job.AtStage? && c.job.todo != []
    ensures var d := StageStep(c, reply);
            d.svc == c.svc && d.trace == c.trace + [Called(Call(c.job.rev.number, c.job.todo[0], reply), false)]
  {
  }

  lemma Assembled(c: Config)
    requires c.svc.Some? && Known(c.trace, |c.svc.value.history|) && 1 <= c.svc.value.desired <= |c.svc.value.history|
    requires var rev := c.svc.value.history[c.svc.value.desired - 1];
             rev.manifest.rollout.enabled && Unconverged(c.trace, rev.number) ==> FirstTry(c.svc.value, c.trace, c.job, rev)
    ensures FirstTryOk(c)
  {
  }

  lemma KnownCall(trace: seq<Event>, e: Event, n: nat)
    requires Known(trace, n) && e.Called? && e.call.revision <= n
    ensures Known(trace + [e], n)
  {
  }

  lemma StageFirstTry(c: Config, rev: Revision, reply: Reply)
    requires c.job.AtStage? && c.job.rev == rev && c.svc.Some? && Admissible(rev.manifest) && rev.manifest.rollout.enabled
    requires FirstTry(c.svc.value, c.trace, c.job, rev)
    ensures FirstTry(c.svc.value, StageStep(c, reply).trace, StageStep(c, reply).job, rev)
  {
    var todo := c.job.todo;
    if todo[0].gated {
      GatedStage(c.trace, rev, todo[0], reply);
      GatedStep(rev.manifest, todo);
    } else {
      NeutralLog(c.trace, Called(Call(rev.number, todo[0], reply), false), rev, todo[0].step);
    }
  }

  lemma GatedStep(m: Manifest, todo: seq<Stage>)
    requires Admissible(m) && m.rollout.enabled && IsTail(m, todo) && todo[0].gated
    ensures todo[0].step in Steps(m)
    ensures |todo| > 1 ==> IsTail(m, todo[1..]) && todo[1].gated && todo[0].step <= todo[1].step - 1
  {
    var n := |Steps(m)| - |todo|;
    assert todo[0] == StageAt(m, n) && Steps(m)[n] == todo[0].step;
    if |todo| > 1 {
      TailShrinks(m, todo);
      assert todo[1] == StageAt(m, n + 1);
    }
  }

  /** The record of an early return adds one stop. */
  lemma StopLog(trace: seq<Event>, e: Event, rev: Revision)
    requires Stopped(e, rev) && StopsApart(trace, rev) && Reached(trace, rev, e.step) && StoppedStep(trace, rev, e.step)
    ensures StopsApart(trace + [e], rev) && Reached(trace + [e], rev, e.step) && StoppedStep(trace + [e], rev, e.step)
  {
    var after := trace + [e];
    assert forall i :: 0 <= i < |trace| ==> after[i] == trace[i];
    forall i | 0 <= i < |after| && Stopped(after[i], rev)
      ensures after[i].step in Steps(rev.manifest) && NotPassed(after, rev, after[i].step)
    {
      if i < |trace| {
        assert after[i] == trace[i];
      }
    }
  }

  lemma KnownStop(trace: seq<Event>, e: Event, n: nat)
    requires Known(trace, n) && !e.Called? && (e.Waited? || e.Rejected? ==> e.revision <= n)
    ensures Known(trace + [e], n)
  {
  }

  lemma RecordKeepsFirstTry(c: Config)
    requires Lineage(c) && Joint(c) && FirstTryOk(c) && c.job.AtRecord? && c.svc.Some?
    ensures FirstTryOk(RecordStep(c))
  {
    var AtRecord(rev, result, _) := c.job;
    var d := RecordStep(c);
    RecordLogs(c);
    KnownStop(c.trace, RecordedEvent(rev, result), |c.svc.value.history|);
    if rev.manifest.rollout.enabled && Unconverged(d.trace, rev.number) {
      UnconvergedLog(c.trace, RecordedEvent(rev, result), rev.number);
      StopLog(c.trace, RecordedEvent(rev, result), rev);
    }
    Assembled(d);
  }

  lemma RestoreKeepsFirstTry(c: Config, reply: Reply)
    requires Lineage(c) && FirstTryOk(c) && c.job.AtRestore? && c.svc.Some?
    ensures FirstTryOk(RestoreStep(c, reply))
  {
    var s := c.svc.value;
    var rev := s.history[s.desired - 1];
    var d := RestoreStep(c, reply);
    var e := Called(Call(c.job.good.number, RestoreStage(c.job.good), reply), true);
    KnownCall(c.trace, e, |s.history|);
    if rev.manifest.rollout.enabled && Unconverged(d.trace, rev.number) {
      UnconvergedLog(c.trace, e, rev.number);
      NeutralTry(s, s, c.trace, e, c.job, d.job, rev);
    }
    Assembled(d);
  }

  /** A neutral event beside a job that is not in its rollout call, or that stays where it is. */
  lemma NeutralTry(s: Service, t: Service, trace: seq<Event>, e: Event, job: Job, next: Job, rev: Revision)
    requires FirstTry(s, trace, job, rev) && Neutral(e, rev) && t.rolloutStep == s.rolloutStep
    requires next == job || (!next.AtStage? && !next.AtRecord? && !job.AtStage? && !job.AtRecord?)
    ensures FirstTry(t, trace + [e], next, rev)
  {
    match job {
      case AtStage(_, todo, _) =>
        NeutralLog(trace, e, rev, todo[0].step);
        NeutralLog(trace, e, rev, todo[0].step - 1);
      case AtRecord(_, result, _) => NeutralLog(trace, e, rev, result.step);
      case _ => NeutralLog(trace, e, rev, s.rolloutStep);
    }
  }

  lemma {:induction false} LastConvergedIn(trace: seq<Event>)
    requires LastConverged(trace) != 0
    ensures !Unconverged(trace, LastConverged(trace))
    decreases |trace|
  {
    var e, before := trace[|trace| - 1], trace[..|trace| - 1];
    assert trace == before + [e];
    if !e.Converged? {
      LastConvergedIn(before);
      if Unconverged(trace, LastConverged(trace)) {
        UnconvergedLog(before, e, LastConverged(trace));
      }
    }
  }

  /** A restored revision has converged before. */
  lemma RestoreRecordKeepsFirstTry(c: Config)
    requires Lineage(c) && GoodIsEarned(c) && FirstTryOk(c) && c.job.AtRestoreRecord? && c.svc.Some?
    ensures FirstTryOk(RestoreRecordStep(c))
  {
    var good := c.job.good.number;
    LastConvergedIn(c.trace);
    var e := Restored(c.job.bad.number, good);
    if c.job.restored && Unconverged(c.trace + [e], good) {
      UnconvergedLog(c.trace, e, good);
    }
  }

  lemma FreshIsFirstTry(s: Service, trace: seq<Event>, job: Job, rev: Revision, n: nat)
    requires Known(trace, n) && rev.number > n && s.rolloutStep == 0 && !job.AtStage? && !job.AtRecord?
    ensures FirstTry(s, trace, job, rev)
  {
  }

  lemma KnownLog(trace: seq<Event>, e: Event, n: nat)
    requires Known(trace, n) && (e.Enabled? || e.Silenced?)
    ensures Known(trace + [e], n)
  {
  }

  lemma BystanderKeepsFirstTry(c: Config, d: Config)
    requires Lineage(d) && FirstTryOk(c) && Bystander(c, d)
    ensures FirstTryOk(d)
  {
    BystanderKeepsKnown(c, d);
    if d.svc.Some? {
      if FreshRevision(c.svc, d.svc.value) && !d.job.AtStage? && !d.job.AtRecord? {
        FreshBystander(c, d);
      } else {
        SameBystander(c, d);
      }
      Assembled(d);
    }
  }

  lemma FreshBystander(c: Config, d: Config)
    requires Lineage(d) && d.svc.Some? && FreshRevision(c.svc, d.svc.value) && !d.job.AtStage? && !d.job.AtRecord?
    requires Known(d.trace, if c.svc.Some? then |c.svc.value.history| else 0)
    ensures FirstTry(d.svc.value, d.trace, d.job, d.svc.value.history[d.svc.value.desired - 1])
  {
    var t := d.svc.value;
    FreshIsFirstTry(t, d.trace, d.job, t.history[t.desired - 1], if c.svc.Some? then |c.svc.value.history| else 0);
  }

  lemma SameBystander(c: Config, d: Config)
    requires FirstTryOk(c) && Bystander(c, d) && d.svc.Some? && !(FreshRevision(c.svc, d.svc.value) && !d.job.AtStage? && !d.job.AtRecord?)
    requires 1 <= d.svc.value.desired <= |d.svc.value.history|
    ensures var rev := d.svc.value.history[d.svc.value.desired - 1];
            rev.manifest.rollout.enabled && Unconverged(d.trace, rev.number) ==> FirstTry(d.svc.value, d.trace, d.job, rev)
  {
    var rev := d.svc.value.history[d.svc.value.desired - 1];
    if rev.manifest.rollout.enabled && Unconverged(d.trace, rev.number) {
      if d.trace != c.trace {
        SameTryLog(c, d, d.trace[|c.trace|]);
      }
    }
  }

  lemma BystanderKeepsKnown(c: Config, d: Config)
    requires FirstTryOk(c) && Bystander(c, d)
    ensures Known(d.trace, if c.svc.Some? then |c.svc.value.history| else 0)
    ensures Known(d.trace, if d.svc.Some? then |d.svc.value.history| else 0)
  {
    if d.trace != c.trace {
      KnownLog(c.trace, d.trace[|c.trace|], if c.svc.Some? then |c.svc.value.history| else 0);
    }
  }

  lemma SameTryLog(c: Config, d: Config, e: Event)
    requires FirstTryOk(c) && c.svc.Some? && d.svc.Some? && d.trace == c.trace + [e] && (e.Enabled? || e.Silenced?)
    requires var s, t := c.svc.value, d.svc.value;
             t.history == s.history && t.desired == s.desired && t.rolloutStep == s.rolloutStep
    requires d.job == c.job || (!d.job.AtStage? && !d.job.AtRecord? && !c.job.AtStage? && !c.job.AtRecord?)
    requires var rev := c.svc.value.history[c.svc.value.desired - 1];
             rev.manifest.rollout.enabled && Unconverged(d.trace, rev.number)
    ensures FirstTry(d.svc.value, d.trace, d.job, c.svc.value.history[c.svc.value.desired - 1])
  {
    var s := c.svc.value;
    var rev := s.history[s.desired - 1];
    UnconvergedLog(c.trace, e, rev.number);
    NeutralTry(s, d.svc.value, c.trace, e, c.job, d.job, rev);
  }

  lemma NextKeepsFirstTry(c: Config, l: Label)
    requires Lineage(c) && Joint(c) && GoodIsEarned(c) && FirstTryOk(c) && Orderly(c, l) && !l.Crash?
    ensures FirstTryOk(Next(c, l))
  {
    if l.Advance? && c.svc.Some? && Working(c.job) {
      match c.job {
        case AtMark(_, _, _) => MarkKeepsFirstTry(c);
        case AtStage(_, _, _) => StageKeepsFirstTry(c, l.reply);
        case AtRecord(_, _, _) => RecordKeepsFirstTry(c);
        case AtRestore(_, _) => RestoreKeepsFirstTry(c, l.reply);
        case AtRestoreRecord(_, _, _) => RestoreRecordKeepsFirstTry(c);
      }
    } else {
      NextKeepsLineage(c, l);
      OthersAreBystanders(c, l);
      BystanderKeepsFirstTry(c, Next(c, l));
    }
  }

  lemma {:induction false} FirstTryInEveryRun(name: string, leftovers: Contents, ls: seq<Label>)
    requires LockedOnly(Initial(name, leftovers), ls) && CrashFree(ls)
    ensures FirstTryOk(Run(Initial(name, leftovers), ls))
    decreases |ls|
  {
    if ls != [] {
      var before := ls[..|ls| - 1];
      FirstTryInEveryRun(name, leftovers, before);
      LineageInEveryRun(name, leftovers, before);
      JointInEveryLockedRun(name, leftovers, before);
      GoodIsEarnedInEveryRun(name, leftovers, before);
      NextKeepsFirstTry(Run(Initial(name, leftovers), before), ls[|ls| - 1]);
    }
  }

  // ---------- The guard, exactly ----------

  /** Each configured step of the revision either passed or stopped a call, and not both; and no
      call stopped anywhere else. */
  predicate EachStepPassedOrStopped(trace: seq<Event>, rev: Revision) {
    && (forall j :: 0 <= j < |Steps(rev.manifest)| ==>
          (PassedIn(trace, rev, Steps(rev.manifest)[j]) <==> !StoppedIn(trace, rev, Steps(rev.manifest)[j])))
    && (forall i :: 0 <= i < |trace| && Stopped(trace[i], rev) ==> trace[i].step in Steps(rev.manifest))
  }

  predicate EveryStepPassed(trace: seq<Event>, rev: Revision) {
    forall j :: 0 <= j < |Steps(rev.manifest)| ==> PassedIn(trace, rev, Steps(rev.manifest)[j])
  }

  predicate NeverStopped(trace: seq<Event>, rev: Revision) {
    forall i :: 0 <= i < |trace| ==> !Stopped(trace[i], rev)
  }

  lemma ApartAndCovered(trace: seq<Event>, rev: Revision)
    requires StopsApart(trace, rev) && CoveredFirst(trace, rev, |Steps(rev.manifest)|)
    ensures EachStepPassedOrStopped(trace, rev)
  {
    forall j | 0 <= j < |Steps(rev.manifest)|
      ensures PassedIn(trace, rev, Steps(rev.manifest)[j]) <==> !StoppedIn(trace, rev, Steps(rev.manifest)[j])
    {
      var p := Steps(rev.manifest)[j];
      assert Accounted(trace, rev, p);
      if StoppedIn(trace, rev, p) {
        var i :| 0 <= i < |trace| && StoppedAt(trace[i], rev, p);
        assert Stopped(trace[i], rev);
      }
    }
  }

  lemma ExactlyWhenNeverStopped(trace: seq<Event>, rev: Revision)
    requires EachStepPassedOrStopped(trace, rev)
    ensures EveryStepPassed(trace, rev) <==> NeverStopped(trace, rev)
  {
    if !NeverStopped(trace, rev) {
      var i :| 0 <= i < |trace| && Stopped(trace[i], rev);
      var j :| 0 <= j < |Steps(rev.manifest)| && Steps(rev.manifest)[j] == trace[i].step;
      assert StoppedIn(trace, rev, Steps(rev.manifest)[j]);
    } else {
      forall j | 0 <= j < |Steps(rev.manifest)| ensures PassedIn(trace, rev, Steps(rev.manifest)[j]) {
        assert !StoppedIn(trace, rev, Steps(rev.manifest)[j]);
      }
    }
  }

  lemma CoveredAtConvergence(name: string, leftovers: Contents, ls: seq<Label>, i: nat)
    requires LockedOnly(Initial(name, leftovers), ls)
    requires i < |Run(Initial(name, leftovers), ls).trace| && Run(Initial(name, leftovers), ls).trace[i].Converged?
    ensures var d := Run(Initial(name, leftovers), ls);
            && d.svc.Some? && 1 <= d.trace[i].revision <= |d.svc.value.history|
            && var rev := d.svc.value.history[d.trace[i].revision - 1];
            (rev.manifest.rollout.enabled ==> CoveredFirst(d.trace[..i], rev, |Steps(rev.manifest)|))
  {
    GuardInEveryLockedRun(name, leftovers, ls);
    GuardCovers(Run(Initial(name, leftovers), ls), i);
  }

  lemma ApartAtConvergence(name: string, leftovers: Contents, ls: seq<Label>, l: Label, c: Config, d: Config)
    requires LockedOnly(Initial(name, leftovers), ls) && CrashFree(ls)
    requires c == Run(Initial(name, leftovers), ls) && d == Next(c, l)
    requires |d.trace| == |c.trace| + 1 && d.trace == c.trace + [d.trace[|c.trace|]] && d.trace[|c.trace|].Converged?
    ensures c.svc.Some? && d.svc.Some? && d.svc.value.history == c.svc.value.history
    ensures 1 <= c.svc.value.desired <= |c.svc.value.history| && d.trace[|c.trace|].revision == c.svc.value.desired
    ensures var rev := c.svc.value.history[c.svc.value.desired - 1];
            rev.manifest.rollout.enabled && Unconverged(c.trace, rev.number) ==> StopsApart(c.trace, rev)
    ensures c.svc.value.history[c.svc.value.desired - 1].number == c.svc.value.desired
  {
    FirstTryInEveryRun(name, leftovers, ls);
    LineageInEveryRun(name, leftovers, ls);
    JointInEveryLockedRun(name, leftovers, ls);
    ConvergesAt(c, l);
  }

  lemma LastStepConverges(name: string, leftovers: Contents, ls: seq<Label>, i: nat)
    requires ls != [] && LockedOnly(Initial(name, leftovers), ls) && CrashFree(ls)
    requires var c, d := Run(Initial(name, leftovers), ls[..|ls| - 1]), Run(Initial(name, leftovers), ls);
             && i == |c.trace| < |d.trace| && d.trace == c.trace + [d.trace[i]]
             && d.trace[i].Converged? && Unconverged(c.trace, d.trace[i].revision)
    ensures ExactAt(Run(Initial(name, leftovers), ls), i)
  {
    var before := ls[..|ls| - 1];
    var c, d := Run(Initial(name, leftovers), before), Run(Initial(name, leftovers), ls);
    assert d.trace[..i] == c.trace;
    CoveredAtConvergence(name, leftovers, ls, i);
    ApartAtConvergence(name, leftovers, before, ls[|ls| - 1], c, d);
    ExactFrom(d, i);
  }

  /** The rollout guard, exactly. In a locked run without crashes, when a rollout-enabled revision
      converges for the first time, each of its steps either passed readiness and the threshold or
      is the step at which a call of it waited or failed, and never both. So every step passed if
      and only if no call of it waited or failed. */
  lemma {:induction false} FirstConvergenceExactly(name: string, leftovers: Contents, ls: seq<Label>, i: nat)
    requires LockedOnly(Initial(name, leftovers), ls) && CrashFree(ls)
    requires var trace := Run(Initial(name, leftovers), ls).trace;
             i < |trace| && trace[i].Converged? && Unconverged(trace[..i], trace[i].revision)
    ensures var c := Run(Initial(name, leftovers), ls);
            ExactAt(c, i)
    decreases |ls|
  {
    var before := ls[..|ls| - 1];
    var c, d := Run(Initial(name, leftovers), before), Run(Initial(name, leftovers), ls);
    NextLogsAtMostOne(c, ls[|ls| - 1]);
    NextExtendsHistory(c, ls[|ls| - 1]);
    if i < |c.trace| {
      assert c.trace[..i] == d.trace[..i];
      FirstConvergenceExactly(name, leftovers, before, i);
      ExactStays(c, d, i);
    } else {
      LastStepConverges(name, leftovers, ls, i);
    }
  }

  predicate ExactAt(c: Config, i: nat)
    requires i < |c.trace| && c.trace[i].Converged?
  {
    && c.svc.Some? && 1 <= c.trace[i].revision <= |c.svc.value.history|
    && var rev := c.svc.value.history[c.trace[i].revision - 1];
    (rev.manifest.rollout.enabled ==>
      && EachStepPassedOrStopped(c.trace[..i], rev)
      && (EveryStepPassed(c.trace[..i], rev) <==> NeverStopped(c.trace[..i], rev)))
  }

  lemma ExactStays(c: Config, d: Config, i: nat)
    requires i < |c.trace| && c.trace[i].Converged? && c.trace <= d.trace && ExactAt(c, i)
    requires d.svc.Some? && c.svc.value.history <= d.svc.value.history
    ensures ExactAt(d, i)
  {
    assert c.trace[..i] == d.trace[..i];
    assert d.svc.value.history[d.trace[i].revision - 1] == c.svc.value.history[d.trace[i].revision - 1];
  }

  lemma ExactFrom(d: Config, i: nat)
    requires i < |d.trace| && d.trace[i].Converged? && d.svc.Some?
    requires 1 <= d.trace[i].revision <= |d.svc.value.history|
    requires var rev := d.svc.value.history[d.trace[i].revision - 1];
             rev.manifest.rollout.enabled ==>
               StopsApart(d.trace[..i], rev) && CoveredFirst(d.trace[..i], rev, |Steps(rev.manifest)|)
    ensures ExactAt(d, i)
  {
    var rev := d.svc.value.history[d.trace[i].revision - 1];
    if rev.manifest.rollout.enabled {
      ApartAndCovered(d.trace[..i], rev);
      ExactlyWhenNeverStopped(d.trace[..i], rev);
    }
  }

  lemma GuardCovers(d: Config, i: nat)
    requires RolloutGuard(d) && i < |d.trace| && d.trace[i].Converged? && d.svc.Some?
    ensures 1 <= d.trace[i].revision <= |d.svc.value.history|
    ensures var rev := d.svc.value.history[d.trace[i].revision - 1];
            rev.manifest.rollout.enabled ==> CoveredFirst(d.trace[..i], rev, |Steps(rev.manifest)|)
  {
  }

  /** A convergence is logged for the desired revision, by a job at its record. */
  lemma ConvergesAt(c: Config, l: Label)
    requires Lineage(c) && Joint(c) && FirstTryOk(c) && Next(c, l).trace != c.trace
    requires Next(c, l).trace[|Next(c, l).trace| - 1].Converged? && Next(c, l).trace == c.trace + [Next(c, l).trace[|c.trace|]]
    ensures var d := Next(c, l);
            && c.svc.Some? && d.svc.Some? && d.svc.value.history == c.svc.value.history
            && d.trace[|c.trace|].revision == c.svc.value.desired
            && var rev := c.svc.value.history[c.svc.value.desired - 1];
            (rev.manifest.rollout.enabled && Unconverged(c.trace, rev.number) ==> StopsApart(c.trace, rev))
  {
  }
}
