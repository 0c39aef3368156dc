/** Runs in which an intended property fails, and what exactly goes wrong in them. */
module Witnesses {
  import opened Text
  import opened Manifests
  import opened Backends
  import opened Stores
  import opened ControlLoop
  import opened Safety
  import opened Convergence
  import opened Locked

  const HEALTHY := Accepted(true, 0.0, NoReader)

  /** One more label, with what it does. */
  lemma Extend(c: Config, ls: seq<Label>, l: Label) returns (longer: seq<Label>)
    ensures longer == ls + [l] && Run(c, longer) == Next(Run(c, ls), l)
    ensures LockedOnly(c, longer) <==> LockedOnly(c, ls) && (l.ApplyDesired? ==> Run(c, ls).job.Idle?)
  {
    longer := ls + [l];
    RunSnoc(c, ls, l);
    assert longer[..|longer| - 1] == ls;
  }

  /** A job that has just taken the lock, and whose plan is a single stage, makes its call. */
  lemma ToRecord(c0: Config, ls: seq<Label>, stage: Stage, reply: Reply) returns (longer: seq<Label>)
    requires var c := Run(c0, ls);
             && Lineage(c) && c.job.AtGet? && c.svc.Some? && !Halted(c)
             && Plan(c.svc.value.history[c.svc.value.desired - 1].manifest, c.svc.value.rolloutStep) == [stage]
    ensures LockedOnly(c0, longer) <==> LockedOnly(c0, ls)
    ensures var c := Run(c0, ls);
            var s := c.svc.value;
            var rev := s.history[s.desired - 1];
            Run(c0, longer) == Config(
              c.name, Some(MarkReconciling(s)), After(c.res, rev.number, stage.replicas, reply),
              AtRecord(rev, ResultOf(stage, rev.manifest.rollout.maxErrorRate, reply), s.phase.RolledBack?),
              c.trace + [Called(Call(rev.number, stage, reply), false)])
  {
    var c := Run(c0, ls);
    LookupNumbered(c.svc.value.history, c.svc.value.desired);
    longer := Extend(c0, ls, Advance(reply));
    longer := Extend(c0, longer, Advance(reply));
    longer := Extend(c0, longer, Advance(reply));
    ThreeSteps(c, stage, reply);
  }

  /** From the lock to the record of a single stage, in three steps. */
  lemma ThreeSteps(c: Config, stage: Stage, reply: Reply)
    requires Lineage(c) && c.job.AtGet? && c.svc.Some? && !Halted(c)
    requires Plan(c.svc.value.history[c.svc.value.desired - 1].manifest, c.svc.value.rolloutStep) == [stage]
    ensures var s := c.svc.value;
            var rev := s.history[s.desired - 1];
            Next(Next(Next(c, Advance(reply)), Advance(reply)), Advance(reply)) == Config(
              c.name, Some(MarkReconciling(s)), After(c.res, rev.number, stage.replicas, reply),
              AtRecord(rev, ResultOf(stage, rev.manifest.rollout.maxErrorRate, reply), s.phase.RolledBack?),
              c.trace + [Called(Call(rev.number, stage, reply), false)])
  {
    LookupNumbered(c.svc.value.history, c.svc.value.desired);
    var rev := c.svc.value.history[c.svc.value.desired - 1];
    var c1 := Next(c, Advance(reply));
    assert c1.job == AtMark(rev, c.svc.value.rolloutStep, c.svc.value.phase.RolledBack?);
    var c2 := Next(c1, Advance(reply));
    assert c2.job == AtStage(rev, [stage], c.svc.value.phase.RolledBack?);
  }

  // ---------- ApplyDesired overtaking a reconcile ----------

  /** A reconcile of revision 1 has read the record and is about to call the backend when
      ApplyDesired accepts revision 2. */
  lemma Overtaken(m1: Manifest, m2: Manifest) returns (ls: seq<Label>)
    requires Admissible(m1) && Admissible(m2) && m1.name == m2.name && m1 != m2
    ensures var c := Run(Initial(m1.name, map[]), ls);
            && c.res == map[] && c.trace == [Enabled, Enabled]
            && c.svc == Some(Service(m1.name, 2, 0, 0, 0, false, false, Pending, [], [Revision(1, m1), Revision(2, m2)]))
            && c.job == AtStage(Revision(1, m1), Plan(m1, 0), false)
  {
    ls := [Apply(m1), Advance(HEALTHY), Advance(HEALTHY), ApplyDesired(m2)];
    RunFour(Initial(m1.name, map[]), Apply(m1), Advance(HEALTHY), Advance(HEALTHY), ApplyDesired(m2));
    OvertakenSteps(m1, m2);
  }

  /** The first revision accepted, and its reconcile about to call the backend. */
  lemma FirstAccepted(m: Manifest)
    requires Admissible(m)
    ensures var c := Next(Next(Next(Initial(m.name, map[]), Apply(m)), Advance(HEALTHY)), Advance(HEALTHY));
            c == Config(m.name, Some(Service(m.name, 1, 0, 0, 0, false, false, Reconciling, [], [Revision(1, m)])), map[],
                        AtStage(Revision(1, m), Plan(m, 0), false), [Enabled])
  {
    var c1 := Next(Initial(m.name, map[]), Apply(m));
    var rev := Revision(1, m);
    assert [] + [rev] == [rev];
    var s := Service(m.name, 1, 0, 0, 0, false, false, Pending, [], [rev]);
    assert c1 == Config(m.name, Some(s), map[], AtGet, [] + [Enabled]);
    assert Lookup([rev], 1) == Some(rev);
    assert Next(c1, Advance(HEALTHY)) == c1.(job := AtMark(rev, 0, false));
  }

  lemma OvertakenSteps(m1: Manifest, m2: Manifest)
    requires Admissible(m1) && Admissible(m2) && m1.name == m2.name && m1 != m2
    ensures var c := Next(Next(Next(Next(Initial(m1.name, map[]), Apply(m1)), Advance(HEALTHY)), Advance(HEALTHY)), ApplyDesired(m2));
            && c.res == map[] && c.trace == [Enabled, Enabled]
            && c.svc == Some(Service(m1.name, 2, 0, 0, 0, false, false, Pending, [], [Revision(1, m1), Revision(2, m2)]))
            && c.job == AtStage(Revision(1, m1), Plan(m1, 0), false)
  {
    FirstAccepted(m1);
    var history := [Revision(1, m1)];
    assert Lookup(history, 1) == Some(Revision(1, m1));
    assert history + [Revision(2, m2)] == [Revision(1, m1), Revision(2, m2)];
    assert [Enabled] + [Enabled] == [Enabled, Enabled];
  }

  /** With ApplyDesired interleaved, the phase can be ready while the desired revision has
      never been tried. */
  lemma ReadyWithoutDesired(m1: Manifest, m2: Manifest) returns (ls: seq<Label>)
    requires Admissible(m1) && Admissible(m2) && m1.name == m2.name && m1 != m2 && !m1.rollout.enabled
    ensures var c := Run(Initial(m1.name, map[]), ls);
            && c.svc.Some? && c.svc.value.phase.Ready?
            && c.svc.value.desired == 2 && c.svc.value.active == c.svc.value.lastGood == 1
            && forall i :: 0 <= i < |c.trace| && c.trace[i].Called? ==> c.trace[i].call.revision == 1
  {
    var c0 := Initial(m1.name, map[]);
    ls := Overtaken(m1, m2);
    RunSnoc(c0, ls, Advance(HEALTHY));
    ls := ls + [Advance(HEALTHY)];
    RunSnoc(c0, ls, Advance(HEALTHY));
    ls := ls + [Advance(HEALTHY)];
  }

  /** The stage at each configured step of the rollout is among those planned. */
  predicate PlansEveryStep(m: Manifest, todo: seq<Stage>) {
    forall j :: 0 <= j < |Steps(m)| ==> StageAt(m, j) in todo
  }

  /** What the recorded step of an overtaken reconcile does to the revision that overtook it: the
      next reconcile resumes the new rollout after the old revision's step. It leaves a step of
      it out exactly when the new revision has a rollout whose first step is not beyond that. */
  lemma StaleStepResumesAfter(c: Config, reply: Reply)
    requires Lineage(c) && c.job.AtRecord? && c.svc.Some? && !Halted(c)
    requires c.svc.value.desired != c.job.rev.number && RecordStep(c).job.Idle?
    ensures var rev := c.svc.value.history[c.svc.value.desired - 1];
            var d := Run(c, [Advance(reply), Reconcile, Advance(reply), Advance(reply)]);
            && d.job.AtStage? && d.job.rev == rev && d.job.todo == Plan(rev.manifest, c.job.result.step)
            && (rev.manifest.rollout.enabled && !PlansEveryStep(rev.manifest, d.job.todo) <==>
                rev.manifest.rollout.enabled && c.job.result.step >= Steps(rev.manifest)[0])
  {
    var s := c.svc.value;
    var rev := s.history[s.desired - 1];
    var c1 := Next(c, Advance(reply));
    LookupNumbered(s.history, s.desired);
    assert c1.svc.value.history == s.history && c1.svc.value.desired == s.desired;
    NextPlan(c, Advance(reply), reply);
    if rev.manifest.rollout.enabled {
      PlansEveryStepExactly(rev.manifest, c.job.result.step);
    }
  }

  /** After a step that ends the job, a reconcile plans from what is recorded. */
  lemma NextPlan(c: Config, l: Label, reply: Reply)
    requires var c1 := Next(c, l);
             && c1.job.Idle? && c1.svc.Some? && !Halted(c1)
             && Lookup(c1.svc.value.history, c1.svc.value.desired).Some?
    ensures var c1 := Next(c, l);
            var rev := Lookup(c1.svc.value.history, c1.svc.value.desired).value;
            var d := Run(c, [l, Reconcile, Advance(reply), Advance(reply)]);
            d.job == AtStage(rev, Plan(rev.manifest, c1.svc.value.rolloutStep), c1.svc.value.phase.RolledBack?)
  {
    RunFour(c, l, Reconcile, Advance(reply), Advance(reply));
    var c2 := Next(Next(c, l), Reconcile);
    assert c2 == Next(c, l).(job := AtGet);
    assert Next(c2, Advance(reply)) == GetStep(c2);
  }

  /** A resumed rollout plans every step exactly when it starts before the first. */
  lemma PlansEveryStepExactly(m: Manifest, completed: int)
    requires Admissible(m) && m.rollout.enabled
    ensures PlansEveryStep(m, Plan(m, completed)) <==> completed < Steps(m)[0]
  {
    var todo := Plan(m, completed);
    FirstAfterSplits(Steps(m), completed);
    if completed < Last(Steps(m)) {
      StagesAreContiguous(m, completed, 0);
      assert Steps(m)[0..] == Steps(m);
    }
    if completed < Steps(m)[0] {
      assert FirstAfter(Steps(m), completed) == 0;
      assert forall j :: 0 <= j < |Steps(m)| ==> todo[j] == StageAt(m, j);
    } else {
      assert FirstAfter(Steps(m), completed) > 0;
      forall k | 0 <= k < |todo| ensures todo[k] != StageAt(m, 0) {
        if todo[k].gated {
          assert todo[k].step == Steps(m)[FirstAfter(Steps(m), completed) + k];
        }
      }
      assert StageAt(m, 0) !in todo;
    }
  }

  const ONE_STEP := Rollout(true, [100], 0.05)

  /** The reconcile of revision 1, overtaken by revision 2, records its step and converges. */
  lemma StaleStepRecorded(m1: Manifest, m2: Manifest) returns (ls: seq<Label>)
    requires Admissible(m1) && Admissible(m2) && m1.name == m2.name && m1 != m2 && m1.rollout == ONE_STEP
    ensures var c := Run(Initial(m1.name, map[]), ls);
            && c.job.Idle? && c.name == m1.name
            && c.svc == Some(Service(m1.name, 2, 1, 1, 100, false, false, Ready, GOLDEN_PATH,
                                     [Revision(1, m1), Revision(2, m2)]))
            && forall i :: 0 <= i < |c.trace| && c.trace[i].Called? ==> c.trace[i].call.revision == 1
  {
    var c0 := Initial(m1.name, map[]);
    ls := Overtaken(m1, m2);
    assert Plan(m1, 0) == [Stage(100, RolloutReplicas(m1.replicas, 100), true)] by {
      assert Steps(m1)[1..] == [];
      assert StagesAfter(m1, Steps(m1)[1..], 0) == [];
    }
    ls := Extend(c0, ls, Advance(HEALTHY));
    ls := Extend(c0, ls, Advance(HEALTHY));
    LineageInEveryRun(m1.name, map[], ls);
  }

  /** With ApplyDesired interleaved, the step that revision 1 reached is recorded on revision 2,
      whose own rollout is then skipped: it converges in one full-scale Ensure without a gate. */
  lemma StaleStepSkipsRollout(m1: Manifest, m2: Manifest) returns (ls: seq<Label>)
    requires Admissible(m1) && Admissible(m2) && m1.name == m2.name && m1 != m2
    requires m1.rollout == m2.rollout == ONE_STEP
    ensures var c := Run(Initial(m1.name, map[]), ls);
            && c.svc.Some? && c.svc.value.desired == c.svc.value.lastGood == 2 && c.svc.value.phase.Ready?
            && |c.trace| >= 2 && c.trace[|c.trace| - 1] == Converged(2)
            && c.trace[|c.trace| - 2] == Called(Call(2, Stage(100, m2.replicas, false), HEALTHY), false)
            && forall i :: 0 <= i < |c.trace| - 2 && c.trace[i].Called? ==> c.trace[i].call.revision == 1
  {
    var c0 := Initial(m1.name, map[]);
    ls := StaleStepRecorded(m1, m2);
    ls := Extend(c0, ls, Reconcile);
    LineageInEveryRun(m1.name, map[], ls);
    assert Plan(m2, 100) == [Stage(100, m2.replicas, false)];
    ls := ToRecord(c0, ls, Stage(100, m2.replicas, false), HEALTHY);
    ls := Extend(c0, ls, Advance(HEALTHY));
  }

  /** Revision 1 has converged, revision 2 has failed, and the restore of revision 1 has been
      accepted but not yet recorded. Nothing is interleaved so far. */
  lemma Restoring(m1: Manifest, m2: Manifest) returns (ls: seq<Label>)
    requires Admissible(m1) && Admissible(m2) && m1.name == m2.name && m1 != m2
    requires !m1.rollout.enabled && !m2.rollout.enabled
    ensures LockedOnly(Initial(m1.name, map[]), ls)
    ensures var c := Run(Initial(m1.name, map[]), ls);
            && c.name == m1.name && c.svc.Some? && !Halted(c)
            && c.svc.value.history == [Revision(1, m1), Revision(2, m2)]
            && c.svc.value.desired == 2 && c.svc.value.lastGood == 1
            && c.job == AtRestoreRecord(Revision(2, m2), Revision(1, m1), true)
  {
    ls := FirstConverged(m1);
    ls := SecondFailed(m1, m2, ls);
  }

  lemma FirstConverged(m1: Manifest) returns (ls: seq<Label>)
    requires Admissible(m1) && !m1.rollout.enabled
    ensures LockedOnly(Initial(m1.name, map[]), ls)
    ensures var c := Run(Initial(m1.name, map[]), ls);
            c.svc == Some(Service(m1.name, 1, 1, 1, 0, false, false, Ready, GOLDEN_PATH, [Revision(1, m1)])) && c.job.Idle?
  {
    var c0 := Initial(m1.name, map[]);
    ls := Extend(c0, [], Apply(m1));
    assert Run(c0, []) == c0;
    assert Run(c0, ls).svc.value.history == [Revision(1, m1)];
    ls := ToRecord(c0, ls, Stage(0, m1.replicas, false), HEALTHY);
    ls := Extend(c0, ls, Advance(HEALTHY));
  }

  lemma SecondFailed(m1: Manifest, m2: Manifest, before: seq<Label>) returns (ls: seq<Label>)
    requires Admissible(m1) && Admissible(m2) && m1.name == m2.name && m1 != m2 && !m2.rollout.enabled
    requires LockedOnly(Initial(m1.name, map[]), before)
    requires var c := Run(Initial(m1.name, map[]), before);
             c.svc == Some(Service(m1.name, 1, 1, 1, 0, false, false, Ready, GOLDEN_PATH, [Revision(1, m1)])) && c.job.Idle?
    ensures LockedOnly(Initial(m1.name, map[]), ls)
    ensures var c := Run(Initial(m1.name, map[]), ls);
            && c.name == m1.name && c.svc.Some? && !Halted(c)
            && c.svc.value.history == [Revision(1, m1), Revision(2, m2)]
            && c.svc.value.desired == 2 && c.svc.value.lastGood == 1
            && c.job == AtRestoreRecord(Revision(2, m2), Revision(1, m1), true)
  {
    var c0 := Initial(m1.name, map[]);
    var history := [Revision(1, m1), Revision(2, m2)];
    LineageInEveryRun(m1.name, map[], before);
    ls := Extend(c0, before, Apply(m2));
    assert [Revision(1, m1)] + [Revision(2, m2)] == history;
    assert Run(c0, ls).svc.value.history == history;
    LineageInEveryRun(m1.name, map[], ls);
    LookupNumbered(history, 1);
    ls := ToRecord(c0, ls, Stage(0, m2.replicas, false), Refused(None));
    ls := Extend(c0, ls, Advance(HEALTHY));
    ls := Extend(c0, ls, Advance(HEALTHY));
  }

  /** With ApplyDesired interleaved, a revision accepted while another one is failing is
      overwritten by the restore without ever having been tried. */
  lemma AcceptedRevisionOverwritten(m1: Manifest, m2: Manifest, m3: Manifest) returns (ls: seq<Label>)
    requires Admissible(m1) && Admissible(m2) && Admissible(m3)
    requires m1.name == m2.name == m3.name && m1 != m2 && m3 != m2
    requires !m1.rollout.enabled && !m2.rollout.enabled
    ensures var c := Run(Initial(m1.name, map[]), ls);
            && c.svc.Some? && c.svc.value.history == [Revision(1, m1), Revision(2, m2), Revision(3, m3)]
            && c.svc.value.desired == 1 && c.job.Idle?
            && forall i :: 0 <= i < |c.trace| && c.trace[i].Called? ==> c.trace[i].call.revision != 3
  {
    var c0 := Initial(m1.name, map[]);
    ls := Restoring(m1, m2);
    OvertakenInEveryRun(m1.name, map[], ls);
    var c := Run(c0, ls);
    LookupNumbered(c.svc.value.history, 2);
    ls := Extend(c0, ls, ApplyDesired(m3));
    assert Run(c0, ls).svc.value.history == [Revision(1, m1), Revision(2, m2), Revision(3, m3)];
    ls := Extend(c0, ls, Advance(HEALTHY));
  }

  // ---------- The rollout guard ----------

  /** A first revision with the default steps, under an error rate that always exceeds its
      threshold: four reconciles, with nothing interleaved, end in ready. */
  lemma FourReconcilesDefeatTheGuard(m: Manifest, oracle: Oracle, tick: nat)
    requires Admissible(m) && m.rollout.enabled && m.rollout.steps == [] && OverThreshold(oracle, m)
    ensures var c := Run(Initial(m.name, map[]), [ApplyDesired(m)]);
            var d := ReconciledTimes(c, oracle, tick, 4).0;
            d.svc.Some? && d.svc.value.phase.Ready? && d.svc.value.lastGood == 1
  {
    var c0 := Initial(m.name, map[]);
    RunOne(c0, ApplyDesired(m));
    var c := Next(c0, ApplyDesired(m));
    assert c.svc.value.history == [Revision(1, m)];
    assert FirstRollout(c) && DesiredManifest(c) == m;
    assert Remaining(m, 0) == 3;
    OverThresholdRolloutStillConverges(c, oracle, tick);
  }

  /** With the Fake backend: an image that says error, over a threshold below one half. Four
      reconciles end in ready. */
  lemma FakeDefeatsTheGuard(m: Manifest, tick: nat)
    requires Admissible(m) && m.rollout.enabled && m.rollout.steps == [] && m.rollout.maxErrorRate < 0.5
    requires Contains(Lower(m.image), "error") && !FailingImage(m.image)
    ensures var c := Run(Initial(m.name, map[]), [ApplyDesired(m)]);
            var d := ReconciledTimes(c, FakeOracle(t => false), tick, 4).0;
            d.svc.Some? && d.svc.value.phase.Ready? && d.svc.value.lastGood == 1
  {
    FakeIsOverThreshold(t => false, m);
    FourReconcilesDefeatTheGuard(m, FakeOracle(t => false), tick);
  }

  /** Such an image. */
  lemma ErrorImageIsServed(m: Manifest)
    requires m.image == "error"
    ensures Contains(Lower(m.image), "error") && !FailingImage(m.image)
  {
    assert Lower(m.image) == "error";
    assert PartAt("error", "error", 0);
    NotWithin("error", "bad");
    NotWithin("error", "fail");
  }

  lemma NotWithin(s: string, part: string)
    requires part != "" && part[0] !in s
    ensures !Contains(s, part)
  {
    if Contains(s, part) {
      var i :| 0 <= i <= |s| && PartAt(s, part, i);
      PartStarts(s, part, i);
      assert false;
    }
  }

  lemma PartStarts(s: string, part: string, i: nat)
    requires PartAt(s, part, i) && part != ""
    ensures part[0] in s
  {
    assert s[i..i + |part|][0] == s[i];
  }

  // ---------- Restores and crashes ----------

  /** After a restore, the next resync starts the restored revision's rollout again: it scales
      the good revision down exactly when that revision has a rollout whose first step asks
      for fewer replicas than the manifest. */
  lemma RestoreThenResyncScalesDown(c: Config, reply: Reply)
    requires Lineage(c) && c.job.AtRestoreRecord? && c.job.restored && c.svc.Some?
    requires !Halted(c)
    ensures var good := c.job.good;
            var d := Run(c, [Advance(reply), Reconcile, Advance(reply), Advance(reply)]);
            && d.job == AtStage(good, Plan(good.manifest, 0), true) && d.job.todo != []
            && (d.job.todo[0].replicas < good.manifest.replicas <==>
                && good.manifest.rollout.enabled
                && RolloutReplicas(good.manifest.replicas, Steps(good.manifest)[0]) < good.manifest.replicas)
  {
    var good := c.job.good;
    var m := good.manifest;
    var c1 := Next(c, Advance(reply));
    LookupNumbered(c1.svc.value.history, good.number);
    NextPlan(c, Advance(reply), reply);
    PlanNonEmpty(m, 0);
    if m.rollout.enabled {
      assert Steps(m)[0] >= 1;
      assert Last(Steps(m)) >= 1;
      PlanStartsAt(m, 0);
    }
  }

  /** A restore is recorded as done whenever the backend accepts it, ready or not. */
  lemma RestoreIgnoresReadiness(c: Config, ownRate: real, reading: Reading, reply: Reply)
    requires Lineage(c) && c.job.AtRestore? && c.svc.Some?
    ensures var d := Run(c, [Advance(Accepted(false, ownRate, reading)), Advance(reply)]);
            d.svc.Some? && d.svc.value.phase.RolledBack? && d.svc.value.desired == c.job.good.number
  {
    var l := Advance(Accepted(false, ownRate, reading));
    RunOne(c, l);
    RunSnoc(c, [l], Advance(reply));
    assert [l] + [Advance(reply)] == [l, Advance(reply)];
  }

  /** A crash forgets the stages of the call in flight: the next reconcile plans again from the
      recorded step, however far the rollout had got, so the scale can go back. */
  lemma CrashForgetsProgress(c: Config, reply: Reply)
    requires Lineage(c) && c.svc.Some? && !Halted(c)
    ensures var s := c.svc.value;
            var d := Run(c, [Crash, Reconcile, Advance(reply), Advance(reply)]);
            d.job.AtStage? && d.job.todo == Plan(s.history[s.desired - 1].manifest, s.rolloutStep)
  {
    LookupNumbered(c.svc.value.history, c.svc.value.desired);
    NextPlan(c, Crash, reply);
  }

  /** So a crash can make one step of a revision both pass and, the second time, stop its rollout:
      in runs with crashes the two do not exclude each other. */
  lemma PassedAndStopped(c: Config, pass: Reply, wait: Reply)
    requires Lineage(c) && c.svc.Some? && !Halted(c) && c.job.AtStage? && c.job.rev.number == c.svc.value.desired
    requires c.job.todo == Plan(c.job.rev.manifest, c.svc.value.rolloutStep) && c.job.todo[0].gated
    requires GoesOn(c.job.todo[0], c.job.rev.manifest.rollout.maxErrorRate, pass)
    requires wait.Accepted? && !wait.ready
    ensures var rev, p := c.job.rev, c.job.todo[0].step;
            var back := Run(Next(c, Advance(pass)), [Crash, Reconcile, Advance(wait), Advance(wait)]);
            var d := Run(back, [Advance(wait), Advance(wait)]);
            && |d.trace| == |c.trace| + 3
            && PassedAt(d.trace[|c.trace|], rev, p) && StoppedAt(d.trace[|c.trace| + 2], rev, p)
  {
    LookupNumbered(c.svc.value.history, c.svc.value.desired);
    StageLogged(c, pass);
    var c1 := Next(c, Advance(pass));
    NextPlan(c1, Crash, wait);
    AgainTraces(c1, wait);
    StageWaits(Run(c1, [Crash, Reconcile, Advance(wait), Advance(wait)]), wait);
  }

  lemma StageLogged(c: Config, reply: Reply)
    requires c.job.AtStage? && c.job.todo != []
    ensures var d := Next(c, Advance(reply));
            d.svc == c.svc && d.name == c.name && d.trace == c.trace + [Called(Call(c.job.rev.number, c.job.todo[0], reply), false)]
  {
  }

  lemma StageWaits(c: Config, wait: Reply)
    requires c.svc.Some? && c.job.AtStage? && c.job.todo != []
    requires wait.Accepted? && !wait.ready
    ensures var rev, stage := c.job.rev, c.job.todo[0];
            Run(c, [Advance(wait), Advance(wait)]).trace
            == c.trace + [Called(Call(rev.number, stage, wait), false), Waited(rev.number, stage.step)]
  {
    RunOne(c, Advance(wait));
    RunSnoc(c, [Advance(wait)], Advance(wait));
    assert [Advance(wait)] + [Advance(wait)] == [Advance(wait), Advance(wait)];
    StageLogged(c, wait);
  }

  /** The way back to the stages logs nothing. */
  lemma AgainTraces(c: Config, reply: Reply)
    requires c.svc.Some? && !Halted(c) && Lookup(c.svc.value.history, c.svc.value.desired).Some?
    ensures var d := Run(c, [Crash, Reconcile, Advance(reply), Advance(reply)]);
            d.trace == c.trace && d.svc == Some(MarkReconciling(c.svc.value))
  {
    RunFour(c, Crash, Reconcile, Advance(reply), Advance(reply));
    AgainSteps(c, reply);
  }

  lemma AgainSteps(c: Config, reply: Reply)
    requires c.svc.Some? && !Halted(c) && Lookup(c.svc.value.history, c.svc.value.desired).Some?
    ensures var d := Next(Next(Next(Next(c, Crash), Reconcile), Advance(reply)), Advance(reply));
            d.trace == c.trace && d.svc == Some(MarkReconciling(c.svc.value))
  {
    var c1 := Next(Next(c, Crash), Reconcile);
    assert c1 == c.(job := AtGet);
    assert Next(c1, Advance(reply)) == GetStep(c1);
  }

  lemma RunFour(c: Config, k: Label, l: Label, m: Label, n: Label)
    ensures Run(c, [k, l, m, n]) == Next(Next(Next(Next(c, k), l), m), n)
  {
    RunOne(c, k);
    RunSnoc(c, [k], l);
    assert [k] + [l] == [k, l];
    RunSnoc(c, [k, l], m);
    assert [k, l] + [m] == [k, l, m];
    RunSnoc(c, [k, l, m], n);
    assert [k, l, m] + [n] == [k, l, m, n];
  }
}
