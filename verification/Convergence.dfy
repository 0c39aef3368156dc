/** One whole reconcile as a function, and what repeated reconciles reach. */
module Convergence {
  import opened Text
  import opened Manifests
  import opened Backends
  import opened Stores
  import opened ControlLoop
  import opened Safety

  // ---------- Running a job to its end ----------

  function Rank(job: Job): nat {
    match job
    case Idle => 0
    case AtForget => 1
    case AtRestoreRecord(_, _, _) => 1
    case AtRestore(_, _) => 2
    case AtRecord(_, _, _) => 3
    case AtStage(_, todo, _) => 3 + |todo|
    case AtMark(rev, from, _) => 4 + |Plan(rev.manifest, from)|
    case AtGet => 0
  }

  /** The manifest the job's next backend call hands over, if it is at one. */
  function NextCall(job: Job): Option<Manifest> {
    match job
    case AtStage(rev, todo, _) => if todo != [] then Some(Staged(rev.manifest, todo[0])) else None
    case AtRestore(_, good) => Some(good.manifest)
    case _ => None
  }

  /** Advance the job in flight to its end, the backend answering through its oracle. Returns
      the final configuration and the number of Ensures answered. */
  function Finish(c: Config, oracle: Oracle, tick: nat): (Config, nat)
    decreases if c.job.AtGet? then 1 else 0, Rank(c.job)
  {
    if c.job.Idle? then (c, tick)
    else
      match NextCall(c.job)
      case None => Finish(Advanced(c, Refused(None)), oracle, tick)
      case Some(m) => Finish(Advanced(c, oracle(tick, m)), oracle, tick + 1)
  }

  /** The whole job is one of the machine's runs, without interruption. */
  lemma {:induction false} FinishIsARun(c: Config, oracle: Oracle, tick: nat) returns (ls: seq<Label>)
    ensures Run(c, ls) == Finish(c, oracle, tick).0
    ensures forall i :: 0 <= i < |ls| ==> ls[i].Advance?
    decreases if c.job.AtGet? then 1 else 0, Rank(c.job)
  {
    if c.job.Idle? {
      return [];
    }
    var reply := if NextCall(c.job).Some? then oracle(tick, NextCall(c.job).value) else Refused(None);
    var rest := FinishIsARun(Advanced(c, reply), oracle, if NextCall(c.job).Some? then tick + 1 else tick);
    RunConcat(c, [Advance(reply)], rest);
    RunOne(c, Advance(reply));
    ls := [Advance(reply)] + rest;
  }

  /** A reconcile of the service, started with no job in flight. */
  function Reconciled(c: Config, oracle: Oracle, tick: nat): (Config, nat) {
    Finish(c.(job := AtGet), oracle, tick)
  }

  // ---------- A healthy backend ----------

  /** Whatever stage of the manifest it is asked for, the backend accepts it and is ready, and
      where the manifest has a rollout the error rate is within its threshold. */
  ghost predicate Healthy(oracle: Oracle, m: Manifest) {
    forall t: nat, stage: Stage :: HealthyReply(m, oracle(t, Staged(m, stage)))
  }

  predicate HealthyReply(m: Manifest, reply: Reply) {
    && reply.Accepted? && reply.ready
    && (m.rollout.enabled ==> JudgedRate(reply).Some? && JudgedRate(reply).value <= m.rollout.maxErrorRate)
  }

  /** The Fake backend is healthy for exactly the manifests whose image does not fail, and whose
      rollout, where there is one, tolerates the rate it makes up, as long as nothing is cancelled. */
  lemma FakeIsHealthy(cancelled: nat -> bool, m: Manifest)
    ensures Healthy(FakeOracle(cancelled), m) <==>
              && (forall t: nat :: !cancelled(t))
              && !Contains(Lower(m.image), "bad") && !Contains(Lower(m.image), "fail")
              && (m.rollout.enabled ==> (if Contains(Lower(m.image), "error") then 0.5 else 0.0) <= m.rollout.maxErrorRate)
  {
    var oracle := FakeOracle(cancelled);
    var some := Stage(0, 0, false);
    forall t: nat, stage: Stage
      ensures oracle(t, Staged(m, stage)) == FakeReply(cancelled(t), m)
    {
    }
    if Healthy(oracle, m) {
      forall t: nat ensures !cancelled(t) && HealthyReply(m, FakeReply(cancelled(t), m)) {
        assert HealthyReply(m, oracle(t, Staged(m, some)));
      }
      assert HealthyReply(m, FakeReply(cancelled(0), m));
    }
  }

  /** The last stage of the next rollout call: where a call that is not stopped ends. */
  function FinalStage(m: Manifest, completed: int): Stage {
    PlanNonEmpty(m, completed);
    Plan(m, completed)[|Plan(m, completed)| - 1]
  }

  /** Only a manifest with a rollout has gated stages. */
  predicate WellGated(m: Manifest, todo: seq<Stage>) {
    todo != [] && forall i :: 0 <= i < |todo| && todo[i].gated ==> m.rollout.enabled
  }

  lemma {:induction false} HealthyStagesConverge(c: Config, oracle: Oracle, tick: nat)
    requires c.job.AtStage? && WellGated(c.job.rev.manifest, c.job.todo) && c.svc.Some? && Healthy(oracle, c.job.rev.manifest)
    ensures var AtStage(rev, todo, was) := c.job;
            var d := Finish(c, oracle, tick).0;
            var last := todo[|todo| - 1];
            && d.job.Idle? && d.name == c.name
            && d.svc == Some(RecordConverged(c.svc.value, rev.number, last.step, was))
            && d.res == Golden(rev.number, last.replicas)
    decreases |c.job.todo|
  {
    var AtStage(rev, todo, was) := c.job;
    var reply := oracle(tick, Staged(rev.manifest, todo[0]));
    assert HealthyReply(rev.manifest, reply);
    var d := Advanced(c, reply);
    assert Finish(c, oracle, tick) == Finish(d, oracle, tick + 1);
    if |todo| > 1 {
      HealthyStagesConverge(d, oracle, tick + 1);
    } else {
      assert NextCall(d.job).None?;
      assert Finish(d, oracle, tick + 1) == Finish(Advanced(d, Refused(None)), oracle, tick + 1);
    }
  }

  /** d is c with its desired revision converged at the scale of the last stage. */
  predicate ConvergedFrom(c: Config, d: Config) {
    && Lineage(c.(job := AtGet)) && c.svc.Some?
    && var s := c.svc.value;
    var last := FinalStage(s.history[s.desired - 1].manifest, s.rolloutStep);
    && d.job.Idle? && d.name == c.name
    && d.svc == Some(RecordConverged(s, s.desired, last.step, s.phase.RolledBack?))
    && d.res == Golden(s.desired, last.replicas)
  }

  /** The manifest of the desired revision. */
  function DesiredManifest(c: Config): Manifest
    requires Lineage(c) && c.svc.Some?
  {
    c.svc.value.history[c.svc.value.desired - 1].manifest
  }

  /** A reconcile of the service that has come to its stages. */
  function AtStages(c: Config): Config
    requires Lineage(c.(job := AtGet)) && c.svc.Some?
  {
    var s := c.svc.value;
    var rev := s.history[s.desired - 1];
    c.(svc := Some(MarkReconciling(s)), job := AtStage(rev, Plan(rev.manifest, s.rolloutStep), s.phase.RolledBack?))
  }

  lemma ReachesStages(c: Config, oracle: Oracle, tick: nat)
    requires Lineage(c.(job := AtGet)) && c.svc.Some? && !Halted(c)
    ensures Reconciled(c, oracle, tick) == Finish(AtStages(c), oracle, tick)
  {
    var s := c.svc.value;
    var c0 := c.(job := AtGet);
    LookupNumbered(s.history, s.desired);
    var c1 := Advanced(c0, Refused(None));
    assert c1.job == AtMark(s.history[s.desired - 1], s.rolloutStep, s.phase.RolledBack?);
    assert Advanced(c1, Refused(None)) == AtStages(c);
    assert Finish(c0, oracle, tick) == Finish(c1, oracle, tick) == Finish(AtStages(c), oracle, tick);
  }

  /** A stage that ends the call, and the record of it where that ends the job. */
  lemma LastStageAndRecord(c: Config, oracle: Oracle, tick: nat, result: RolloutResult)
    requires c.job.AtStage? && c.job.todo != [] && c.svc.Some?
    requires var reply := oracle(tick, Staged(c.job.rev.manifest, c.job.todo[0]));
             StageStep(c, reply).job == AtRecord(c.job.rev, result, c.job.wasRolledBack)
    requires c.svc.value.lastGood == 0 || !result.failed
    ensures var reply := oracle(tick, Staged(c.job.rev.manifest, c.job.todo[0]));
            Finish(c, oracle, tick) == (RecordStep(StageStep(c, reply)), tick + 1)
  {
    var reply := oracle(tick, Staged(c.job.rev.manifest, c.job.todo[0]));
    var d := StageStep(c, reply);
    StageFinish(c, oracle, tick);
    StageKeepsRecord(c, reply);
    RecordFinish(d, oracle, tick + 1);
  }

  lemma StageFinish(c: Config, oracle: Oracle, tick: nat)
    requires c.job.AtStage? && c.job.todo != []
    ensures var reply := oracle(tick, Staged(c.job.rev.manifest, c.job.todo[0]));
            Finish(c, oracle, tick) == Finish(StageStep(c, reply), oracle, tick + 1)
  {
    assert Advanced(c, oracle(tick, Staged(c.job.rev.manifest, c.job.todo[0])))
        == StageStep(c, oracle(tick, Staged(c.job.rev.manifest, c.job.todo[0])));
  }

  lemma StageKeepsRecord(c: Config, reply: Reply)
    requires c.job.AtStage? && c.job.todo != []
    ensures StageStep(c, reply).svc == c.svc
  {
  }

  lemma RecordFinish(c: Config, oracle: Oracle, tick: nat)
    requires c.job.AtRecord? && c.svc.Some? && (c.svc.value.lastGood == 0 || !c.job.result.failed)
    ensures Finish(c, oracle, tick) == (RecordStep(c), tick)
  {
    var d := RecordStep(c);
    assert d.job.Idle? && Advanced(c, Refused(None)) == d;
    assert Finish(c, oracle, tick) == Finish(d, oracle, tick);
  }

  /** One reconcile against a backend that is healthy for the desired manifest, from any record
      with a sound lineage and any backend contents: the desired revision is active and last known good, and the backend
      holds exactly its golden path, at the scale of the last stage. */
  lemma OneReconcileConverges(c: Config, oracle: Oracle, tick: nat)
    requires Lineage(c.(job := AtGet)) && c.svc.Some? && !Halted(c)
    requires Healthy(oracle, DesiredManifest(c.(job := AtGet)))
    ensures ConvergedFrom(c, Reconciled(c, oracle, tick).0)
  {
    ReachesStages(c, oracle, tick);
    PlanNonEmpty(DesiredManifest(c.(job := AtGet)), c.svc.value.rolloutStep);
    HealthyStagesConverge(AtStages(c), oracle, tick);
  }

  lemma FinalStageOf(m: Manifest, completed: int)
    requires Admissible(m)
    ensures var last := FinalStage(m, completed);
            if m.rollout.enabled && completed < Last(Steps(m)) then
              last == Stage(Last(Steps(m)), RolloutReplicas(m.replicas, Last(Steps(m))), true)
            else last == Stage(if m.rollout.enabled then completed else 0, m.replicas, false)
  {
    PlanNonEmpty(m, completed);
    if m.rollout.enabled && completed < Last(Steps(m)) {
      StagesAreContiguous(m, completed, 0);
      assert Steps(m)[0..] == Steps(m);
      assert FinalStage(m, completed) == StageAt(m, |Steps(m)| - 1);
    }
  }

  lemma FinalStageAgain(m: Manifest, completed: int)
    requires Admissible(m)
    ensures var last := FinalStage(m, completed);
            FinalStage(m, last.step) == Stage(last.step, m.replicas, false)
  {
    FinalStageOf(m, completed);
    FinalStageOf(m, FinalStage(m, completed).step);
  }

  lemma GoldenInjective(revision: nat, x: int, y: int)
    ensures Golden(revision, x) == Golden(revision, y) <==> x == y
  {
    assert GOLDEN_PATH[0] in Golden(revision, x) && Golden(revision, x)[GOLDEN_PATH[0]].replicas == x;
    assert Golden(revision, y)[GOLDEN_PATH[0]].replicas == y;
  }

  /** What three reconciles in a row make of the configuration c. */
  predicate ReachesFixedPoint(c: Config, d1: Config, d2: Config, d3: Config)
    requires Lineage(c) && c.svc.Some?
  {
    var s := c.svc.value;
    var m := s.history[s.desired - 1].manifest;
    && d1.svc.Some?
    && var s1 := d1.svc.value;
    && s1.desired == s1.active == s1.lastGood == s.desired && s1.history == s.history
    && s1.phase == (if s.phase.RolledBack? then RolledBack else Ready)
    && d1.res == Golden(s.desired, FinalStage(m, s.rolloutStep).replicas)
    && d2.svc == d1.svc && d2.res == Golden(s.desired, m.replicas)
    && d3.svc == d2.svc && d3.res == d2.res
    && (d1.res == d2.res <==>
        || !m.rollout.enabled || s.rolloutStep >= Last(Steps(m))
        || RolloutReplicas(m.replicas, Last(Steps(m))) == m.replicas)
  }

  lemma ConvergedTwiceIsFixed(c: Config, d1: Config, d2: Config, d3: Config)
    requires Lineage(c) && c.svc.Some?
    requires ConvergedFrom(c, d1) && ConvergedFrom(d1, d2) && ConvergedFrom(d2, d3)
    ensures ReachesFixedPoint(c, d1, d2, d3)
  {
    var s := c.svc.value;
    var m := s.history[s.desired - 1].manifest;
    FinalStageOf(m, s.rolloutStep);
    FinalStageAgain(m, s.rolloutStep);
    GoldenInjective(s.desired, FinalStage(m, s.rolloutStep).replicas, m.replicas);
  }

  /** The backend is healthy for the manifest of the desired revision. */
  ghost predicate HealthyForDesired(oracle: Oracle, c: Config) {
    c.svc.Some? ==>
      var rev := Lookup(c.svc.value.history, c.svc.value.desired);
      rev.Some? ==> Healthy(oracle, rev.value.manifest)
  }

  lemma ThreeReconciles(c: Config, oracle: Oracle, t1: nat, t2: nat, t3: nat)
    requires Lineage(c) && c.job.Idle? && c.svc.Some? && !Halted(c) && HealthyForDesired(oracle, c)
    ensures var d1 := Reconciled(c, oracle, t1).0;
            var d2 := Reconciled(d1, oracle, t2).0;
            ReachesFixedPoint(c, d1, d2, Reconciled(d2, oracle, t3).0)
  {
    LookupNumbered(c.svc.value.history, c.svc.value.desired);
    OneReconcileConverges(c, oracle, t1);
    var d1 := Reconciled(c, oracle, t1).0;
    ConvergedIsSound(c, d1);
    OneReconcileConverges(d1, oracle, t2);
    var d2 := Reconciled(d1, oracle, t2).0;
    ConvergedIsSound(d1, d2);
    OneReconcileConverges(d2, oracle, t3);
    ConvergedTwiceIsFixed(c, d1, d2, Reconciled(d2, oracle, t3).0);
  }

  lemma ConvergedIsSound(c: Config, d: Config)
    requires ConvergedFrom(c, d) && !Halted(c)
    ensures Lineage(d.(job := AtGet)) && d.svc.Some? && !Halted(d)
    ensures DesiredManifest(d.(job := AtGet)) == DesiredManifest(c.(job := AtGet))
  {
  }

  /** Convergence after any interruption. Take any run at all, with ApplyDesired interleaved
      and crashes anywhere, and stop it wherever it is by killing the process. If the service
      is neither paused nor destroyed and the backend is healthy for the desired manifest from
      then on, one reconcile
      makes the desired revision active and last known good with its golden path held; the
      second reaches full scale (the first does, exactly when the rollout was done already or
      its last step asks for every replica); and further reconciles change nothing. */
  lemma ConvergesAfterAnyInterruption(name: string, leftovers: Contents, ls: seq<Label>, oracle: Oracle,
                                      t1: nat, t2: nat, t3: nat)
    requires var c := Run(Initial(name, leftovers), ls); c.svc.Some? && !Halted(c)
    requires HealthyForDesired(oracle, Run(Initial(name, leftovers), ls))
    ensures Lineage(Run(Initial(name, leftovers), ls + [Crash]))
    ensures var c := Run(Initial(name, leftovers), ls + [Crash]);
            var d1 := Reconciled(c, oracle, t1).0;
            var d2 := Reconciled(d1, oracle, t2).0;
            c.svc.Some? && ReachesFixedPoint(c, d1, d2, Reconciled(d2, oracle, t3).0)
  {
    RunSnoc(Initial(name, leftovers), ls, Crash);
    LineageInEveryRun(name, leftovers, ls + [Crash]);
    ThreeReconciles(Run(Initial(name, leftovers), ls + [Crash]), oracle, t1, t2, t3);
  }

  // ---------- A rollout whose error rate is always over the threshold ----------

  /** Whatever stage of the manifest it is asked for, the backend accepts it and is ready, but
      the error rate exceeds the manifest's threshold. */
  ghost predicate OverThreshold(oracle: Oracle, m: Manifest) {
    forall t: nat, stage: Stage :: OverThresholdReply(m, oracle(t, Staged(m, stage)))
  }

  predicate OverThresholdReply(m: Manifest, reply: Reply) {
    && reply.Accepted? && reply.ready
    && JudgedRate(reply).Some? && JudgedRate(reply).value > m.rollout.maxErrorRate
  }

  /** n reconciles in a row. */
  function ReconciledTimes(c: Config, oracle: Oracle, tick: nat, n: nat): (Config, nat)
    decreases n
  {
    if n == 0 then (c, tick)
    else var d := Reconciled(c, oracle, tick); ReconciledTimes(d.0, oracle, d.1, n - 1)
  }

  /** A first rollout is under way: nothing has converged yet. */
  predicate FirstRollout(c: Config) {
    && Lineage(c) && c.job.Idle? && c.svc.Some? && !Halted(c) && c.svc.value.lastGood == 0
    && c.svc.value.history[c.svc.value.desired - 1].manifest.rollout.enabled
  }

  /** The Fake backend is over the threshold of exactly the manifests whose image does not fail
      and whose threshold is below the rate it makes up. */
  lemma FakeIsOverThreshold(cancelled: nat -> bool, m: Manifest)
    ensures OverThreshold(FakeOracle(cancelled), m) <==>
              && (forall t: nat :: !cancelled(t))
              && !Contains(Lower(m.image), "bad") && !Contains(Lower(m.image), "fail")
              && (if Contains(Lower(m.image), "error") then 0.5 else 0.0) > m.rollout.maxErrorRate
  {
    var oracle := FakeOracle(cancelled);
    var some := Stage(0, 0, false);
    forall t: nat, stage: Stage
      ensures oracle(t, Staged(m, stage)) == FakeReply(cancelled(t), m)
    {
    }
    if OverThreshold(oracle, m) {
      forall t: nat ensures !cancelled(t) {
        assert OverThresholdReply(m, oracle(t, Staged(m, some)));
      }
      assert OverThresholdReply(m, oracle(0, Staged(m, some)));
    }
  }

  /** One reconcile of such a rollout fails at its first remaining step, which it records as done. */
  lemma OverThresholdSkipsOneStep(c: Config, oracle: Oracle, tick: nat)
    requires FirstRollout(c) && OverThreshold(oracle, DesiredManifest(c))
    requires c.svc.value.rolloutStep < Last(Steps(DesiredManifest(c)))
    ensures var m := DesiredManifest(c);
            var d := Reconciled(c, oracle, tick).0;
            && FirstRollout(d) && DesiredManifest(d) == m
            && d.svc.value.phase.Failing? && d.svc.value.desired == c.svc.value.desired
            && Remaining(m, d.svc.value.rolloutStep) == Remaining(m, c.svc.value.rolloutStep) - 1
  {
    var m := DesiredManifest(c);
    var first := FirstAfter(Steps(m), c.svc.value.rolloutStep);
    PlanStartsAt(m, c.svc.value.rolloutStep);
    ReachesStages(c, oracle, tick);
    StageOverThreshold(AtStages(c), oracle, tick);
    LastStageAndRecord(AtStages(c), oracle, tick, RolloutResult(true, true, Steps(m)[first]));
    FirstAfterAt(Steps(m), first);
  }

  lemma StageOverThreshold(c: Config, oracle: Oracle, tick: nat)
    requires c.job.AtStage? && c.job.todo != [] && OverThreshold(oracle, c.job.rev.manifest)
    requires c.job.todo[0].gated || |c.job.todo| == 1
    ensures var stage := c.job.todo[0];
            var reply := oracle(tick, Staged(c.job.rev.manifest, stage));
            StageStep(c, reply).job == AtRecord(c.job.rev, RolloutResult(stage.gated, true, stage.step), c.job.wasRolledBack)
  {
    assert OverThresholdReply(c.job.rev.manifest, oracle(tick, Staged(c.job.rev.manifest, c.job.todo[0])));
  }

  lemma PlanStartsAt(m: Manifest, completed: int)
    requires Admissible(m) && m.rollout.enabled && completed < Last(Steps(m))
    ensures var first := FirstAfter(Steps(m), completed);
            first < |Steps(m)| && Plan(m, completed) != [] && Plan(m, completed)[0] == StageAt(m, first)
  {
    PlanNonEmpty(m, completed);
    StagesAreContiguous(m, completed, 0);
    assert Steps(m)[0..] == Steps(m);
  }

  /** Once every step has been recorded, a reconcile makes a single full-scale Ensure with no
      gate, and the revision is declared converged. */
  lemma OverThresholdEndsReady(c: Config, oracle: Oracle, tick: nat)
    requires FirstRollout(c) && OverThreshold(oracle, DesiredManifest(c)) && !c.svc.value.phase.RolledBack?
    requires c.svc.value.rolloutStep >= Last(Steps(DesiredManifest(c)))
    ensures var d := Reconciled(c, oracle, tick).0;
            d.svc.Some? && d.svc.value.phase.Ready? && d.svc.value.lastGood == c.svc.value.desired
  {
    ReachesStages(c, oracle, tick);
    StageOverThreshold(AtStages(c), oracle, tick);
    LastStageAndRecord(AtStages(c), oracle, tick, RolloutResult(false, true, c.svc.value.rolloutStep));
  }

  lemma RemainingZero(m: Manifest, completed: int)
    requires Admissible(m) && m.rollout.enabled
    ensures Remaining(m, completed) == 0 <==> completed >= Last(Steps(m))
  {
    FirstAfterSplits(Steps(m), completed);
    if completed >= Last(Steps(m)) {
      assert FirstAfter(Steps(m), completed) == |Steps(m)|;
    } else {
      assert Steps(m)[|Steps(m)| - 1] > completed;
    }
  }

  /** The threshold can be worn down: whatever the steps of a first rollout and however far
      over its threshold the error rate always is, as many reconciles as there are steps left,
      plus one, end with the revision ready and last known good. */
  lemma {:induction false} OverThresholdRolloutStillConverges(c: Config, oracle: Oracle, tick: nat)
    requires FirstRollout(c) && OverThreshold(oracle, DesiredManifest(c)) && !c.svc.value.phase.RolledBack?
    ensures var n := Remaining(DesiredManifest(c), c.svc.value.rolloutStep);
            var d := ReconciledTimes(c, oracle, tick, n + 1).0;
            d.svc.Some? && d.svc.value.phase.Ready? && d.svc.value.lastGood == c.svc.value.desired
    decreases Remaining(DesiredManifest(c), c.svc.value.rolloutStep)
  {
    var m := DesiredManifest(c);
    var n := Remaining(m, c.svc.value.rolloutStep);
    RemainingZero(m, c.svc.value.rolloutStep);
    var d := Reconciled(c, oracle, tick);
    if n == 0 {
      OverThresholdEndsReady(c, oracle, tick);
      assert ReconciledTimes(c, oracle, tick, 1) == ReconciledTimes(d.0, oracle, d.1, 0);
    } else {
      OverThresholdSkipsOneStep(c, oracle, tick);
      OverThresholdRolloutStillConverges(d.0, oracle, d.1);
    }
  }

  // ---------- Repeated reconciles get on with the rollout, whatever the backend answers ----------

  /** A job at its stages ends its call at the step of one of them, having logged only calls. */
  lemma {:induction false} StagesEndAtAStep(c: Config, oracle: Oracle, tick: nat) returns (d: Config, t: nat)
    requires c.job.AtStage? && c.job.todo != [] && c.svc.Some?
    ensures Finish(c, oracle, tick) == Finish(d, oracle, t)
    ensures d.job.AtRecord? && d.job.rev == c.job.rev && d.svc == c.svc && d.name == c.name
    ensures exists k :: 0 <= k < |c.job.todo| && c.job.todo[k].step == d.job.result.step
    ensures c.trace <= d.trace && forall i :: |c.trace| <= i < |d.trace| ==> d.trace[i].Called?
    decreases |c.job.todo|
  {
    var todo := c.job.todo;
    var reply := oracle(tick, Staged(c.job.rev.manifest, todo[0]));
    var next := Advanced(c, reply);
    assert Finish(c, oracle, tick) == Finish(next, oracle, tick + 1);
    if next.job.AtStage? {
      d, t := StagesEndAtAStep(next, oracle, tick + 1);
      var k :| 0 <= k < |next.job.todo| && next.job.todo[k].step == d.job.result.step;
      assert todo[k + 1].step == d.job.result.step;
    } else {
      d, t := next, tick + 1;
      assert todo[0].step == d.job.result.step;
    }
  }

  predicate RestoredSince(trace: seq<Event>, from: nat) {
    exists i :: from <= i < |trace| && trace[i].Restored?
  }

  /** A rollout is under way or done: idle, enabled, with a rollout. */
  predicate RollingOut(c: Config) {
    Lineage(c) && c.job.Idle? && c.svc.Some? && !Halted(c) && DesiredManifest(c).rollout.enabled
  }

  /** The desired revision is the one it was, and its rollout is n steps further on, or done. */
  predicate Further(c: Config, d: Config, n: nat)
    requires RollingOut(c)
  {
    && RollingOut(d) && d.svc.value.desired == c.svc.value.desired && DesiredManifest(d) == DesiredManifest(c)
    && var m := DesiredManifest(c);
    var left := Remaining(m, c.svc.value.rolloutStep);
    Remaining(m, d.svc.value.rolloutStep) <= if n <= left then left - n else 0
  }

  lemma StepsFurther(m: Manifest, completed: int, k: nat)
    requires Admissible(m) && m.rollout.enabled && k < |Plan(m, completed)|
    ensures var step := Plan(m, completed)[k].step;
            Remaining(m, step) <= if Remaining(m, completed) > 0 then Remaining(m, completed) - 1 else 0
  {
    RemainingZero(m, completed);
    if completed < Last(Steps(m)) {
      StagesAreContiguous(m, completed, 0);
      assert Steps(m)[0..] == Steps(m);
      var first := FirstAfter(Steps(m), completed);
      assert Plan(m, completed)[k] == StageAt(m, first + k);
      FirstAfterAt(Steps(m), first + k);
    }
  }

  /** One reconcile, whatever the backend answers, leaves at least one step fewer, unless it
      ends in a restore. */
  lemma ReconcileGetsOn(c: Config, oracle: Oracle, tick: nat)
    requires RollingOut(c)
    ensures var d := Reconciled(c, oracle, tick).0;
            && c.trace <= d.trace
            && (RestoredSince(d.trace, |c.trace|) || Further(c, d, 1))
  {
    var s := c.svc.value;
    var rev := s.history[s.desired - 1];
    ReachesStages(c, oracle, tick);
    PlanNonEmpty(rev.manifest, s.rolloutStep);
    var c3, t := StagesEndAtAStep(AtStages(c), oracle, tick);
    var k :| 0 <= k < |Plan(rev.manifest, s.rolloutStep)| && Plan(rev.manifest, s.rolloutStep)[k].step == c3.job.result.step;
    StepsFurther(rev.manifest, s.rolloutStep, k);
    RecordGetsOn(c, c3, oracle, t);
  }

  /** The end of such a job: its record, and the restore where there is one. */
  lemma RecordGetsOn(c: Config, c3: Config, oracle: Oracle, t: nat)
    requires RollingOut(c) && c3.job.AtRecord? && c3.name == c.name
    requires c3.svc == Some(MarkReconciling(c.svc.value)) && c3.job.rev == c.svc.value.history[c.svc.value.desired - 1]
    requires c.trace <= c3.trace
    requires var m := DesiredManifest(c);
             var left := Remaining(m, c.svc.value.rolloutStep);
             Remaining(m, c3.job.result.step) <= if left > 0 then left - 1 else 0
    ensures var d := Finish(c3, oracle, t).0;
            c.trace <= d.trace && (RestoredSince(d.trace, |c.trace|) || Further(c, d, 1))
  {
    var s := c.svc.value;
    var c4 := Advanced(c3, Refused(None));
    assert Finish(c3, oracle, t) == Finish(c4, oracle, t);
    RecordedStep(c3);
    RecordedIsFurther(c, c4);
    if c4.job.AtRestore? {
      RestoreEnds(c4, oracle, t);
    }
  }

  /** What the record after a rollout call keeps, and what it changes. */
  lemma RecordedStep(c: Config)
    requires c.job.AtRecord? && c.svc.Some?
    ensures var d := RecordStep(c);
            && d.svc.Some? && d.name == c.name && c.trace <= d.trace && (d.job.Idle? || d.job.AtRestore?)
            && d.svc.value.history == c.svc.value.history && d.svc.value.desired == c.svc.value.desired
            && d.svc.value.rolloutStep == c.job.result.step
            && d.svc.value.paused == c.svc.value.paused && d.svc.value.destroyed == c.svc.value.destroyed
            && (d.svc.value.active == d.svc.value.lastGood == c.job.rev.number
                || (d.svc.value.active == c.svc.value.active && d.svc.value.lastGood == c.svc.value.lastGood))
            && d.svc.value.name == c.svc.value.name
  {
  }

  lemma RecordedIsFurther(c: Config, d: Config)
    requires RollingOut(c) && d.svc.Some? && d.name == c.name
    requires var s, t := c.svc.value, d.svc.value;
             && t.name == s.name && t.history == s.history && t.desired == s.desired
             && t.paused == s.paused && t.destroyed == s.destroyed
             && t.active == t.lastGood <= |s.history|
             && var left := Remaining(DesiredManifest(c), s.rolloutStep);
             Remaining(DesiredManifest(c), t.rolloutStep) <= if left > 0 then left - 1 else 0
    ensures Further(c, d.(job := Idle), 1)
  {
  }

  /** A restore either is recorded, or leaves the record as it was. */
  lemma RestoreEnds(c: Config, oracle: Oracle, t: nat)
    requires c.job.AtRestore? && c.svc.Some?
    ensures var d := Finish(c, oracle, t).0;
            && c.trace <= d.trace
            && (RestoredSince(d.trace, |c.trace|) || (d.job.Idle? && d.svc == c.svc && d.name == c.name))
  {
    var reply := oracle(t, c.job.good.manifest);
    var d := Advanced(c, reply);
    var e := Advanced(d, Refused(None));
    assert Finish(c, oracle, t) == Finish(d, oracle, t + 1) == Finish(e, oracle, t + 1) == (e, t + 1);
    if reply.Accepted? {
      assert e.trace[|e.trace| - 1].Restored?;
    }
  }

  /** Over repeated reconciles: as long as no restore intervenes, n reconciles leave at least n
      steps fewer, or none, whatever the backend answers. */
  lemma {:induction false} RepeatedReconcilesGetOn(c: Config, oracle: Oracle, tick: nat, n: nat)
    requires RollingOut(c)
    ensures var d := ReconciledTimes(c, oracle, tick, n).0;
            RestoredSince(d.trace, |c.trace|) || Further(c, d, n)
    decreases n
  {
    if n > 0 {
      var d := Reconciled(c, oracle, tick);
      ReconcileGetsOn(c, oracle, tick);
      ReconciledTimesExtends(d.0, oracle, d.1, n - 1);
      var e := ReconciledTimes(d.0, oracle, d.1, n - 1).0;
      if RestoredSince(d.0.trace, |c.trace|) {
        var i :| |c.trace| <= i < |d.0.trace| && d.0.trace[i].Restored?;
        assert e.trace[i].Restored?;
      } else {
        RepeatedReconcilesGetOn(d.0, oracle, d.1, n - 1);
      }
    }
  }

  lemma {:induction false} ReconciledTimesExtends(c: Config, oracle: Oracle, tick: nat, n: nat)
    ensures c.trace <= ReconciledTimes(c, oracle, tick, n).0.trace
    decreases n
  {
    if n > 0 {
      var d := Reconciled(c, oracle, tick);
      var ls := FinishIsARun(c.(job := AtGet), oracle, tick);
      RunExtendsTrace(c.(job := AtGet), ls);
      ReconciledTimesExtends(d.0, oracle, d.1, n - 1);
    }
  }
}
