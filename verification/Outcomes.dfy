/** What one reconcile comes to, answer by answer (internal/reconcile/controller.go). */
module Outcomes {
  import opened Text
  import opened Manifests
  import opened Backends
  import opened Stores
  import opened ControlLoop
  import opened Safety
  import opened Convergence

  // ---------- One rollout call, in the machine's terms ----------

  function CalledEvents(calls: seq<Call>): seq<Event> {
    seq(|calls|, i requires 0 <= i < |calls| => Called(calls[i], false))
  }

  /** The job at the end of its rollout call. */
  function RolledOut(c: Config, q: Progress, calls: seq<Call>): Config
    requires c.job.AtStage?
  {
    Config(c.name, c.svc, q.contents, AtRecord(c.job.rev, q.result, c.job.wasRolledBack), c.trace + CalledEvents(calls))
  }

  /** The stages of a job in flight are one run of the rollout. */
  lemma {:induction false} StagesAreARollout(c: Config, oracle: Oracle, p: Progress)
    requires c.job.AtStage? && c.job.todo != [] && p.contents == c.res
    ensures var AtStage(rev, todo, was) := c.job;
            var q := RunStages(todo, rev.manifest, rev.number, oracle, p);
            Finish(c, oracle, p.ticks)
            == Finish(RolledOut(c, q, CallsFrom(todo, rev.manifest, rev.number, oracle, p.ticks)), oracle, q.ticks)
    decreases |c.job.todo|
  {
    var AtStage(rev, todo, was) := c.job;
    var m := rev.manifest;
    var reply := oracle(p.ticks, Staged(m, todo[0]));
    var call := Call(rev.number, todo[0], reply);
    var done := StageDone(m, rev.number, todo[0], reply, p);
    var d := StageStep(c, reply);
    assert Finish(c, oracle, p.ticks) == Finish(d, oracle, p.ticks + 1);
    if Passed(m, call) && |todo| > 1 {
      StagesAreARollout(d, oracle, done);
      LogCalls(c.trace, call, CallsFrom(todo[1..], m, rev.number, oracle, done.ticks));
    } else {
      LastStage(todo, m, rev.number, oracle, p);
      LogCalls(c.trace, call, []);
      assert CalledEvents([]) == [];
      assert RolledOut(c, done, [call] + []) == d;
    }
  }

  lemma LogCalls(trace: seq<Event>, call: Call, calls: seq<Call>)
    ensures trace + CalledEvents([call] + calls) == (trace + [Called(call, false)]) + CalledEvents(calls)
  {
    assert CalledEvents([call] + calls) == [Called(call, false)] + CalledEvents(calls);
  }

  lemma LastStage(todo: seq<Stage>, m: Manifest, revision: nat, oracle: Oracle, p: Progress)
    requires todo != []
    requires var call := Call(revision, todo[0], oracle(p.ticks, Staged(m, todo[0]))); !Passed(m, call) || |todo| == 1
    ensures var reply := oracle(p.ticks, Staged(m, todo[0]));
            && RunStages(todo, m, revision, oracle, p) == StageDone(m, revision, todo[0], reply, p)
            && CallsFrom(todo, m, revision, oracle, p.ticks) == [Call(revision, todo[0], reply)] + []
  {
    assert |todo| == 1 ==> todo[1..] == [];
  }

  // ---------- A rejected revision, and the restore ----------

  /** There is another revision to go back to: something has converged, and it is not this one. */
  predicate HasAnotherGood(s: Service, number: nat) {
    s.lastGood != 0 && s.lastGood != number
  }

  /** What a failed rollout call of revision `number`, recorded at `step`, comes to. Without another
      good revision the failure is recorded and nothing else happens. With one, it is ensured once,
      at its full scale: accepted, it is desired, active and last known good, with no step recorded;
      refused, the failed revision stays desired. */
  predicate FailureEnds(s: Service, number: nat, step: int, before: Config, d: Config, oracle: Oracle, tick: nat)
    requires s.lastGood <= |s.history|
  {
    var rejected := before.trace + [Rejected(number, step)];
    && d.job.Idle? && d.name == before.name
    && if !HasAnotherGood(s, number) then
         && d.svc == Some(s.(phase := Failing, rolloutStep := step))
         && d.trace == rejected && d.res == before.res
       else
         var good := s.history[s.lastGood - 1];
         var reply := oracle(tick, good.manifest);
         var called := rejected + [Called(Call(good.number, Stage(0, good.manifest.replicas, false), reply), true)];
         && d.res == After(before.res, good.number, good.manifest.replicas, reply)
         && if reply.Accepted? then
              && d.trace == called + [Restored(number, s.lastGood)]
              && d.svc == Some(s.(desired := s.lastGood, active := s.lastGood, rolloutStep := 0, phase := RolledBack,
                                  observed := GOLDEN_PATH))
            else
              && d.trace == called
              && d.svc == Some(s.(phase := Failing, rolloutStep := step))
  }

  /** For every manifest, with a rollout or without: a failed call is followed by a restore exactly
      where there is another good revision. */
  lemma FailureOutcome(c: Config, oracle: Oracle, tick: nat)
    requires Lineage(c) && c.job.AtRecord? && c.job.result.failed && c.svc.Some?
    ensures FailureEnds(c.svc.value, c.job.rev.number, c.job.result.step, c, Finish(c, oracle, tick).0, oracle, tick)
  {
    var s := c.svc.value;
    LookupNumbered(s.history, s.lastGood);
    var d := RecordStep(c);
    assert Advanced(c, Refused(None)) == d;
    assert Finish(c, oracle, tick) == Finish(d, oracle, tick);
    if HasAnotherGood(s, c.job.rev.number) {
      RestoreOutcome(d, oracle, tick);
    }
  }

  lemma RestoreOutcome(c: Config, oracle: Oracle, tick: nat)
    requires Lineage(c) && c.job.AtRestore? && c.svc.Some?
    ensures var (bad, good, s, d) := (c.job.bad, c.job.good, c.svc.value, Finish(c, oracle, tick).0);
            var reply := oracle(tick, good.manifest);
            var called := c.trace + [Called(Call(good.number, Stage(0, good.manifest.replicas, false), reply), true)];
            && d.job.Idle? && d.name == c.name
            && d.res == After(c.res, good.number, good.manifest.replicas, reply)
            && if reply.Accepted? then
                 && d.trace == called + [Restored(bad.number, good.number)]
                 && d.svc == Some(s.(desired := good.number, active := good.number, rolloutStep := 0, phase := RolledBack,
                                     observed := GOLDEN_PATH))
               else d.trace == called && d.svc == c.svc
  {
    var reply := oracle(tick, c.job.good.manifest);
    var d := RestoreStep(c, reply);
    assert Advanced(c, reply) == d;
    assert Finish(c, oracle, tick) == Finish(d, oracle, tick + 1);
    var e := RestoreRecordStep(d);
    assert Advanced(d, Refused(None)) == e;
    assert Finish(d, oracle, tick + 1) == Finish(e, oracle, tick + 1) == (e, tick + 1);
  }

  // ---------- One reconcile ----------

  /** What a reconcile of the record c comes to, given its rollout call p. A wait and a convergence are
      recorded with the step reached; a failure ends as above. */
  predicate ReconcileEnds(c: Config, p: Progress, d: Config, oracle: Oracle)
    requires Lineage(c.(job := AtGet)) && c.svc.Some?
  {
    var s := c.svc.value;
    var called := c.trace + CalledEvents(p.calls);
    if p.result.failed then
      FailureEnds(s, s.desired, p.result.step, c.(trace := called, res := p.contents), d, oracle, p.ticks)
    else
      && d.job.Idle? && d.name == c.name && d.res == p.contents
      && if p.result.ready then
           && d.trace == called + [Converged(s.desired)]
           && d.svc == Some(s.(active := s.desired, lastGood := s.desired, rolloutStep := p.result.step,
                               observed := GOLDEN_PATH, phase := if s.phase.RolledBack? then RolledBack else Ready))
         else
           && d.trace == called + [Waited(s.desired, p.result.step)]
           && d.svc == Some(s.(phase := Reconciling, rolloutStep := p.result.step))
  }

  /** The rollout call a reconcile of the record makes. */
  function CallOf(c: Config, oracle: Oracle, tick: nat): Progress
    requires Lineage(c.(job := AtGet)) && c.svc.Some?
  {
    var s := c.svc.value;
    Backends.Rollout(s.history[s.desired - 1].manifest, s.desired, s.rolloutStep, oracle, c.res, tick)
  }

  /** One reconcile, from any sound record, against any backend, for every manifest. */
  lemma ReconcileOutcome(c: Config, oracle: Oracle, tick: nat)
    requires Lineage(c.(job := AtGet)) && c.svc.Some? && !Halted(c)
    ensures ReconcileEnds(c, CallOf(c, oracle, tick), Reconciled(c, oracle, tick).0, oracle)
  {
    var s := c.svc.value;
    var m := s.history[s.desired - 1].manifest;
    var p := CallOf(c, oracle, tick);
    var start := AtStages(c);
    ReachesStages(c, oracle, tick);
    PlanNonEmpty(m, s.rolloutStep);
    assert start.job.rev.number == s.desired && start.job.rev.manifest == m;
    StagesAreARollout(start, oracle, Progress(c.res, tick, [], NO_RESULT));
    RunStagesCalls(start.job.todo, m, s.desired, oracle, Progress(c.res, tick, [], NO_RESULT));
    var recorded := RolledOut(start, p, p.calls);
    assert [] + CallsFrom(start.job.todo, m, s.desired, oracle, tick) == CallsFrom(start.job.todo, m, s.desired, oracle, tick);
    assert Reconciled(c, oracle, tick) == Finish(recorded, oracle, p.ticks);
    RecordOutcomes(c, p, recorded, oracle);
  }

  lemma RecordOutcomes(c: Config, p: Progress, recorded: Config, oracle: Oracle)
    requires Lineage(c.(job := AtGet)) && c.svc.Some? && !Halted(c)
    requires recorded == RolledOut(AtStages(c), p, p.calls)
    ensures ReconcileEnds(c, p, Finish(recorded, oracle, p.ticks).0, oracle)
  {
    var s := c.svc.value;
    var marked := MarkReconciling(s);
    if p.result.failed {
      FailureOutcome(recorded, oracle, p.ticks);
      var d := Finish(recorded, oracle, p.ticks).0;
      SameFailure(s, marked, p.result.step, recorded, c.(trace := recorded.trace, res := p.contents), d, oracle, p.ticks);
    } else {
      RecordFinish(recorded, oracle, p.ticks);
    }
  }

  /** Marking the record as reconciling first makes no difference to how a failure ends. */
  lemma SameFailure(s: Service, marked: Service, step: int, before: Config, other: Config, d: Config, oracle: Oracle, tick: nat)
    requires s.lastGood <= |s.history| && marked == MarkReconciling(s)
    requires other.trace == before.trace && other.res == before.res && other.name == before.name
    requires FailureEnds(marked, s.desired, step, before, d, oracle, tick)
    ensures FailureEnds(s, s.desired, step, other, d, oracle, tick)
  {
  }

  predicate RestoreCalledSince(trace: seq<Event>, from: nat) {
    exists i :: from <= i < |trace| && trace[i].Called? && trace[i].restore
  }

  /** A reconcile asks for a restore if and only if its rollout call fails and there is another good
      revision; and it ends in RolledBack on that revision if and only if that is also accepted. */
  lemma RestoresExactly(c: Config, oracle: Oracle, tick: nat)
    requires Lineage(c.(job := AtGet)) && c.svc.Some? && !Halted(c)
    ensures var s := c.svc.value;
            var p := CallOf(c, oracle, tick);
            var d := Reconciled(c, oracle, tick).0;
            var restores := p.result.failed && HasAnotherGood(s, s.desired);
            && (RestoreCalledSince(d.trace, |c.trace|) <==> restores)
            && (RestoredSince(d.trace, |c.trace|) <==>
                  restores && oracle(p.ticks, s.history[s.lastGood - 1].manifest).Accepted?)
  {
    ReconcileOutcome(c, oracle, tick);
    var s := c.svc.value;
    var p := CallOf(c, oracle, tick);
    var d := Reconciled(c, oracle, tick).0;
    var called := c.trace + CalledEvents(p.calls);
    assert forall i :: |c.trace| <= i < |called| ==> called[i] == Called(p.calls[i - |c.trace|], false);
    assert called <= d.trace;
    if p.result.failed && HasAnotherGood(s, s.desired) {
      assert d.trace[|called| + 1].Called? && d.trace[|called| + 1].restore;
      if |d.trace| > |called| + 2 {
        assert d.trace[|called| + 2].Restored?;
      }
    }
  }

  /** The same of a job that has just taken the lock; a service that is unknown or halted is left alone. */
  lemma OutcomeOf(c: Config, oracle: Oracle, tick: nat)
    requires Lineage(c) && c.job.AtGet?
    ensures var d := Finish(c, oracle, tick).0;
            && (c.svc.Some? && !Halted(c) ==>
                  ReconcileEnds(c.(job := Idle), CallOf(c.(job := Idle), oracle, tick), d, oracle))
            && (c.svc.None? || Halted(c) ==> d == c.(job := Idle))
  {
    if c.svc.Some? && !Halted(c) {
      ReconcileOutcome(c.(job := Idle), oracle, tick);
      assert c.(job := Idle).(job := AtGet) == c;
    } else {
      assert Advanced(c, Refused(None)) == c.(job := Idle);
      assert Finish(c, oracle, tick) == Finish(c.(job := Idle), oracle, tick);
    }
  }

  // ---------- With others at work ----------

  /** In every run: a failed call leads to a restore exactly where there is another good revision. */
  lemma FailureLeadsToRestore(name: string, leftovers: Contents, ls: seq<Label>, reply: Reply)
    requires var c := Run(Initial(name, leftovers), ls); c.job.AtRecord? && c.job.result.failed
    ensures var c, d := Run(Initial(name, leftovers), ls), Next(Run(Initial(name, leftovers), ls), Advance(reply));
            && c.svc.Some?
            && var s := c.svc.value;
            && s.lastGood <= |s.history|
            && d.trace == c.trace + [Rejected(c.job.rev.number, c.job.result.step)]
            && d.svc == Some(s.(phase := Failing, rolloutStep := c.job.result.step))
            && d.job == if HasAnotherGood(s, c.job.rev.number) then AtRestore(c.job.rev, s.history[s.lastGood - 1]) else Idle
  {
    LineageInEveryRun(name, leftovers, ls);
    var s := Run(Initial(name, leftovers), ls).svc.value;
    LookupNumbered(s.history, s.lastGood);
  }

  /** Nothing but a crash takes a job away: whatever others do, it goes on where it was. */
  lemma {:induction false} OnlyACrashEndsAJob(c: Config, ls: seq<Label>)
    requires !c.job.Idle? && forall i :: 0 <= i < |ls| ==> !ls[i].Crash? && !ls[i].Advance?
    ensures Run(c, ls).job == c.job && Run(c, ls).res == c.res
    decreases |ls|
  {
    if ls != [] {
      OnlyACrashEndsAJob(c, ls[..|ls| - 1]);
    }
  }

  // ---------- What the operations write ----------

  /** The record an accepted manifest makes: the one there, where it is the desired one already and not
      destroyed; else with one revision more, desired, pending, from the start of its rollout, and
      neither paused nor destroyed. */
  lemma ApplyExactly(c: Config, m: Manifest)
    requires Lineage(c) && Accepts(c, m) && c.job.Idle?
    ensures var d := Begin(c, Label.Apply(m));
            && d.name == c.name && d.res == c.res && d.job == AtGet
            && match c.svc
               case None =>
                 && d.svc == Some(Service(m.name, 1, 0, 0, 0, false, false, Pending, [], [Revision(1, m)]))
                 && d.trace == c.trace + [Enabled]
               case Some(s) =>
                 if !s.destroyed && s.history[s.desired - 1].manifest == m then d.svc == c.svc && d.trace == c.trace
                 else
                   var n := |s.history| + 1;
                   && d.svc == Some(Service(s.name, n, s.active, s.lastGood, 0, false, false, Pending, s.observed,
                                            s.history + [Revision(n, m)]))
                   && d.trace == c.trace + [Enabled]
  {
    if c.svc.Some? {
      LookupNumbered(c.svc.value.history, c.svc.value.desired);
    } else {
      assert [] + [Revision(1, m)] == [Revision(1, m)];
    }
  }

  /** The record a rollback makes, where its target exists. */
  lemma RollbackWrites(c: Config, target: int)
    requires Lineage(c) && c.svc.Some?
    ensures var s := c.svc.value;
            var d := Begin(c, Label.Rollback(target));
            var chosen := if target == 0 then s.lastGood else target;
            if 1 <= chosen <= |s.history| then
              var n := |s.history| + 1;
              && d.svc == Some(Service(s.name, n, s.active, s.lastGood, 0, false, false, Pending, s.observed,
                                       s.history + [Revision(n, s.history[chosen - 1].manifest)]))
              && d.trace == c.trace + [Enabled] && d.job == AtGet && d.res == c.res
            else d == c
  {
    LookupNumbered(c.svc.value.history, RollbackTarget(c.svc.value, target));
  }

  /** What the other operations write first. */
  lemma OthersWrite(c: Config, kind: string, cancelled: bool, reply: Reply)
    requires c.svc.Some? && c.job.Idle?
    ensures var s := c.svc.value;
            && Begin(c, Label.Pause) == c.(svc := Some(s.(paused := true, phase := Suspended)), trace := c.trace + [Silenced])
            && Begin(c, Label.Resume).svc == Some(s.(paused := false, phase := Pending))
            && Begin(c, Label.Resume).trace == (if s.destroyed then c.trace else c.trace + [Enabled])
            && Begin(c, Label.Resume).job == AtGet && Begin(c, Label.Resume).res == c.res
            && Advanced(Begin(c, Label.Destroy(AllDeleted)), reply)
               == c.(svc := Some(s.(destroyed := true, phase := Removed, observed := [])), res := map[], trace := c.trace + [Silenced])
            && Begin(c, Label.Drift(kind, cancelled))
               == (if cancelled || kind !in c.res then c else c.(res := c.res - {kind}, job := AtGet))
            && Begin(c, Label.Reconcile) == c.(job := AtGet)
  {
  }
}
