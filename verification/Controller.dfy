/** The controller as an object over a store and a backend (internal/reconcile/controller.go).
    Each method holds the service's lock to its end, so it takes the machine of module
    ControlLoop through one job without interruption. */
module Controllers {
  import opened Text
  import opened Manifests
  import opened Backends
  import opened Stores
  import opened ControlLoop
  import opened Safety
  import opened Convergence
  import opened Outcomes

  lemma {:induction false} FinishKeepsLineage(c: Config, oracle: Oracle, tick: nat)
    requires Lineage(c)
    ensures Lineage(Finish(c, oracle, tick).0) && Finish(c, oracle, tick).0.job.Idle?
    decreases if c.job.AtGet? then 1 else 0, Rank(c.job)
  {
    if !c.job.Idle? {
      match NextCall(c.job) {
        case None =>
          AdvanceKeepsLineage(c, Refused(None));
          FinishKeepsLineage(Advanced(c, Refused(None)), oracle, tick);
        case Some(m) =>
          AdvanceKeepsLineage(c, oracle(tick, m));
          FinishKeepsLineage(Advanced(c, oracle(tick, m)), oracle, tick + 1);
      }
    }
  }

  predicate RejectedSince(trace: seq<Event>, from: nat) {
    exists i :: from <= i < |trace| && trace[i].Rejected?
  }

  /** No revision is rejected between the two points. */
  predicate Quiet(before: seq<Event>, after: seq<Event>) {
    before <= after && forall i :: |before| <= i < |after| ==> !after[i].Rejected?
  }

  lemma RejectedAfter(before: seq<Event>, mid: seq<Event>, after: seq<Event>)
    requires Quiet(before, mid) && mid <= after
    ensures before <= after
    ensures RejectedSince(after, |before|) <==> RejectedSince(after, |mid|)
  {
    assert forall i :: |before| <= i < |mid| ==> after[i] == mid[i];
  }

  lemma CallsAreQuiet(before: seq<Event>, calls: seq<Call>)
    ensures Quiet(before, before + CalledEvents(calls))
  {
  }

  class Controller {
    const store: FileStore
    const backend: Backend
    /** What happened to each service so far. */
    ghost var journal: map<string, seq<Event>>

    constructor (store: FileStore, backend: Backend)
      ensures this.store == store && this.backend == backend && journal == map[]
    {
      this.store, this.backend, journal := store, backend, map[];
    }

    ghost function Trace(name: string): seq<Event>
      reads this
    {
      if name in journal then journal[name] else []
    }

    /** The machine's configuration for one service, at a given point of its job. */
    ghost function View(name: string, job: Job): Config
      reads this, store, backend
    {
      Config(name, store.Record(name), backend.Holds(name), job, Trace(name))
    }

    /** Every stored record has a sound lineage under its own name. */
    ghost predicate Sound()
      reads this, store, backend
    {
      forall name :: Lineage(View(name, Idle))
    }

    /** The other services are as they were. */
    twostate predicate OthersUnchanged(name: string)
      reads this, store, backend
    {
      forall other :: other != name ==> View(other, Idle) == old(View(other, Idle))
    }

    twostate lemma OthersStaySound(name: string)
      requires old(Sound()) && OthersUnchanged(name)
      ensures forall other :: other != name ==> Lineage(View(other, Idle))
      ensures Lineage(View(name, Idle)) ==> Sound()
    {
      forall other | other != name ensures Lineage(View(other, Idle)) {
        assert View(other, Idle) == old(View(other, Idle));
      }
    }

    ghost method Note(name: string, events: seq<Event>)
      modifies this`journal
      ensures Trace(name) == old(Trace(name)) + events
      ensures forall other :: other != name ==> Trace(other) == old(Trace(other))
    {
      journal := journal[name := Trace(name) + events];
    }

    /** The reconcile proper, under the lock: it brings the service to where the machine's
        whole job ends. It reports failure exactly when the service is unknown or its revision
        was rejected, whether or not the last known good one could be restored. */
    method ReconcileLocked(name: string) returns (result: Option<Service>, failed: bool)
      requires Lineage(View(name, AtGet))
      modifies this, store, backend
      ensures OthersUnchanged(name)
      ensures (View(name, Idle), backend.ticks) == Finish(old(View(name, AtGet)), backend.oracle, old(backend.ticks))
      ensures result == store.Record(name)
      ensures old(Trace(name)) <= Trace(name)
      ensures failed <==> result.None? || RejectedSince(Trace(name), |old(Trace(name))|)
      ensures old(store.Record(name).Some? && !Halted(View(name, Idle))) ==>
                ReconcileEnds(old(View(name, Idle)), CallOf(old(View(name, Idle)), backend.oracle, old(backend.ticks)),
                              View(name, Idle), backend.oracle)
      ensures old(store.Record(name).None? || Halted(View(name, Idle))) ==> View(name, Idle) == old(View(name, Idle))
    {
      ghost var c, tick := View(name, AtGet), backend.ticks;
      assert Finish(c, backend.oracle, tick) == Finish(GetStep(c), backend.oracle, tick);
      OutcomeOf(c, backend.oracle, tick);
      var service := store.Get(name);
      if service.None? {
        return None, true;
      }
      if service.value.destroyed || service.value.paused {
        return service, false;
      }
      result, failed := Work(name, service.value);
    }

    /** The reconcile of a service that is neither paused nor destroyed. */
    method Work(name: string, service: Service) returns (result: Option<Service>, failed: bool)
      requires Lineage(View(name, AtGet)) && store.Record(name) == Some(service)
      requires !service.destroyed && !service.paused
      modifies this, store, backend
      ensures OthersUnchanged(name)
      ensures (View(name, Idle), backend.ticks) == Finish(old(View(name, AtGet)), backend.oracle, old(backend.ticks))
      ensures result == store.Record(name) && result.Some?
      ensures old(Trace(name)) <= Trace(name)
      ensures failed <==> RejectedSince(Trace(name), |old(Trace(name))|)
    {
      var rev, wasRolledBack := MarkStarted(name, service);
      var outcome := RollOut(name, rev, service.rolloutStep, wasRolledBack);
      ghost var called := Trace(name);
      result, failed := RecordOutcome(name, rev, outcome, wasRolledBack);
      RejectedAfter(old(Trace(name)), called, Trace(name));
    }

    /** The revision lookup and the first update. */
    method MarkStarted(name: string, service: Service) returns (rev: Revision, wasRolledBack: bool)
      requires Lineage(View(name, AtGet)) && store.Record(name) == Some(service)
      requires !service.destroyed && !service.paused
      modifies store
      ensures OthersUnchanged(name)
      ensures Finish(View(name, AtStage(rev, Plan(rev.manifest, service.rolloutStep), wasRolledBack)), backend.oracle, backend.ticks)
              == Finish(old(View(name, AtGet)), backend.oracle, backend.ticks)
      ensures Trace(name) == old(Trace(name))
      ensures Lineage(View(name, AtStage(rev, Plan(rev.manifest, service.rolloutStep), wasRolledBack)))
      ensures store.Record(name).Some? && rev.manifest.name == name
    {
      LookupNumbered(service.history, service.desired);
      var revision := store.FindRevision(name, service.desired);
      rev := revision.value;
      wasRolledBack := service.phase.RolledBack?;
      ghost var c, tick := View(name, AtGet), backend.ticks;
      ghost var c1 := GetStep(c);
      assert c1.job == AtMark(rev, service.rolloutStep, wasRolledBack);
      assert Finish(c, backend.oracle, tick) == Finish(c1, backend.oracle, tick) == Finish(MarkStep(c1), backend.oracle, tick);
      var _ := store.Update(name, MarkReconciling);
      assert View(name, MarkStep(c1).job) == MarkStep(c1);
      PlanNonEmpty(rev.manifest, service.rolloutStep);
    }

    /** The rollout call, which the store knows nothing of yet. */
    method RollOut(name: string, rev: Revision, from: int, wasRolledBack: bool) returns (outcome: RolloutResult)
      requires rev.manifest.name == name && Lineage(View(name, AtStage(rev, Plan(rev.manifest, from), wasRolledBack)))
      requires store.Record(name).Some?
      modifies this, backend
      ensures OthersUnchanged(name)
      ensures Quiet(old(Trace(name)), Trace(name))
      ensures store.Record(name).Some? && Lineage(View(name, AtRecord(rev, outcome, wasRolledBack)))
      ensures Finish(View(name, AtRecord(rev, outcome, wasRolledBack)), backend.oracle, backend.ticks)
              == Finish(old(View(name, AtStage(rev, Plan(rev.manifest, from), wasRolledBack))), backend.oracle, old(backend.ticks))
    {
      ghost var c, tick := View(name, AtStage(rev, Plan(rev.manifest, from), wasRolledBack)), backend.ticks;
      StagesAreARollout(c, backend.oracle, Progress(c.res, tick, [], NO_RESULT));
      RunStagesCalls(c.job.todo, rev.manifest, rev.number, backend.oracle, Progress(c.res, tick, [], NO_RESULT));
      ghost var calls;
      outcome, calls := EnsureWithRolloutFrom(backend, rev.manifest, rev.number, from);
      assert calls == CallsFrom(c.job.todo, rev.manifest, rev.number, backend.oracle, tick);
      Note(name, CalledEvents(calls));
      CallsAreQuiet(c.trace, calls);
      assert View(name, AtRecord(rev, outcome, wasRolledBack))
          == RolledOut(c, Progress(backend.Holds(name), backend.ticks, calls, outcome), calls);
    }

    /** The store updates after the rollout call, and the restore where there is one. */
    method RecordOutcome(name: string, rev: Revision, outcome: RolloutResult, wasRolledBack: bool)
      returns (result: Option<Service>, failed: bool)
      requires Lineage(View(name, AtRecord(rev, outcome, wasRolledBack))) && store.Record(name).Some?
      modifies this, store, backend
      ensures OthersUnchanged(name)
      ensures (View(name, Idle), backend.ticks)
              == Finish(old(View(name, AtRecord(rev, outcome, wasRolledBack))), backend.oracle, old(backend.ticks))
      ensures result == store.Record(name) && result.Some?
      ensures failed == outcome.failed
      ensures old(Trace(name)) <= Trace(name)
      ensures failed <==> RejectedSince(Trace(name), |old(Trace(name))|)
    {
      ghost var c, tick := View(name, AtRecord(rev, outcome, wasRolledBack)), backend.ticks;
      ghost var c1 := RecordStep(c);
      assert Finish(c, backend.oracle, tick) == Finish(c1, backend.oracle, tick);
      RecordKeepsLineage(c);
      if !outcome.failed && !outcome.ready {
        result := store.Update(name, current => RecordWaiting(current, outcome.step));
        Note(name, [Waited(rev.number, outcome.step)]);
        return result, false;
      }
      if !outcome.failed {
        result := store.Update(name, current => RecordConverged(current, rev.number, outcome.step, wasRolledBack));
        Note(name, [Converged(rev.number)]);
        return result, false;
      }
      result := RecordFailure(name, rev, outcome, wasRolledBack);
      return result, true;
    }

    /** A rejected revision, and the restore where there is one. */
    method RecordFailure(name: string, rev: Revision, outcome: RolloutResult, ghost wasRolledBack: bool)
      returns (result: Option<Service>)
      requires Lineage(View(name, AtRecord(rev, outcome, wasRolledBack))) && store.Record(name).Some? && outcome.failed
      modifies this, store, backend
      ensures OthersUnchanged(name)
      ensures (View(name, Idle), backend.ticks)
              == Finish(old(View(name, AtRecord(rev, outcome, wasRolledBack))), backend.oracle, old(backend.ticks))
      ensures result == store.Record(name) && result.Some?
      ensures old(Trace(name)) <= Trace(name) && RejectedSince(Trace(name), |old(Trace(name))|)
      ensures FailureEnds(old(store.Record(name).value), rev.number, outcome.step,
                          old(View(name, AtRecord(rev, outcome, wasRolledBack))), View(name, Idle), backend.oracle, old(backend.ticks))
    {
      ghost var c, tick := View(name, AtRecord(rev, outcome, wasRolledBack)), backend.ticks;
      FailureOutcome(c, backend.oracle, tick);
      ghost var c1 := RecordStep(c);
      assert Finish(c, backend.oracle, tick) == Finish(c1, backend.oracle, tick);
      RecordKeepsLineage(c);
      result := store.Update(name, current => RecordFailed(current, outcome.step));
      Note(name, [Rejected(rev.number, outcome.step)]);
      assert Trace(name)[|c.trace|].Rejected?;
      if result.value.lastGood == 0 || result.value.lastGood == rev.number {
        return;
      }
      var lastGood := store.FindRevision(name, result.value.lastGood);
      if lastGood.None? {
        return;
      }
      result := Restore(name, rev, lastGood.value);
      assert Trace(name)[|c.trace|].Rejected?;
    }

    /** The automatic restore of the last known good revision. */
    method Restore(name: string, bad: Revision, good: Revision) returns (result: Option<Service>)
      requires Lineage(View(name, AtRestore(bad, good))) && store.Record(name).Some?
      modifies this, store, backend
      ensures OthersUnchanged(name)
      ensures (View(name, Idle), backend.ticks)
              == Finish(old(View(name, AtRestore(bad, good))), backend.oracle, old(backend.ticks))
      ensures result == store.Record(name) && result.Some?
      ensures Quiet(old(Trace(name)), Trace(name))
    {
      ghost var c, tick := View(name, AtRestore(bad, good)), backend.ticks;
      var reply := backend.Ensure(good.manifest, good.number);
      Note(name, [Called(Call(good.number, RestoreStage(good), reply), true)]);
      ghost var c1 := RestoreStep(c, reply);
      assert Finish(c, backend.oracle, tick) == Finish(c1, backend.oracle, backend.ticks);
      ghost var c2 := RestoreRecordStep(c1);
      assert Finish(c1, backend.oracle, backend.ticks) == Finish(c2, backend.oracle, backend.ticks) == (c2, backend.ticks);
      if reply.Refused? {
        result := store.Update(name, current => current);
        return;
      }
      result := store.Update(name, current => RecordRestored(current, good.number));
      Note(name, [Restored(bad.number, good.number)]);
    }

    // ---------- The operations ----------

    /** What an operation's first effect did, its reconcile finishes. */
    method ReconcileFrom(name: string, ghost c: Config) returns (result: Option<Service>, failed: bool)
      requires c == View(name, AtGet) && Lineage(c)
      requires forall other :: other != name ==> Lineage(View(other, Idle))
      modifies this, store, backend
      ensures Sound() && OthersUnchanged(name)
      ensures (View(name, Idle), backend.ticks) == Finish(c, backend.oracle, old(backend.ticks))
      ensures result == store.Record(name)
      ensures old(Trace(name)) <= Trace(name)
      ensures failed <==> result.None? || RejectedSince(Trace(name), |old(Trace(name))|)
    {
      FinishKeepsLineage(c, backend.oracle, backend.ticks);
      result, failed := ReconcileLocked(name);
    }

    /** One reconcile is the machine's whole job. */
    method Reconcile(name: string) returns (result: Option<Service>, failed: bool)
      requires Sound()
      modifies this, store, backend
      ensures Sound() && OthersUnchanged(name)
      ensures (View(name, Idle), backend.ticks)
              == Finish(Begin(old(View(name, Idle)), Label.Reconcile), backend.oracle, old(backend.ticks))
      ensures result == store.Record(name)
      ensures old(Trace(name)) <= Trace(name)
      ensures failed <==> result.None? || RejectedSince(Trace(name), |old(Trace(name))|)
      ensures old(store.Record(name).Some? && !Halted(View(name, Idle))) ==>
                ReconcileEnds(old(View(name, Idle)), CallOf(old(View(name, Idle)), backend.oracle, old(backend.ticks)),
                              View(name, Idle), backend.oracle)
      ensures old(store.Record(name).None? || Halted(View(name, Idle))) ==> View(name, Idle) == old(View(name, Idle))
    {
      assert Lineage(View(name, Idle));
      OthersStaySound(name);
      OutcomeOf(View(name, AtGet), backend.oracle, backend.ticks);
      result, failed := ReconcileFrom(name, View(name, AtGet));
    }

    /** Record the revision and reconcile it; an invalid manifest changes nothing. */
    method Apply(m: Manifest) returns (result: Option<Service>, failed: bool)
      requires Sound()
      modifies this, store, backend
      ensures Sound() && OthersUnchanged(m.name)
      ensures Manifests.Valid(store.libs, m) ==>
                && (View(m.name, Idle), backend.ticks)
                   == Finish(Begin(old(View(m.name, Idle)), Label.Apply(m)), backend.oracle, old(backend.ticks))
                && result == store.Record(m.name)
      ensures !Manifests.Valid(store.libs, m) ==>
                failed && result.None? && View(m.name, Idle) == old(View(m.name, Idle)) && backend.ticks == old(backend.ticks)
      ensures old(Trace(m.name)) <= Trace(m.name)
      ensures failed <==> result.None? || RejectedSince(Trace(m.name), |old(Trace(m.name))|)
    {
      ghost var c := View(m.name, Idle);
      result := StoreDesired(m);
      if result.None? {
        return None, true;
      }
      BeginKeepsLineage(c, Label.Apply(m));
      OthersStaySound(m.name);
      ghost var begun := Trace(m.name);
      result, failed := ReconcileFrom(m.name, View(m.name, AtGet));
      RejectedAfter(c.trace, begun, Trace(m.name));
    }

    /** The store half of both applies. */
    method StoreDesired(m: Manifest) returns (result: Option<Service>)
      requires Sound()
      modifies this, store
      ensures OthersUnchanged(m.name) && Sound()
      ensures result.Some? <==> Manifests.Valid(store.libs, m)
      ensures result.Some? ==> Accepts(old(View(m.name, Idle)), m) && View(m.name, Idle) == StoreApply(old(View(m.name, Idle)), m)
      ensures result.None? ==> View(m.name, Idle) == old(View(m.name, Idle))
      ensures result.Some? ==> result == store.Record(m.name)
    {
      ghost var c := View(m.name, Idle);
      assert Lineage(c);
      ghost var before := store.Record(m.name);
      result := store.Apply(m);
      if result.Some? {
        ValidIsAdmissible(store.libs, m);
        StoreApplyKeepsLineage(c, m);
        if before != result {
          Note(m.name, [Enabled]);
        }
      }
      OthersStaySound(m.name);
    }

    /** Record the revision only, without the lock: whatever job is in flight, the effect is
        the machine's. */
    method ApplyDesired(m: Manifest) returns (result: Option<Service>)
      requires Sound()
      modifies this, store
      ensures OthersUnchanged(m.name) && Sound()
      ensures result.Some? <==> Manifests.Valid(store.libs, m)
      ensures result.Some? ==> result == store.Record(m.name)
      ensures forall job :: View(m.name, job)
                == if result.Some? then Next(old(View(m.name, job)), Label.ApplyDesired(m)) else old(View(m.name, job))
    {
      ghost var c := View(m.name, Idle);
      result := StoreDesired(m);
      forall job
        ensures View(m.name, job)
                == if result.Some? then Next(c.(job := job), Label.ApplyDesired(m)) else c.(job := job)
      {
        assert View(m.name, job) == View(m.name, Idle).(job := job);
      }
    }

    /** Append a copy of an earlier revision and reconcile it; a target that does not exist
        changes nothing. */
    method Rollback(name: string, target: int) returns (result: Option<Service>, failed: bool)
      requires Sound()
      modifies this, store, backend
      ensures Sound() && OthersUnchanged(name)
      ensures (View(name, Idle), backend.ticks)
              == Finish(Begin(old(View(name, Idle)), Label.Rollback(target)), backend.oracle, old(backend.ticks))
      ensures result == if Begin(old(View(name, Idle)), Label.Rollback(target)).job.Idle? then None else store.Record(name)
      ensures old(Trace(name)) <= Trace(name)
      ensures failed <==> result.None? || RejectedSince(Trace(name), |old(Trace(name))|)
    {
      ghost var c := View(name, Idle);
      assert Lineage(c);
      BeginKeepsLineage(c, Label.Rollback(target));
      result := store.Rollback(name, target);
      if result.None? {
        OthersStaySound(name);
        return None, true;
      }
      Note(name, [Enabled]);
      OthersStaySound(name);
      ghost var begun := Trace(name);
      result, failed := ReconcileFrom(name, View(name, AtGet));
      RejectedAfter(c.trace, begun, Trace(name));
    }

    method Pause(name: string) returns (result: Option<Service>)
      requires Sound()
      modifies this, store
      ensures Sound() && OthersUnchanged(name)
      ensures View(name, Idle) == Begin(old(View(name, Idle)), Label.Pause)
      ensures result == store.Record(name)
    {
      ghost var c := View(name, Idle);
      assert Lineage(c);
      BeginKeepsLineage(c, Label.Pause);
      result := store.Update(name, MarkPaused);
      if result.Some? {
        Note(name, [Silenced]);
      }
      OthersStaySound(name);
    }

    method Resume(name: string) returns (result: Option<Service>, failed: bool)
      requires Sound()
      modifies this, store, backend
      ensures Sound() && OthersUnchanged(name)
      ensures (View(name, Idle), backend.ticks)
              == Finish(Begin(old(View(name, Idle)), Label.Resume), backend.oracle, old(backend.ticks))
      ensures result == if Begin(old(View(name, Idle)), Label.Resume).job.Idle? then None else store.Record(name)
      ensures old(Trace(name)) <= Trace(name)
      ensures failed <==> result.None? || RejectedSince(Trace(name), |old(Trace(name))|)
    {
      ghost var c := View(name, Idle);
      assert Lineage(c);
      BeginKeepsLineage(c, Label.Resume);
      result := store.Update(name, MarkResumed);
      if result.None? {
        OthersStaySound(name);
        return None, true;
      }
      if !result.value.destroyed {
        Note(name, [Enabled]);
      }
      OthersStaySound(name);
      ghost var begun := Trace(name);
      result, failed := ReconcileFrom(name, View(name, AtGet));
      RejectedAfter(c.trace, begun, Trace(name));
    }

    /** Delete the resources, then say so; a cancelled delete changes nothing. */
    method Destroy(name: string, cancelled: bool) returns (result: Option<Service>)
      requires Sound()
      modifies this, store, backend
      ensures Sound() && OthersUnchanged(name) && backend.ticks == old(backend.ticks)
      ensures View(name, Idle)
              == if cancelled then old(View(name, Idle))
                 else Advanced(Begin(old(View(name, Idle)), Label.Destroy(AllDeleted)), Refused(None))
      ensures result == if cancelled then None else store.Record(name)
    {
      ghost var c := View(name, Idle);
      assert Lineage(c);
      BeginKeepsLineage(c, Label.Destroy(AllDeleted));
      var ok := backend.Delete(name, cancelled);
      if !ok {
        OthersStaySound(name);
        return None;
      }
      AdvanceKeepsLineage(View(name, AtForget), Refused(None));
      result := store.Update(name, MarkDestroyed);
      if result.Some? {
        Note(name, [Silenced]);
      }
      OthersStaySound(name);
    }

    /** Delete one resource behind the controller's back, then let it repair the damage. */
    method Drift(name: string, kind: string, cancelled: bool) returns (result: Option<Service>, failed: bool)
      requires Sound()
      modifies this, store, backend
      ensures Sound() && OthersUnchanged(name)
      ensures (View(name, Idle), backend.ticks)
              == Finish(Begin(old(View(name, Idle)), Label.Drift(kind, cancelled)), backend.oracle, old(backend.ticks))
      ensures result == if Begin(old(View(name, Idle)), Label.Drift(kind, cancelled)).job.Idle? then None else store.Record(name)
      ensures old(Trace(name)) <= Trace(name)
      ensures failed <==> result.None? || RejectedSince(Trace(name), |old(Trace(name))|)
    {
      ghost var c := View(name, Idle);
      assert Lineage(c);
      BeginKeepsLineage(c, Label.Drift(kind, cancelled));
      var ok := backend.DeleteResource(name, kind, cancelled);
      if !ok {
        OthersStaySound(name);
        return None, true;
      }
      result := store.Update(name, current => current);
      if result.None? {
        OthersStaySound(name);
        return None, true;
      }
      OthersStaySound(name);
      ghost var begun := Trace(name);
      result, failed := ReconcileFrom(name, View(name, AtGet));
      RejectedAfter(c.trace, begun, Trace(name));
    }
  }
}
