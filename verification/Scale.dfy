/** The replica counts a revision is scaled through, over whole locked runs without crashes. */
module Scale {
  import opened Text
  import opened Manifests
  import opened Backends
  import opened Stores
  import opened ControlLoop
  import opened Safety
  import opened Locked

  /** The largest replica count asked of the backend for the revision since it was last restored. */
  function Peak(trace: seq<Event>, revision: nat): nat {
    if trace == [] then 0
    else
      var e, before := trace[|trace| - 1], trace[..|trace| - 1];
      if e.Restored? && e.good == revision then 0
      else if e.Called? && e.call.revision == revision && e.call.stage.replicas > Peak(before, revision) then
        e.call.stage.replicas
      else Peak(before, revision)
  }

  lemma PeakLog(trace: seq<Event>, e: Event, revision: nat)
    ensures Peak(trace + [e], revision)
            == if e.Restored? && e.good == revision then 0
               else if e.Called? && e.call.revision == revision && e.call.stage.replicas > Peak(trace, revision) then
                 e.call.stage.replicas
               else Peak(trace, revision)
  {
    assert (trace + [e])[..|trace + [e]| - 1] == trace;
  }

  /** No Ensure asks for fewer replicas than an earlier one of the same revision since its last restore. */
  predicate NeverShrinks(trace: seq<Event>) {
    forall j :: 0 <= j < |trace| && trace[j].Called? ==>
      Peak(trace[..j], trace[j].call.revision) <= trace[j].call.stage.replicas
  }

  lemma NeverShrinksLog(trace: seq<Event>, e: Event)
    requires NeverShrinks(trace)
    requires e.Called? ==> Peak(trace, e.call.revision) <= e.call.stage.replicas
    ensures NeverShrinks(trace + [e])
  {
    forall j | 0 <= j < |trace + [e]| && (trace + [e])[j].Called?
      ensures Peak((trace + [e])[..j], (trace + [e])[j].call.revision) <= (trace + [e])[j].call.stage.replicas
    {
      if j < |trace| {
        assert (trace + [e])[..j] == trace[..j];
        assert (trace + [e])[j] == trace[j];
      } else {
        assert (trace + [e])[..j] == trace;
      }
    }
  }

  /** The peak bounds every call since the last restore. */
  lemma {:induction false} PeakBounds(trace: seq<Event>, i: nat, revision: nat)
    requires i < |trace| && trace[i].Called? && trace[i].call.revision == revision
    requires forall k :: i < k < |trace| ==> !(trace[k].Restored? && trace[k].good == revision)
    ensures trace[i].call.stage.replicas <= Peak(trace, revision)
    decreases |trace|
  {
    var before := trace[..|trace| - 1];
    if i < |trace| - 1 {
      assert trace[|trace| - 1] == trace[|before|];
      PeakBounds(before, i, revision);
    }
  }

  // ---------- Stages only ever grow ----------

  /** The replica count the next rollout call of the manifest starts with. */
  function StartsWith(m: Manifest, completed: int): int {
    PlanNonEmpty(m, completed);
    Plan(m, completed)[0].replicas
  }

  lemma StartBounds(m: Manifest, completed: int)
    requires Admissible(m)
    ensures 0 <= StartsWith(m, completed) <= m.replicas
    ensures !m.rollout.enabled || completed >= Last(Steps(m)) ==> StartsWith(m, completed) == m.replicas
    ensures m.rollout.enabled && completed < Last(Steps(m)) ==>
              FirstAfter(Steps(m), completed) < |Steps(m)|
              && StartsWith(m, completed) == StageAt(m, FirstAfter(Steps(m), completed)).replicas
  {
    PlanNonEmpty(m, completed);
    if m.rollout.enabled && completed < Last(Steps(m)) {
      FirstStage(m, completed);
      var first := FirstAfter(Steps(m), completed);
      RolloutReplicasMonotone(m.replicas, Steps(m)[first], Steps(m)[first]);
    }
  }

  lemma FirstStage(m: Manifest, completed: int)
    requires StrictlyIncreasing(Steps(m)) && completed < Last(Steps(m))
    ensures StagesAfter(m, Steps(m), completed) != [] && FirstAfter(Steps(m), completed) < |Steps(m)|
    ensures StagesAfter(m, Steps(m), completed)[0] == StageAt(m, FirstAfter(Steps(m), completed))
  {
    StagesAfterNonEmpty(m, Steps(m), completed);
    StagesAreContiguous(m, completed, 0);
    assert Steps(m)[0..] == Steps(m);
  }

  lemma StageAtMonotone(m: Manifest, i: nat, j: nat)
    requires Admissible(m) && m.rollout.enabled && i <= j < |Steps(m)|
    ensures 0 <= StageAt(m, i).replicas <= StageAt(m, j).replicas <= m.replicas
  {
    RolloutReplicasMonotone(m.replicas, Steps(m)[i], Steps(m)[j]);
  }

  /** After a stage stops at step n, the next call starts no lower than that stage. */
  lemma NextCallStartsNoLower(m: Manifest, n: nat)
    requires Admissible(m) && m.rollout.enabled && n < |Steps(m)|
    ensures StageAt(m, n).replicas <= StartsWith(m, Steps(m)[n])
  {
    StartBounds(m, Steps(m)[n]);
    StageAtMonotone(m, n, n);
    if Steps(m)[n] < Last(Steps(m)) {
      FirstAfterAt(Steps(m), n);
      StageAtMonotone(m, n, n + 1);
    }
  }

  // ---------- The invariant ----------

  /** What the stages of a job in flight look like. */
  predicate WellStaged(m: Manifest, todo: seq<Stage>) {
    if m.rollout.enabled then IsTail(m, todo) && (!todo[0].gated ==> todo[0].replicas == m.replicas)
    else todo == [Stage(0, m.replicas, false)]
  }

  lemma PlanWellStaged(m: Manifest, completed: int)
    requires Admissible(m)
    ensures WellStaged(m, Plan(m, completed))
  {
    if m.rollout.enabled {
      PlanIsTail(m, completed);
      if completed < Last(Steps(m)) {
        FirstStage(m, completed);
      }
    }
  }

  predicate Staged(job: Job) {
    job.AtStage? ==> WellStaged(job.rev.manifest, job.todo)
  }

  /** The count the next Ensure of the desired revision will not go below. */
  function Floor(s: Service, job: Job): int
    requires 1 <= s.desired <= |s.history|
  {
    match job
    case AtStage(_, todo, _) => if todo == [] then 0 else todo[0].replicas
    case AtRecord(rev, result, _) => StartsWith(rev.manifest, result.step)
    case _ => StartsWith(s.history[s.desired - 1].manifest, s.rolloutStep)
  }

  ghost predicate PeaksBounded(s: Service, trace: seq<Event>) {
    forall r: nat :: Peak(trace, r) <= if 1 <= r <= |s.history| then s.history[r - 1].manifest.replicas else 0
  }

  predicate WithinManifests(s: Service, trace: seq<Event>) {
    forall j :: 0 <= j < |trace| && trace[j].Called? ==>
      && 1 <= trace[j].call.revision <= |s.history|
      && trace[j].call.stage.replicas <= s.history[trace[j].call.revision - 1].manifest.replicas
  }

  predicate NoCalls(trace: seq<Event>) {
    forall j :: 0 <= j < |trace| ==> !trace[j].Called?
  }

  ghost predicate TraceOk(s: Service, trace: seq<Event>) {
    NeverShrinks(trace) && PeaksBounded(s, trace) && WithinManifests(s, trace)
  }

  ghost predicate ScaleOk(c: Config) {
    match c.svc
    case None => NoCalls(c.trace) && forall r: nat :: Peak(c.trace, r) == 0
    case Some(s) =>
      && 1 <= s.desired <= |s.history|
      && TraceOk(s, c.trace)
      && Staged(c.job)
      && Peak(c.trace, s.desired) <= Floor(s, c.job)
  }

  lemma PeaksAfterCall(trace: seq<Event>, e: Event)
    requires e.Called? && Peak(trace, e.call.revision) <= e.call.stage.replicas
    ensures Peak(trace + [e], e.call.revision) == e.call.stage.replicas
    ensures forall r: nat :: r != e.call.revision ==> Peak(trace + [e], r) == Peak(trace, r)
  {
    forall r: nat ensures Peak(trace + [e], r) == if r == e.call.revision then e.call.stage.replicas else Peak(trace, r) {
      PeakLog(trace, e, r);
    }
  }

  lemma WithinLog(s: Service, trace: seq<Event>, e: Event)
    requires WithinManifests(s, trace)
    requires e.Called? ==>
               && 1 <= e.call.revision <= |s.history|
               && e.call.stage.replicas <= s.history[e.call.revision - 1].manifest.replicas
    ensures WithinManifests(s, trace + [e])
  {
    assert forall j :: 0 <= j < |trace| ==> (trace + [e])[j] == trace[j];
  }

  lemma BoundedLog(s: Service, trace: seq<Event>, e: Event)
    requires PeaksBounded(s, trace)
    requires e.Called? ==>
               && Peak(trace, e.call.revision) <= e.call.stage.replicas
               && 1 <= e.call.revision <= |s.history|
               && e.call.stage.replicas <= s.history[e.call.revision - 1].manifest.replicas
    requires forall i :: 0 <= i < |s.history| ==> s.history[i].manifest.replicas >= 0
    ensures PeaksBounded(s, trace + [e])
  {
    forall r: nat
      ensures Peak(trace + [e], r) <= if 1 <= r <= |s.history| then s.history[r - 1].manifest.replicas else 0
    {
      PeakLog(trace, e, r);
    }
  }

  /** A call at or above its revision's peak, and within its manifest, becomes the new peak. */
  lemma CallLog(s: Service, trace: seq<Event>, e: Event)
    requires TraceOk(s, trace) && e.Called? && 1 <= e.call.revision <= |s.history|
    requires Peak(trace, e.call.revision) <= e.call.stage.replicas <= s.history[e.call.revision - 1].manifest.replicas
    requires forall i :: 0 <= i < |s.history| ==> s.history[i].manifest.replicas >= 0
    ensures TraceOk(s, trace + [e])
    ensures Peak(trace + [e], e.call.revision) == e.call.stage.replicas
    ensures forall r: nat :: r != e.call.revision ==> Peak(trace + [e], r) == Peak(trace, r)
  {
    NeverShrinksLog(trace, e);
    BoundedLog(s, trace, e);
    WithinLog(s, trace, e);
    PeaksAfterCall(trace, e);
  }

  /** Any other event never raises a peak, and a restore resets the restored revision's. */
  lemma OtherLog(s: Service, trace: seq<Event>, e: Event)
    requires TraceOk(s, trace) && !e.Called?
    requires forall i :: 0 <= i < |s.history| ==> s.history[i].manifest.replicas >= 0
    ensures TraceOk(s, trace + [e])
    ensures forall r: nat :: Peak(trace + [e], r) == if e.Restored? && e.good == r then 0 else Peak(trace, r)
  {
    NeverShrinksLog(trace, e);
    BoundedLog(s, trace, e);
    WithinLog(s, trace, e);
    forall r: nat ensures Peak(trace + [e], r) == if e.Restored? && e.good == r then 0 else Peak(trace, r) {
      PeakLog(trace, e, r);
    }
  }

  lemma LongerHistory(s: Service, t: Service, trace: seq<Event>)
    requires TraceOk(s, trace) && s.history <= t.history
    requires forall i :: |s.history| <= i < |t.history| ==> t.history[i].manifest.replicas >= 0
    ensures TraceOk(t, trace)
  {
    forall r: nat
      ensures Peak(trace, r) <= if 1 <= r <= |t.history| then t.history[r - 1].manifest.replicas else 0
    {
      if 1 <= r <= |s.history| {
        assert t.history[r - 1] == s.history[r - 1];
      }
    }
  }

  lemma StageKeepsScale(c: Config, reply: Reply)
    requires Lineage(c) && Joint(c) && ScaleOk(c) && c.job.AtStage? && c.svc.Some?
    ensures ScaleOk(StageStep(c, reply))
  {
    var AtStage(rev, todo, _) := c.job;
    StageKeepsFloor(c, reply);
    StageWithinManifest(rev.manifest, todo);
    CallLog(c.svc.value, c.trace, Called(Call(rev.number, todo[0], reply), false));
  }

  lemma StageKeepsFloor(c: Config, reply: Reply)
    requires Lineage(c) && c.job.AtStage? && Staged(c.job) && c.svc.Some?
    ensures Staged(StageStep(c, reply).job)
    ensures c.job.todo[0].replicas <= Floor(c.svc.value, StageStep(c, reply).job)
  {
    StageWithinManifest(c.job.rev.manifest, c.job.todo);
  }

  lemma StageWithinManifest(m: Manifest, todo: seq<Stage>)
    requires Admissible(m) && WellStaged(m, todo)
    ensures 0 <= todo[0].replicas <= m.replicas
    ensures |todo| > 1 ==> todo[0].replicas <= todo[1].replicas && WellStaged(m, todo[1..])
    ensures todo[0].replicas <= StartsWith(m, todo[0].step)
  {
    StartBounds(m, todo[0].step);
    if m.rollout.enabled && todo[0].gated {
      var n := |Steps(m)| - |todo|;
      assert todo[0] == StageAt(m, n);
      StageAtMonotone(m, n, n);
      NextCallStartsNoLower(m, n);
      if |todo| > 1 {
        TailShrinks(m, todo);
        assert todo[1] == StageAt(m, n + 1);
        StageAtMonotone(m, n, n + 1);
        assert todo[1..][0].gated;
      }
    }
  }

  lemma RestoreKeepsScale(c: Config, reply: Reply)
    requires Lineage(c) && Joint(c) && ScaleOk(c) && c.job.AtRestore? && c.svc.Some?
    ensures ScaleOk(RestoreStep(c, reply))
  {
    var good := c.job.good;
    CallLog(c.svc.value, c.trace, Called(Call(good.number, RestoreStage(good), reply), true));
  }

  lemma RestoreRecordKeepsScale(c: Config)
    requires Lineage(c) && Joint(c) && ScaleOk(c) && c.job.AtRestoreRecord? && c.svc.Some?
    ensures ScaleOk(RestoreRecordStep(c))
  {
    if c.job.restored {
      RestoredFromZero(c.svc.value, c.trace, c.job.bad.number, c.job.good);
    }
  }

  lemma RestoredFromZero(s: Service, trace: seq<Event>, bad: nat, good: Revision)
    requires ServiceOk(s.name, s) && InHistory(s, good) && TraceOk(s, trace)
    ensures var t := RecordRestored(s, good.number);
            var after := trace + [Restored(bad, good.number)];
            TraceOk(t, after) && 0 == Peak(after, t.desired) <= Floor(t, Idle)
  {
    var t := RecordRestored(s, good.number);
    LongerHistory(s, t, trace);
    RestoreLog(t, trace, bad, good.number);
    StartBounds(good.manifest, 0);
  }

  lemma RestoreLog(t: Service, trace: seq<Event>, bad: nat, good: nat)
    requires TraceOk(t, trace) && forall i :: 0 <= i < |t.history| ==> t.history[i].manifest.replicas >= 0
    ensures TraceOk(t, trace + [Restored(bad, good)]) && Peak(trace + [Restored(bad, good)], good) == 0
  {
    OtherLog(t, trace, Restored(bad, good));
  }

  lemma RecordKeepsScale(c: Config)
    requires Lineage(c) && Joint(c) && ScaleOk(c) && c.job.AtRecord? && c.svc.Some?
    ensures ScaleOk(RecordStep(c))
  {
    var AtRecord(rev, result, _) := c.job;
    var e := RecordedEvent(rev, result);
    RecordLogs(c);
    RecordKeepsFloor(c);
    OtherLog(c.svc.value, c.trace, e);
    LongerHistory(c.svc.value, RecordStep(c).svc.value, c.trace + [e]);
    assert Peak(c.trace + [e], c.svc.value.desired) == Peak(c.trace, c.svc.value.desired);
  }

  lemma RecordKeepsFloor(c: Config)
    requires Lineage(c) && Joint(c) && c.job.AtRecord? && c.svc.Some?
    ensures var d := RecordStep(c);
            && d.svc.Some? && d.svc.value.desired == c.svc.value.desired && d.svc.value.history == c.svc.value.history
            && Staged(d.job) && Floor(d.svc.value, d.job) == Floor(c.svc.value, c.job)
  {
    RecordLogs(c);
  }

  lemma MarkKeepsScale(c: Config)
    requires Lineage(c) && Joint(c) && ScaleOk(c) && c.job.AtMark? && c.svc.Some?
    ensures ScaleOk(MarkStep(c))
  {
    PlanWellStaged(c.job.rev.manifest, c.job.from);
  }

  /** The steps that neither move a rollout in flight nor call the backend: they enable or
      silence the service, or log nothing. */
  predicate Bystander(c: Config, d: Config) {
    && (d.trace == c.trace || d.trace == c.trace + [Enabled] || d.trace == c.trace + [Silenced])
    && (d.job == c.job || (!d.job.AtStage? && !d.job.AtRecord? && !c.job.AtStage? && !c.job.AtRecord?))
    && (d.svc.None? ==> c.svc.None?)
    && (d.svc.Some? ==>
        || (c.svc.Some? && d.svc.value.history == c.svc.value.history && d.svc.value.desired == c.svc.value.desired
            && d.svc.value.rolloutStep == c.svc.value.rolloutStep)
        || (!d.job.AtStage? && !d.job.AtRecord? && FreshRevision(c.svc, d.svc.value)))
  }

  predicate FreshRevision(s: Option<Service>, t: Service) {
    && t.desired == |t.history| && t.rolloutStep == 0
    && match s
       case None => |t.history| == 1
       case Some(known) => known.history <= t.history && |t.history| == |known.history| + 1
  }

  lemma BystanderKeepsScaleOfKnown(c: Config, d: Config)
    requires Lineage(d) && ScaleOk(c) && Bystander(c, d) && c.svc.Some? && d.svc.Some?
    ensures ScaleOk(d)
  {
    BystanderKeepsTrace(c, d);
    if FreshRevision(c.svc, d.svc.value) {
      FreshKeepsPeak(c, d);
    } else {
      SameFloor(c.svc.value, d.svc.value, c.job, d.job);
    }
  }

  lemma BystanderKeepsTrace(c: Config, d: Config)
    requires Lineage(d) && ScaleOk(c) && Bystander(c, d) && c.svc.Some? && d.svc.Some?
    ensures TraceOk(d.svc.value, d.trace) && Peak(d.trace, d.svc.value.desired) == Peak(c.trace, d.svc.value.desired)
  {
    LongerHistory(c.svc.value, d.svc.value, c.trace);
    if d.trace != c.trace {
      QuietLog(d.svc.value, c.trace, d.trace[|c.trace|]);
    }
  }

  lemma FreshKeepsPeak(c: Config, d: Config)
    requires Lineage(d) && ScaleOk(c) && c.svc.Some? && d.svc.Some? && FreshRevision(c.svc, d.svc.value)
    requires Bystander(c, d)
    ensures Peak(c.trace, d.svc.value.desired) <= Floor(d.svc.value, d.job) && Staged(d.job)
  {
    var t := d.svc.value;
    assert PeaksBounded(c.svc.value, c.trace) && t.desired > |c.svc.value.history|;
    StartBounds(t.history[t.desired - 1].manifest, t.rolloutStep);
  }

  /** Events that neither call nor restore change no peak. */
  lemma QuietLog(t: Service, trace: seq<Event>, e: Event)
    requires TraceOk(t, trace) && !e.Called? && !e.Restored?
    requires forall i :: 0 <= i < |t.history| ==> t.history[i].manifest.replicas >= 0
    ensures TraceOk(t, trace + [e]) && Peak(trace + [e], t.desired) == Peak(trace, t.desired)
  {
    OtherLog(t, trace, e);
  }

  lemma SameFloor(s: Service, t: Service, job: Job, next: Job)
    requires 1 <= s.desired <= |s.history| && t.history == s.history && t.desired == s.desired && t.rolloutStep == s.rolloutStep
    requires next == job || (!next.AtStage? && !next.AtRecord? && !job.AtStage? && !job.AtRecord?)
    ensures Floor(t, next) == Floor(s, job)
  {
  }

  lemma NoPeaksLog(trace: seq<Event>, after: seq<Event>)
    requires NoCalls(trace) && forall r: nat :: Peak(trace, r) == 0
    requires after == trace || after == trace + [Enabled] || after == trace + [Silenced]
    ensures NoCalls(after) && forall r: nat :: Peak(after, r) == 0
  {
    if after != trace {
      forall r: nat ensures Peak(after, r) == 0 { PeakLog(trace, after[|trace|], r); }
    }
  }

  lemma BystanderKeepsScaleOfUnknown(c: Config, d: Config)
    requires Lineage(d) && ScaleOk(c) && Bystander(c, d) && c.svc.None?
    ensures ScaleOk(d)
  {
    NoPeaksLog(c.trace, d.trace);
    if d.svc.Some? {
      StartBounds(d.svc.value.history[d.svc.value.desired - 1].manifest, d.svc.value.rolloutStep);
    }
  }

  lemma OthersAreBystanders(c: Config, l: Label)
    requires Lineage(c) && Orderly(c, l) && !l.Crash? && !(l.Advance? && c.svc.Some? && Working(c.job))
    ensures Bystander(c, Next(c, l))
  {
  }

  lemma NextKeepsScale(c: Config, l: Label)
    requires Lineage(c) && Joint(c) && ScaleOk(c) && Orderly(c, l) && !l.Crash?
    ensures ScaleOk(Next(c, l))
  {
    if l.Advance? && c.svc.Some? && Working(c.job) {
      match c.job {
        case AtMark(_, _, _) => MarkKeepsScale(c);
        case AtStage(_, _, _) => StageKeepsScale(c, l.reply);
        case AtRecord(_, _, _) => RecordKeepsScale(c);
        case AtRestore(_, _) => RestoreKeepsScale(c, l.reply);
        case AtRestoreRecord(_, _, _) => RestoreRecordKeepsScale(c);
      }
    } else {
      NextKeepsLineage(c, l);
      OthersAreBystanders(c, l);
      if c.svc.Some? {
        BystanderKeepsScaleOfKnown(c, Next(c, l));
      } else {
        BystanderKeepsScaleOfUnknown(c, Next(c, l));
      }
    }
  }

  predicate CrashFree(ls: seq<Label>) {
    forall i :: 0 <= i < |ls| ==> !ls[i].Crash?
  }

  /** In every crash-free locked run no Ensure goes below the revision's peak or above its manifest. */
  lemma {:induction false} ScaleInEveryLockedRun(name: string, leftovers: Contents, ls: seq<Label>)
    requires LockedOnly(Initial(name, leftovers), ls) && CrashFree(ls)
    ensures ScaleOk(Run(Initial(name, leftovers), ls))
    decreases |ls|
  {
    if ls != [] {
      ScaleInEveryLockedRun(name, leftovers, ls[..|ls| - 1]);
      JointInEveryLockedRun(name, leftovers, ls[..|ls| - 1]);
      LineageInEveryRun(name, leftovers, ls[..|ls| - 1]);
      NextKeepsScale(Run(Initial(name, leftovers), ls[..|ls| - 1]), ls[|ls| - 1]);
    }
  }

  predicate SameRevisionCalls(trace: seq<Event>, i: nat, j: nat) {
    && i < j < |trace| && trace[i].Called? && trace[j].Called?
    && trace[i].call.revision == trace[j].call.revision
    && forall k :: i < k < j ==> !(trace[k].Restored? && trace[k].good == trace[i].call.revision)
  }

  lemma CallsNeverShrink(trace: seq<Event>, i: nat, j: nat)
    requires NeverShrinks(trace) && SameRevisionCalls(trace, i, j)
    ensures trace[i].call.stage.replicas <= trace[j].call.stage.replicas
  {
    var before := trace[..j];
    assert before[i] == trace[i];
    PeakBounds(before, i, trace[i].call.revision);
  }

  /** Scale never goes back within a revision: in a locked run without crashes, two Ensures of
      the same revision with no restore of it in between ask for a nondecreasing replica
      count, which never exceeds the manifest's. */
  lemma ScaleNeverGoesBack(name: string, leftovers: Contents, ls: seq<Label>, i: nat, j: nat)
    requires LockedOnly(Initial(name, leftovers), ls) && CrashFree(ls)
    requires SameRevisionCalls(Run(Initial(name, leftovers), ls).trace, i, j)
    ensures var trace := Run(Initial(name, leftovers), ls).trace;
            trace[i].call.stage.replicas <= trace[j].call.stage.replicas
    ensures var c := Run(Initial(name, leftovers), ls);
            && c.svc.Some? && WithinManifests(c.svc.value, c.trace)
  {
    ScaleInEveryLockedRun(name, leftovers, ls);
    CallsNeverShrink(Run(Initial(name, leftovers), ls).trace, i, j);
  }
}
