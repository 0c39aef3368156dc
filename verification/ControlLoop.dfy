/** The reconciliation loop as a step machine (internal/reconcile/controller.go).

    One step is one effect: a store operation or a backend call. The job is where the
    operation that holds the service's lock has got to. Apply, Rollback, Pause, Resume,
    Reconcile, Destroy and Drift start only when no job is in flight; ApplyDesired takes no
    lock and may fall between any two steps; a crash drops the job wherever it is. */
module ControlLoop {
  import opened Text
  import opened Manifests
  import opened Backends
  import opened Stores

  // ---------- The store updates of the controller ----------

  function MarkReconciling(s: Service): Service { s.(phase := Reconciling) }

  function RecordWaiting(s: Service, step: int): Service { s.(phase := Reconciling, rolloutStep := step) }

  function RecordConverged(s: Service, number: nat, step: int, wasRolledBack: bool): Service {
    s.(active := number, lastGood := number, rolloutStep := step, observed := GOLDEN_PATH,
       phase := if wasRolledBack then RolledBack else Ready)
  }

  function RecordFailed(s: Service, step: int): Service { s.(phase := Failing, rolloutStep := step) }

  /** The failed revision stays in the history but stops being the desired one. */
  function RecordRestored(s: Service, good: nat): Service {
    s.(desired := good, rolloutStep := 0, active := good, phase := RolledBack, observed := GOLDEN_PATH)
  }

  function MarkPaused(s: Service): Service { s.(paused := true, phase := Suspended) }

  function MarkResumed(s: Service): Service { s.(paused := false, phase := Pending) }

  function MarkDestroyed(s: Service): Service { s.(destroyed := true, phase := Removed, observed := []) }

  // ---------- The machine ----------

  datatype Job =
    | Idle
    | AtGet
    | AtMark(rev: Revision, from: int, wasRolledBack: bool)
    | AtStage(rev: Revision, todo: seq<Stage>, wasRolledBack: bool)
    | AtRecord(rev: Revision, result: RolloutResult, wasRolledBack: bool)
    | AtRestore(bad: Revision, good: Revision)
    | AtRestoreRecord(bad: Revision, good: Revision, restored: bool)
    | AtForget

  /** What happened, in order. */
  datatype Event =
    | Called(call: Call, restore: bool)
    | Waited(revision: nat, step: int)
    | Rejected(revision: nat, step: int)
    | Converged(revision: nat)
    | Restored(bad: nat, good: nat)
    | Enabled
    | Silenced

  /** The store record, the backend's contents, the job in flight and the events so far, for
      one service name; names do not interact. */
  datatype Config = Config(name: string, svc: Option<Service>, res: Contents, job: Job, trace: seq<Event>)

  datatype Deletion = AllDeleted | Interrupted(kept: set<string>)

  datatype Label =
    | Apply(m: Manifest)
    | ApplyDesired(m: Manifest)
    | Rollback(target: int)
    | Pause
    | Resume
    | Reconcile
    | Destroy(deletion: Deletion)
    | Drift(kind: string, cancelled: bool)
    | Crash
    | Advance(reply: Reply)

  function Initial(name: string, leftovers: Contents): Config {
    Config(name, None, leftovers, Idle, [])
  }

  function Log(c: Config, e: Event): Config {
    c.(trace := c.trace + [e])
  }

  function StoreApply(c: Config, m: Manifest): Config {
    var s := Applied(c.svc, m);
    if c.svc == Some(s) then c else Log(c.(svc := Some(s)), Enabled)
  }

  predicate Accepts(c: Config, m: Manifest) {
    Admissible(m) && m.name == c.name
  }

  function Begin(c: Config, l: Label): Config {
    match l
    case Apply(m) => if Accepts(c, m) then StoreApply(c, m).(job := AtGet) else c
    case Rollback(target) =>
      if c.svc.None? then c
      else
        var s := RolledBackTo(c.svc.value, target);
        if s.None? then c else Log(c.(svc := s, job := AtGet), Enabled)
    case Pause => if c.svc.None? then c else Log(c.(svc := Some(MarkPaused(c.svc.value))), Silenced)
    case Resume =>
      if c.svc.None? then c
      else
        var resumed := c.(svc := Some(MarkResumed(c.svc.value)), job := AtGet);
        if c.svc.value.destroyed then resumed else Log(resumed, Enabled)
    case Reconcile => c.(job := AtGet)
    case Destroy(AllDeleted) => c.(res := map[], job := AtForget)
    case Destroy(Interrupted(kept)) => c.(res := map kind | kind in c.res && kind in kept :: c.res[kind])
    case Drift(kind, cancelled) =>
      if cancelled || kind !in c.res then c
      else c.(res := c.res - {kind}, job := if c.svc.Some? then AtGet else Idle)
    case _ => c
  }

  const FULL_SCALE_STEP := 0

  function RestoreStage(good: Revision): Stage {
    Stage(FULL_SCALE_STEP, good.manifest.replicas, false)
  }

  function GetStep(c: Config): Config {
    if c.svc.None? || c.svc.value.destroyed || c.svc.value.paused then c.(job := Idle)
    else
      match Lookup(c.svc.value.history, c.svc.value.desired)
      case None => c.(job := Idle)
      case Some(rev) => c.(job := AtMark(rev, c.svc.value.rolloutStep, c.svc.value.phase.RolledBack?))
  }

  function MarkStep(c: Config): Config
    requires c.job.AtMark? && c.svc.Some?
  {
    c.(svc := Some(MarkReconciling(c.svc.value)),
       job := AtStage(c.job.rev, Plan(c.job.rev.manifest, c.job.from), c.job.wasRolledBack))
  }

  function StageStep(c: Config, reply: Reply): Config
    requires c.job.AtStage? && c.job.todo != []
  {
    var AtStage(rev, todo, wasRolledBack) := c.job;
    var maxRate := rev.manifest.rollout.maxErrorRate;
    var called := Log(c.(res := After(c.res, rev.number, todo[0].replicas, reply)),
                      Called(Call(rev.number, todo[0], reply), false));
    if Judge(todo[0], maxRate, reply).Pass? && |todo| > 1 then called.(job := AtStage(rev, todo[1..], wasRolledBack))
    else called.(job := AtRecord(rev, ResultOf(todo[0], maxRate, reply), wasRolledBack))
  }

  function RecordStep(c: Config): Config
    requires c.job.AtRecord? && c.svc.Some?
  {
    var AtRecord(rev, result, wasRolledBack) := c.job;
    var s := c.svc.value;
    if !result.failed && !result.ready then
      Log(c.(svc := Some(RecordWaiting(s, result.step)), job := Idle), Waited(rev.number, result.step))
    else if !result.failed then
      Log(c.(svc := Some(RecordConverged(s, rev.number, result.step, wasRolledBack)), job := Idle), Converged(rev.number))
    else
      var failed := Log(c.(svc := Some(RecordFailed(s, result.step)), job := Idle), Rejected(rev.number, result.step));
      if s.lastGood == 0 || s.lastGood == rev.number then failed
      else
        match Lookup(s.history, s.lastGood)
        case None => failed
        case Some(good) => failed.(job := AtRestore(rev, good))
  }

  /** The restore calls the backend directly: full scale, no gates, and readiness is not looked at. */
  function RestoreStep(c: Config, reply: Reply): Config
    requires c.job.AtRestore?
  {
    var AtRestore(bad, good) := c.job;
    Log(c.(res := After(c.res, good.number, good.manifest.replicas, reply),
           job := AtRestoreRecord(bad, good, reply.Accepted?)),
        Called(Call(good.number, RestoreStage(good), reply), true))
  }

  function RestoreRecordStep(c: Config): Config
    requires c.job.AtRestoreRecord? && c.svc.Some?
  {
    var AtRestoreRecord(bad, good, restored) := c.job;
    if !restored then c.(job := Idle)
    else Log(c.(svc := Some(RecordRestored(c.svc.value, good.number)), job := Idle), Restored(bad.number, good.number))
  }

  function ForgetStep(c: Config): Config {
    if c.svc.None? then c.(job := Idle)
    else Log(c.(svc := Some(MarkDestroyed(c.svc.value)), job := Idle), Silenced)
  }

  function Advanced(c: Config, reply: Reply): Config {
    match c.job
    case Idle => c
    case AtGet => GetStep(c)
    case AtMark(_, _, _) => if c.svc.Some? then MarkStep(c) else c.(job := Idle)
    case AtStage(_, todo, _) => if todo != [] then StageStep(c, reply) else c.(job := Idle)
    case AtRecord(_, _, _) => if c.svc.Some? then RecordStep(c) else c.(job := Idle)
    case AtRestore(_, _) => RestoreStep(c, reply)
    case AtRestoreRecord(_, _, _) => if c.svc.Some? then RestoreRecordStep(c) else c.(job := Idle)
    case AtForget => ForgetStep(c)
  }

  function Next(c: Config, l: Label): Config {
    match l
    case Advance(reply) => Advanced(c, reply)
    case Crash => c.(job := Idle)
    case ApplyDesired(m) => if Accepts(c, m) then StoreApply(c, m) else c
    case _ => if c.job.Idle? then Begin(c, l) else c
  }

  function Run(c: Config, ls: seq<Label>): Config
    decreases |ls|
  {
    if ls == [] then c else Next(Run(c, ls[..|ls| - 1]), ls[|ls| - 1])
  }

  lemma RunOne(c: Config, l: Label)
    ensures Run(c, [l]) == Next(c, l)
  {
    assert [l][..|[l]| - 1] == [];
    assert Run(c, []) == c;
  }

  lemma RunSnoc(c: Config, ls: seq<Label>, l: Label)
    ensures Run(c, ls + [l]) == Next(Run(c, ls), l)
  {
    assert (ls + [l])[..|ls + [l]| - 1] == ls;
  }

  lemma {:induction false} RunConcat(c: Config, xs: seq<Label>, ys: seq<Label>)
    ensures Run(c, xs + ys) == Run(Run(c, xs), ys)
    decreases |ys|
  {
    if ys == [] {
      assert xs + ys == xs;
    } else {
      assert (xs + ys)[..|xs + ys| - 1] == xs + ys[..|ys| - 1];
      RunConcat(c, xs, ys[..|ys| - 1]);
    }
  }

  /** The runs in which every store write is made under the service's lock. */
  predicate LockedOnly(c: Config, ls: seq<Label>)
    decreases |ls|
  {
    ls != [] ==>
      && LockedOnly(c, ls[..|ls| - 1])
      && (ls[|ls| - 1].ApplyDesired? ==> Run(c, ls[..|ls| - 1]).job.Idle?)
  }
}
