/** What every run keeps, with ApplyDesired interleaved anywhere and crashes anywhere. */
module Safety {
  import opened Text
  import opened Manifests
  import opened Backends
  import opened Stores
  import opened ControlLoop

  // ---------- Revision lineage ----------

  predicate InHistory(s: Service, rev: Revision) {
    1 <= rev.number <= |s.history| && s.history[rev.number - 1] == rev
  }

  predicate ServiceOk(name: string, s: Service) {
    && s.name == name
    && Numbered(s.history)
    && (forall i :: 0 <= i < |s.history| ==> Admissible(s.history[i].manifest) && s.history[i].manifest.name == name)
    && 1 <= s.desired <= |s.history|
    && s.active == s.lastGood <= |s.history|
  }

  predicate JobOk(s: Service, job: Job) {
    match job
    case Idle => true
    case AtGet => true
    case AtMark(rev, _, _) => InHistory(s, rev)
    case AtStage(rev, todo, _) => InHistory(s, rev) && todo != []
    case AtRecord(rev, _, _) => InHistory(s, rev)
    case AtRestore(bad, good) => InHistory(s, bad) && InHistory(s, good) && good.number == s.lastGood != bad.number
    case AtRestoreRecord(bad, good, _) => InHistory(s, bad) && InHistory(s, good) && good.number == s.lastGood != bad.number
    case AtForget => true
  }

  predicate Lineage(c: Config) {
    match c.svc
    case None => c.job.Idle? || c.job.AtGet? || c.job.AtForget?
    case Some(s) => ServiceOk(c.name, s) && JobOk(s, c.job)
  }

  lemma AppendedOk(name: string, s: Service, m: Manifest, job: Job)
    requires s == NewService(name) || (ServiceOk(name, s) && JobOk(s, job))
    requires Admissible(m) && m.name == name
    ensures ServiceOk(name, Appended(s, m))
    ensures s != NewService(name) ==> JobOk(Appended(s, m), job)
  {
  }

  lemma StoreApplyKeepsLineage(c: Config, m: Manifest)
    requires Lineage(c) && Accepts(c, m)
    ensures Lineage(StoreApply(c, m))
  {
    AppendedOk(c.name, if c.svc.Some? then c.svc.value else NewService(c.name), m, c.job);
  }

  lemma BeginKeepsLineage(c: Config, l: Label)
    requires Lineage(c) && c.job.Idle?
    ensures Lineage(Begin(c, l))
  {
    match l {
      case Apply(m) => if Accepts(c, m) { StoreApplyKeepsLineage(c, m); }
      case Rollback(target) =>
        if c.svc.Some? {
          var s := c.svc.value;
          LookupNumbered(s.history, RollbackTarget(s, target));
          if RolledBackTo(s, target).Some? {
            AppendedOk(c.name, s, Lookup(s.history, RollbackTarget(s, target)).value.manifest, Idle);
          }
        }
      case _ =>
    }
  }

  lemma RecordKeepsLineage(c: Config)
    requires Lineage(c) && c.job.AtRecord? && c.svc.Some?
    ensures Lineage(RecordStep(c))
  {
    LookupNumbered(c.svc.value.history, c.svc.value.lastGood);
  }

  lemma AdvanceKeepsLineage(c: Config, reply: Reply)
    requires Lineage(c)
    ensures Lineage(Advanced(c, reply))
  {
    match c.job {
      case AtGet =>
        if c.svc.Some? { LookupNumbered(c.svc.value.history, c.svc.value.desired); }
      case AtMark(rev, from, _) => PlanNonEmpty(rev.manifest, from);
      case AtRecord(_, _, _) => RecordKeepsLineage(c);
      case _ =>
    }
  }

  lemma NextKeepsLineage(c: Config, l: Label)
    requires Lineage(c)
    ensures Lineage(Next(c, l))
  {
    match l {
      case Advance(reply) => AdvanceKeepsLineage(c, reply);
      case Crash =>
      case ApplyDesired(m) => if Accepts(c, m) { StoreApplyKeepsLineage(c, m); }
      case _ => if c.job.Idle? { BeginKeepsLineage(c, l); }
    }
  }

  /** In every reachable state revision i is the i-th history entry, every pointer is in
      range, and the active revision is the last known good one. */
  lemma {:induction false} LineageInEveryRun(name: string, leftovers: Contents, ls: seq<Label>)
    ensures Lineage(Run(Initial(name, leftovers), ls))
    ensures Run(Initial(name, leftovers), ls).name == name
    decreases |ls|
  {
    if ls != [] {
      LineageInEveryRun(name, leftovers, ls[..|ls| - 1]);
      NextKeepsLineage(Run(Initial(name, leftovers), ls[..|ls| - 1]), ls[|ls| - 1]);
    }
  }

  /** Nothing is ever removed from the history or rewritten in it, and the service stays known. */
  lemma {:induction false} HistoryIsAppendOnly(name: string, leftovers: Contents, before: seq<Label>, more: seq<Label>)
    ensures var c, d := Run(Initial(name, leftovers), before), Run(Initial(name, leftovers), before + more);
            c.svc.Some? ==> d.svc.Some? && c.svc.value.history <= d.svc.value.history
    decreases |more|
  {
    if more == [] {
      assert before + more == before;
    } else {
      assert (before + more)[..|before + more| - 1] == before + more[..|more| - 1];
      HistoryIsAppendOnly(name, leftovers, before, more[..|more| - 1]);
      NextExtendsHistory(Run(Initial(name, leftovers), before + more[..|more| - 1]), more[|more| - 1]);
    }
  }

  lemma NextExtendsHistory(c: Config, l: Label)
    ensures c.svc.Some? ==> Next(c, l).svc.Some? && c.svc.value.history <= Next(c, l).svc.value.history
  {
  }

  lemma NextLogsAtMostOne(c: Config, l: Label)
    ensures var d := Next(c, l);
            d.trace == c.trace || (|d.trace| == |c.trace| + 1 && d.trace == c.trace + [d.trace[|c.trace|]])
  {
  }

  // ---------- The last known good revision ----------

  /** The revision of the latest Converged event, 0 where there is none. */
  function LastConverged(trace: seq<Event>): nat {
    if trace == [] then 0
    else if trace[|trace| - 1].Converged? then trace[|trace| - 1].revision
    else LastConverged(trace[..|trace| - 1])
  }

  lemma LastConvergedLog(trace: seq<Event>, e: Event)
    ensures LastConverged(trace + [e]) == if e.Converged? then e.revision else LastConverged(trace)
  {
    assert (trace + [e])[..|trace + [e]| - 1] == trace;
  }

  predicate EverConverged(trace: seq<Event>) {
    exists i :: 0 <= i < |trace| && trace[i].Converged?
  }

  predicate ConvergedPositive(trace: seq<Event>) {
    forall i :: 0 <= i < |trace| && trace[i].Converged? ==> trace[i].revision >= 1
  }

  lemma {:induction false} LastConvergedZero(trace: seq<Event>)
    requires ConvergedPositive(trace)
    ensures LastConverged(trace) == 0 <==> !EverConverged(trace)
  {
    if trace != [] {
      var prefix := trace[..|trace| - 1];
      LastConvergedZero(prefix);
      if EverConverged(prefix) {
        var i :| 0 <= i < |prefix| && prefix[i].Converged?;
        assert trace[i].Converged?;
      }
    }
  }

  predicate ReadyCall(e: Event, revision: nat) {
    e.Called? && e.call.revision == revision && e.call.reply.Accepted? && e.call.reply.ready
  }

  predicate WasReady(trace: seq<Event>, revision: nat) {
    exists i :: 0 <= i < |trace| && ReadyCall(trace[i], revision)
  }

  lemma WasReadyLog(trace: seq<Event>, e: Event, revision: nat)
    ensures WasReady(trace, revision) ==> WasReady(trace + [e], revision)
    ensures ReadyCall(e, revision) ==> WasReady(trace + [e], revision)
  {
    if WasReady(trace, revision) {
      var i :| 0 <= i < |trace| && ReadyCall(trace[i], revision);
      assert ReadyCall((trace + [e])[i], revision);
    }
    assert (trace + [e])[|trace|] == e;
  }

  predicate GoodIsEarned(c: Config) {
    && ConvergedPositive(c.trace)
    && LastConverged(c.trace) == (if c.svc.Some? then c.svc.value.lastGood else 0)
    && (c.svc.Some? && c.svc.value.lastGood != 0 ==> WasReady(c.trace, c.svc.value.lastGood))
    && (c.job.AtRecord? && !c.job.result.failed && c.job.result.ready ==> WasReady(c.trace, c.job.rev.number))
  }

  lemma LogKeepsGood(c: Config, d: Config, e: Event)
    requires GoodIsEarned(c) && d.trace == c.trace + [e] && !e.Converged?
    requires d.svc.Some? ==> d.svc.value.lastGood == if c.svc.Some? then c.svc.value.lastGood else 0
    requires d.svc.None? ==> c.svc.None?
    requires d.job.AtRecord? && !d.job.result.failed && d.job.result.ready ==> d.job == c.job || ReadyCall(e, d.job.rev.number)
    ensures GoodIsEarned(d)
  {
    LastConvergedLog(c.trace, e);
    if d.svc.Some? { WasReadyLog(c.trace, e, d.svc.value.lastGood); }
    if d.job.AtRecord? { WasReadyLog(c.trace, e, d.job.rev.number); }
  }

  lemma RecordKeepsGood(c: Config)
    requires Lineage(c) && GoodIsEarned(c) && c.job.AtRecord? && c.svc.Some?
    ensures GoodIsEarned(RecordStep(c))
  {
    var AtRecord(rev, result, _) := c.job;
    if result.failed {
      LogKeepsGood(c, RecordStep(c), Rejected(rev.number, result.step));
    } else if !result.ready {
      LogKeepsGood(c, RecordStep(c), Waited(rev.number, result.step));
    } else {
      LastConvergedLog(c.trace, Converged(rev.number));
      WasReadyLog(c.trace, Converged(rev.number), rev.number);
    }
  }

  lemma StageKeepsGood(c: Config, reply: Reply)
    requires GoodIsEarned(c) && c.job.AtStage? && c.job.todo != [] && c.svc.Some?
    ensures GoodIsEarned(StageStep(c, reply))
  {
    LogKeepsGood(c, StageStep(c, reply), Called(Call(c.job.rev.number, c.job.todo[0], reply), false));
  }

  lemma RestoreKeepsGood(c: Config, reply: Reply)
    requires GoodIsEarned(c) && c.job.AtRestore? && c.svc.Some?
    ensures GoodIsEarned(RestoreStep(c, reply))
  {
    LogKeepsGood(c, RestoreStep(c, reply), Called(Call(c.job.good.number, RestoreStage(c.job.good), reply), true));
  }

  lemma AdvanceKeepsGood(c: Config, reply: Reply)
    requires Lineage(c) && GoodIsEarned(c)
    ensures GoodIsEarned(Advanced(c, reply))
  {
    match c.job {
      case AtStage(_, _, _) => StageKeepsGood(c, reply);
      case AtRecord(_, _, _) => RecordKeepsGood(c);
      case AtRestore(_, _) => RestoreKeepsGood(c, reply);
      case AtRestoreRecord(bad, good, restored) =>
        if restored { LogKeepsGood(c, RestoreRecordStep(c), Restored(bad.number, good.number)); }
      case AtForget => if c.svc.Some? { LogKeepsGood(c, ForgetStep(c), Silenced); }
      case _ =>
    }
  }

  lemma NextKeepsGood(c: Config, l: Label)
    requires Lineage(c) && GoodIsEarned(c)
    ensures GoodIsEarned(Next(c, l))
  {
    if l.Advance? {
      AdvanceKeepsGood(c, l.reply);
    } else {
      var d := Next(c, l);
      NextLogsAtMostOne(c, l);
      if d.trace != c.trace {
        LogKeepsGood(c, d, d.trace[|c.trace|]);
      }
    }
  }

  /** In every run the last known good revision is the one that converged last, and it was once
      ensured ready. */
  lemma {:induction false} GoodIsEarnedInEveryRun(name: string, leftovers: Contents, ls: seq<Label>)
    ensures GoodIsEarned(Run(Initial(name, leftovers), ls))
    decreases |ls|
  {
    if ls != [] {
      var c := Run(Initial(name, leftovers), ls[..|ls| - 1]);
      GoodIsEarnedInEveryRun(name, leftovers, ls[..|ls| - 1]);
      LineageInEveryRun(name, leftovers, ls[..|ls| - 1]);
      NextKeepsGood(c, ls[|ls| - 1]);
    }
  }

  /** Which rollbacks a record accepts, and what they make of it. */
  lemma RollbackExactly(name: string, s: Service, target: int)
    requires ServiceOk(name, s)
    ensures var chosen := if target == 0 then s.lastGood else target;
            && (RolledBackTo(s, target).Some? <==> 1 <= chosen <= |s.history|)
            && (RolledBackTo(s, target).Some? ==>
                var t := RolledBackTo(s, target).value;
                && t.desired == |s.history| + 1
                && t.history == s.history + [Revision(t.desired, s.history[chosen - 1].manifest)]
                && t.lastGood == s.lastGood && t.active == s.active
                && t.rolloutStep == 0 && !t.paused && !t.destroyed && t.phase == Pending)
  {
    LookupNumbered(s.history, RollbackTarget(s, target));
  }

  /** A rollback to the last known good revision fails exactly when nothing ever converged;
      one to revision t succeeds exactly when t is in the history, and then desires a new
      revision with the manifest of t. */
  lemma RollbackInEveryRun(name: string, leftovers: Contents, ls: seq<Label>, target: int)
    ensures var c := Run(Initial(name, leftovers), ls);
            c.svc.Some? ==>
              && (target == 0 ==> (RolledBackTo(c.svc.value, target).Some? <==> EverConverged(c.trace)))
              && (target != 0 ==> (RolledBackTo(c.svc.value, target).Some? <==> 1 <= target <= |c.svc.value.history|))
    ensures Run(Initial(name, leftovers), ls).svc.None? ==> !EverConverged(Run(Initial(name, leftovers), ls).trace)
  {
    var c := Run(Initial(name, leftovers), ls);
    LineageInEveryRun(name, leftovers, ls);
    GoodIsEarnedInEveryRun(name, leftovers, ls);
    LastConvergedZero(c.trace);
    if c.svc.Some? {
      RollbackExactly(name, c.svc.value, target);
    }
  }

  // ---------- Flags and silence ----------

  /** The job is past the check that skips paused and destroyed services. */
  predicate Working(job: Job) {
    !job.Idle? && !job.AtGet? && !job.AtForget?
  }

  predicate Halted(c: Config) {
    c.svc.Some? && (c.svc.value.paused || c.svc.value.destroyed)
  }

  predicate FlagsCoherent(c: Config) {
    && (c.job.AtForget? ==> c.res == map[])
    && (Working(c.job) ==> !Halted(c))
    && (c.svc.Some? ==>
        var s := c.svc.value;
        && (s.paused ==> s.phase.Suspended? || s.phase.Removed?)
        && (s.phase.Suspended? ==> s.paused)
        && (s.phase.Removed? ==> s.destroyed)
        && (s.destroyed ==> c.res == map[]))
  }

  /** The latest enabling or silencing event, if any, was a silencing one. */
  predicate Muted(trace: seq<Event>) {
    trace != [] &&
    match trace[|trace| - 1]
    case Silenced => true
    case Enabled => false
    case _ => Muted(trace[..|trace| - 1])
  }

  lemma MutedLog(trace: seq<Event>, e: Event)
    ensures Muted(trace + [e]) <==> e.Silenced? || (!e.Enabled? && Muted(trace))
  {
    assert (trace + [e])[..|trace + [e]| - 1] == trace;
  }

  /** Every Ensure so far was made while not muted. */
  predicate Silent(trace: seq<Event>) {
    forall j :: 0 <= j < |trace| && trace[j].Called? ==> !Muted(trace[..j])
  }

  predicate FlagsOk(c: Config) {
    FlagsCoherent(c) && (Halted(c) <==> Muted(c.trace)) && Silent(c.trace)
  }

  lemma SilentLog(trace: seq<Event>, e: Event)
    requires Silent(trace) && (e.Called? ==> !Muted(trace))
    ensures Silent(trace + [e])
  {
    forall j | 0 <= j < |trace + [e]| && (trace + [e])[j].Called?
      ensures !Muted((trace + [e])[..j])
    {
      assert (trace + [e])[..j] == trace[..j];
      assert trace[..|trace|] == trace;
    }
  }

  lemma LogKeepsSilence(c: Config, d: Config, e: Event)
    requires FlagsOk(c) && FlagsCoherent(d) && d.trace == c.trace + [e]
    requires e.Called? ==> !Halted(c)
    requires Halted(d) <==> e.Silenced? || (!e.Enabled? && Halted(c))
    ensures FlagsOk(d)
  {
    MutedLog(c.trace, e);
    SilentLog(c.trace, e);
  }

  lemma NextKeepsCoherence(c: Config, l: Label)
    requires FlagsCoherent(c)
    ensures FlagsCoherent(Next(c, l))
  {
    match l {
      case Advance(reply) =>
      case Crash =>
      case ApplyDesired(m) =>
      case _ => if c.job.Idle? { BeginKeepsCoherence(c, l); }
    }
  }

  lemma BeginKeepsCoherence(c: Config, l: Label)
    requires FlagsCoherent(c) && c.job.Idle?
    ensures FlagsCoherent(Begin(c, l))
  {
  }

  lemma NextKeepsFlags(c: Config, l: Label)
    requires FlagsOk(c)
    ensures FlagsOk(Next(c, l))
  {
    NextKeepsCoherence(c, l);
    var d := Next(c, l);
    NextLogsAtMostOne(c, l);
    if d.trace != c.trace {
      LoggedFlags(c, l, d.trace[|c.trace|]);
      LogKeepsSilence(c, d, d.trace[|c.trace|]);
    } else {
      QuietFlags(c, l);
    }
  }

  /** What the logged event says of the flags. */
  lemma LoggedFlags(c: Config, l: Label, e: Event)
    requires FlagsOk(c) && Next(c, l).trace == c.trace + [e]
    ensures e.Called? ==> !Halted(c)
    ensures Halted(Next(c, l)) <==> e.Silenced? || (!e.Enabled? && Halted(c))
  {
    assert Next(c, l).trace[|c.trace|] == e;
  }

  lemma QuietFlags(c: Config, l: Label)
    requires FlagsOk(c) && Next(c, l).trace == c.trace
    ensures Halted(Next(c, l)) == Halted(c)
  {
  }

  /** In every run: a paused service's phase is paused or destroyed, those phases imply their
      flags, a destroyed service holds nothing, and no Ensure happens between a completed
      Pause or Destroy and the next operation that enables the service again. */
  lemma {:induction false} FlagsInEveryRun(name: string, leftovers: Contents, ls: seq<Label>)
    ensures FlagsOk(Run(Initial(name, leftovers), ls))
    decreases |ls|
  {
    if ls != [] {
      FlagsInEveryRun(name, leftovers, ls[..|ls| - 1]);
      NextKeepsFlags(Run(Initial(name, leftovers), ls[..|ls| - 1]), ls[|ls| - 1]);
    }
  }

  // ---------- A replaced revision is never tried again ----------

  function JobRevisions(job: Job): set<nat> {
    match job
    case AtMark(rev, _, _) => {rev.number}
    case AtStage(rev, _, _) => {rev.number}
    case AtRecord(rev, _, _) => {rev.number}
    case AtRestore(bad, good) => {bad.number, good.number}
    case AtRestoreRecord(bad, good, _) => {bad.number, good.number}
    case _ => {}
  }

  predicate OutOfReach(c: Config, number: nat) {
    && c.svc.Some?
    && 1 <= number <= |c.svc.value.history|
    && number != c.svc.value.desired && number != c.svc.value.lastGood
    && number !in JobRevisions(c.job)
  }

  /** After a restore replaced a revision, no later Ensure is made for it. */
  predicate NeverAgain(trace: seq<Event>) {
    forall i, j :: 0 <= i < j < |trace| && trace[i].Restored? && trace[j].Called? ==> trace[j].call.revision != trace[i].bad
  }

  predicate ReplacedStaysReplaced(c: Config) {
    && NeverAgain(c.trace)
    && forall i :: 0 <= i < |c.trace| && c.trace[i].Restored? ==> OutOfReach(c, c.trace[i].bad)
  }

  lemma NextKeepsOutOfReach(c: Config, l: Label, number: nat)
    requires Lineage(c) && OutOfReach(c, number)
    ensures OutOfReach(Next(c, l), number)
  {
    match l {
      case Advance(reply) => AdvanceKeepsOutOfReach(c, reply, number);
      case _ =>
    }
  }

  lemma AdvanceKeepsOutOfReach(c: Config, reply: Reply, number: nat)
    requires Lineage(c) && OutOfReach(c, number)
    ensures OutOfReach(Advanced(c, reply), number)
  {
    match c.job {
      case AtGet => LookupNumbered(c.svc.value.history, c.svc.value.desired);
      case AtRecord(_, _, _) => RecordKeepsOutOfReach(c, number);
      case AtStage(_, _, _) => assert StageStep(c, reply).svc == c.svc;
      case _ =>
    }
  }

  lemma RecordKeepsOutOfReach(c: Config, number: nat)
    requires Lineage(c) && OutOfReach(c, number) && c.job.AtRecord?
    ensures OutOfReach(RecordStep(c), number)
  {
    LookupNumbered(c.svc.value.history, c.svc.value.lastGood);
  }

  lemma CalledInJob(c: Config, l: Label, e: Event)
    requires Next(c, l).trace == c.trace + [e] && e.Called?
    ensures e.call.revision in JobRevisions(c.job)
  {
    assert Next(c, l).trace[|c.trace|] == e;
  }

  lemma RestoredIsOutOfReach(c: Config, l: Label, e: Event)
    requires Lineage(c) && Next(c, l).trace == c.trace + [e] && e.Restored?
    ensures OutOfReach(Next(c, l), e.bad)
  {
    assert Next(c, l).trace[|c.trace|] == e;
  }

  lemma NextKeepsReplaced(c: Config, l: Label)
    requires Lineage(c) && ReplacedStaysReplaced(c)
    ensures ReplacedStaysReplaced(Next(c, l))
  {
    var d := Next(c, l);
    forall i | 0 <= i < |c.trace| && c.trace[i].Restored?
      ensures OutOfReach(d, c.trace[i].bad)
    {
      NextKeepsOutOfReach(c, l, c.trace[i].bad);
    }
    NextLogsAtMostOne(c, l);
    if |d.trace| > |c.trace| {
      var e := d.trace[|c.trace|];
      if e.Called? { CalledInJob(c, l, e); }
      if e.Restored? { RestoredIsOutOfReach(c, l, e); }
    }
  }

  /** In every run, a revision that failed and was replaced by a successful restore is never
      passed to Ensure again, and it stays in the history. */
  lemma {:induction false} ReplacedInEveryRun(name: string, leftovers: Contents, ls: seq<Label>)
    ensures ReplacedStaysReplaced(Run(Initial(name, leftovers), ls))
    decreases |ls|
  {
    if ls != [] {
      ReplacedInEveryRun(name, leftovers, ls[..|ls| - 1]);
      LineageInEveryRun(name, leftovers, ls[..|ls| - 1]);
      NextKeepsReplaced(Run(Initial(name, leftovers), ls[..|ls| - 1]), ls[|ls| - 1]);
    }
  }

  /** A revision out of reach is never passed to Ensure again, in any continuation. */
  lemma {:induction false} OutOfReachForever(c: Config, ls: seq<Label>, number: nat)
    requires Lineage(c) && OutOfReach(c, number)
    ensures Lineage(Run(c, ls)) && OutOfReach(Run(c, ls), number)
    ensures |c.trace| <= |Run(c, ls).trace|
    ensures forall j :: |c.trace| <= j < |Run(c, ls).trace| && Run(c, ls).trace[j].Called? ==>
              Run(c, ls).trace[j].call.revision != number
    decreases |ls|
  {
    if ls != [] {
      var d := Run(c, ls[..|ls| - 1]);
      var l := ls[|ls| - 1];
      OutOfReachForever(c, ls[..|ls| - 1], number);
      NextKeepsLineage(d, l);
      NextKeepsOutOfReach(d, l, number);
      NextLogsAtMostOne(d, l);
      if Next(d, l).trace != d.trace && Next(d, l).trace[|d.trace|].Called? {
        CalledInJob(d, l, Next(d, l).trace[|d.trace|]);
      }
    }
  }

  // ---------- What an overtaken reconcile loses ----------

  /** The revision the job in flight set out to converge. */
  function Target(job: Job): nat {
    match job
    case AtMark(rev, _, _) => rev.number
    case AtStage(rev, _, _) => rev.number
    case AtRecord(rev, _, _) => rev.number
    case AtRestore(bad, _) => bad.number
    case AtRestoreRecord(bad, _, _) => bad.number
    case _ => 0
  }

  predicate CalledUpTo(trace: seq<Event>, bound: nat) {
    forall i :: 0 <= i < |trace| && trace[i].Called? ==> trace[i].call.revision <= bound
  }

  /** A job whose target is no longer desired was overtaken by a revision never yet tried. */
  predicate OvertakenByUntried(c: Config) {
    && (c.svc.None? ==> CalledUpTo(c.trace, 0))
    && (c.svc.Some? ==>
        var s := c.svc.value;
        && CalledUpTo(c.trace, |s.history|)
        && (Working(c.job) && s.desired != Target(c.job) ==>
            Target(c.job) < s.desired && s.lastGood < s.desired && CalledUpTo(c.trace, s.desired - 1)))
  }

  lemma StoreApplyKeepsOvertaken(c: Config, m: Manifest)
    requires Lineage(c) && OvertakenByUntried(c) && Accepts(c, m)
    ensures OvertakenByUntried(StoreApply(c, m))
  {
  }

  lemma CalledUpToLog(trace: seq<Event>, e: Event, bound: nat)
    requires CalledUpTo(trace, bound) && (e.Called? ==> e.call.revision <= bound)
    ensures CalledUpTo(trace + [e], bound)
  {
  }

  lemma StageKeepsOvertaken(c: Config, reply: Reply)
    requires Lineage(c) && OvertakenByUntried(c) && c.job.AtStage? && c.svc.Some?
    ensures OvertakenByUntried(StageStep(c, reply))
  {
    var e := Called(Call(c.job.rev.number, c.job.todo[0], reply), false);
    CalledUpToLog(c.trace, e, |c.svc.value.history|);
    if c.svc.value.desired != Target(c.job) {
      CalledUpToLog(c.trace, e, c.svc.value.desired - 1);
    }
  }

  lemma RecordKeepsOvertaken(c: Config)
    requires Lineage(c) && OvertakenByUntried(c) && c.job.AtRecord? && c.svc.Some?
    ensures OvertakenByUntried(RecordStep(c))
  {
    LookupNumbered(c.svc.value.history, c.svc.value.lastGood);
  }

  lemma RestoreKeepsOvertaken(c: Config, reply: Reply)
    requires Lineage(c) && OvertakenByUntried(c) && c.job.AtRestore? && c.svc.Some?
    ensures OvertakenByUntried(RestoreStep(c, reply))
  {
    var e := Called(Call(c.job.good.number, RestoreStage(c.job.good), reply), true);
    CalledUpToLog(c.trace, e, |c.svc.value.history|);
    if c.svc.value.desired != Target(c.job) {
      CalledUpToLog(c.trace, e, c.svc.value.desired - 1);
    }
  }

  lemma AdvanceKeepsOvertaken(c: Config, reply: Reply)
    requires Lineage(c) && OvertakenByUntried(c)
    ensures OvertakenByUntried(Advanced(c, reply))
  {
    match c.job {
      case AtGet => if c.svc.Some? { LookupNumbered(c.svc.value.history, c.svc.value.desired); }
      case AtStage(_, _, _) => StageKeepsOvertaken(c, reply);
      case AtRecord(_, _, _) => RecordKeepsOvertaken(c);
      case AtRestore(_, _) => RestoreKeepsOvertaken(c, reply);
      case _ =>
    }
  }

  lemma NextKeepsOvertaken(c: Config, l: Label)
    requires Lineage(c) && OvertakenByUntried(c)
    ensures OvertakenByUntried(Next(c, l))
  {
    match l {
      case Advance(reply) => AdvanceKeepsOvertaken(c, reply);
      case ApplyDesired(m) => if Accepts(c, m) { StoreApplyKeepsOvertaken(c, m); }
      case Apply(m) => if c.job.Idle? && Accepts(c, m) { StoreApplyKeepsOvertaken(c, m); }
      case _ =>
    }
  }

  lemma {:induction false} OvertakenInEveryRun(name: string, leftovers: Contents, ls: seq<Label>)
    ensures OvertakenByUntried(Run(Initial(name, leftovers), ls))
    decreases |ls|
  {
    if ls != [] {
      OvertakenInEveryRun(name, leftovers, ls[..|ls| - 1]);
      LineageInEveryRun(name, leftovers, ls[..|ls| - 1]);
      NextKeepsOvertaken(Run(Initial(name, leftovers), ls[..|ls| - 1]), ls[|ls| - 1]);
    }
  }

  /** What a successful restore does to the desired revision, in every run. Either it leaves
      the revision that failed, or ApplyDesired overtook the reconcile and the newly accepted
      revision is dropped: it was never tried before and never will be. */
  lemma RestoreDropsFailedOrUntried(name: string, leftovers: Contents, ls: seq<Label>, reply: Reply, more: seq<Label>)
    requires var job := Run(Initial(name, leftovers), ls).job; job.AtRestoreRecord? && job.restored
    ensures Run(Initial(name, leftovers), ls).svc.Some?
    ensures var c := Run(Initial(name, leftovers), ls);
            var d := Run(c, [Advance(reply)]);
            var left := c.svc.value.desired;
            && d.svc.Some? && d.svc.value.desired == c.svc.value.lastGood != left
            && (left != c.job.bad.number ==>
                && (forall j :: 0 <= j < |c.trace| && c.trace[j].Called? ==> c.trace[j].call.revision != left)
                && (forall j :: 0 <= j < |Run(d, more).trace| && Run(d, more).trace[j].Called? ==>
                     Run(d, more).trace[j].call.revision != left))
  {
    var c := Run(Initial(name, leftovers), ls);
    LineageInEveryRun(name, leftovers, ls);
    OvertakenInEveryRun(name, leftovers, ls);
    var left := c.svc.value.desired;
    RunOne(c, Advance(reply));
    var d := Next(c, Advance(reply));
    NextKeepsLineage(c, Advance(reply));
    if left != c.job.bad.number {
      OutOfReachForever(d, more, left);
      RunExtendsTrace(d, more);
      assert d.trace == c.trace + [Restored(c.job.bad.number, c.job.good.number)];
    }
  }

  lemma {:induction false} RunExtendsTrace(c: Config, ls: seq<Label>)
    ensures c.trace <= Run(c, ls).trace
    decreases |ls|
  {
    if ls != [] {
      RunExtendsTrace(c, ls[..|ls| - 1]);
      NextLogsAtMostOne(Run(c, ls[..|ls| - 1]), ls[|ls| - 1]);
    }
  }
}
