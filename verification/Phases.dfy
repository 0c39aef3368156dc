/** What a settled phase means when ApplyDesired may interleave. */
module Phases {
  import opened Text
  import opened Manifests
  import opened Backends
  import opened Stores
  import opened ControlLoop
  import opened Safety
  import opened Locked

  predicate SettledPhase(phase: Phase) {
    phase.Ready? || phase.RolledBack?
  }

  predicate Untried(trace: seq<Event>, number: nat) {
    forall i :: 0 <= i < |trace| && trace[i].Called? ==> trace[i].call.revision != number
  }

  /** A job past its first update keeps the phase unsettled, and knows what it left behind. */
  predicate JobUnsettles(s: Service, res: Contents, job: Job) {
    match job
    case AtStage(_, _, _) => !SettledPhase(s.phase)
    case AtRecord(rev, result, _) => !SettledPhase(s.phase) && (!result.failed ==> Carries(res, rev.number))
    case AtRestore(_, _) => !SettledPhase(s.phase)
    case AtRestoreRecord(_, good, restored) => !SettledPhase(s.phase) && (restored ==> Carries(res, good.number))
    case _ => true
  }

  predicate SettledOrUntried(c: Config) {
    c.svc.Some? ==>
      var s := c.svc.value;
      && JobUnsettles(s, c.res, c.job)
      && (SettledPhase(s.phase) ==> Settled(s, c.res) || Untried(c.trace, s.desired))
  }

  lemma RecordSettles(c: Config)
    requires Lineage(c) && OvertakenByUntried(c) && SettledOrUntried(c) && c.job.AtRecord? && c.svc.Some?
    ensures SettledOrUntried(RecordStep(c))
  {
    var s := c.svc.value;
    LookupNumbered(s.history, s.lastGood);
    if s.desired != c.job.rev.number {
      assert Untried(c.trace, s.desired);
    }
  }

  lemma RestoreRecordSettles(c: Config)
    requires Lineage(c) && SettledOrUntried(c) && c.job.AtRestoreRecord? && c.svc.Some?
    ensures SettledOrUntried(RestoreRecordStep(c))
  {
  }

  lemma AdvanceSettles(c: Config, reply: Reply)
    requires Lineage(c) && OvertakenByUntried(c) && SettledOrUntried(c)
    ensures SettledOrUntried(Advanced(c, reply))
  {
    match c.job {
      case AtRecord(_, _, _) => RecordSettles(c);
      case AtRestoreRecord(_, _, _) => RestoreRecordSettles(c);
      case _ =>
    }
  }

  lemma BeginSettles(c: Config, l: Label)
    requires Lineage(c) && SettledOrUntried(c) && c.job.Idle?
    ensures SettledOrUntried(Begin(c, l))
  {
  }

  lemma NextSettles(c: Config, l: Label)
    requires Lineage(c) && OvertakenByUntried(c) && SettledOrUntried(c)
    ensures SettledOrUntried(Next(c, l))
  {
    match l {
      case Advance(reply) => AdvanceSettles(c, reply);
      case ApplyDesired(m) =>
      case Crash =>
      case _ => if c.job.Idle? { BeginSettles(c, l); }
    }
  }

  /** In every run, ApplyDesired interleaved and crashes included: a phase of ready or rolled_back
      means that the service is settled on its desired revision, or that the desired revision has
      never been tried. */
  lemma {:induction false} SettledOrUntriedInEveryRun(name: string, leftovers: Contents, ls: seq<Label>)
    ensures SettledOrUntried(Run(Initial(name, leftovers), ls))
    decreases |ls|
  {
    if ls != [] {
      var before := ls[..|ls| - 1];
      SettledOrUntriedInEveryRun(name, leftovers, before);
      LineageInEveryRun(name, leftovers, before);
      OvertakenInEveryRun(name, leftovers, before);
      NextSettles(Run(Initial(name, leftovers), before), ls[|ls| - 1]);
    }
  }
}
