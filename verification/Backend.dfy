/** The backend contract, the dependency-free backend and progressive rollout
    (internal/backend/backend.go). */
module Backends {
  import opened Text
  import opened Manifests

  // ---------- What a backend holds and how it answers ----------

  /** One resource of a service: the revision that installed it and the replica count asked for. */
  datatype Resource = Resource(revision: nat, replicas: int)

  /** The resources held for one service name, by kind. */
  type Contents = map<string, Resource>

  /** The golden path, in the order the result lists it. */
  const GOLDEN_PATH: seq<string> :=
    ["ConfigMap", "Deployment", "Ingress", "Logs", "Metrics", "NetworkPolicy", "PodDisruptionBudget", "Service", "TLS"]

  function Golden(revision: nat, replicas: int): Contents {
    map kind | kind in GOLDEN_PATH :: Resource(revision, replicas)
  }

  /** The golden path is these nine kinds, each at the revision and with the replicas asked for. */
  lemma GoldenPathExactly(revision: nat, replicas: int, kind: string)
    ensures kind in Golden(revision, replicas) <==>
              kind in {"Deployment", "Service", "Ingress", "TLS", "Metrics", "Logs", "ConfigMap", "PodDisruptionBudget", "NetworkPolicy"}
    ensures kind in Golden(revision, replicas) ==> Golden(revision, replicas)[kind] == Resource(revision, replicas)
  {
    assert GOLDEN_PATH[0] == "ConfigMap" && GOLDEN_PATH[1] == "Deployment" && GOLDEN_PATH[2] == "Ingress";
    assert GOLDEN_PATH[3] == "Logs" && GOLDEN_PATH[4] == "Metrics" && GOLDEN_PATH[5] == "NetworkPolicy";
    assert GOLDEN_PATH[6] == "PodDisruptionBudget" && GOLDEN_PATH[7] == "Service" && GOLDEN_PATH[8] == "TLS";
  }

  /** The external error-rate reader consulted after a stage, where the backend has one. */
  datatype Reading = NoReader | Measured(rate: real) | Unreadable

  /** A backend's answer to one Ensure. A refusal may leave the contents alone or leave
      any partial result behind; an acceptance installs the whole golden path. */
  datatype Reply =
    | Refused(left: Option<Contents>)
    | Accepted(ready: bool, ownRate: real, reading: Reading)

  /** How a backend answers its n-th Ensure. Quantifying over oracles covers every backend. */
  type Oracle = (nat, Manifest) -> Reply

  function After(before: Contents, revision: nat, replicas: int, reply: Reply): Contents {
    match reply
    case Refused(left) => if left.Some? then left.value else before
    case Accepted(_, _, _) => Golden(revision, replicas)
  }

  // ---------- Replica counts ----------

  /** Go's integer division by 100, which truncates toward zero. */
  function Div100(n: int): int {
    if n >= 0 then n / 100 else -((-n) / 100)
  }

  function RolloutReplicas(replicas: int, percentage: int): int {
    if replicas == 0 then 0
    else
      var count := Div100(replicas * percentage + 99);
      if count < 1 then 1 else count
  }

  /** The staged count is the least positive one that reaches the percentage. */
  lemma RolloutReplicasIsLeast(replicas: int, percentage: int, count: int)
    requires replicas > 0 && 1 <= percentage <= 100
    ensures 1 <= RolloutReplicas(replicas, percentage) <= replicas
    ensures 100 * RolloutReplicas(replicas, percentage) >= replicas * percentage
    ensures count >= 1 && 100 * count >= replicas * percentage ==> RolloutReplicas(replicas, percentage) <= count
    ensures percentage == 100 ==> RolloutReplicas(replicas, percentage) == replicas
  {
    assert replicas * percentage >= 1;
    assert replicas * percentage <= 100 * replicas;
  }

  /** A later step never asks for fewer replicas, and none asks for more than the manifest. */
  lemma RolloutReplicasMonotone(replicas: int, p: int, q: int)
    requires replicas >= 0 && 1 <= p <= q <= 100
    ensures 0 <= RolloutReplicas(replicas, p) <= RolloutReplicas(replicas, q) <= replicas
  {
    if replicas > 0 {
      assert replicas * p <= replicas * q;
      RolloutReplicasIsLeast(replicas, q, 1);
      RolloutReplicasIsLeast(replicas, p, RolloutReplicas(replicas, q));
    }
  }

  // ---------- Stages ----------

  /** One Ensure of a rollout: the step it is recorded under, the replica count it asks for,
      and whether the error-rate gate follows it. */
  datatype Stage = Stage(step: int, replicas: int, gated: bool)

  datatype Verdict = Pass | Wait | Fail

  /** The rate a stage is judged by: the reader's where there is one, else the backend's own. */
  function JudgedRate(reply: Reply): Option<real>
    requires reply.Accepted?
  {
    match reply.reading
    case NoReader => Some(reply.ownRate)
    case Measured(rate) => Some(rate)
    case Unreadable => None
  }

  function Judge(stage: Stage, maxRate: real, reply: Reply): Verdict {
    if reply.Refused? then Fail
    else if !reply.ready then Wait
    else if !stage.gated then Pass
    else
      match JudgedRate(reply)
      case None => Fail
      case Some(rate) => if rate > maxRate then Fail else Pass
  }

  function Last(steps: seq<int>): int
    requires steps != []
  {
    steps[|steps| - 1]
  }

  function StagesAfter(m: Manifest, steps: seq<int>, completed: int): seq<Stage> {
    if steps == [] then []
    else if steps[0] <= completed then StagesAfter(m, steps[1..], completed)
    else [Stage(steps[0], RolloutReplicas(m.replicas, steps[0]), true)] + StagesAfter(m, steps[1..], completed)
  }

  /** The Ensures a rollout resumed after `completed` will make, as long as each passes. */
  function Plan(m: Manifest, completed: int): seq<Stage> {
    if !m.rollout.enabled then [Stage(0, m.replicas, false)]
    else if completed >= Last(Steps(m)) then [Stage(completed, m.replicas, false)]
    else StagesAfter(m, Steps(m), completed)
  }

  lemma {:induction false} StagesAfterNonEmpty(m: Manifest, steps: seq<int>, completed: int)
    requires steps != [] && completed < Last(steps)
    ensures StagesAfter(m, steps, completed) != []
  {
    if steps[0] <= completed {
      StagesAfterNonEmpty(m, steps[1..], completed);
    }
  }

  lemma PlanNonEmpty(m: Manifest, completed: int)
    ensures Plan(m, completed) != []
  {
    if m.rollout.enabled && completed < Last(Steps(m)) {
      StagesAfterNonEmpty(m, Steps(m), completed);
    }
  }

  /** The index of the first step still to be done; all of them are done at |steps|. */
  function FirstAfter(steps: seq<int>, completed: int): (first: nat)
    ensures first <= |steps|
  {
    if steps == [] || steps[0] > completed then 0 else 1 + FirstAfter(steps[1..], completed)
  }

  lemma {:induction false} FirstAfterSplits(steps: seq<int>, completed: int)
    ensures forall i :: 0 <= i < FirstAfter(steps, completed) ==> steps[i] <= completed
    ensures StrictlyIncreasing(steps) ==>
              forall i :: FirstAfter(steps, completed) <= i < |steps| ==> steps[i] > completed
  {
    if steps != [] && steps[0] <= completed {
      FirstAfterSplits(steps[1..], completed);
    }
  }

  function StageAt(m: Manifest, i: nat): Stage
    requires i < |Steps(m)|
  {
    Stage(Steps(m)[i], RolloutReplicas(m.replicas, Steps(m)[i]), true)
  }

  /** The stages of a resumed rollout are a contiguous block of the step list: its whole
      rest, starting at the first step greater than the completed one. */
  lemma {:induction false} StagesAreContiguous(m: Manifest, completed: int, from: nat)
    requires StrictlyIncreasing(Steps(m)) && from <= |Steps(m)|
    requires forall i :: 0 <= i < from ==> Steps(m)[i] <= completed
    ensures var first := FirstAfter(Steps(m), completed);
            && from <= first
            && StagesAfter(m, Steps(m)[from..], completed)
               == seq(|Steps(m)| - first, i requires 0 <= i < |Steps(m)| - first => StageAt(m, first + i))
    decreases |Steps(m)| - from
  {
    var steps := Steps(m);
    var first := FirstAfter(steps, completed);
    FirstAfterSplits(steps, completed);
    assert first >= |steps| || steps[first] > completed;
    assert from <= first;
    if from < |steps| {
      assert steps[from..][0] == steps[from] && steps[from..][1..] == steps[from + 1..];
      if steps[from] <= completed {
        StagesAreContiguous(m, completed, from + 1);
      } else {
        StagesFromAreAll(m, completed, from);
        assert first <= from;
      }
    }
  }

  lemma {:induction false} StagesFromAreAll(m: Manifest, completed: int, from: nat)
    requires from <= |Steps(m)| && forall i :: from <= i < |Steps(m)| ==> Steps(m)[i] > completed
    ensures StagesAfter(m, Steps(m)[from..], completed)
            == seq(|Steps(m)| - from, i requires 0 <= i < |Steps(m)| - from => StageAt(m, from + i))
    decreases |Steps(m)| - from
  {
    if from < |Steps(m)| {
      var steps := Steps(m);
      assert steps[from..][0] == steps[from] && steps[from..][1..] == steps[from + 1..];
      StagesFromAreAll(m, completed, from + 1);
      assert StagesAfter(m, steps[from..], completed) == [StageAt(m, from)] + StagesAfter(m, steps[from + 1..], completed);
    }
  }

  // ---------- One call of the rollout ----------

  datatype Call = Call(revision: nat, stage: Stage, reply: Reply)

  datatype RolloutResult = RolloutResult(failed: bool, ready: bool, step: int)

  const NO_RESULT := RolloutResult(false, false, 0)

  /** A rollout in progress: what the backend holds, how many Ensures it has answered, the
      calls made, and the result so far. */
  datatype Progress = Progress(contents: Contents, ticks: nat, calls: seq<Call>, result: RolloutResult)

  /** The manifest handed to the backend for a stage. */
  function Staged(m: Manifest, stage: Stage): Manifest {
    m.(replicas := stage.replicas, rollout := m.rollout.(enabled := false))
  }

  function ResultOf(stage: Stage, maxRate: real, reply: Reply): RolloutResult {
    RolloutResult(Judge(stage, maxRate, reply).Fail?, reply.Accepted? && reply.ready, stage.step)
  }

  function StageDone(m: Manifest, revision: nat, stage: Stage, reply: Reply, p: Progress): Progress {
    Progress(After(p.contents, revision, stage.replicas, reply), p.ticks + 1,
             p.calls + [Call(revision, stage, reply)], ResultOf(stage, m.rollout.maxErrorRate, reply))
  }

  /** Make the stages in order, stopping after the first that does not pass. */
  function RunStages(todo: seq<Stage>, m: Manifest, revision: nat, oracle: Oracle, p: Progress): Progress {
    if todo == [] then p
    else
      var reply := oracle(p.ticks, Staged(m, todo[0]));
      var done := StageDone(m, revision, todo[0], reply, p);
      if Judge(todo[0], m.rollout.maxErrorRate, reply).Pass? then RunStages(todo[1..], m, revision, oracle, done)
      else done
  }

  function Rollout(m: Manifest, revision: nat, completed: int, oracle: Oracle, contents: Contents, ticks: nat): Progress {
    RunStages(Plan(m, completed), m, revision, oracle, Progress(contents, ticks, [], NO_RESULT))
  }

  /** The answer lets the rollout go on: accepted and ready, and, at a gated stage, with the
      reader's rate within the threshold, or the backend's own where there is no reader. */
  predicate GoesOn(stage: Stage, maxRate: real, reply: Reply) {
    && reply.Accepted? && reply.ready
    && (stage.gated ==>
          || (reply.reading.Measured? && reply.reading.rate <= maxRate)
          || (reply.reading.NoReader? && reply.ownRate <= maxRate))
  }

  predicate Passed(m: Manifest, call: Call) {
    GoesOn(call.stage, m.rollout.maxErrorRate, call.reply)
  }

  /** The calls a run makes, without what they do to the backend. */
  function CallsFrom(todo: seq<Stage>, m: Manifest, revision: nat, oracle: Oracle, ticks: nat): seq<Call> {
    if todo == [] then []
    else
      var call := Call(revision, todo[0], oracle(ticks, Staged(m, todo[0])));
      [call] + (if Passed(m, call) then CallsFrom(todo[1..], m, revision, oracle, ticks + 1) else [])
  }

  lemma {:induction false} RunStagesMakes(todo: seq<Stage>, m: Manifest, revision: nat, oracle: Oracle, p: Progress)
    ensures var calls := CallsFrom(todo, m, revision, oracle, p.ticks);
            var q := RunStages(todo, m, revision, oracle, p);
            q.calls == p.calls + calls && q.ticks == p.ticks + |calls|
  {
    if todo != [] {
      var reply := oracle(p.ticks, Staged(m, todo[0]));
      var call := Call(revision, todo[0], reply);
      if Passed(m, call) {
        RunStagesMakes(todo[1..], m, revision, oracle, StageDone(m, revision, todo[0], reply, p));
        var rest := CallsFrom(todo[1..], m, revision, oracle, p.ticks + 1);
        assert (p.calls + [call]) + rest == p.calls + ([call] + rest);
      }
    }
  }

  lemma {:induction false} RunStagesReturns(todo: seq<Stage>, m: Manifest, revision: nat, oracle: Oracle, p: Progress)
    ensures var calls := CallsFrom(todo, m, revision, oracle, p.ticks);
            RunStages(todo, m, revision, oracle, p).result
            == if calls == [] then p.result else
                 ResultOf(calls[|calls| - 1].stage, m.rollout.maxErrorRate, calls[|calls| - 1].reply)
  {
    if todo != [] {
      var reply := oracle(p.ticks, Staged(m, todo[0]));
      var call := Call(revision, todo[0], reply);
      if Passed(m, call) {
        RunStagesReturns(todo[1..], m, revision, oracle, StageDone(m, revision, todo[0], reply, p));
        var rest := CallsFrom(todo[1..], m, revision, oracle, p.ticks + 1);
        assert rest != [] ==> ([call] + rest)[|rest|] == rest[|rest| - 1];
      }
    }
  }

  lemma RunStagesCalls(todo: seq<Stage>, m: Manifest, revision: nat, oracle: Oracle, p: Progress)
    ensures var calls := CallsFrom(todo, m, revision, oracle, p.ticks);
            var q := RunStages(todo, m, revision, oracle, p);
            && q.calls == p.calls + calls && q.ticks == p.ticks + |calls|
            && q.result == if calls == [] then p.result else
                             ResultOf(calls[|calls| - 1].stage, m.rollout.maxErrorRate, calls[|calls| - 1].reply)
  {
    RunStagesMakes(todo, m, revision, oracle, p);
    RunStagesReturns(todo, m, revision, oracle, p);
  }

  /** The calls follow the stages in order, and only the last may fail a gate. */
  predicate Follows(m: Manifest, calls: seq<Call>, todo: seq<Stage>) {
    && 1 <= |calls| <= |todo|
    && (forall i :: 0 <= i < |calls| ==> calls[i].stage == todo[i])
    && (forall i :: 0 <= i < |calls| - 1 ==> Passed(m, calls[i]))
    && (|calls| < |todo| ==> !Passed(m, calls[|calls| - 1]))
  }

  lemma {:induction false} CallsFollowStages(todo: seq<Stage>, m: Manifest, revision: nat, oracle: Oracle, ticks: nat)
    requires todo != []
    ensures Follows(m, CallsFrom(todo, m, revision, oracle, ticks), todo)
  {
    var call := Call(revision, todo[0], oracle(ticks, Staged(m, todo[0])));
    if Passed(m, call) && |todo| > 1 {
      CallsFollowStages(todo[1..], m, revision, oracle, ticks + 1);
    }
  }

  lemma RunOneStage(stage: Stage, m: Manifest, revision: nat, oracle: Oracle, p: Progress)
    ensures RunStages([stage], m, revision, oracle, p)
            == StageDone(m, revision, stage, oracle(p.ticks, Staged(m, stage)), p)
  {
    assert [stage][1..] == [];
  }

  /** What one gated stage comes to, answer by answer: a refusal or an unready answer stops the
      rollout; a ready one goes on exactly when the rate it is judged by, the reader's where there
      is a reader, does not exceed the threshold; and what cannot be measured fails. */
  lemma GatesExactly(step: int, replicas: int, rest: seq<Stage>, m: Manifest, revision: nat, oracle: Oracle, p: Progress)
    ensures var stage := Stage(step, replicas, true);
            var reply := oracle(p.ticks, Staged(m, stage));
            var q := RunStages([stage] + rest, m, revision, oracle, p);
            var contents := After(p.contents, revision, replicas, reply);
            var calls := p.calls + [Call(revision, stage, reply)];
            var maxRate := m.rollout.maxErrorRate;
            match reply
            case Refused(_) => q == Progress(contents, p.ticks + 1, calls, RolloutResult(true, false, step))
            case Accepted(false, _, _) => q == Progress(contents, p.ticks + 1, calls, RolloutResult(false, false, step))
            case Accepted(true, own, NoReader) =>
              q == (if own <= maxRate then
                      RunStages(rest, m, revision, oracle, Progress(contents, p.ticks + 1, calls, RolloutResult(false, true, step)))
                    else Progress(contents, p.ticks + 1, calls, RolloutResult(true, true, step)))
            case Accepted(true, _, Measured(rate)) =>
              q == (if rate <= maxRate then
                      RunStages(rest, m, revision, oracle, Progress(contents, p.ticks + 1, calls, RolloutResult(false, true, step)))
                    else Progress(contents, p.ticks + 1, calls, RolloutResult(true, true, step)))
            case Accepted(true, _, Unreadable) =>
              q == Progress(contents, p.ticks + 1, calls, RolloutResult(true, true, step))
  {
    RunStagesNext(Stage(step, replicas, true), rest, m, revision, oracle, p);
  }

  /** A backend whose reader always measures above the manifest's threshold, or never does, whatever
      the backend itself says. */
  ghost predicate Reads(oracle: Oracle, m: Manifest, above: bool) {
    forall t: nat, stage: Stage :: ReadyAndMeasured(oracle(t, Staged(m, stage)), m.rollout.maxErrorRate, above)
  }

  predicate ReadyAndMeasured(reply: Reply, maxRate: real, above: bool) {
    reply.Accepted? && reply.ready && reply.reading.Measured? && (reply.reading.rate > maxRate <==> above)
  }

  /** Whatever error rate the backend itself reports, the reader decides: always above the threshold,
      it stops the call at its first remaining step, with an error; never above, every remaining step
      is made and the call ends ready. */
  lemma ReaderDecides(m: Manifest, revision: nat, completed: int, oracle: Oracle, contents: Contents, ticks: nat, above: bool)
    requires Admissible(m) && m.rollout.enabled && completed < Last(Steps(m)) && Reads(oracle, m, above)
    ensures var p := Rollout(m, revision, completed, oracle, contents, ticks);
            var first := FirstAfter(Steps(m), completed);
            && first < |Steps(m)| && p.calls != [] && p.calls[0].stage == StageAt(m, first)
            && (above ==> |p.calls| == 1 && p.result == RolloutResult(true, true, Steps(m)[first]))
            && (!above ==> |p.calls| == Remaining(m, completed) && p.result == RolloutResult(false, true, Last(Steps(m))))
  {
    var p := Rollout(m, revision, completed, oracle, contents, ticks);
    var last := |p.calls| - 1;
    RolloutMakesCalls(m, revision, completed, oracle, contents, ticks);
    RolloutContract(m, revision, completed, oracle, contents, ticks);
    forall i | 0 <= i < |p.calls| ensures ReadyAndMeasured(p.calls[i].reply, m.rollout.maxErrorRate, above) {
      ReplyIsTheOracles(Plan(m, completed), m, revision, oracle, ticks, i);
      assert p.calls[i].reply == oracle(ticks + i, Staged(m, p.calls[i].stage));
    }
    assert above ==> !Passed(m, p.calls[0]);
    assert !above ==> Passed(m, p.calls[last]);
  }

  lemma {:induction false} ReplyIsTheOracles(todo: seq<Stage>, m: Manifest, revision: nat, oracle: Oracle, ticks: nat, i: nat)
    requires i < |CallsFrom(todo, m, revision, oracle, ticks)|
    ensures var calls := CallsFrom(todo, m, revision, oracle, ticks);
            calls[i].reply == oracle(ticks + i, Staged(m, calls[i].stage))
  {
    if i > 0 {
      ReplyIsTheOracles(todo[1..], m, revision, oracle, ticks + 1, i - 1);
      assert ticks + 1 + (i - 1) == ticks + i;
    }
  }

  lemma StagesAfterNext(m: Manifest, steps: seq<int>, i: nat, completed: int)
    requires i < |steps|
    ensures StagesAfter(m, steps[i..], completed)
            == (if steps[i] <= completed then [] else [Stage(steps[i], RolloutReplicas(m.replicas, steps[i]), true)])
               + StagesAfter(m, steps[i + 1..], completed)
  {
    assert steps[i..][1..] == steps[i + 1..];
  }

  /** The first stage of a run, and the rest of it. */
  lemma RunStagesNext(stage: Stage, rest: seq<Stage>, m: Manifest, revision: nat, oracle: Oracle, p: Progress)
    ensures var reply := oracle(p.ticks, Staged(m, stage));
            var done := StageDone(m, revision, stage, reply, p);
            RunStages([stage] + rest, m, revision, oracle, p)
            == if Judge(stage, m.rollout.maxErrorRate, reply).Pass? then RunStages(rest, m, revision, oracle, done) else done
  {
    assert ([stage] + rest)[1..] == rest;
  }

  /** How many configured steps lie beyond the recorded one. */
  function Remaining(m: Manifest, completed: int): nat {
    |Steps(m)| - FirstAfter(Steps(m), completed)
  }

  /** The calls of a rollout with steps still to do: a contiguous block of the step list
      from the first step beyond the completed one, in which only the last may fail. */
  predicate IsBlock(m: Manifest, completed: int, calls: seq<Call>) {
    var first := FirstAfter(Steps(m), completed);
    && 1 <= |calls| <= Remaining(m, completed)
    && Steps(m)[first] > completed
    && (forall i :: 0 <= i < first ==> Steps(m)[i] <= completed)
    && (forall i :: 0 <= i < |calls| ==> calls[i].stage == StageAt(m, first + i))
    && (forall i :: 0 <= i < |calls| - 1 ==> Passed(m, calls[i]))
    && (|calls| < Remaining(m, completed) ==> !Passed(m, calls[|calls| - 1]))
  }

  lemma FollowersAreBlock(m: Manifest, completed: int, calls: seq<Call>)
    requires Admissible(m) && m.rollout.enabled && completed < Last(Steps(m))
    requires Follows(m, calls, StagesAfter(m, Steps(m), completed))
    ensures IsBlock(m, completed, calls)
  {
    var todo := StagesAfter(m, Steps(m), completed);
    BlockOfStages(m, completed);
    FirstAfterSplits(Steps(m), completed);
    forall i | 0 <= i < |calls| ensures calls[i].stage == StageAt(m, FirstAfter(Steps(m), completed) + i) {
      assert calls[i].stage == todo[i];
    }
  }

  lemma BlockOfStages(m: Manifest, completed: int)
    requires Admissible(m) && m.rollout.enabled
    ensures var todo := StagesAfter(m, Steps(m), completed);
            var first := FirstAfter(Steps(m), completed);
            |todo| == Remaining(m, completed) && forall i :: 0 <= i < |todo| ==> todo[i] == StageAt(m, first + i)
  {
    StagesAreContiguous(m, completed, 0);
    assert Steps(m)[0..] == Steps(m);
  }

  /** What one call with steps still to do guarantees: the Ensures made are such a block, the
      returned step is the last one attempted, and the call reports ready without error
      exactly when every remaining step passed. */
  predicate MeetsContract(m: Manifest, completed: int, p: Progress) {
    && IsBlock(m, completed, p.calls)
    && p.result.step == Steps(m)[FirstAfter(Steps(m), completed) + |p.calls| - 1] > completed
    && (!p.result.failed && p.result.ready <==>
        |p.calls| == Remaining(m, completed) && Passed(m, p.calls[|p.calls| - 1]))
  }

  lemma BlockMeetsContract(m: Manifest, completed: int, p: Progress)
    requires Admissible(m) && m.rollout.enabled && IsBlock(m, completed, p.calls)
    requires var last := p.calls[|p.calls| - 1];
             p.result == ResultOf(last.stage, m.rollout.maxErrorRate, last.reply)
    ensures MeetsContract(m, completed, p)
  {
    FirstAfterSplits(Steps(m), completed);
    assert p.calls[|p.calls| - 1].stage == StageAt(m, FirstAfter(Steps(m), completed) + |p.calls| - 1);
  }

  lemma RolloutMakesCalls(m: Manifest, revision: nat, completed: int, oracle: Oracle, contents: Contents, ticks: nat)
    ensures var p := Rollout(m, revision, completed, oracle, contents, ticks);
            && p.calls == CallsFrom(Plan(m, completed), m, revision, oracle, ticks)
            && p.calls != []
            && p.result == ResultOf(p.calls[|p.calls| - 1].stage, m.rollout.maxErrorRate, p.calls[|p.calls| - 1].reply)
  {
    PlanNonEmpty(m, completed);
    RunStagesCalls(Plan(m, completed), m, revision, oracle, Progress(contents, ticks, [], NO_RESULT));
  }

  /** The contract of one rollout call with steps still to do, against any backend. */
  lemma RolloutContract(m: Manifest, revision: nat, completed: int, oracle: Oracle, contents: Contents, ticks: nat)
    requires Admissible(m) && m.rollout.enabled && completed < Last(Steps(m))
    ensures MeetsContract(m, completed, Rollout(m, revision, completed, oracle, contents, ticks))
  {
    var p := Rollout(m, revision, completed, oracle, contents, ticks);
    RolloutMakesCalls(m, revision, completed, oracle, contents, ticks);
    PlanNonEmpty(m, completed);
    CallsFollowStages(Plan(m, completed), m, revision, oracle, ticks);
    FollowersAreBlock(m, completed, p.calls);
    BlockMeetsContract(m, completed, p);
  }

  /** A finished rollout, and a manifest without one, is exactly one full-scale Ensure, with
      no error-rate gate. */
  lemma SingleStageContract(m: Manifest, revision: nat, completed: int, oracle: Oracle, contents: Contents, ticks: nat)
    requires m.rollout.enabled ==> completed >= Last(Steps(m))
    ensures var p := Rollout(m, revision, completed, oracle, contents, ticks);
            var step := if m.rollout.enabled then completed else 0;
            && |p.calls| == 1 && p.calls[0].stage == Stage(step, m.replicas, false)
            && p.contents == After(contents, revision, m.replicas, p.calls[0].reply)
            && p.result.step == step
            && (p.result.failed <==> p.calls[0].reply.Refused?)
            && (!p.result.failed && p.result.ready <==> p.calls[0].reply.Accepted? && p.calls[0].reply.ready)
  {
    RunOneStage(Plan(m, completed)[0], m, revision, oracle, Progress(contents, ticks, [], NO_RESULT));
    assert Plan(m, completed) == [Plan(m, completed)[0]];
  }

  lemma {:induction false} FirstAfterAt(steps: seq<int>, i: nat)
    requires i < |steps| && StrictlyIncreasing(steps)
    ensures FirstAfter(steps, steps[i]) == i + 1
  {
    FirstAfterSplits(steps, steps[i]);
    assert i < FirstAfter(steps, steps[i]);
    assert i + 1 < |steps| ==> steps[i + 1] > steps[i];
  }

  /** Every call of an unfinished rollout leaves strictly fewer steps to do, whatever the
      backend answers. */
  lemma RolloutAdvances(m: Manifest, revision: nat, completed: int, oracle: Oracle, contents: Contents, ticks: nat)
    requires Admissible(m) && m.rollout.enabled && completed < Last(Steps(m))
    ensures var p := Rollout(m, revision, completed, oracle, contents, ticks);
            Remaining(m, p.result.step) == Remaining(m, completed) - |p.calls| < Remaining(m, completed)
  {
    RolloutContract(m, revision, completed, oracle, contents, ticks);
    var p := Rollout(m, revision, completed, oracle, contents, ticks);
    FirstAfterAt(Steps(m), FirstAfter(Steps(m), completed) + |p.calls| - 1);
  }

  // ---------- The backend as an object ----------

  /** A backend with in-memory contents, answering through its oracle. */
  class Backend {
    const oracle: Oracle
    var services: map<string, Contents>
    var ticks: nat

    constructor (oracle: Oracle)
      ensures this.oracle == oracle && services == map[] && ticks == 0
    {
      this.oracle := oracle;
      services, ticks := map[], 0;
    }

    function Holds(name: string): Contents
      reads this
    {
      if name in services then services[name] else map[]
    }

    method Ensure(m: Manifest, revision: nat) returns (reply: Reply)
      modifies this
      ensures reply == oracle(old(ticks), m) && ticks == old(ticks) + 1
      ensures Holds(m.name) == After(old(Holds(m.name)), revision, m.replicas, reply)
      ensures forall name :: name != m.name ==> Holds(name) == old(Holds(name))
    {
      reply := oracle(ticks, m);
      ticks := ticks + 1;
      match reply {
        case Refused(left) =>
          if left.Some? {
            services := services[m.name := left.value];
          }
        case Accepted(_, _, _) =>
          var resources: Contents := map[];
          for i := 0 to |GOLDEN_PATH|
            invariant resources == map kind | kind in GOLDEN_PATH[..i] :: Resource(revision, m.replicas)
          {
            assert GOLDEN_PATH[..i + 1] == GOLDEN_PATH[..i] + [GOLDEN_PATH[i]];
            resources := resources[GOLDEN_PATH[i] := Resource(revision, m.replicas)];
          }
          assert GOLDEN_PATH[..|GOLDEN_PATH|] == GOLDEN_PATH;
          services := services[m.name := resources];
      }
    }

    /** Delete everything held for the name, unless the caller's context is cancelled. */
    method Delete(name: string, cancelled: bool) returns (ok: bool)
      modifies this`services
      ensures ok == !cancelled
      ensures Holds(name) == if ok then map[] else old(Holds(name))
      ensures forall other :: other != name ==> Holds(other) == old(Holds(other))
    {
      if cancelled { return false; }
      services := services - {name};
      return true;
    }

    /** Delete one resource; an absent one is an error. */
    method DeleteResource(name: string, kind: string, cancelled: bool) returns (ok: bool)
      modifies this`services
      ensures ok == (!cancelled && kind in old(Holds(name)))
      ensures Holds(name) == if ok then old(Holds(name)) - {kind} else old(Holds(name))
      ensures forall other :: other != name ==> Holds(other) == old(Holds(other))
    {
      if cancelled || name !in services || kind !in services[name] { return false; }
      services := services[name := services[name] - {kind}];
      return true;
    }
  }

  /** One Ensure at full scale, reported under the given step. */
  method EnsureWhole(target: Backend, m: Manifest, revision: nat, step: int)
    returns (result: RolloutResult, ghost calls: seq<Call>)
    modifies target
    ensures Progress(target.Holds(m.name), target.ticks, calls, result)
            == RunStages([Stage(step, m.replicas, false)], m, revision, target.oracle,
                         Progress(old(target.Holds(m.name)), old(target.ticks), [], NO_RESULT))
    ensures forall name :: name != m.name ==> target.Holds(name) == old(target.Holds(name))
  {
    ghost var start := Progress(target.Holds(m.name), target.ticks, [], NO_RESULT);
    ghost var stage := Stage(step, m.replicas, false);
    var staged := m.(rollout := m.rollout.(enabled := false));
    assert Staged(m, stage) == staged;
    var reply := target.Ensure(staged, revision);
    RunOneStage(stage, m, revision, target.oracle, start);
    return RolloutResult(reply.Refused?, reply.Accepted? && reply.ready, step), [Call(revision, stage, reply)];
  }

  /** One staged Ensure and its gates: whether the rollout goes on to the next step. */
  method EnsureStage(target: Backend, m: Manifest, revision: nat, step: int)
    returns (result: RolloutResult, go: bool, ghost call: Call)
    modifies target
    ensures var stage := Stage(step, RolloutReplicas(m.replicas, step), true);
            var reply := target.oracle(old(target.ticks), Staged(m, stage));
            && call == Call(revision, stage, reply)
            && result == ResultOf(stage, m.rollout.maxErrorRate, reply)
            && go == Passed(m, call)
            && result.failed == (reply.Refused? || (reply.ready && !go)) && result.ready == (reply.Accepted? && reply.ready)
            && result.step == step
            && target.ticks == old(target.ticks) + 1
            && target.Holds(m.name) == After(old(target.Holds(m.name)), revision, stage.replicas, reply)
    ensures forall name :: name != m.name ==> target.Holds(name) == old(target.Holds(name))
  {
    var replicas := RolloutReplicas(m.replicas, step);
    var staged := m.(replicas := replicas, rollout := m.rollout.(enabled := false));
    var reply := target.Ensure(staged, revision);
    call := Call(revision, Stage(step, replicas, true), reply);
    result := RolloutResult(false, reply.Accepted? && reply.ready, step);
    if reply.Refused? || !reply.ready {
      return result.(failed := reply.Refused?), false, call;
    }
    var rate := reply.ownRate;
    if reply.reading.Measured? {
      rate := reply.reading.rate;
    } else if reply.reading.Unreadable? {
      return result.(failed := true), false, call;
    }
    if rate > m.rollout.maxErrorRate {
      return result.(failed := true), false, call;
    }
    return result, true, call;
  }

  /** The loop over the steps, from the first one greater than the completed one. */
  method EnsureStages(target: Backend, m: Manifest, revision: nat, steps: seq<int>, completed: int)
    returns (result: RolloutResult, ghost calls: seq<Call>)
    modifies target
    ensures Progress(target.Holds(m.name), target.ticks, calls, result)
            == RunStages(StagesAfter(m, steps, completed), m, revision, target.oracle,
                         Progress(old(target.Holds(m.name)), old(target.ticks), [], NO_RESULT))
    ensures forall name :: name != m.name ==> target.Holds(name) == old(target.Holds(name))
  {
    ghost var start := Progress(target.Holds(m.name), target.ticks, [], NO_RESULT);
    calls := [];
    result := NO_RESULT;
    assert steps[0..] == steps;
    for i := 0 to |steps|
      invariant forall name :: name != m.name ==> target.Holds(name) == old(target.Holds(name))
      invariant RunStages(StagesAfter(m, steps[i..], completed), m, revision, target.oracle,
                          Progress(target.Holds(m.name), target.ticks, calls, result))
                == RunStages(StagesAfter(m, steps, completed), m, revision, target.oracle, start)
    {
      var step := steps[i];
      StagesAfterNext(m, steps, i, completed);
      if step <= completed {
        continue;
      }
      ghost var stage := Stage(step, RolloutReplicas(m.replicas, step), true);
      RunStagesNext(stage, StagesAfter(m, steps[i + 1..], completed), m, revision, target.oracle,
                    Progress(target.Holds(m.name), target.ticks, calls, result));
      var go;
      ghost var call;
      result, go, call := EnsureStage(target, m, revision, step);
      calls := calls + [call];
      if !go {
        return;
      }
    }
  }

  /** Progressive rollout, resumed at the first step greater than the completed one. */
  method EnsureWithRolloutFrom(target: Backend, m: Manifest, revision: nat, completed: int)
    returns (result: RolloutResult, ghost calls: seq<Call>)
    modifies target
    ensures Progress(target.Holds(m.name), target.ticks, calls, result)
            == Rollout(m, revision, completed, target.oracle, old(target.Holds(m.name)), old(target.ticks))
    ensures forall name :: name != m.name ==> target.Holds(name) == old(target.Holds(name))
  {
    if !m.rollout.enabled {
      assert m == m.(rollout := m.rollout.(enabled := false));
      result, calls := EnsureWhole(target, m, revision, 0);
      return;
    }
    var steps := m.rollout.steps;
    if |steps| == 0 {
      steps := [10, 50, 100];
    }
    if completed >= steps[|steps| - 1] {
      result, calls := EnsureWhole(target, m, revision, completed);
      return;
    }
    result, calls := EnsureStages(target, m, revision, steps, completed);
  }

  // ---------- The dependency-free backend ----------

  function Lower(s: string): string {
    seq(|s|, i requires 0 <= i < |s| => if 'A' <= s[i] <= 'Z' then s[i] - 'A' + 'a' else s[i])
  }

  predicate PartAt(s: string, part: string, i: nat) {
    i + |part| <= |s| && s[i..i + |part|] == part
  }

  predicate Contains(s: string, part: string) {
    exists i :: 0 <= i <= |s| && PartAt(s, part, i)
  }

  predicate FailingImage(image: string) {
    Contains(Lower(image), "bad") || Contains(Lower(image), "fail")
  }

  /** The Fake backend: it refuses on a cancelled context or a failing image, touching
      nothing, and otherwise is ready at once, with an error rate of one half for an image
      that says so. */
  function FakeReply(cancelled: bool, m: Manifest): Reply {
    if cancelled || FailingImage(m.image) then Refused(None)
    else Accepted(true, FakeRate(m), NoReader)
  }

  /** The error rate the Fake backend makes up for an image. */
  function FakeRate(m: Manifest): real {
    if Contains(Lower(m.image), "error") then 0.5 else 0.0
  }

  function FakeOracle(cancelled: nat -> bool): Oracle {
    (tick: nat, m: Manifest) => FakeReply(cancelled(tick), m)
  }
}
