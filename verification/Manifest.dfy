/** The service manifest and its validation (internal/manifest/manifest.go). */
module Manifests {
  import opened Text

  datatype Resources = Resources(cpu: string, memory: string)

  datatype Rollout = Rollout(enabled: bool, steps: seq<int>, maxErrorRate: real)

  /** Which of the manifest's collections are allocated: Go's comparison of two
      manifests tells an allocated empty map or slice from a nil one. */
  datatype NonNil = NonNil(env: bool, secrets: bool, steps: bool)

  datatype Manifest = Manifest(
    name: string,
    namespace: string,
    image: string,
    port: int,
    replicas: int,
    env: map<string, string>,
    secrets: seq<string>,
    resources: Resources,
    rollout: Rollout,
    nonNil: NonNil)

  /** The library calls validation makes: environment names and resource quantities. */
  datatype Libraries = Libraries(envVarName: string -> bool, quantity: string -> bool)

  datatype Problem =
    | BadName | NoImage | BadPort | BadReplicas | BadEnv | BadSecret
    | NoResources | BadCpu | BadMemory | BadSteps | BadMaxErrorRate

  const DEFAULT_STEPS: seq<int> := [10, 50, 100]

  /** The rollout steps in force: an empty list stands for the default one. */
  function Steps(m: Manifest): (steps: seq<int>)
    ensures steps == if m.rollout.steps == [] then [10, 50, 100] else m.rollout.steps
    ensures steps != []
  {
    if m.rollout.steps == [] then DEFAULT_STEPS else m.rollout.steps
  }

  predicate StrictlyIncreasing(steps: seq<int>) {
    forall i, j :: 0 <= i < j < |steps| ==> steps[i] < steps[j]
  }

  predicate StepsValid(steps: seq<int>) {
    && StrictlyIncreasing(steps)
    && forall i :: 0 <= i < |steps| ==> 1 <= steps[i] <= 100
  }

  /** What the rest of the system relies on: the rollout rules and the replica range. */
  predicate Admissible(m: Manifest) {
    && 0 <= m.replicas <= 1000
    && (m.rollout.enabled ==> StepsValid(Steps(m)) && 0.0 <= m.rollout.maxErrorRate <= 1.0)
  }

  predicate ValidName(name: string) {
    && 1 <= |name| <= 64
    && 'a' <= name[0] <= 'z'
    && (forall i :: 0 <= i < |name| ==> 'a' <= name[i] <= 'z' || '0' <= name[i] <= '9' || name[i] == '-')
    && name[|name| - 1] != '-'
  }

  predicate EnvValid(libs: Libraries, env: map<string, string>) {
    forall key :: key in env ==> !IsBlank(key) && libs.envVarName(key) && env[key] != ""
  }

  predicate SecretsValid(libs: Libraries, env: set<string>, secrets: seq<string>) {
    && (forall i :: 0 <= i < |secrets| ==> !IsBlank(secrets[i]) && libs.envVarName(secrets[i]) && secrets[i] !in env)
    && (forall i, j :: 0 <= i < j < |secrets| ==> secrets[i] != secrets[j])
  }

  /** The first problem in the order validation looks for them. */
  function FirstProblem(libs: Libraries, m: Manifest): Option<Problem> {
    if !ValidName(m.name) then Some(BadName)
    else if IsBlank(m.image) then Some(NoImage)
    else if !(1 <= m.port <= 65535) then Some(BadPort)
    else if !(0 <= m.replicas <= 1000) then Some(BadReplicas)
    else if !EnvValid(libs, m.env) then Some(BadEnv)
    else if !SecretsValid(libs, m.env.Keys, m.secrets) then Some(BadSecret)
    else if IsBlank(m.resources.cpu) || IsBlank(m.resources.memory) then Some(NoResources)
    else if !libs.quantity(m.resources.cpu) then Some(BadCpu)
    else if !libs.quantity(m.resources.memory) then Some(BadMemory)
    else if m.rollout.enabled && !StepsValid(Steps(m)) then Some(BadSteps)
    else if m.rollout.enabled && !(0.0 <= m.rollout.maxErrorRate <= 1.0) then Some(BadMaxErrorRate)
    else None
  }

  predicate Valid(libs: Libraries, m: Manifest) {
    FirstProblem(libs, m).None?
  }

  /** What validation accepts, rule by rule. */
  lemma ValidExactly(libs: Libraries, m: Manifest)
    ensures Valid(libs, m) <==>
              && 1 <= |m.name| <= 64 && 'a' <= m.name[0] <= 'z' && m.name[|m.name| - 1] != '-'
              && (forall i :: 0 <= i < |m.name| ==> 'a' <= m.name[i] <= 'z' || '0' <= m.name[i] <= '9' || m.name[i] == '-')
              && !IsBlank(m.image) && 1 <= m.port <= 65535 && 0 <= m.replicas <= 1000
              && (forall key :: key in m.env ==> !IsBlank(key) && libs.envVarName(key) && m.env[key] != "")
              && (forall i :: 0 <= i < |m.secrets| ==>
                    !IsBlank(m.secrets[i]) && libs.envVarName(m.secrets[i]) && m.secrets[i] !in m.env)
              && (forall i, j :: 0 <= i < j < |m.secrets| ==> m.secrets[i] != m.secrets[j])
              && !IsBlank(m.resources.cpu) && libs.quantity(m.resources.cpu)
              && !IsBlank(m.resources.memory) && libs.quantity(m.resources.memory)
              && (m.rollout.enabled ==>
                    var steps := if m.rollout.steps == [] then [10, 50, 100] else m.rollout.steps;
                    && 0.0 <= m.rollout.maxErrorRate <= 1.0
                    && (forall i :: 0 <= i < |steps| ==> 1 <= steps[i] <= 100)
                    && (forall i, j :: 0 <= i < j < |steps| ==> steps[i] < steps[j]))
  {
  }

  /** The problem reported is the first there is, in this order. */
  lemma ProblemsInOrder(libs: Libraries, m: Manifest)
    ensures var named := ValidName(m.name) && !IsBlank(m.image);
            var ranged := named && 1 <= m.port <= 65535 && 0 <= m.replicas <= 1000;
            var keyed := ranged && EnvValid(libs, m.env) && SecretsValid(libs, m.env.Keys, m.secrets);
            var sized := keyed && !IsBlank(m.resources.cpu) && !IsBlank(m.resources.memory);
            match FirstProblem(libs, m)
            case None => sized
            case Some(BadName) => !ValidName(m.name)
            case Some(NoImage) => ValidName(m.name) && IsBlank(m.image)
            case Some(BadPort) => named && (m.port < 1 || m.port > 65535)
            case Some(BadReplicas) => named && 1 <= m.port <= 65535 && (m.replicas < 0 || m.replicas > 1000)
            case Some(BadEnv) => ranged && !EnvValid(libs, m.env)
            case Some(BadSecret) => ranged && EnvValid(libs, m.env) && !SecretsValid(libs, m.env.Keys, m.secrets)
            case Some(NoResources) => keyed && (IsBlank(m.resources.cpu) || IsBlank(m.resources.memory))
            case Some(BadCpu) => sized && !libs.quantity(m.resources.cpu)
            case Some(BadMemory) => sized && libs.quantity(m.resources.cpu) && !libs.quantity(m.resources.memory)
            case Some(BadSteps) =>
              && sized && libs.quantity(m.resources.cpu) && libs.quantity(m.resources.memory)
              && m.rollout.enabled && !StepsValid(Steps(m))
            case Some(BadMaxErrorRate) =>
              && sized && libs.quantity(m.resources.cpu) && libs.quantity(m.resources.memory)
              && m.rollout.enabled && StepsValid(Steps(m)) && (m.rollout.maxErrorRate < 0.0 || m.rollout.maxErrorRate > 1.0)
  {
  }

  lemma ValidIsAdmissible(libs: Libraries, m: Manifest)
    requires Valid(libs, m)
    ensures Admissible(m)
  {
  }

  /** The environment loop. Go visits the keys in any order; the answer does not depend on it. */
  method CheckEnv(libs: Libraries, env: map<string, string>) returns (ok: bool)
    ensures ok == EnvValid(libs, env)
  {
    var keys := env.Keys;
    while keys != {}
      invariant keys <= env.Keys
      invariant forall key :: key in env.Keys - keys ==> !IsBlank(key) && libs.envVarName(key) && env[key] != ""
      decreases |keys|
    {
      var key :| key in keys;
      TrimSpaceBlank(key);
      if TrimSpace(key) == "" || !libs.envVarName(key) || env[key] == "" {
        return false;
      }
      keys := keys - {key};
    }
    return true;
  }

  /** The secrets loop, which keeps the set of names seen so far. */
  method CheckSecrets(libs: Libraries, env: set<string>, secrets: seq<string>) returns (ok: bool)
    ensures ok == SecretsValid(libs, env, secrets)
  {
    var seenNames := env;
    for i := 0 to |secrets|
      invariant seenNames == env + set j | 0 <= j < i :: secrets[j]
      invariant SecretsValid(libs, env, secrets[..i])
    {
      var secret := secrets[i];
      TrimSpaceBlank(secret);
      assert secrets[..i + 1] == secrets[..i] + [secret];
      if TrimSpace(secret) == "" || !libs.envVarName(secret) {
        return false;
      }
      if secret in seenNames {
        if secret !in env {
          var j :| 0 <= j < i && secrets[j] == secret;
        }
        return false;
      }
      seenNames := seenNames + {secret};
    }
    assert secrets[..|secrets|] == secrets;
    return true;
  }

  /** The rollout-step loop: each step must exceed the previous one and stay within 100. */
  method CheckSteps(steps: seq<int>) returns (ok: bool)
    ensures ok == StepsValid(steps)
  {
    var previous := 0;
    for i := 0 to |steps|
      invariant StepsValid(steps[..i])
      invariant previous == if i == 0 then 0 else steps[i - 1]
    {
      assert steps[..i + 1] == steps[..i] + [steps[i]];
      if steps[i] <= previous || steps[i] > 100 {
        return false;
      }
      previous := steps[i];
    }
    assert steps[..|steps|] == steps;
    return true;
  }

  /** Validation, check by check, returning the first problem met. */
  method Validate(libs: Libraries, m: Manifest) returns (problem: Option<Problem>)
    ensures problem == FirstProblem(libs, m)
  {
    if !ValidName(m.name) { return Some(BadName); }
    TrimSpaceBlank(m.image);
    if TrimSpace(m.image) == "" { return Some(NoImage); }
    if m.port < 1 || m.port > 65535 { return Some(BadPort); }
    if m.replicas < 0 || m.replicas > 1000 { return Some(BadReplicas); }
    var envOk := CheckEnv(libs, m.env);
    if !envOk { return Some(BadEnv); }
    var secretsOk := CheckSecrets(libs, m.env.Keys, m.secrets);
    if !secretsOk { return Some(BadSecret); }
    TrimSpaceBlank(m.resources.cpu);
    TrimSpaceBlank(m.resources.memory);
    if TrimSpace(m.resources.cpu) == "" || TrimSpace(m.resources.memory) == "" { return Some(NoResources); }
    if !libs.quantity(m.resources.cpu) { return Some(BadCpu); }
    if !libs.quantity(m.resources.memory) { return Some(BadMemory); }
    if m.rollout.enabled {
      var stepsOk := CheckSteps(Steps(m));
      if !stepsOk { return Some(BadSteps); }
      if m.rollout.maxErrorRate < 0.0 || m.rollout.maxErrorRate > 1.0 { return Some(BadMaxErrorRate); }
    }
    return None;
  }

  /** What a manifest becomes after a JSON round trip: every empty collection carries
      `omitempty`, so it is dropped and read back as nil. */
  function Normalised(m: Manifest): Manifest {
    m.(nonNil := NonNil(m.env != map[], m.secrets != [], m.rollout.steps != []))
  }
}
