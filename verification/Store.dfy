/** The revision store: the service record, the repository's operations on it, and the
    file-backed implementation (internal/state/store.go). */
module Stores {
  import opened Text
  import opened Manifests

  datatype Phase = Pending | Reconciling | Ready | RolledBack | Failing | Suspended | Removed

  datatype Revision = Revision(number: nat, manifest: Manifest)

  /** The persistent state of one service. Revision numbers are 0 where there is none yet. */
  datatype Service = Service(
    name: string,
    desired: nat,
    active: nat,
    lastGood: nat,
    rolloutStep: int,
    paused: bool,
    destroyed: bool,
    phase: Phase,
    observed: seq<string>,
    history: seq<Revision>)

  // ---------- Lookup and lineage ----------

  function Lookup(history: seq<Revision>, number: int): Option<Revision> {
    if history == [] then None
    else if history[0].number == number then Some(history[0])
    else Lookup(history[1..], number)
  }

  /** Revision i is the i-th entry of the history. */
  predicate Numbered(history: seq<Revision>) {
    forall i :: 0 <= i < |history| ==> history[i].number == i + 1
  }

  lemma {:induction false} LookupFrom(history: seq<Revision>, number: int, from: nat)
    requires Numbered(history) && from <= |history| && (from < number || number < 1)
    ensures Lookup(history[from..], number)
            == if from < number <= |history| then Some(history[number - 1]) else None
    decreases |history| - from
  {
    if from < |history| {
      assert history[from..][0] == history[from] && history[from..][1..] == history[from + 1..];
      if history[from].number != number {
        LookupFrom(history, number, from + 1);
      }
    }
  }

  /** In a numbered history the lookup finds exactly the numbers 1 to its length. */
  lemma LookupNumbered(history: seq<Revision>, number: int)
    requires Numbered(history)
    ensures Lookup(history, number) == if 1 <= number <= |history| then Some(history[number - 1]) else None
  {
    assert history[0..] == history;
    LookupFrom(history, number, 0);
  }

  /** Appending never changes a lookup that succeeds, so a reader that looks a revision up
      later than it read the record finds the same one. */
  lemma {:induction false} LookupStable(history: seq<Revision>, more: seq<Revision>, number: int)
    requires Lookup(history, number).Some?
    ensures Lookup(history + more, number) == Lookup(history, number)
  {
    assert (history + more)[0] == history[0];
    if history[0].number != number {
      LookupStable(history[1..], more, number);
      assert (history + more)[1..] == history[1..] + more;
    }
  }

  // ---------- The repository's operations, on one record ----------

  function NewService(name: string): Service {
    Service(name, 0, 0, 0, 0, false, false, Pending, [], [])
  }

  /** A new revision of the manifest, made the desired one; it also lifts a pause or a destroy. */
  function Appended(s: Service, m: Manifest): Service {
    var number := |s.history| + 1;
    s.(history := s.history + [Revision(number, m)], desired := number, rolloutStep := 0,
       paused := false, destroyed := false, phase := Pending)
  }

  /** Whether the manifest is already the desired one, so that applying it changes nothing. */
  predicate AlreadyDesired(s: Service, m: Manifest) {
    && !s.destroyed && s.desired > 0
    && var current := Lookup(s.history, s.desired); current.Some? && current.value.manifest == m
  }

  function Applied(s: Option<Service>, m: Manifest): Service {
    var current := if s.Some? then s.value else NewService(m.name);
    if AlreadyDesired(current, m) then current else Appended(current, m)
  }

  /** The revision a rollback selects: 0 asks for the last known good one. */
  function RollbackTarget(s: Service, target: int): int {
    if target != 0 then target
    else if s.lastGood != 0 then s.lastGood
    else s.active
  }

  function RolledBackTo(s: Service, target: int): Option<Service> {
    match Lookup(s.history, RollbackTarget(s, target))
    case None => None
    case Some(selected) => Some(Appended(s, selected.manifest))
  }

  // ---------- The file-backed store ----------

  class FileStore {
    const libs: Libraries
    var services: map<string, Service>

    constructor (libs: Libraries)
      ensures this.libs == libs && services == map[]
    {
      this.libs := libs;
      services := map[];
    }

    function Record(name: string): Option<Service>
      reads this
    {
      if name in services then Some(services[name]) else None
    }

    method Get(name: string) returns (found: Option<Service>)
      ensures found == Record(name)
    {
      if name !in services { return None; }
      return Some(services[name]);
    }

    /** The scan for a revision number. */
    method Find(history: seq<Revision>, number: int) returns (found: Option<Revision>)
      ensures found == Lookup(history, number)
    {
      for i := 0 to |history|
        invariant Lookup(history, number) == Lookup(history[i..], number)
      {
        if history[i].number == number {
          return Some(history[i]);
        }
        assert history[i..][1..] == history[i + 1..];
      }
      return None;
    }

    method FindRevision(name: string, number: int) returns (found: Option<Revision>)
      ensures found == if Record(name).Some? then Lookup(Record(name).value.history, number) else None
    {
      if name !in services { return None; }
      found := Find(services[name].history, number);
    }

    method Apply(m: Manifest) returns (result: Option<Service>)
      modifies this`services
      ensures result == if Valid(libs, m) then Some(Applied(old(Record(m.name)), m)) else None
      ensures Valid(libs, m) ==> services == old(services)[m.name := result.value]
      ensures !Valid(libs, m) ==> services == old(services)
    {
      var problem := Validate(libs, m);
      if problem.Some? { return None; }
      var service := NewService(m.name);
      if m.name in services {
        service := services[m.name];
      }
      services := services[m.name := service];
      if !service.destroyed && service.desired > 0 {
        var current := Find(service.history, service.desired);
        if current.Some? && current.value.manifest == m {
          return Some(service);
        }
      }
      var number := |service.history| + 1;
      service := service.(history := service.history + [Revision(number, m)]);
      service := service.(desired := number, rolloutStep := 0);
      service := service.(paused := false, destroyed := false);
      service := service.(phase := Pending);
      services := services[m.name := service];
      return Some(service);
    }

    method Rollback(name: string, target: int) returns (result: Option<Service>)
      modifies this`services
      ensures result == if old(Record(name)).Some? then RolledBackTo(old(Record(name)).value, target) else None
      ensures services == if result.Some? then old(services)[name := result.value] else old(services)
    {
      if name !in services { return None; }
      var service := services[name];
      var number := target;
      if number == 0 {
        number := service.lastGood;
        if number == 0 {
          number := service.active;
        }
      }
      var selected := Find(service.history, number);
      if selected.None? { return None; }
      var next := |service.history| + 1;
      service := service.(history := service.history + [Revision(next, selected.value.manifest)]);
      service := service.(desired := next, rolloutStep := 0);
      service := service.(paused := false, destroyed := false);
      service := service.(phase := Pending);
      services := services[name := service];
      return Some(service);
    }

    method Update(name: string, fn: Service -> Service) returns (result: Option<Service>)
      modifies this`services
      ensures result == if old(Record(name)).Some? then Some(fn(old(Record(name)).value)) else None
      ensures services == if result.Some? then old(services)[name := result.value] else old(services)
    {
      if name !in services { return None; }
      services := services[name := fn(services[name])];
      return Some(services[name]);
    }
  }
}
