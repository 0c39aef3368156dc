/** The Postgres store, which keeps each record as JSON, and how it compares with the
    file-backed one (internal/state/postgres.go). */
module Postgres {
  import opened Text
  import opened Manifests
  import opened Stores
  import opened ControlLoop

  // ---------- The JSON round trip ----------

  function NormalisedRevision(rev: Revision): Revision {
    Revision(rev.number, Normalised(rev.manifest))
  }

  /** A record written as JSON and read back. */
  function RoundTrip(s: Service): Service {
    s.(history := seq(|s.history|, i requires 0 <= i < |s.history| => NormalisedRevision(s.history[i])))
  }

  predicate IsNormal(s: Service) {
    forall i :: 0 <= i < |s.history| ==> Normalised(s.history[i].manifest) == s.history[i].manifest
  }

  lemma RoundTripOfNormal(s: Service)
    ensures IsNormal(RoundTrip(s))
    ensures IsNormal(s) <==> RoundTrip(s) == s
    ensures Numbered(s.history) <==> Numbered(RoundTrip(s).history)
  {
    assert forall i :: 0 <= i < |s.history| ==> RoundTrip(s).history[i].number == s.history[i].number;
    if IsNormal(s) {
      assert RoundTrip(s).history == s.history;
    } else {
      var i :| 0 <= i < |s.history| && Normalised(s.history[i].manifest) != s.history[i].manifest;
      assert RoundTrip(s).history[i] != s.history[i];
    }
  }

  // ---------- The store ----------

  class PostgresStore {
    const libs: Libraries
    /** The rows, as they read back. */
    var rows: map<string, Service>

    constructor (libs: Libraries)
      ensures this.libs == libs && rows == map[]
    {
      this.libs := libs;
      rows := map[];
    }

    method Get(name: string) returns (found: Option<Service>)
      ensures found == if name in rows then Some(rows[name]) else None
    {
      if name !in rows { return None; }
      return Some(rows[name]);
    }

    method Save(service: Service)
      modifies this`rows
      ensures rows == old(rows)[service.name := RoundTrip(service)]
    {
      rows := rows[service.name := RoundTrip(service)];
    }

    method FindRevision(service: Service, number: int) returns (found: Option<Revision>)
      ensures found == Lookup(service.history, number)
    {
      for i := 0 to |service.history|
        invariant Lookup(service.history, number) == Lookup(service.history[i..], number)
      {
        if service.history[i].number == number {
          return Some(service.history[i]);
        }
        assert service.history[i..][1..] == service.history[i + 1..];
      }
      return None;
    }

    method Apply(m: Manifest) returns (ok: bool)
      requires forall name :: name in rows ==> rows[name].name == name
      modifies this`rows
      ensures ok == Valid(libs, m)
      ensures rows == if ok then PostgresApplied(old(rows), m) else old(rows)
    {
      var problem := Validate(libs, m);
      if problem.Some? { return false; }
      var found := Get(m.name);
      var service := if found.None? then NewService(m.name) else found.value;
      if found.Some? && service.desired > 0 {
        var current := FindRevision(service, service.desired);
        if current.Some? && current.value.manifest == m && !service.destroyed {
          return true;
        }
      }
      Save(Appended(service, m));
      return true;
    }

    method Rollback(name: string, target: int) returns (ok: bool)
      requires forall name :: name in rows ==> rows[name].name == name
      modifies this`rows
      ensures ok <==> name in old(rows) && RolledBackTo(old(rows)[name], target).Some?
      ensures rows == if ok then old(rows)[name := RoundTrip(RolledBackTo(old(rows)[name], target).value)] else old(rows)
    {
      var found := Get(name);
      if found.None? { return false; }
      var service := found.value;
      var number := target;
      if number == 0 {
        number := service.lastGood;
        if number == 0 {
          number := service.active;
        }
      }
      var selected := FindRevision(service, number);
      if selected.None? { return false; }
      Save(Appended(service, selected.value.manifest));
      return true;
    }

    method Update(name: string, fn: Service -> Service) returns (ok: bool)
      requires name in rows ==> fn(rows[name]).name == name
      modifies this`rows
      ensures ok <==> name in old(rows)
      ensures rows == if ok then old(rows)[name := RoundTrip(fn(old(rows)[name]))] else old(rows)
    {
      var found := Get(name);
      if found.None? { return false; }
      Save(fn(found.value));
      return true;
    }
  }

  // ---------- Two implementations of one repository ----------

  type Database = map<string, Service>

  datatype Operation =
    | ApplyTo(m: Manifest)
    | RollbackTo(name: string, target: int)
    | UpdateOf(name: string, fn: Service -> Service)

  function Known(db: Database, name: string): Option<Service> {
    if name in db then Some(db[name]) else None
  }

  function FileApplied(db: Database, m: Manifest): Database {
    db[m.name := Applied(Known(db, m.name), m)]
  }

  function PostgresApplied(db: Database, m: Manifest): Database {
    if m.name in db && AlreadyDesired(db[m.name], m) then db
    else db[m.name := RoundTrip(Appended(if m.name in db then db[m.name] else NewService(m.name), m))]
  }

  /** One operation on the file store: its new contents and whether it succeeded. */
  function FileStep(libs: Libraries, db: Database, op: Operation): (Database, bool) {
    match op
    case ApplyTo(m) => if Valid(libs, m) then (FileApplied(db, m), true) else (db, false)
    case RollbackTo(name, target) =>
      if name in db && RolledBackTo(db[name], target).Some? then (db[name := RolledBackTo(db[name], target).value], true)
      else (db, false)
    case UpdateOf(name, fn) => if name in db then (db[name := fn(db[name])], true) else (db, false)
  }

  /** The same on the Postgres store. */
  function PostgresStep(libs: Libraries, db: Database, op: Operation): (Database, bool) {
    match op
    case ApplyTo(m) => if Valid(libs, m) then (PostgresApplied(db, m), true) else (db, false)
    case RollbackTo(name, target) =>
      if name in db && RolledBackTo(db[name], target).Some? then
        (db[name := RoundTrip(RolledBackTo(db[name], target).value)], true)
      else (db, false)
    case UpdateOf(name, fn) => if name in db then (db[name := RoundTrip(fn(db[name]))], true) else (db, false)
  }

  function RunOps(step: (Database, Operation) -> (Database, bool), db: Database, ops: seq<Operation>): (Database, seq<bool>)
    decreases |ops|
  {
    if ops == [] then (db, [])
    else
      var (next, ok) := step(db, ops[0]);
      var (last, oks) := RunOps(step, next, ops[1..]);
      (last, [ok] + oks)
  }

  /** The operation brings in no manifest that JSON would change. */
  ghost predicate BringsNormal(op: Operation) {
    match op
    case ApplyTo(m) => Normalised(m) == m
    case RollbackTo(_, _) => true
    case UpdateOf(_, fn) => forall s: Service :: IsNormal(s) ==> IsNormal(fn(s))
  }

  predicate AllNormal(db: Database) {
    forall name :: name in db ==> IsNormal(db[name])
  }

  lemma {:induction false} LookupIsMember(history: seq<Revision>, number: int)
    ensures Lookup(history, number).Some? ==> Lookup(history, number).value in history
  {
    if history != [] && history[0].number != number {
      LookupIsMember(history[1..], number);
    }
  }

  lemma AppendedNormal(s: Service, m: Manifest)
    requires IsNormal(s) && Normalised(m) == m
    ensures IsNormal(Appended(s, m))
  {
  }

  lemma StepsAgree(libs: Libraries, db: Database, op: Operation)
    requires AllNormal(db) && BringsNormal(op)
    ensures FileStep(libs, db, op) == PostgresStep(libs, db, op)
    ensures AllNormal(FileStep(libs, db, op).0)
  {
    match op {
      case ApplyTo(m) =>
        var s := if m.name in db then db[m.name] else NewService(m.name);
        AppendedNormal(s, m);
        RoundTripOfNormal(Appended(s, m));
        assert m.name in db ==> db[m.name := db[m.name]] == db;
      case RollbackTo(name, target) =>
        if name in db && RolledBackTo(db[name], target).Some? {
          var s := db[name];
          LookupIsMember(s.history, RollbackTarget(s, target));
          AppendedNormal(s, Lookup(s.history, RollbackTarget(s, target)).value.manifest);
          RoundTripOfNormal(RolledBackTo(s, target).value);
        }
      case UpdateOf(name, fn) =>
        if name in db {
          RoundTripOfNormal(fn(db[name]));
        }
    }
  }

  /** The two stores are one repository: on manifests that JSON leaves alone, any sequence of
      operations gives the same records and the same successes in both. */
  lemma {:induction false} StoresAgree(libs: Libraries, db: Database, ops: seq<Operation>)
    requires AllNormal(db) && forall i :: 0 <= i < |ops| ==> BringsNormal(ops[i])
    ensures RunOps((d, op) => FileStep(libs, d, op), db, ops) == RunOps((d, op) => PostgresStep(libs, d, op), db, ops)
    decreases |ops|
  {
    if ops != [] {
      StepsAgree(libs, db, ops[0]);
      StoresAgree(libs, FileStep(libs, db, ops[0]).0, ops[1..]);
    }
  }

  /** The controller's own updates are among the operations the theorem covers. */
  lemma ControllerUpdatesBringNormal(name: string, number: nat, step: int, was: bool)
    ensures BringsNormal(UpdateOf(name, MarkReconciling)) && BringsNormal(UpdateOf(name, MarkPaused))
    ensures BringsNormal(UpdateOf(name, MarkResumed)) && BringsNormal(UpdateOf(name, MarkDestroyed))
    ensures BringsNormal(UpdateOf(name, s => RecordConverged(s, number, step, was)))
    ensures BringsNormal(UpdateOf(name, s => RecordWaiting(s, step))) && BringsNormal(UpdateOf(name, s => RecordFailed(s, step)))
    ensures BringsNormal(UpdateOf(name, s => RecordRestored(s, number)))
  {
  }

  // ---------- Applying the same manifest again ----------

  lemma AppendedIsDesired(s: Service, m: Manifest)
    requires Numbered(s.history)
    ensures AlreadyDesired(Appended(s, m), m)
  {
    LookupNumbered(Appended(s, m).history, |s.history| + 1);
  }

  /** In the file store, applying a manifest twice in a row is applying it once. */
  lemma FileReapply(db: Database, m: Manifest)
    requires m.name in db ==> Numbered(db[m.name].history)
    ensures FileApplied(FileApplied(db, m), m) == FileApplied(db, m)
  {
    var s := if m.name in db then db[m.name] else NewService(m.name);
    AppendedIsDesired(s, m);
  }

  /** JSON leaves the manifest alone: a collection is allocated exactly where it holds something. */
  predicate LeftAlone(m: Manifest) {
    && (m.nonNil.env <==> m.env != map[])
    && (m.nonNil.secrets <==> m.secrets != [])
    && (m.nonNil.steps <==> m.rollout.steps != [])
  }

  /** In Postgres that holds exactly for the manifests that JSON leaves alone: one with an
      allocated empty collection, as the YAML parser makes of every manifest without
      environment, gets a new revision each time it is applied. */
  lemma PostgresReapply(db: Database, m: Manifest)
    requires AllNormal(db) && (m.name in db ==> Numbered(db[m.name].history))
    ensures PostgresApplied(PostgresApplied(db, m), m) == PostgresApplied(db, m) <==> LeftAlone(m)
    ensures !LeftAlone(m) ==>
              && m.name in PostgresApplied(PostgresApplied(db, m), m)
              && |PostgresApplied(PostgresApplied(db, m), m)[m.name].history|
                 == |PostgresApplied(db, m)[m.name].history| + 1
  {
    var s := if m.name in db then db[m.name] else NewService(m.name);
    if m.name in db && AlreadyDesired(s, m) {
      LookupIsMember(s.history, s.desired);
    } else {
      var t := RoundTrip(Appended(s, m));
      AppendedIsDesired(s, m);
      RoundTripOfNormal(Appended(s, m));
      LookupNumbered(t.history, t.desired);
      assert t.history[t.desired - 1] == Revision(t.desired, Normalised(m));
      assert AlreadyDesired(t, m) <==> Normalised(m) == m;
      assert PostgresApplied(db, m)[m.name] == t;
    }
  }
}
