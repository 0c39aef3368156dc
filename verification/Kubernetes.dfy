/** The Kubernetes adapter over a cluster of labelled objects (internal/backend/kubernetes/backend.go). */
module Kubernetes {
  import opened Text
  import opened Manifests

  // ---------- The cluster ----------

  datatype Kind = Deployment | Service | Ingress | ConfigMap | PodDisruptionBudget | NetworkPolicy

  /** The order in which Ensure and Delete visit the kinds. */
  const KINDS: seq<Kind> := [Deployment, Service, Ingress, ConfigMap, PodDisruptionBudget, NetworkPolicy]

  datatype Key = Key(kind: Kind, namespace: string, name: string)

  type Labels = map<string, string>

  datatype Spec = Spec(image: string, port: int, replicas: int, data: map<string, string>)

  datatype Status = Status(observedGeneration: nat, updated: int, ready: int, available: int)

  datatype Object = Object(
    labels: Labels,
    revision: nat,
    selector: Labels,
    spec: Spec,
    clusterIP: string,
    owners: set<string>,
    generation: nat,
    status: Status)

  type Objects = map<Key, Object>

  /** The addresses the API server hands to new Services. */
  type Allocator = Key -> string

  const NAME_LABEL := "app.kubernetes.io/name"
  const MANAGED_BY_LABEL := "app.kubernetes.io/managed-by"
  const CONTROLLER_LABEL := "plinth.dev/controller"
  const MANAGED_BY := "plinth"
  const PLINTHD := "plinthd"
  const OPERATOR := "operator"

  function At(objects: Objects, key: Key): Option<Object> {
    if key in objects then Some(objects[key]) else None
  }

  function LabelOf(o: Object, tag: string): string {
    if tag in o.labels then o.labels[tag] else ""
  }

  // ---------- What the adapter asks for ----------

  /** The adapter's settings. A fresh one works for plinthd; one with an owner works for the operator. */
  datatype Adapter = Adapter(namespace: string, controller: string, owner: Option<string>)

  function NewAdapter(namespace: string): Adapter {
    Adapter(if namespace == "" then "default" else namespace, PLINTHD, None)
  }

  function WithOwner(b: Adapter, owner: string): Adapter {
    b.(owner := Some(owner), controller := OPERATOR)
  }

  /** The controller in force: an empty setting means the default. */
  function Controller(b: Adapter): string {
    if b.controller == "" then PLINTHD else b.controller
  }

  function Selector(b: Adapter, name: string): Labels {
    map[NAME_LABEL := name, MANAGED_BY_LABEL := MANAGED_BY, CONTROLLER_LABEL := Controller(b)]
  }

  predicate HasSelector(kind: Kind) {
    !kind.Ingress? && !kind.ConfigMap?
  }

  function SpecFor(kind: Kind, m: Manifest): Spec {
    match kind
    case Deployment => Spec(m.image, m.port, m.replicas, m.env)
    case Service => Spec("", m.port, 0, map[])
    case Ingress => Spec("", m.port, 0, map[])
    case ConfigMap => Spec("", 0, 0, m.env)
    case PodDisruptionBudget => Spec("", 0, 0, map[])
    case NetworkPolicy => Spec("", 0, 0, map[])
  }

  function Desired(b: Adapter, kind: Kind, m: Manifest, revision: nat): Object {
    Object(Selector(b, m.name), revision, if HasSelector(kind) then Selector(b, m.name) else map[], SpecFor(kind, m), "",
           if b.owner.Some? then {b.owner.value} else {}, 0, Status(0, 0, 0, 0))
  }

  /** The namespace Ensure works in: the manifest's where it names one. */
  function Namespace(b: Adapter, m: Manifest): string {
    if m.namespace != "" then m.namespace else b.namespace
  }

  function KeyFor(b: Adapter, kind: Kind, m: Manifest): Key {
    Key(kind, Namespace(b, m), m.name)
  }

  // ---------- One upsert ----------

  /** May this adapter touch the object: it is Plinth's, and no other controller has claimed it. */
  predicate Owned(b: Adapter, o: Object) {
    && LabelOf(o, MANAGED_BY_LABEL) == MANAGED_BY
    && (LabelOf(o, CONTROLLER_LABEL) == "" || LabelOf(o, CONTROLLER_LABEL) == Controller(b))
  }

  function Created(key: Key, desired: Object, alloc: Allocator): Object {
    desired.(clusterIP := if key.kind.Service? then alloc(key) else "", generation := 1)
  }

  /** A server-side apply: the desired fields are overwritten, labels merged, and the
      generation grows when what is asked for changed. */
  function Patched(current: Object, desired: Object, kind: Kind): Object {
    var selector := if HasSelector(kind) then desired.selector else current.selector;
    Object(current.labels + desired.labels, desired.revision, selector, desired.spec, desired.clusterIP,
           if desired.owners == {} then current.owners else desired.owners,
           if current.spec == desired.spec && current.selector == selector then current.generation else current.generation + 1,
           current.status)
  }

  /** What is sent for an object that exists: for a Service, with the address it already has. */
  function ForPatch(current: Object, desired: Object, kind: Kind): Object {
    if kind.Service? then desired.(clusterIP := current.clusterIP) else desired
  }

  /** A selector cannot be changed in place: these kinds are deleted and created again. */
  predicate Recreates(current: Object, desired: Object, kind: Kind) {
    (kind.Deployment? || kind.NetworkPolicy?) && current.selector != desired.selector
  }

  /** The object an upsert leaves, or None where it refuses to touch what is there. */
  function Upserted(b: Adapter, key: Key, current: Option<Object>, desired: Object, alloc: Allocator): Option<Object> {
    match current
    case None => Some(Created(key, desired, alloc))
    case Some(o) =>
      if !Owned(b, o) then None
      else if Recreates(o, desired, key.kind) then Some(Created(key, desired, alloc))
      else Some(Patched(o, ForPatch(o, desired, key.kind), key.kind))
  }

  lemma UpsertedIsOwned(b: Adapter, key: Key, current: Option<Object>, m: Manifest, revision: nat, alloc: Allocator)
    ensures var o := Upserted(b, key, current, Desired(b, key.kind, m, revision), alloc);
            o.Some? ==> Owned(b, o.value) && LabelOf(o.value, CONTROLLER_LABEL) == Controller(b)
  {
  }

  /** Upserting the same manifest and revision again changes nothing. */
  lemma UpsertTwice(b: Adapter, key: Key, current: Option<Object>, m: Manifest, revision: nat, alloc: Allocator)
    requires Upserted(b, key, current, Desired(b, key.kind, m, revision), alloc).Some?
    ensures var o := Upserted(b, key, current, Desired(b, key.kind, m, revision), alloc);
            Upserted(b, key, o, Desired(b, key.kind, m, revision), alloc) == o
  {
    var desired := Desired(b, key.kind, m, revision);
    var o := Upserted(b, key, current, desired, alloc).value;
    UpsertedIsOwned(b, key, current, m, revision, alloc);
    assert o.labels + desired.labels == o.labels;
  }

  /** An upsert is refused exactly where the object is not Plinth's, or another controller's label is on it. */
  lemma RefusedExactly(b: Adapter, key: Key, current: Option<Object>, desired: Object, alloc: Allocator)
    ensures Upserted(b, key, current, desired, alloc).None? <==>
              && current.Some?
              && var labels := current.value.labels;
              || "app.kubernetes.io/managed-by" !in labels || labels["app.kubernetes.io/managed-by"] != "plinth"
              || ("plinth.dev/controller" in labels && labels["plinth.dev/controller"] != "" &&
                  labels["plinth.dev/controller"] != if b.controller == "" then "plinthd" else b.controller)
  {
  }

  /** An owned object is made anew, without its old labels, status or generation, exactly where it is a
      Deployment or a NetworkPolicy with another selector; anything else keeps them. */
  lemma MadeAnewExactly(b: Adapter, key: Key, o: Object, m: Manifest, revision: nat, alloc: Allocator)
    requires Owned(b, o)
    ensures var after := Upserted(b, key, Some(o), Desired(b, key.kind, m, revision), alloc).value;
            var own := map["app.kubernetes.io/name" := m.name, "app.kubernetes.io/managed-by" := "plinth",
                           "plinth.dev/controller" := if b.controller == "" then "plinthd" else b.controller];
            if key.kind in {Deployment, NetworkPolicy} && o.selector != own then
              after.labels == own && after.generation == 1 && after.status == Status(0, 0, 0, 0)
            else after.labels == o.labels + own && after.generation >= o.generation && after.status == o.status
  {
  }

  // ---------- Ensure, its prefixes and its retries ----------

  /** The upserts of the given kinds, in order, stopping at the first refusal. */
  function EnsureKinds(b: Adapter, objects: Objects, kinds: seq<Kind>, m: Manifest, revision: nat, alloc: Allocator): (Objects, bool)
    decreases |kinds|
  {
    if kinds == [] then (objects, true)
    else
      var key := KeyFor(b, kinds[0], m);
      match Upserted(b, key, At(objects, key), Desired(b, kinds[0], m, revision), alloc)
      case None => (objects, false)
      case Some(o) => EnsureKinds(b, objects[key := o], kinds[1..], m, revision, alloc)
  }

  function Ensured(b: Adapter, objects: Objects, m: Manifest, revision: nat, alloc: Allocator): (Objects, bool) {
    EnsureKinds(b, objects, KINDS, m, revision, alloc)
  }

  /** An Ensure stopped after n upserts and, where `torn`, between the delete and the create of
      the next one if that one recreates its object. */
  function Interrupted(b: Adapter, objects: Objects, n: nat, torn: bool, m: Manifest, revision: nat, alloc: Allocator): Objects
    requires n <= |KINDS|
  {
    var (partly, ok) := EnsureKinds(b, objects, KINDS[..n], m, revision, alloc);
    if !torn || !ok || n == |KINDS| then partly
    else
      var key := KeyFor(b, KINDS[n], m);
      var current := At(partly, key);
      if current.Some? && Owned(b, current.value) && Recreates(current.value, Desired(b, KINDS[n], m, revision), KINDS[n]) then
        partly - {key}
      else partly
  }

  /** No object in the way belongs to anyone else. */
  predicate NoConflict(b: Adapter, objects: Objects, m: Manifest) {
    forall kind :: kind in KINDS ==>
      var o := At(objects, KeyFor(b, kind, m)); o.Some? ==> Owned(b, o.value)
  }

  predicate NoRepeats(kinds: seq<Kind>) {
    forall i, j :: 0 <= i < j < |kinds| ==> kinds[i] != kinds[j]
  }

  predicate NoConflictIn(b: Adapter, objects: Objects, kinds: seq<Kind>, m: Manifest) {
    forall i :: 0 <= i < |kinds| ==>
      var o := At(objects, KeyFor(b, kinds[i], m)); o.Some? ==> Owned(b, o.value)
  }

  /** Object by object: without a conflict, the ensured kinds hold what one upsert makes of what
      was there, and every other key of the cluster is untouched. */
  lemma {:induction false} EnsureKindsPointwise(b: Adapter, objects: Objects, kinds: seq<Kind>, m: Manifest, revision: nat,
                                                alloc: Allocator, key: Key)
    requires NoRepeats(kinds) && NoConflictIn(b, objects, kinds, m)
    ensures var (after, ok) := EnsureKinds(b, objects, kinds, m, revision, alloc);
            && ok
            && At(after, key)
               == if key.kind in kinds && key == KeyFor(b, key.kind, m) then
                    Upserted(b, key, At(objects, key), Desired(b, key.kind, m, revision), alloc)
                  else At(objects, key)
    decreases |kinds|
  {
    if kinds != [] {
      var first := KeyFor(b, kinds[0], m);
      assert NoConflictIn(b, objects, [kinds[0]], m) by {
        assert [kinds[0]][0] == kinds[0];
      }
      var o := Upserted(b, first, At(objects, first), Desired(b, kinds[0], m, revision), alloc).value;
      var rest := kinds[1..];
      assert forall i :: 0 <= i < |rest| ==> rest[i] == kinds[i + 1] && KeyFor(b, rest[i], m) != first;
      EnsureKindsPointwise(b, objects[first := o], rest, m, revision, alloc, key);
    }
  }

  lemma ConflictFree(b: Adapter, objects: Objects, n: nat, m: Manifest)
    requires NoConflict(b, objects, m) && n <= |KINDS|
    ensures NoConflictIn(b, objects, KINDS[..n], m) && NoRepeats(KINDS[..n])
  {
    forall i | 0 <= i < n
      ensures var o := At(objects, KeyFor(b, KINDS[..n][i], m)); o.Some? ==> Owned(b, o.value)
    {
      assert KINDS[..n][i] == KINDS[i] && KINDS[i] in KINDS;
    }
  }

  lemma EnsuredPointwise(b: Adapter, objects: Objects, m: Manifest, revision: nat, alloc: Allocator, key: Key)
    requires NoConflict(b, objects, m)
    ensures Ensured(b, objects, m, revision, alloc).1
    ensures At(Ensured(b, objects, m, revision, alloc).0, key)
            == if key == KeyFor(b, key.kind, m) then
                 Upserted(b, key, At(objects, key), Desired(b, key.kind, m, revision), alloc)
               else At(objects, key)
  {
    ConflictFree(b, objects, |KINDS|, m);
    assert KINDS[..|KINDS|] == KINDS;
    AllKinds(key.kind);
    EnsureKindsPointwise(b, objects, KINDS, m, revision, alloc, key);
  }

  lemma AllKinds(kind: Kind)
    ensures kind in KINDS
  {
    match kind {
      case Deployment => assert KINDS[0] == kind;
      case Service => assert KINDS[1] == kind;
      case Ingress => assert KINDS[2] == kind;
      case ConfigMap => assert KINDS[3] == kind;
      case PodDisruptionBudget => assert KINDS[4] == kind;
      case NetworkPolicy => assert KINDS[5] == kind;
    }
  }

  /** At each key, an interrupted Ensure left what was there, what a full one would leave, or,
      when the interruption fell between a delete and a create, nothing. */
  lemma InterruptedPointwise(b: Adapter, objects: Objects, n: nat, torn: bool, m: Manifest, revision: nat, alloc: Allocator, key: Key)
    requires NoConflict(b, objects, m) && n <= |KINDS|
    ensures var o := At(Interrupted(b, objects, n, torn, m, revision, alloc), key);
            var full := Upserted(b, key, At(objects, key), Desired(b, key.kind, m, revision), alloc);
            || o == At(objects, key)
            || (key == KeyFor(b, key.kind, m) && o == full)
            || (key == KeyFor(b, key.kind, m) && o.None? && full == Some(Created(key, Desired(b, key.kind, m, revision), alloc)))
  {
    ConflictFree(b, objects, n, m);
    EnsureKindsPointwise(b, objects, KINDS[..n], m, revision, alloc, key);
    if n < |KINDS| {
      EnsureKindsPointwise(b, objects, KINDS[..n], m, revision, alloc, KeyFor(b, KINDS[n], m));
      assert KINDS[n] !in KINDS[..n];
    }
  }

  lemma SameObjects(x: Objects, y: Objects)
    requires forall key :: At(x, key) == At(y, key)
    ensures x == y
  {
    forall key ensures key in x <==> key in y {
      assert At(x, key) == At(y, key);
    }
    forall key | key in x ensures x[key] == y[key] {
      assert At(x, key) == At(y, key);
    }
  }

  /** Ensure is retry-safe: stopped after any prefix of its upserts, including between the
      delete and the create of a recreated object, a complete Ensure of the same manifest and
      revision then leaves exactly the cluster an uninterrupted one would have. */
  lemma RetrySafe(b: Adapter, objects: Objects, n: nat, torn: bool, m: Manifest, revision: nat, alloc: Allocator)
    requires NoConflict(b, objects, m) && n <= |KINDS|
    ensures Ensured(b, Interrupted(b, objects, n, torn, m, revision, alloc), m, revision, alloc)
            == Ensured(b, objects, m, revision, alloc)
  {
    var partly := Interrupted(b, objects, n, torn, m, revision, alloc);
    assert NoConflict(b, partly, m) by {
      forall kind | kind in KINDS
        ensures var o := At(partly, KeyFor(b, kind, m)); o.Some? ==> Owned(b, o.value)
      {
        InterruptedPointwise(b, objects, n, torn, m, revision, alloc, KeyFor(b, kind, m));
        UpsertedIsOwned(b, KeyFor(b, kind, m), At(objects, KeyFor(b, kind, m)), m, revision, alloc);
      }
    }
    forall key
      ensures At(Ensured(b, partly, m, revision, alloc).0, key) == At(Ensured(b, objects, m, revision, alloc).0, key)
    {
      RetryAt(b, objects, n, torn, m, revision, alloc, key);
    }
    SameObjects(Ensured(b, partly, m, revision, alloc).0, Ensured(b, objects, m, revision, alloc).0);
    EnsuredPointwise(b, partly, m, revision, alloc, KeyFor(b, Deployment, m));
    EnsuredPointwise(b, objects, m, revision, alloc, KeyFor(b, Deployment, m));
  }

  lemma RetryAt(b: Adapter, objects: Objects, n: nat, torn: bool, m: Manifest, revision: nat, alloc: Allocator, key: Key)
    requires NoConflict(b, objects, m) && n <= |KINDS| && NoConflict(b, Interrupted(b, objects, n, torn, m, revision, alloc), m)
    ensures At(Ensured(b, Interrupted(b, objects, n, torn, m, revision, alloc), m, revision, alloc).0, key)
            == At(Ensured(b, objects, m, revision, alloc).0, key)
  {
    EnsuredPointwise(b, Interrupted(b, objects, n, torn, m, revision, alloc), m, revision, alloc, key);
    EnsuredPointwise(b, objects, m, revision, alloc, key);
    InterruptedPointwise(b, objects, n, torn, m, revision, alloc, key);
    if key == KeyFor(b, key.kind, m) {
      AllKinds(key.kind);
      assert At(objects, key).Some? ==> Owned(b, At(objects, key).value);
      UpsertTwice(b, key, At(objects, key), m, revision, alloc);
    }
  }

  /** What a completed Ensure changes: its own six keys only, and an existing Service keeps its
      address. */
  lemma EnsureChangesOnlyItsOwn(b: Adapter, objects: Objects, m: Manifest, revision: nat, alloc: Allocator, key: Key)
    requires NoConflict(b, objects, m)
    ensures var after := Ensured(b, objects, m, revision, alloc).0;
            && (key != KeyFor(b, key.kind, m) ==> At(after, key) == At(objects, key))
            && (key == KeyFor(b, key.kind, m) ==>
                && At(after, key).Some?
                && var o := At(after, key).value;
                && o.revision == revision && o.spec == SpecFor(key.kind, m) && Owned(b, o)
                && (key.kind.Service? && At(objects, key).Some? ==> o.clusterIP == At(objects, key).value.clusterIP))
  {
    EnsuredPointwise(b, objects, m, revision, alloc, key);
    AllKinds(key.kind);
    UpsertedIsOwned(b, key, At(objects, key), m, revision, alloc);
  }

  // ---------- What a completed Ensure installs ----------

  lemma {:induction false} OkIsConflictFree(b: Adapter, objects: Objects, kinds: seq<Kind>, m: Manifest, revision: nat, alloc: Allocator)
    requires NoRepeats(kinds) && EnsureKinds(b, objects, kinds, m, revision, alloc).1
    ensures NoConflictIn(b, objects, kinds, m)
    decreases |kinds|
  {
    if kinds != [] {
      var first := KeyFor(b, kinds[0], m);
      var o := Upserted(b, first, At(objects, first), Desired(b, kinds[0], m, revision), alloc).value;
      var rest := kinds[1..];
      OkIsConflictFree(b, objects[first := o], rest, m, revision, alloc);
      forall i | 0 <= i < |kinds|
        ensures var current := At(objects, KeyFor(b, kinds[i], m)); current.Some? ==> Owned(b, current.value)
      {
        if i > 0 {
          assert kinds[i] == rest[i - 1];
          assert At(objects[first := o], KeyFor(b, rest[i - 1], m)) == At(objects, KeyFor(b, kinds[i], m));
        }
      }
    }
  }

  /** Ensure succeeds if and only if none of its six objects is there under someone else's name. */
  lemma EnsureSucceedsExactly(b: Adapter, objects: Objects, m: Manifest, revision: nat, alloc: Allocator)
    ensures Ensured(b, objects, m, revision, alloc).1 <==> NoConflict(b, objects, m)
  {
    if Ensured(b, objects, m, revision, alloc).1 {
      assert NoRepeats(KINDS);
      OkIsConflictFree(b, objects, KINDS, m, revision, alloc);
      forall kind | kind in KINDS
        ensures var o := At(objects, KeyFor(b, kind, m)); o.Some? ==> Owned(b, o.value)
      {
        var i :| 0 <= i < |KINDS| && KINDS[i] == kind;
      }
    } else if NoConflict(b, objects, m) {
      EnsuredPointwise(b, objects, m, revision, alloc, KeyFor(b, Deployment, m));
    }
  }

  /** The labels of everything the adapter makes for a name. */
  predicate Labelled(b: Adapter, o: Object, name: string) {
    && "app.kubernetes.io/name" in o.labels && o.labels["app.kubernetes.io/name"] == name
    && "app.kubernetes.io/managed-by" in o.labels && o.labels["app.kubernetes.io/managed-by"] == "plinth"
    && "plinth.dev/controller" in o.labels
    && o.labels["plinth.dev/controller"] == if b.controller == "" then "plinthd" else b.controller
  }

  /** The selector of a workload, a service and the policies: the same three labels. */
  predicate SelectsOwn(b: Adapter, o: Object, name: string) {
    o.selector == map["app.kubernetes.io/name" := name, "app.kubernetes.io/managed-by" := "plinth",
                      "plinth.dev/controller" := if b.controller == "" then "plinthd" else b.controller]
  }

  /** The manifest is installed: each of its six objects is there, as asked for. */
  predicate Installs(b: Adapter, m: Manifest, revision: nat, objects: Objects) {
    forall kind: Kind :: InstalledAt(b, m, revision, objects, kind)
  }

  lemma CompletedEnsureInstalls(b: Adapter, objects: Objects, m: Manifest, revision: nat, alloc: Allocator)
    requires Ensured(b, objects, m, revision, alloc).1
    ensures Installs(b, m, revision, Ensured(b, objects, m, revision, alloc).0)
  {
    EnsureSucceedsExactly(b, objects, m, revision, alloc);
    forall kind: Kind ensures InstalledAt(b, m, revision, Ensured(b, objects, m, revision, alloc).0, kind) {
      CompletedAt(b, objects, m, revision, alloc, kind);
    }
  }

  lemma CompletedAt(b: Adapter, objects: Objects, m: Manifest, revision: nat, alloc: Allocator, kind: Kind)
    requires NoConflict(b, objects, m)
    ensures InstalledAt(b, m, revision, Ensured(b, objects, m, revision, alloc).0, kind)
  {
    var key := KeyFor(b, kind, m);
    EnsuredPointwise(b, objects, m, revision, alloc, key);
    AllKinds(kind);
    assert At(objects, key).Some? ==> Owned(b, At(objects, key).value);
    UpsertInstalls(b, At(objects, key), m, revision, alloc, kind);
  }

  /** In the manifest's own namespace where it names one, else in the adapter's. */
  predicate InstalledAt(b: Adapter, m: Manifest, revision: nat, objects: Objects, kind: Kind) {
    var key := Key(kind, if m.namespace != "" then m.namespace else b.namespace, m.name);
    && key in objects
    && AsAsked(b, m, revision, objects[key], kind)
  }

  /** The object carries the revision, the owner and the caller's labels; the Deployment asks for the
      manifest's image, port and replicas, the Service and the Ingress lead to its port, and the
      ConfigMap holds its environment. */
  predicate AsAsked(b: Adapter, m: Manifest, revision: nat, o: Object, kind: Kind) {
    && o.revision == revision && Labelled(b, o, m.name)
    && (b.owner.Some? ==> o.owners == {b.owner.value})
    && (kind !in {Ingress, ConfigMap} ==> SelectsOwn(b, o, m.name))
    && match kind
       case Deployment => o.spec.image == m.image && o.spec.port == m.port && o.spec.replicas == m.replicas && o.spec.data == m.env
       case Service => o.spec.port == m.port
       case Ingress => o.spec.port == m.port
       case ConfigMap => o.spec.data == m.env
       case _ => true
  }

  lemma UpsertInstalls(b: Adapter, current: Option<Object>, m: Manifest, revision: nat, alloc: Allocator, kind: Kind)
    ensures var o := Upserted(b, KeyFor(b, kind, m), current, Desired(b, kind, m, revision), alloc);
            o.Some? ==> AsAsked(b, m, revision, o.value, kind)
  {
  }

  // ---------- Readiness ----------

  predicate IsReady(o: Object, desired: int) {
    || desired == 0
    || (o.status.observedGeneration >= o.generation && o.status.updated >= desired
        && o.status.ready >= desired && o.status.available >= desired)
  }

  /** The rollout gate cannot be passed on an old status: after an upsert that changed what is
      asked for, a status reported before it never reads as ready. */
  lemma StaleStatusIsNotReady(b: Adapter, key: Key, o: Object, m: Manifest, revision: nat, alloc: Allocator)
    requires key.kind.Deployment? && Owned(b, o) && o.status.observedGeneration <= o.generation
    requires m.replicas != 0 && (o.spec != SpecFor(Deployment, m) || o.selector != Selector(b, m.name))
    ensures var after := Upserted(b, key, Some(o), Desired(b, Deployment, m, revision), alloc);
            after.Some? && !IsReady(after.value, m.replicas)
  {
  }

  // ---------- Delete ----------

  /** The objects of the name that the adapter's label selector finds, in any namespace. */
  predicate Selected(b: Adapter, o: Object, name: string) {
    && LabelOf(o, NAME_LABEL) == name
    && LabelOf(o, MANAGED_BY_LABEL) == MANAGED_BY
    && LabelOf(o, CONTROLLER_LABEL) == Controller(b)
  }

  function Deleted(b: Adapter, objects: Objects, name: string): Objects {
    map key | key in objects && !Selected(b, objects[key], name) :: objects[key]
  }

  /** The labels Ensure gives are the ones Delete looks for: a completed Delete leaves nothing
      that a completed Ensure of the same controller made, whatever namespace it was made in. */
  lemma DeleteUndoesEnsure(b: Adapter, c: Adapter, objects: Objects, m: Manifest, revision: nat, alloc: Allocator, kind: Kind)
    requires NoConflict(b, objects, m) && Controller(b) == Controller(c)
    ensures KeyFor(b, kind, m) in Ensured(b, objects, m, revision, alloc).0
    ensures KeyFor(b, kind, m) !in Deleted(c, Ensured(b, objects, m, revision, alloc).0, m.name)
  {
    var key := KeyFor(b, kind, m);
    EnsuredPointwise(b, objects, m, revision, alloc, key);
    AllKinds(kind);
    UpsertedIsSelected(b, c, key, At(objects, key), m, revision, alloc);
  }

  lemma UpsertedIsSelected(b: Adapter, c: Adapter, key: Key, current: Option<Object>, m: Manifest, revision: nat, alloc: Allocator)
    requires Controller(b) == Controller(c) && (current.Some? ==> Owned(b, current.value))
    ensures var o := Upserted(b, key, current, Desired(b, key.kind, m, revision), alloc);
            o.Some? && Selected(c, o.value, m.name)
  {
  }

  // ---------- Two controllers on one cluster ----------

  datatype Operation =
    | EnsureOp(b: Adapter, n: nat, torn: bool, m: Manifest, revision: nat)
    | UpsertOp(b: Adapter, kind: Kind, torn: bool, m: Manifest, revision: nat)
    | DeleteOp(b: Adapter, done: set<Kind>, name: string)
    | DeleteOneOp(b: Adapter, key: Key, name: string)

  /** An operation as far as it got: an Ensure may stop anywhere, a Delete after some kinds. Single
      upserts and deletes let the operations of several controllers interleave object by object. */
  function Applied(objects: Objects, op: Operation, alloc: Allocator): Objects {
    match op
    case EnsureOp(b, n, torn, m, revision) =>
      Interrupted(b, objects, if n <= |KINDS| then n else |KINDS|, torn, m, revision, alloc)
    case UpsertOp(b, kind, torn, m, revision) =>
      var key := KeyFor(b, kind, m);
      var current := At(objects, key);
      if torn && current.Some? && Owned(b, current.value) && Recreates(current.value, Desired(b, kind, m, revision), kind) then
        objects - {key}
      else EnsureKinds(b, objects, [kind], m, revision, alloc).0
    case DeleteOneOp(b, key, name) =>
      if key in objects && Selected(b, objects[key], name) then objects - {key} else objects
    case DeleteOp(b, done, name) =>
      map key | key in objects && !(key.kind in done && Selected(b, objects[key], name)) :: objects[key]
  }

  function AppliedAll(objects: Objects, ops: seq<Operation>, alloc: Allocator): Objects
    decreases |ops|
  {
    if ops == [] then objects else Applied(AppliedAll(objects, ops[..|ops| - 1], alloc), ops[|ops| - 1], alloc)
  }

  /** The object has been claimed by a controller other than the adapter's. */
  predicate ClaimedByOther(b: Adapter, o: Object) {
    LabelOf(o, CONTROLLER_LABEL) != "" && LabelOf(o, CONTROLLER_LABEL) != Controller(b)
  }

  lemma {:induction false} EnsureKindsSpares(b: Adapter, objects: Objects, kinds: seq<Kind>, m: Manifest, revision: nat,
                                             alloc: Allocator, key: Key)
    requires key in objects && ClaimedByOther(b, objects[key])
    ensures var after := EnsureKinds(b, objects, kinds, m, revision, alloc).0;
            key in after && after[key] == objects[key]
    decreases |kinds|
  {
    if kinds != [] {
      var first := KeyFor(b, kinds[0], m);
      var o := Upserted(b, first, At(objects, first), Desired(b, kinds[0], m, revision), alloc);
      if o.Some? {
        assert first != key;
        EnsureKindsSpares(b, objects[first := o.value], kinds[1..], m, revision, alloc, key);
      }
    }
  }

  lemma AppliedSpares(objects: Objects, op: Operation, alloc: Allocator, key: Key)
    requires key in objects && ClaimedByOther(op.b, objects[key])
    ensures key in Applied(objects, op, alloc) && Applied(objects, op, alloc)[key] == objects[key]
  {
    if op.EnsureOp? {
      var n := if op.n <= |KINDS| then op.n else |KINDS|;
      EnsureKindsSpares(op.b, objects, KINDS[..n], op.m, op.revision, alloc, key);
    } else if op.UpsertOp? {
      EnsureKindsSpares(op.b, objects, [op.kind], op.m, op.revision, alloc, key);
    }
  }

  /** Controller separation: whatever sequence of Ensures and Deletes other controllers run,
      complete or interrupted, interleaved upsert by upsert and delete by delete, on whatever
      names and namespaces, an object claimed by a controller is exactly as it was. */
  lemma {:induction false} ControllersAreSeparate(objects: Objects, ops: seq<Operation>, alloc: Allocator, key: Key)
    requires key in objects && forall i :: 0 <= i < |ops| ==> ClaimedByOther(ops[i].b, objects[key])
    ensures key in AppliedAll(objects, ops, alloc) && AppliedAll(objects, ops, alloc)[key] == objects[key]
    decreases |ops|
  {
    if ops != [] {
      ControllersAreSeparate(objects, ops[..|ops| - 1], alloc, key);
      AppliedSpares(AppliedAll(objects, ops[..|ops| - 1], alloc), ops[|ops| - 1], alloc, key);
    }
  }

  // ---------- The adapter on a live cluster ----------

  class Cluster {
    const alloc: Allocator
    var objects: Objects

    constructor (alloc: Allocator)
      ensures this.alloc == alloc && objects == map[]
    {
      this.alloc := alloc;
      objects := map[];
    }

    method Get(key: Key) returns (found: Option<Object>)
      ensures found == At(objects, key)
    {
      if key !in objects { return None; }
      return Some(objects[key]);
    }

    method Create(key: Key, desired: Object)
      requires key !in objects
      modifies this`objects
      ensures objects == old(objects)[key := Created(key, desired, alloc)]
    {
      objects := objects[key := Created(key, desired, alloc)];
    }

    method Patch(key: Key, desired: Object)
      requires key in objects
      modifies this`objects
      ensures objects == old(objects)[key := Patched(old(objects)[key], desired, key.kind)]
    {
      objects := objects[key := Patched(objects[key], desired, key.kind)];
    }

    /** Deleting an absent object is not an error to the adapter. */
    method Delete(key: Key)
      modifies this`objects
      ensures objects == old(objects) - {key}
    {
      objects := objects - {key};
    }

    /** The keys of one kind whose objects match the selector, in every namespace. */
    method List(b: Adapter, kind: Kind, name: string) returns (keys: set<Key>)
      ensures keys == set key | key in objects && key.kind == kind && Selected(b, objects[key], name)
    {
      keys := set key | key in objects && key.kind == kind && Selected(b, objects[key], name);
    }
  }

  method Upsert(b: Adapter, cluster: Cluster, key: Key, desired: Object) returns (ok: bool)
    modifies cluster
    ensures var o := Upserted(b, key, old(At(cluster.objects, key)), desired, cluster.alloc);
            && ok == o.Some?
            && cluster.objects == if ok then old(cluster.objects)[key := o.value] else old(cluster.objects)
  {
    var current := cluster.Get(key);
    if current.None? {
      cluster.Create(key, desired);
      return true;
    }
    if !Owned(b, current.value) {
      return false;
    }
    if Recreates(current.value, desired, key.kind) {
      cluster.Delete(key);
      cluster.Create(key, desired);
      assert old(cluster.objects) - {key} + map[key := Created(key, desired, cluster.alloc)]
          == old(cluster.objects)[key := Created(key, desired, cluster.alloc)];
      return true;
    }
    var sent := desired;
    if key.kind.Service? {
      sent := sent.(clusterIP := current.value.clusterIP);
    }
    cluster.Patch(key, sent);
    return true;
  }

  /** The six upserts in order, stopping at the first refusal, and the readiness of the Deployment as
      it stands after its own. */
  method UpsertAll(b: Adapter, cluster: Cluster, m: Manifest, revision: nat) returns (ok: bool, ready: bool)
    modifies cluster
    ensures (cluster.objects, ok) == Ensured(b, old(cluster.objects), m, revision, cluster.alloc)
    ensures ok ==> KeyFor(b, Deployment, m) in cluster.objects
                   && ready == IsReady(cluster.objects[KeyFor(b, Deployment, m)], m.replicas)
  {
    ready := false;
    ghost var before := cluster.objects;
    for i := 0 to |KINDS|
      invariant EnsureKinds(b, cluster.objects, KINDS[i..], m, revision, cluster.alloc)
                == EnsureKinds(b, before, KINDS, m, revision, cluster.alloc)
      invariant i > 0 ==> KeyFor(b, Deployment, m) in cluster.objects
                          && ready == IsReady(cluster.objects[KeyFor(b, Deployment, m)], m.replicas)
    {
      var kind := KINDS[i];
      var key := KeyFor(b, kind, m);
      assert KINDS[i..][0] == kind && KINDS[i..][1..] == KINDS[i + 1..];
      ok := Upsert(b, cluster, key, Desired(b, kind, m, revision));
      if !ok {
        return false, false;
      }
      if kind == Deployment {
        var observed := cluster.Get(key);
        ready := IsReady(observed.value, m.replicas);
      }
    }
    return true, ready;
  }

  /** Ensure the six objects in order, stopping at the first refusal. It reports ready exactly
      when the Deployment, as it stands after its upsert, has the replicas the manifest asks for. */
  method Ensure(b: Adapter, cluster: Cluster, m: Manifest, revision: nat) returns (ok: bool, ready: bool)
    modifies cluster
    ensures (cluster.objects, ok) == Ensured(b, old(cluster.objects), m, revision, cluster.alloc)
    ensures ok <==> NoConflict(b, old(cluster.objects), m)
    ensures ok ==>
              && Installs(b, m, revision, cluster.objects)
              && var deployment := cluster.objects[Key(Deployment, if m.namespace != "" then m.namespace else b.namespace, m.name)];
              var status := deployment.status;
              ready == (m.replicas == 0
                        || (status.observedGeneration >= deployment.generation && status.updated >= m.replicas
                            && status.ready >= m.replicas && status.available >= m.replicas))
  {
    EnsureSucceedsExactly(b, cluster.objects, m, revision, cluster.alloc);
    ghost var before := cluster.objects;
    ok, ready := UpsertAll(b, cluster, m, revision);
    if ok {
      CompletedEnsureInstalls(b, before, m, revision, cluster.alloc);
    }
  }

  /** Delete every object of one kind that the selector finds, one by one. */
  method DeleteKind(b: Adapter, cluster: Cluster, kind: Kind, name: string)
    modifies cluster
    ensures cluster.objects == Applied(old(cluster.objects), DeleteOp(b, {kind}, name), cluster.alloc)
  {
    ghost var start := cluster.objects;
    var keys := cluster.List(b, kind, name);
    ghost var found := keys;
    ghost var gone: set<Key> := {};
    while keys != {}
      invariant gone + keys == found
      invariant cluster.objects == start - gone
      decreases |keys|
    {
      var key :| key in keys;
      cluster.Delete(key);
      WithoutOneMore(start, gone, key);
      keys := keys - {key};
      gone := gone + {key};
    }
    WithoutSelected(b, start, found, kind, name, cluster.alloc);
  }

  lemma WithoutOneMore(objects: Objects, gone: set<Key>, key: Key)
    ensures (objects - gone) - {key} == objects - (gone + {key})
  {
  }

  lemma WithoutSelected(b: Adapter, objects: Objects, found: set<Key>, kind: Kind, name: string, alloc: Allocator)
    requires found == set key | key in objects && key.kind == kind && Selected(b, objects[key], name)
    ensures objects - found == Applied(objects, DeleteOp(b, {kind}, name), alloc)
  {
  }

  lemma OneMoreKind(b: Adapter, objects: Objects, done: set<Kind>, kind: Kind, name: string, alloc: Allocator)
    ensures Applied(Applied(objects, DeleteOp(b, done, name), alloc), DeleteOp(b, {kind}, name), alloc)
            == Applied(objects, DeleteOp(b, done + {kind}, name), alloc)
  {
  }

  function FirstKinds(i: nat): set<Kind>
    requires i <= |KINDS|
  {
    set j | 0 <= j < i :: KINDS[j]
  }

  /** Delete kind by kind, object by object: exactly the caller's objects of the name go, in
      every namespace. */
  method Delete(b: Adapter, cluster: Cluster, name: string)
    modifies cluster
    ensures cluster.objects == Deleted(b, old(cluster.objects), name)
  {
    ghost var before := cluster.objects;
    for i := 0 to |KINDS|
      invariant cluster.objects == Applied(before, DeleteOp(b, FirstKinds(i), name), cluster.alloc)
    {
      DeleteKind(b, cluster, KINDS[i], name);
      OneMoreKind(b, before, FirstKinds(i), KINDS[i], name, cluster.alloc);
      assert FirstKinds(i + 1) == FirstKinds(i) + {KINDS[i]};
    }
    forall kind: Kind ensures kind in FirstKinds(|KINDS|) {
      AllKinds(kind);
    }
  }
}
