/** When the operator creates, and what its finalizer cleans up. */
module Finalizers {
  import opened Text
  import opened Manifests
  import opened Backends
  import opened Operators
  import opened Attribution
  import K = Kubernetes

  // ---------- One process on current snapshots ----------

  /** A single process, whose passes begin with the current version. */
  predicate Current(s: System, l: Label) {
    l.Open? ==> l.replica == 0 && s.cr == Some(l.snapshot)
  }

  predicate CurrentOnly(env: Setting, s: System, ls: seq<Label>)
    decreases |ls|
  {
    ls != [] ==> CurrentOnly(env, s, ls[..|ls| - 1]) && Current(Run(env, s, ls[..|ls| - 1]), ls[|ls| - 1])
  }

  /** The resource is there and carries the operator's finalizer. */
  predicate Held(s: System, uid: string) {
    s.cr.Some? && s.cr.value.uid == uid && FINALIZER in s.cr.value.finalizers
  }

  predicate PassHeld(s: System, pass: Pass) {
    match pass
    case Started(snap, _) => !snap.deleting && FINALIZER in snap.finalizers ==> Held(s, snap.uid)
    case Refetching(_, _) => true
    case Finalizing(_, _) => true
    case _ => Held(s, pass.snap.uid)
  }

  ghost predicate Attended(s: System) {
    && Bookkeeping(s)
    && forall p :: p in s.passes ==> p == 0 && PassHeld(s, s.passes[p])
  }

  lemma ActKeepsAttended(env: Setting, s: System, answer: Answer)
    requires Attended(s) && 0 in s.passes
    ensures Attended(ActStep(env, s, 0, answer))
  {
    ActKeepsBookkeeping(env, s, 0, answer);
    var t := ActStep(env, s, 0, answer);
    forall p | p in t.passes ensures p == 0 {
      if p != 0 { ActKeepsOtherPass(env, s, 0, answer, p); }
    }
    if 0 in t.passes {
      ActKeepsHeld(env, s, answer);
    }
  }

  lemma ActKeepsHeld(env: Setting, s: System, answer: Answer)
    requires Attended(s) && 0 in s.passes && 0 in ActStep(env, s, 0, answer).passes
    ensures PassHeld(ActStep(env, s, 0, answer), ActStep(env, s, 0, answer).passes[0])
  {
    var pass := s.passes[0];
    match pass {
      case Started(_, _) => StartedKeepsHeld(env, s, pass, answer);
      case _ =>
    }
  }

  lemma StartedKeepsHeld(env: Setting, s: System, pass: Pass, answer: Answer)
    requires Attended(s) && pass.Started? && 0 in s.passes && pass == s.passes[0]
    requires 0 in StartedStep(env, s, 0, pass, answer).passes
    ensures PassHeld(StartedStep(env, s, 0, pass, answer), StartedStep(env, s, 0, pass, answer).passes[0])
  {
  }

  lemma NextKeepsAttended(env: Setting, s: System, l: Label)
    requires Attended(s) && Current(s, l)
    ensures Attended(Next(env, s, l))
  {
    NextKeepsBookkeeping(env, s, l);
    match l {
      case Act(p, answer) => if p in s.passes { ActKeepsAttended(env, s, answer); }
      case Open(_, _) =>
      case Abort(_) =>
      case _ => OthersKeepAttended(env, s, l);
    }
  }

  /** The writes of others keep the resource held, so they keep every pass attended. */
  lemma OthersKeepAttended(env: Setting, s: System, l: Label)
    requires Attended(s) && (l.Create? || l.Edit? || l.Delete? || l.ReleaseForeign?)
    ensures Next(env, s, l).passes == s.passes
    ensures forall p :: p in s.passes ==> PassHeld(Next(env, s, l), s.passes[p])
  {
    forall uid | Held(s, uid) ensures Held(Next(env, s, l), uid) {
      OthersKeepHeldBy(env, s, l, uid);
    }
  }

  lemma OthersKeepHeldBy(env: Setting, s: System, l: Label, uid: string)
    requires Held(s, uid) && (l.Create? || l.Edit? || l.Delete? || l.ReleaseForeign?)
    ensures Held(Next(env, s, l), uid)
  {
    if l.ReleaseForeign? {
      RemoveFinalizerRemoves(s.cr.value.finalizers, l.finalizer, FINALIZER);
    }
  }

  lemma {:induction false} AttendedInEveryCurrentRun(env: Setting, objects: K.Objects, ls: seq<Label>)
    requires CurrentOnly(env, Initial(objects), ls)
    ensures Attended(Run(env, Initial(objects), ls))
    decreases |ls|
  {
    if ls != [] {
      AttendedInEveryCurrentRun(env, objects, ls[..|ls| - 1]);
      NextKeepsAttended(env, Run(env, Initial(objects), ls[..|ls| - 1]), ls[|ls| - 1]);
    }
  }

  /** Where every pass of a single process begins with the current version, an Ensure is only
      ever asked for while the resource it acts for exists and carries the finalizer: no edit,
      deletion, conflict or crash in between changes that. */
  lemma AsksOnlyWhileHeld(env: Setting, objects: K.Objects, ls: seq<Label>, l: Label)
    requires CurrentOnly(env, Initial(objects), ls + [l])
    ensures var s, t := Run(env, Initial(objects), ls), Run(env, Initial(objects), ls + [l]);
            t.trace == s.trace || exists e :: t.trace == s.trace + [e] && Held(s, e.uid)
  {
    assert (ls + [l])[..|ls + [l]| - 1] == ls;
    AttendedInEveryCurrentRun(env, objects, ls);
    AskIsHeld(env, Run(env, Initial(objects), ls), l);
  }

  lemma AskIsHeld(env: Setting, s: System, l: Label)
    requires Attended(s)
    ensures var t := Next(env, s, l); t.trace == s.trace || exists e :: t.trace == s.trace + [e] && Held(s, e.uid)
  {
    if l.Act? && l.replica in s.passes && s.passes[l.replica].Staging? && s.passes[l.replica].todo != [] {
      var pass := s.passes[l.replica];
      var reply := Asking(env, s.objects, pass.snap, pass.todo[0], l.answer).1;
      var e := Asked(pass.snap.uid, pass.snap.generation, pass.todo[0], reply);
      assert PassHeld(s, pass);
      NextAsks(env, s, l);
      assert Held(s, e.uid);
    } else if l.Act? && l.replica in s.passes {
      OtherActsDoNotAsk(env, s, l.replica, l.answer);
    }
  }

  lemma OtherActsDoNotAsk(env: Setting, s: System, p: nat, answer: Answer)
    requires p in s.passes && !(s.passes[p].Staging? && s.passes[p].todo != [])
    ensures ActStep(env, s, p, answer).trace == s.trace
  {
  }

  // ---------- The finalizers of others ----------

  lemma WritesKeepOthers(s: System, pass: Pass, other: string)
    requires s.cr == Some(pass.snap) && other != FINALIZER && other in pass.snap.finalizers
    ensures other in Marked(s, pass).finalizers && other in Released(s, pass).finalizers
    ensures pass.Reporting? ==> other in Reported(s, pass).finalizers
  {
    RemoveFinalizerRemoves(pass.snap.finalizers, FINALIZER, other);
  }

  /** In every run, whatever a pass does, a finalizer of someone else's stays, and so does the
      resource that carries one. */
  lemma OperatorKeepsOthersFinalizers(env: Setting, objects: K.Objects, ls: seq<Label>, p: nat, answer: Answer, other: string)
    requires var s := Run(env, Initial(objects), ls);
             p in s.passes && s.cr.Some? && other != FINALIZER && other in s.cr.value.finalizers
    ensures var s, t := Run(env, Initial(objects), ls), Run(env, Initial(objects), ls + [Act(p, answer)]);
            t.cr.Some? && t.cr.value.uid == s.cr.value.uid && other in t.cr.value.finalizers
  {
    var s := Run(env, Initial(objects), ls);
    BookkeepingInEveryRun(env, objects, ls);
    RunSnoc(env, Initial(objects), ls, Act(p, answer));
    NextIsAct(env, s, p, answer);
    ActKeepsOthers(env, s, p, answer, other);
  }

  lemma ActKeepsOthers(env: Setting, s: System, p: nat, answer: Answer, other: string)
    requires Bookkeeping(s) && p in s.passes && s.cr.Some? && other != FINALIZER && other in s.cr.value.finalizers
    ensures var t := ActStep(env, s, p, answer);
            t.cr.Some? && t.cr.value.uid == s.cr.value.uid && other in t.cr.value.finalizers
  {
    if WriteOutcome(s, s.passes[p].snap).Done? {
      WrittenFromCurrent(s, s.passes[p]);
      WritesKeepOthers(s, s.passes[p], other);
    }
  }

  // ---------- What the finalizer leaves behind ----------

  /** The object is the operator's, as an Ensure of the operator leaves it: its labels say so,
      its selector is current, and one of the given resources owns it. */
  predicate Kept(key: K.Key, o: K.Object, uids: set<string>) {
    && K.LabelOf(o, K.CONTROLLER_LABEL) == K.OPERATOR
    && (K.HasSelector(key.kind) ==> o.selector == OperatorSelector(key.name))
    && o.owners * uids != {}
  }

  predicate KeptAt(objects: K.Objects, key: K.Key, uids: set<string>) {
    key in objects && Kept(key, objects[key], uids)
  }

  function OperatorSelector(name: string): K.Labels {
    map[K.NAME_LABEL := name, K.MANAGED_BY_LABEL := K.MANAGED_BY, K.CONTROLLER_LABEL := K.OPERATOR]
  }

  lemma UpsertKeeps(b: K.Adapter, key: K.Key, current: Option<K.Object>, m: Manifest, revision: nat, alloc: K.Allocator, uids: set<string>)
    requires b.controller == K.OPERATOR && key == K.KeyFor(b, key.kind, m)
    requires b.owner.Some? && b.owner.value in uids
    ensures var o := K.Upserted(b, key, current, K.Desired(b, key.kind, m, revision), alloc);
            && (o.Some? ==> Kept(key, o.value, uids))
            && (current.Some? && Kept(key, current.value, uids) ==> !K.Recreates(current.value, K.Desired(b, key.kind, m, revision), key.kind))
  {
    assert K.Selector(b, m.name) == OperatorSelector(m.name);
    assert b.owner.value in {b.owner.value} * uids;
  }

  lemma {:induction false} EnsureKindsKeeps(b: K.Adapter, objects: K.Objects, kinds: seq<K.Kind>, m: Manifest, revision: nat,
                                            alloc: K.Allocator, key: K.Key, uids: set<string>)
    requires b.controller == K.OPERATOR && b.owner.Some? && b.owner.value in uids && KeptAt(objects, key, uids)
    ensures KeptAt(K.EnsureKinds(b, objects, kinds, m, revision, alloc).0, key, uids)
    decreases |kinds|
  {
    if kinds != [] {
      var first := K.KeyFor(b, kinds[0], m);
      var o := K.Upserted(b, first, K.At(objects, first), K.Desired(b, kinds[0], m, revision), alloc);
      if first == key {
        UpsertKeeps(b, key, K.At(objects, key), m, revision, alloc, uids);
      }
      if o.Some? {
        EnsureKindsKeeps(b, objects[first := o.value], kinds[1..], m, revision, alloc, key, uids);
      }
    }
  }

  lemma InterruptedKeeps(b: K.Adapter, objects: K.Objects, n: nat, torn: bool, m: Manifest, revision: nat, alloc: K.Allocator,
                         key: K.Key, uids: set<string>)
    requires b.controller == K.OPERATOR && b.owner.Some? && b.owner.value in uids && KeptAt(objects, key, uids) && n <= |K.KINDS|
    ensures KeptAt(K.Interrupted(b, objects, n, torn, m, revision, alloc), key, uids)
  {
    EnsureKindsKeeps(b, objects, K.KINDS[..n], m, revision, alloc, key, uids);
    TornKeeps(b, objects, n, torn, m, revision, alloc, key, uids);
  }

  /** An interruption between a delete and a create does not fall on an object already the operator's. */
  lemma TornKeeps(b: K.Adapter, objects: K.Objects, n: nat, torn: bool, m: Manifest, revision: nat, alloc: K.Allocator,
                  key: K.Key, uids: set<string>)
    requires b.controller == K.OPERATOR && b.owner.Some? && b.owner.value in uids && n <= |K.KINDS|
    requires KeptAt(K.EnsureKinds(b, objects, K.KINDS[..n], m, revision, alloc).0, key, uids)
    ensures KeptAt(K.Interrupted(b, objects, n, torn, m, revision, alloc), key, uids)
  {
    var (partly, ok) := K.EnsureKinds(b, objects, K.KINDS[..n], m, revision, alloc);
    if n < |K.KINDS| && key == K.KeyFor(b, K.KINDS[n], m) {
      UpsertKeeps(b, key, K.At(partly, key), m, revision, alloc, uids);
    }
  }

  lemma AskingKeeps(env: Setting, objects: K.Objects, snap: CR, stage: Stage, answer: Answer, key: K.Key, uids: set<string>)
    requires KeptAt(objects, key, uids) && snap.uid in uids
    ensures KeptAt(Asking(env, objects, snap, stage, answer).0, key, uids)
  {
    var b := EnsuringAdapter(env, snap);
    var m := Staged(ManifestOf(env, snap), stage);
    EnsureKindsKeeps(b, objects, K.KINDS, m, RevisionOf(snap), env.alloc, key, uids);
    var n := if answer.upserts <= |K.KINDS| then answer.upserts else |K.KINDS|;
    InterruptedKeeps(b, objects, n, answer.torn, m, RevisionOf(snap), env.alloc, key, uids);
  }

  /** Finalization deletes with an adapter that works for plinthd: whatever part of it gets done,
      it touches only objects labelled as plinthd's. */
  lemma FinalizingDeletes(env: Setting, objects: K.Objects, deleted: set<K.Kind>, key: K.Key)
    ensures var after := K.Applied(objects, K.DeleteOp(FinalizingAdapter(env), deleted, env.name), env.alloc);
            && K.At(after, key) ==
               (if key in objects && key.kind in deleted
                   && K.LabelOf(objects[key], K.CONTROLLER_LABEL) == K.PLINTHD
                   && K.LabelOf(objects[key], K.NAME_LABEL) == env.name
                   && K.LabelOf(objects[key], K.MANAGED_BY_LABEL) == K.MANAGED_BY
                then None else K.At(objects, key))
  {
  }

  lemma NextKeepsOperatorObjects(env: Setting, s: System, l: Label, key: K.Key)
    requires Bookkeeping(s) && KeptAt(s.objects, key, s.uids)
    ensures KeptAt(Next(env, s, l).objects, key, Next(env, s, l).uids)
  {
    UidsGrow(env, s, l);
    if l.Act? && l.replica in s.passes {
      var pass := s.passes[l.replica];
      assert Versioned(s, pass.snap);
      match pass {
        case Started(_, _) => FinalizingDeletes(env, s.objects, l.answer.deleted, key);
        case Staging(_, _, todo) =>
          if todo != [] {
            AskingKeeps(env, s.objects, pass.snap, todo[0], l.answer, key, s.uids);
            NextAsks(env, s, l);
          }
        case _ => OtherObjectsUnchanged(env, s, l.replica, l.answer);
      }
    }
  }

  lemma NextAsks(env: Setting, s: System, l: Label)
    requires l.Act? && l.replica in s.passes && s.passes[l.replica].Staging? && s.passes[l.replica].todo != []
    ensures Next(env, s, l).objects == Asking(env, s.objects, s.passes[l.replica].snap, s.passes[l.replica].todo[0], l.answer).0
    ensures var pass := s.passes[l.replica];
            Next(env, s, l).trace == s.trace + [Asked(pass.snap.uid, pass.snap.generation, pass.todo[0],
                                                      Asking(env, s.objects, pass.snap, pass.todo[0], l.answer).1)]
    ensures Next(env, s, l).uids == s.uids
  {
    NextIsAct(env, s, l.replica, l.answer);
    ActIsStaging(env, s, l.replica, l.answer);
    StagingAsks(env, s, l.replica, s.passes[l.replica], l.answer);
  }

  lemma StagingAsks(env: Setting, s: System, p: nat, pass: Pass, answer: Answer)
    requires pass.Staging? && pass.todo != []
    ensures var t := StagingStep(env, s, p, pass, answer);
            var (objects, reply) := Asking(env, s.objects, pass.snap, pass.todo[0], answer);
            && t.objects == objects && t.uids == s.uids
            && t.trace == s.trace + [Asked(pass.snap.uid, pass.snap.generation, pass.todo[0], reply)]
  {
  }

  lemma UidsGrow(env: Setting, s: System, l: Label)
    ensures s.uids <= Next(env, s, l).uids
  {
    if l.Act? && l.replica in s.passes {
      ActKeepsUids(env, s, l.replica, l.answer);
    }
  }

  lemma ActKeepsUids(env: Setting, s: System, p: nat, answer: Answer)
    requires p in s.passes
    ensures s.uids <= ActStep(env, s, p, answer).uids
  {
  }

  lemma OtherObjectsUnchanged(env: Setting, s: System, p: nat, answer: Answer)
    requires p in s.passes && !s.passes[p].Started? && !s.passes[p].Staging?
    ensures ActStep(env, s, p, answer).objects == s.objects
  {
  }

  lemma {:induction false} KeptForever(env: Setting, s: System, more: seq<Label>, key: K.Key)
    requires Bookkeeping(s) && KeptAt(s.objects, key, s.uids)
    ensures Bookkeeping(Run(env, s, more)) && KeptAt(Run(env, s, more).objects, key, Run(env, s, more).uids)
    decreases |more|
  {
    if more != [] {
      KeptForever(env, s, more[..|more| - 1], key);
      NextKeepsBookkeeping(env, Run(env, s, more[..|more| - 1]), more[|more| - 1]);
      NextKeepsOperatorObjects(env, Run(env, s, more[..|more| - 1]), more[|more| - 1], key);
    }
  }

  lemma {:induction false} EnsureKindsInstalls(b: K.Adapter, objects: K.Objects, kinds: seq<K.Kind>, m: Manifest, revision: nat,
                                               alloc: K.Allocator, kind: K.Kind, uids: set<string>)
    requires b.controller == K.OPERATOR && b.owner.Some? && b.owner.value in uids && kind in kinds
    ensures var (after, ok) := K.EnsureKinds(b, objects, kinds, m, revision, alloc);
            ok ==> KeptAt(after, K.KeyFor(b, kind, m), uids)
    decreases |kinds|
  {
    var first := K.KeyFor(b, kinds[0], m);
    var o := K.Upserted(b, first, K.At(objects, first), K.Desired(b, kinds[0], m, revision), alloc);
    if o.Some? {
      UpsertKeeps(b, first, K.At(objects, first), m, revision, alloc, uids);
      if kind == kinds[0] {
        EnsureKindsKeeps(b, objects[first := o.value], kinds[1..], m, revision, alloc, first, uids);
      } else {
        EnsureKindsInstalls(b, objects[first := o.value], kinds[1..], m, revision, alloc, kind, uids);
      }
    }
  }

  /** The label is a pass's Ensure that the cluster accepts. */
  predicate Installs(env: Setting, s: System, l: Label) {
    && l.Act? && l.replica in s.passes && s.passes[l.replica].Staging? && s.passes[l.replica].todo != []
    && Asking(env, s.objects, s.passes[l.replica].snap, s.passes[l.replica].todo[0], l.answer).1.Accepted?
  }

  /** What the finalizer promises and does not do. Once an Ensure for a resource has been accepted,
      its six objects stay, labelled as the operator's, in every continuation: finalization never
      removes one, even when the resource is gone. Each is owned by that resource or a later one
      of its name, so their removal is left to the cluster's garbage collector. */
  lemma FinalizerRemovesNothingOfTheOperators(env: Setting, objects: K.Objects, ls: seq<Label>, l: Label, more: seq<Label>, kind: K.Kind)
    requires Installs(env, Run(env, Initial(objects), ls), l)
    ensures var s := Run(env, Initial(objects), ls);
            var snap := s.passes[l.replica].snap;
            var t := Run(env, Next(env, s, l), more);
            KeptAt(t.objects, K.KeyFor(EnsuringAdapter(env, snap), kind, ManifestOf(env, snap)), t.uids)
  {
    var s := Run(env, Initial(objects), ls);
    BookkeepingInEveryRun(env, objects, ls);
    NextKeepsBookkeeping(env, s, l);
    JustInstalled(env, s, l, kind);
    var snap := s.passes[l.replica].snap;
    KeptForever(env, Next(env, s, l), more, K.KeyFor(EnsuringAdapter(env, snap), kind, ManifestOf(env, snap)));
  }

  lemma JustInstalled(env: Setting, s: System, l: Label, kind: K.Kind)
    requires Bookkeeping(s) && Installs(env, s, l)
    ensures var snap := s.passes[l.replica].snap;
            KeptAt(Next(env, s, l).objects, K.KeyFor(EnsuringAdapter(env, snap), kind, ManifestOf(env, snap)), Next(env, s, l).uids)
  {
    var pass := s.passes[l.replica];
    assert Versioned(s, pass.snap);
    var b := EnsuringAdapter(env, pass.snap);
    var m := Staged(ManifestOf(env, pass.snap), pass.todo[0]);
    K.AllKinds(kind);
    NextAsks(env, s, l);
    EnsureKindsInstalls(b, s.objects, K.KINDS, m, RevisionOf(pass.snap), env.alloc, kind, s.uids);
    assert K.KeyFor(b, kind, m) == K.KeyFor(b, kind, ManifestOf(env, pass.snap));
  }

  /** No object on the cluster is labelled as the operator's. */
  predicate OperatorFree(objects: K.Objects) {
    forall key :: key in objects ==> K.LabelOf(objects[key], K.CONTROLLER_LABEL) != K.OPERATOR
  }

  lemma NextStaysOperatorFree(env: Setting, s: System, l: Label)
    requires OperatorFree(s.objects) && Next(env, s, l).trace == []
    ensures OperatorFree(Next(env, s, l).objects) && s.trace == []
  {
    if l.Act? && l.replica in s.passes {
      var pass := s.passes[l.replica];
      match pass {
        case Started(_, _) => OtherActsDoNotAsk(env, s, l.replica, l.answer);
        case Staging(_, _, _) =>
        case _ =>
          OtherActsDoNotAsk(env, s, l.replica, l.answer);
          OtherObjectsUnchanged(env, s, l.replica, l.answer);
      }
    }
  }

  /** The other side: on a cluster without objects of the operator's, the runs after which none is
      left include every run in which no Ensure was asked for, with the finalizer or without. */
  lemma {:induction false} NothingAskedNothingLeft(env: Setting, objects: K.Objects, ls: seq<Label>)
    requires OperatorFree(objects) && Run(env, Initial(objects), ls).trace == []
    ensures OperatorFree(Run(env, Initial(objects), ls).objects)
    decreases |ls|
  {
    if ls != [] {
      var s := Run(env, Initial(objects), ls[..|ls| - 1]);
      TraceGrows(env, s, ls[|ls| - 1]);
      NothingAskedNothingLeft(env, objects, ls[..|ls| - 1]);
      NextStaysOperatorFree(env, s, ls[|ls| - 1]);
    }
  }

  lemma TraceGrows(env: Setting, s: System, l: Label)
    ensures s.trace <= Next(env, s, l).trace
  {
    if l.Act? && l.replica in s.passes && !(s.passes[l.replica].Staging? && s.passes[l.replica].todo != []) {
      OtherActsDoNotAsk(env, s, l.replica, l.answer);
    }
  }

  /** The label is a pass's Ensure that makes at least its first upsert, accepted in the end or not. */
  predicate FirstUpsertMade(env: Setting, s: System, l: Label) {
    && l.Act? && l.replica in s.passes && s.passes[l.replica].Staging? && s.passes[l.replica].todo != []
    && var pass := s.passes[l.replica];
    var b := EnsuringAdapter(env, pass.snap);
    var m := Staged(ManifestOf(env, pass.snap), pass.todo[0]);
    && (l.answer.upserts >= 1 || Asking(env, s.objects, pass.snap, pass.todo[0], l.answer).1.Accepted?)
    && FirstUpsert(b, s.objects, m, RevisionOf(pass.snap), env.alloc).Some?
  }

  function FirstUpsert(b: K.Adapter, objects: K.Objects, m: Manifest, revision: nat, alloc: K.Allocator): Option<K.Object> {
    var key := K.KeyFor(b, K.Deployment, m);
    K.Upserted(b, key, K.At(objects, key), K.Desired(b, K.Deployment, m, revision), alloc)
  }

  lemma FirstUpsertInstalls(b: K.Adapter, objects: K.Objects, n: nat, m: Manifest, revision: nat, alloc: K.Allocator, uids: set<string>)
    requires b.controller == K.OPERATOR && b.owner.Some? && b.owner.value in uids && 1 <= n <= |K.KINDS|
    requires FirstUpsert(b, objects, m, revision, alloc).Some?
    ensures KeptAt(K.EnsureKinds(b, objects, K.KINDS[..n], m, revision, alloc).0, K.KeyFor(b, K.Deployment, m), uids)
  {
    var kinds := K.KINDS[..n];
    var key := K.KeyFor(b, K.Deployment, m);
    assert kinds[0] == K.Deployment;
    UpsertKeeps(b, key, K.At(objects, key), m, revision, alloc, uids);
    EnsureKindsKeeps(b, objects[key := FirstUpsert(b, objects, m, revision, alloc).value], kinds[1..], m, revision, alloc, key, uids);
  }

  lemma MadeUpsertIsKept(env: Setting, s: System, l: Label)
    requires Bookkeeping(s) && FirstUpsertMade(env, s, l)
    ensures var pass := s.passes[l.replica];
            KeptAt(Next(env, s, l).objects, K.KeyFor(EnsuringAdapter(env, pass.snap), K.Deployment, ManifestOf(env, pass.snap)),
                   Next(env, s, l).uids)
  {
    var pass := s.passes[l.replica];
    if Installs(env, s, l) {
      JustInstalled(env, s, l, K.Deployment);
    } else {
      assert Versioned(s, pass.snap);
      NextAsks(env, s, l);
      var b := EnsuringAdapter(env, pass.snap);
      var m := Staged(ManifestOf(env, pass.snap), pass.todo[0]);
      var n := if l.answer.upserts <= |K.KINDS| then l.answer.upserts else |K.KINDS|;
      FirstUpsertInstalls(b, s.objects, n, m, RevisionOf(pass.snap), env.alloc, s.uids);
      TornKeeps(b, s.objects, n, l.answer.torn, m, RevisionOf(pass.snap), env.alloc, K.KeyFor(b, K.Deployment, m), s.uids);
      assert K.KeyFor(b, K.Deployment, m) == K.KeyFor(b, K.Deployment, ManifestOf(env, pass.snap));
    }
  }

  /** Without its first upsert an Ensure leaves nothing new. */
  lemma NoFirstUpsert(b: K.Adapter, objects: K.Objects, n: nat, torn: bool, m: Manifest, revision: nat, alloc: K.Allocator)
    requires n <= |K.KINDS| && (n == 0 || FirstUpsert(b, objects, m, revision, alloc).None?)
    ensures K.EnsureKinds(b, objects, K.KINDS[..n], m, revision, alloc).0 == objects
    ensures OperatorFree(objects) ==> OperatorFree(K.Interrupted(b, objects, n, torn, m, revision, alloc))
  {
    if n > 0 {
      assert K.KINDS[..n][0] == K.Deployment;
    }
  }

  lemma StaysFreeUnlessMade(env: Setting, s: System, l: Label)
    requires OperatorFree(s.objects) && !FirstUpsertMade(env, s, l)
    ensures OperatorFree(Next(env, s, l).objects)
  {
    if l.Act? && l.replica in s.passes {
      var pass := s.passes[l.replica];
      match pass {
        case Started(_, _) =>
        case Staging(_, _, todo) => if todo != [] { AskingStaysFree(env, s, l); }
        case _ => OtherObjectsUnchanged(env, s, l.replica, l.answer);
      }
    }
  }

  lemma AskingStaysFree(env: Setting, s: System, l: Label)
    requires OperatorFree(s.objects) && !FirstUpsertMade(env, s, l)
    requires l.Act? && l.replica in s.passes && s.passes[l.replica].Staging? && s.passes[l.replica].todo != []
    ensures OperatorFree(Asking(env, s.objects, s.passes[l.replica].snap, s.passes[l.replica].todo[0], l.answer).0)
  {
    var pass := s.passes[l.replica];
    var b := EnsuringAdapter(env, pass.snap);
    var m := Staged(ManifestOf(env, pass.snap), pass.todo[0]);
    var n := if l.answer.upserts <= |K.KINDS| then l.answer.upserts else |K.KINDS|;
    assert FirstUpsert(b, s.objects, m, RevisionOf(pass.snap), env.alloc).None? ==>
      !K.Ensured(b, s.objects, m, RevisionOf(pass.snap), env.alloc).1;
    NoFirstUpsert(b, s.objects, n, l.answer.torn, m, RevisionOf(pass.snap), env.alloc);
  }

  /** Some step of the run made an Ensure's first upsert. */
  predicate SomeUpsertMade(env: Setting, s: System, ls: seq<Label>) {
    exists i :: 0 <= i < |ls| && FirstUpsertMade(env, Run(env, s, ls[..i]), ls[i])
  }

  lemma KeptIsNotFree(objects: K.Objects, key: K.Key, uids: set<string>)
    requires KeptAt(objects, key, uids)
    ensures !OperatorFree(objects)
  {
  }

  /** What is left on the cluster, exactly. On a cluster without objects of the operator's, a run
      leaves one behind if and only if some Ensure of it made its first upsert, accepted in the end
      or not: whether the resource is still there, or was finalized, makes no difference. */
  lemma LeftBehindExactly(env: Setting, objects: K.Objects, ls: seq<Label>)
    requires OperatorFree(objects)
    ensures !OperatorFree(Run(env, Initial(objects), ls).objects) <==> SomeUpsertMade(env, Initial(objects), ls)
  {
    if SomeUpsertMade(env, Initial(objects), ls) {
      var i :| 0 <= i < |ls| && FirstUpsertMade(env, Run(env, Initial(objects), ls[..i]), ls[i]);
      StaysAfterMade(env, objects, ls, i);
    } else {
      FreeWithoutUpsert(env, objects, ls, |ls|);
      assert ls[..|ls|] == ls;
    }
  }

  lemma RunSplit(env: Setting, s: System, ls: seq<Label>, i: nat)
    requires i < |ls|
    ensures Run(env, s, ls) == Run(env, Next(env, Run(env, s, ls[..i]), ls[i]), ls[i + 1..])
  {
    RunOneMore(env, s, ls, i);
    RunAppend(env, s, ls[..i + 1], ls[i + 1..]);
    assert ls[..i + 1] + ls[i + 1..] == ls;
  }

  lemma StaysAfterMade(env: Setting, objects: K.Objects, ls: seq<Label>, i: nat)
    requires i < |ls| && FirstUpsertMade(env, Run(env, Initial(objects), ls[..i]), ls[i])
    ensures !OperatorFree(Run(env, Initial(objects), ls).objects)
  {
    var s := Run(env, Initial(objects), ls[..i]);
    var t := Next(env, s, ls[i]);
    var snap := s.passes[ls[i].replica].snap;
    var key := K.KeyFor(EnsuringAdapter(env, snap), K.Deployment, ManifestOf(env, snap));
    BookkeepingInEveryRun(env, objects, ls[..i]);
    NextKeepsBookkeeping(env, s, ls[i]);
    MadeUpsertIsKept(env, s, ls[i]);
    KeptForever(env, t, ls[i + 1..], key);
    RunSplit(env, Initial(objects), ls, i);
    KeptIsNotFree(Run(env, Initial(objects), ls).objects, key, Run(env, Initial(objects), ls).uids);
  }

  lemma RunOneMore(env: Setting, s: System, ls: seq<Label>, i: nat)
    requires i < |ls|
    ensures Run(env, s, ls[..i + 1]) == Next(env, Run(env, s, ls[..i]), ls[i])
  {
    assert ls[..i + 1] == ls[..i] + [ls[i]];
    RunSnoc(env, s, ls[..i], ls[i]);
  }

  lemma {:induction false} FreeWithoutUpsert(env: Setting, objects: K.Objects, ls: seq<Label>, n: nat)
    requires OperatorFree(objects) && !SomeUpsertMade(env, Initial(objects), ls) && n <= |ls|
    ensures OperatorFree(Run(env, Initial(objects), ls[..n]).objects)
  {
    if n > 0 {
      FreeWithoutUpsert(env, objects, ls, n - 1);
      RunOneMore(env, Initial(objects), ls, n - 1);
      StaysFreeUnlessMade(env, Run(env, Initial(objects), ls[..n - 1]), ls[n - 1]);
    } else {
      assert ls[..0] == [];
    }
  }

  // ---------- Snapshots that are not current ----------

  const ALL: set<K.Kind> := set j | 0 <= j < |K.KINDS| :: K.KINDS[j]

  const FINE := Answer(Accepted(true, 0.0, NoReader), 0, false, ALL)

  function Fresh(uid: string, spec: Manifest): CR {
    CR(uid, 1, 1, spec, 1, None, [FINALIZER], false)
  }

  function Doomed(uid: string, spec: Manifest): CR {
    Fresh(uid, spec).(version := 2, deleting := true)
  }

  lemma AllDeleted(kind: K.Kind)
    ensures kind in ALL
  {
    K.AllKinds(kind);
  }

  /** A resource created, deleted and finalized before anything was made for it: it is gone. */
  function CreateAndDelete(uid: string, spec: Manifest): seq<Label> {
    [Create(uid, spec, 1, [FINALIZER])] + [Delete(false)]
  }

  function Finalize(p: nat, cr: CR): seq<Label> {
    [Open(p, cr)] + [Act(p, FINE)] + [Act(p, FINE)]
  }

  lemma Finalized(env: Setting, s: System, p: nat, cr: CR)
    requires s.cr == Some(cr) && cr in s.seen && cr.deleting && cr.finalizers == [FINALIZER] && p !in s.passes
    ensures var t := Run(env, s, Finalize(p, cr));
            t.cr.None? && t.seen == s.seen && t.passes == s.passes && t.trace == s.trace
  {
    RunSnoc(env, s, [], Open(p, cr));
    var begun := SetPass(s, p, Started(cr, 0));
    assert Run(env, s, [] + [Open(p, cr)]) == begun;
    assert [] + [Open(p, cr)] == [Open(p, cr)];
    RunSnoc(env, s, [Open(p, cr)], Act(p, FINE));
    var after := K.Applied(s.objects, K.DeleteOp(FinalizingAdapter(env), FINE.deleted, env.name), env.alloc);
    forall kind: K.Kind ensures kind in FINE.deleted { AllDeleted(kind); }
    var deleted := SetPass(begun.(objects := after), p, Finalizing(cr, 0));
    assert Run(env, s, [Open(p, cr)] + [Act(p, FINE)]) == deleted;
    RunSnoc(env, s, [Open(p, cr)] + [Act(p, FINE)], Act(p, FINE));
    assert RemoveFinalizer([FINALIZER], FINALIZER) == [] by {
      assert [FINALIZER][1..] == [];
    }
    assert deleted.passes - {p} == s.passes;
  }

  /** A pass that has read the finalizer asks for the first stage, whatever became of the resource. */
  lemma PreparedPassAsks(env: Setting, s: System, p: nat, cr: CR)
    requires p in s.passes && s.passes[p] == Prepared(cr, 0) && Valid(env.libs, ManifestOf(env, cr))
    ensures var t := Run(env, s, [Act(p, FINE)] + [Act(p, FINE)]);
            t.cr == s.cr && |t.trace| == |s.trace| + 1 && t.trace[|s.trace|].uid == cr.uid
  {
    var todo := Plan(ManifestOf(env, cr), Completed(cr));
    PlanNonEmpty(ManifestOf(env, cr), Completed(cr));
    RunSnoc(env, s, [], Act(p, FINE));
    assert [] + [Act(p, FINE)] == [Act(p, FINE)];
    assert Run(env, s, [Act(p, FINE)]) == SetPass(s, p, Staging(cr, 0, todo));
    RunSnoc(env, s, [Act(p, FINE)], Act(p, FINE));
  }

  /** A pass that begins with a version from before the deletion asks for resources after the
      resource is gone: one process is enough. */
  lemma StaleSnapshotAsksForTheGone(env: Setting, objects: K.Objects, uid: string, spec: Manifest)
    requires Valid(env.libs, spec.(name := env.name))
    ensures var before := CreateAndDelete(uid, spec) + Finalize(0, Doomed(uid, spec));
            var stale := [Open(0, Fresh(uid, spec))] + [Act(0, FINE)] + ([Act(0, FINE)] + [Act(0, FINE)]);
            var s, t := Run(env, Initial(objects), before), Run(env, Initial(objects), before + stale);
            && s.cr.None? && s.trace == [] && Fresh(uid, spec) in s.seen
            && t.cr.None? && |t.trace| == 1 && t.trace[0].uid == uid
  {
    var born := Deleting(env, objects, uid, spec);
    Finalized(env, born, 0, Doomed(uid, spec));
    RunAppend(env, Initial(objects), CreateAndDelete(uid, spec), Finalize(0, Doomed(uid, spec)));
    var before := CreateAndDelete(uid, spec) + Finalize(0, Doomed(uid, spec));
    var s := Run(env, Initial(objects), before);
    var alive := Fresh(uid, spec);
    var start := [Open(0, alive)] + [Act(0, FINE)];
    OpensStale(env, s, 0, alive);
    PreparedPassAsks(env, Run(env, s, start), 0, alive);
    RunAppend(env, s, start, [Act(0, FINE)] + [Act(0, FINE)]);
    RunAppend(env, Initial(objects), before, start + ([Act(0, FINE)] + [Act(0, FINE)]));
  }

  lemma OpensStale(env: Setting, s: System, p: nat, cr: CR)
    requires cr in s.seen && p !in s.passes && !cr.deleting && FINALIZER in cr.finalizers
    ensures Run(env, s, [Open(p, cr)] + [Act(p, FINE)]) == SetPass(s, p, Prepared(cr, 0))
  {
    RunSnoc(env, s, [], Open(p, cr));
    assert [] + [Open(p, cr)] == [Open(p, cr)];
    var begun := SetPass(s, p, Started(cr, 0));
    RunSnoc(env, s, [Open(p, cr)], Act(p, FINE));
    assert s.passes[p := Started(cr, 0)][p := Prepared(cr, 0)] == s.passes[p := Prepared(cr, 0)];
    assert StartedStep(env, begun, p, Started(cr, 0), FINE) == SetPass(begun, p, Prepared(cr, 0));
  }

  /** Two processes need no stale snapshot: both passes begin with the current version. */
  lemma SecondReplicaAsksForTheGone(env: Setting, objects: K.Objects, uid: string, spec: Manifest)
    requires Valid(env.libs, spec.(name := env.name))
    ensures var begun := [Create(uid, spec, 1, [FINALIZER])] + ([Open(0, Fresh(uid, spec))] + [Act(0, FINE)]);
            var before := begun + [Delete(false)] + Finalize(1, Doomed(uid, spec));
            var s := Run(env, Initial(objects), before);
            var t := Run(env, Initial(objects), before + ([Act(0, FINE)] + [Act(0, FINE)]));
            && s.cr.None? && s.trace == []
            && t.cr.None? && |t.trace| == 1 && t.trace[0].uid == uid
  {
    var alive := Fresh(uid, spec);
    var created := Store(Initial(objects), alive);
    var create := [Create(uid, spec, 1, [FINALIZER])];
    RunSnoc(env, Initial(objects), [], create[0]);
    assert [] + create == create;
    assert Run(env, Initial(objects), create) == created;
    var start := [Open(0, alive)] + [Act(0, FINE)];
    OpensStale(env, created, 0, alive);
    RunAppend(env, Initial(objects), create, start);
    var begun := create + start;
    RunSnoc(env, Initial(objects), begun, Delete(false));
    var doomed := Run(env, Initial(objects), begun + [Delete(false)]);
    assert doomed.cr == Some(Doomed(uid, spec));
    Finalized(env, doomed, 1, Doomed(uid, spec));
    RunAppend(env, Initial(objects), begun + [Delete(false)], Finalize(1, Doomed(uid, spec)));
    var before := begun + [Delete(false)] + Finalize(1, Doomed(uid, spec));
    var s := Run(env, Initial(objects), before);
    PreparedPassAsks(env, s, 0, alive);
    RunAppend(env, Initial(objects), before, [Act(0, FINE)] + [Act(0, FINE)]);
  }

  /** The state in which the resource waits for finalization. */
  lemma Deleting(env: Setting, objects: K.Objects, uid: string, spec: Manifest) returns (s: System)
    ensures s == Run(env, Initial(objects), CreateAndDelete(uid, spec))
    ensures s.cr == Some(Doomed(uid, spec)) && s.seen == {Fresh(uid, spec), Doomed(uid, spec)}
    ensures s.passes == map[] && s.trace == []
  {
    var create := [Create(uid, spec, 1, [FINALIZER])];
    RunSnoc(env, Initial(objects), [], create[0]);
    assert [] + create == create;
    RunSnoc(env, Initial(objects), create, Delete(false));
    s := Run(env, Initial(objects), CreateAndDelete(uid, spec));
  }
}
