/** The worker queue under every interleaving of its threads (internal/reconcile/worker.go). */
module Workers {

  const CAPACITY := 256

  /** A thread inside Enqueue: past the pending check and about to send, or past a full queue
      and about to take its mark back. */
  datatype Sender = Marked(name: string) | Dropping(name: string)

  datatype Consumer = Waiting | Received(name: string) | Cleared(name: string) | Busy(name: string)

  datatype State = State(pending: set<string>, queue: seq<string>, senders: map<nat, Sender>, consumer: Consumer)

  /** One atomic step: a critical section, a channel operation, or a boundary of the reconcile. */
  datatype Step =
    | Mark(thread: nat, name: string)
    | Send(thread: nat)
    | Unmark(thread: nat)
    | Receive
    | Clear
    | StartReconcile
    | FinishReconcile

  const INITIAL := State({}, [], map[], Waiting)

  function Next(w: State, step: Step): State {
    match step
    case Mark(t, name) =>
      if t in w.senders || name == "" || name in w.pending then w
      else w.(pending := w.pending + {name}, senders := w.senders[t := Marked(name)])
    case Send(t) =>
      if t !in w.senders || !w.senders[t].Marked? then w
      else if |w.queue| < CAPACITY then w.(queue := w.queue + [w.senders[t].name], senders := w.senders - {t})
      else w.(senders := w.senders[t := Dropping(w.senders[t].name)])
    case Unmark(t) =>
      if t !in w.senders || !w.senders[t].Dropping? then w
      else w.(pending := w.pending - {w.senders[t].name}, senders := w.senders - {t})
    case Receive =>
      if !w.consumer.Waiting? || w.queue == [] then w
      else w.(queue := w.queue[1..], consumer := Received(w.queue[0]))
    case Clear =>
      if !w.consumer.Received? then w
      else w.(pending := w.pending - {w.consumer.name}, consumer := Cleared(w.consumer.name))
    case StartReconcile => if !w.consumer.Cleared? then w else w.(consumer := Busy(w.consumer.name))
    case FinishReconcile => if !w.consumer.Busy? then w else w.(consumer := Waiting)
  }

  function Run(w: State, steps: seq<Step>): State
    decreases |steps|
  {
    if steps == [] then w else Next(Run(w, steps[..|steps| - 1]), steps[|steps| - 1])
  }

  // ---------- Tokens ----------

  /** Where a token for a name can be: with a sender, in a queue slot, or received and not yet cleared. */
  datatype Holder = BySender(thread: nat) | InSlot(index: nat) | ByConsumer

  predicate Holds(w: State, h: Holder, name: string) {
    match h
    case BySender(t) => t in w.senders && w.senders[t].name == name
    case InSlot(i) => i < |w.queue| && w.queue[i] == name
    case ByConsumer => w.consumer == Received(name)
  }

  function Tokens(w: State, name: string): set<Holder> {
    (set t | t in w.senders && w.senders[t].name == name :: BySender(t))
    + (set i | 0 <= i < |w.queue| && w.queue[i] == name :: InSlot(i))
    + (if w.consumer == Received(name) then {ByConsumer} else {})
  }

  ghost predicate TokenOfEachPending(w: State) {
    forall name :: name in w.pending ==> exists h :: Holds(w, h, name)
  }

  ghost predicate OneTokenEach(w: State) {
    && (forall h, name :: Holds(w, h, name) ==> name in w.pending)
    && (forall h, k, name :: Holds(w, h, name) && Holds(w, k, name) ==> h == k)
    && TokenOfEachPending(w)
  }

  /** Where the token sitting at h goes in a step that moves it. */
  function Moved(w: State, step: Step, h: Holder): Holder {
    match step
    case Send(t) =>
      if h == BySender(t) && t in w.senders && w.senders[t].Marked? && |w.queue| < CAPACITY then InSlot(|w.queue|) else h
    case Receive =>
      if w.consumer.Waiting? && h.InSlot? then (if h.index == 0 then ByConsumer else InSlot(h.index - 1)) else h
    case _ => h
  }

  /** The name whose token a step takes away, if any. */
  function Taken(w: State, step: Step): set<string> {
    match step
    case Unmark(t) => if t in w.senders && w.senders[t].Dropping? then {w.senders[t].name} else {}
    case Clear => if w.consumer.Received? then {w.consumer.name} else {}
    case _ => {}
  }

  /** The tokens after a step are the moved ones of the names that keep theirs, and a fresh one
      for a name just marked. */
  lemma TokensMove(w: State, step: Step, h: Holder, name: string)
    requires OneTokenEach(w)
    ensures Holds(w, h, name) && name !in Taken(w, step) ==> Holds(Next(w, step), Moved(w, step, h), name)
  {
  }

  /** The token k is the one a Mark has just made. */
  predicate JustMarked(w: State, step: Step, k: Holder, name: string) {
    step.Mark? && step.name == name && name !in w.pending && k == BySender(step.thread)
  }

  lemma TokensComeFrom(w: State, step: Step, k: Holder, name: string) returns (h: Holder)
    requires OneTokenEach(w) && Holds(Next(w, step), k, name) && !JustMarked(w, step, k, name)
    ensures Holds(w, h, name) && Moved(w, step, h) == k && name !in Taken(w, step)
  {
    match step {
      case Send(t) =>
        h := if k == InSlot(|w.queue|) then BySender(t) else k;
      case Receive =>
        h := if !w.consumer.Waiting? || w.queue == [] then k
             else if k.ByConsumer? then InSlot(0) else if k.InSlot? then InSlot(k.index + 1) else k;
      case Unmark(t) =>
        h := k;
        assert Holds(w, k, name);
        assert t in w.senders ==> Holds(w, BySender(t), w.senders[t].name);
      case Clear =>
        h := k;
        assert Holds(w, k, name);
        assert w.consumer.Received? ==> Holds(w, ByConsumer, w.consumer.name);
      case _ => h := k;
    }
  }

  ghost function OriginOf(w: State, step: Step, k: Holder, name: string): (h: Holder)
    requires OneTokenEach(w) && Holds(Next(w, step), k, name) && !JustMarked(w, step, k, name)
    ensures Holds(w, h, name) && Moved(w, step, h) == k
  {
    assert exists h :: Holds(w, h, name) && Moved(w, step, h) == k by {
      var h := TokensComeFrom(w, step, k, name);
    }
    var h :| Holds(w, h, name) && Moved(w, step, h) == k; h
  }

  lemma NextKeepsTokens(w: State, step: Step)
    requires OneTokenEach(w)
    ensures OneTokenEach(Next(w, step))
  {
    var v := Next(w, step);
    forall h, name | Holds(v, h, name) ensures name in v.pending {
      if !JustMarked(w, step, h, name) {
        var from := TokensComeFrom(w, step, h, name);
      }
    }
    forall h, k, name | Holds(v, h, name) && Holds(v, k, name) ensures h == k {
      var fromH := if JustMarked(w, step, h, name) then ByConsumer else OriginOf(w, step, h, name);
      var fromK := if JustMarked(w, step, k, name) then ByConsumer else OriginOf(w, step, k, name);
    }
    forall name | name in v.pending ensures exists h :: Holds(v, h, name) {
      if name in w.pending {
        var h :| Holds(w, h, name);
        TokensMove(w, step, h, name);
      } else {
        assert Holds(v, BySender(step.thread), name);
      }
    }
  }

  lemma {:induction false} TokensInEveryRun(steps: seq<Step>)
    ensures OneTokenEach(Run(INITIAL, steps))
    decreases |steps|
  {
    if steps != [] {
      TokensInEveryRun(steps[..|steps| - 1]);
      NextKeepsTokens(Run(INITIAL, steps[..|steps| - 1]), steps[|steps| - 1]);
    }
  }

  /** Over every interleaving, a pending name has exactly one token (marked and unsent, queued,
      or received and not yet cleared) and any other name has none. */
  lemma ExactlyOneToken(steps: seq<Step>, name: string)
    ensures var w := Run(INITIAL, steps);
            |Tokens(w, name)| == if name in w.pending then 1 else 0
  {
    TokensInEveryRun(steps);
    var w := Run(INITIAL, steps);
    assert forall h :: h in Tokens(w, name) <==> Holds(w, h, name);
    if name in w.pending {
      var h :| Holds(w, h, name);
      assert Tokens(w, name) == {h};
    } else {
      assert Tokens(w, name) == {};
    }
  }

  // ---------- No duplicates, and no drops below the capacity ----------

  predicate Distinct(names: seq<string>) {
    forall i, j :: 0 <= i < j < |names| ==> names[i] != names[j]
  }

  lemma QueueHasNoDuplicates(w: State)
    requires OneTokenEach(w)
    ensures Distinct(w.queue)
    ensures forall i :: 0 <= i < |w.queue| ==> w.queue[i] in w.pending
  {
    forall i, j | 0 <= i < j < |w.queue| ensures w.queue[i] != w.queue[j] {
      if w.queue[i] == w.queue[j] {
        assert Holds(w, InSlot(i), w.queue[i]) && Holds(w, InSlot(j), w.queue[i]);
      }
    }
    forall i | 0 <= i < |w.queue| ensures w.queue[i] in w.pending {
      assert Holds(w, InSlot(i), w.queue[i]);
    }
  }

  lemma {:induction false} DistinctFits(names: seq<string>, within: set<string>)
    requires Distinct(names) && forall i :: 0 <= i < |names| ==> names[i] in within
    ensures |names| <= |within|
  {
    if names != [] {
      DistinctFits(names[1..], within - {names[0]});
    }
  }

  predicate OnlyNames(steps: seq<Step>, names: set<string>) {
    forall i :: 0 <= i < |steps| && steps[i].Mark? ==> steps[i].name in names
  }

  /** Only the given names are pending, and no sender has met a full queue. */
  predicate Roomy(w: State, names: set<string>) {
    && w.pending <= names
    && forall t :: t in w.senders ==> w.senders[t].Marked?
  }

  /** A marked sender finds room: its own name is pending but not queued. */
  lemma SenderFindsRoom(w: State, t: nat, names: set<string>)
    requires OneTokenEach(w) && Roomy(w, names) && |names| <= 256 && t in w.senders
    ensures |w.queue| < 256
  {
    var name := w.senders[t].name;
    QueueHasNoDuplicates(w);
    assert Holds(w, BySender(t), name);
    forall i | 0 <= i < |w.queue| ensures w.queue[i] in names - {name} {
      assert Holds(w, InSlot(i), w.queue[i]);
    }
    DistinctFits(w.queue, names - {name});
  }

  /** With at most as many distinct names as the queue has slots, no send ever drops. */
  lemma {:induction false} NoSendDrops(steps: seq<Step>, names: set<string>)
    requires OnlyNames(steps, names) && |names| <= 256
    ensures Roomy(Run(INITIAL, steps), names)
    decreases |steps|
  {
    if steps != [] {
      var before := steps[..|steps| - 1];
      var step := steps[|steps| - 1];
      assert OnlyNames(before, names);
      NoSendDrops(before, names);
      TokensInEveryRun(before);
      var w := Run(INITIAL, before);
      if step.Send? && step.thread in w.senders {
        SenderFindsRoom(w, step.thread, names);
      }
    }
  }

  // ---------- Every Enqueue is honoured ----------

  /** A reconcile of the name is still to start: it is pending, or in the consumer's hand. */
  predicate Owed(w: State, name: string) {
    name in w.pending || w.consumer == Cleared(name)
  }

  /** The step starts a reconcile of the name. */
  predicate Starts(w: State, step: Step, name: string) {
    step.StartReconcile? && w.consumer == Cleared(name)
  }

  predicate Drops(w: State, step: Step, name: string) {
    step.Unmark? && step.thread in w.senders && w.senders[step.thread] == Dropping(name)
  }

  predicate NeverStarts(w: State, steps: seq<Step>, name: string)
    decreases |steps|
  {
    steps != [] ==>
      && NeverStarts(w, steps[..|steps| - 1], name)
      && !Starts(Run(w, steps[..|steps| - 1]), steps[|steps| - 1], name)
  }

  lemma {:induction false} RunConcat(w: State, xs: seq<Step>, ys: seq<Step>)
    ensures Run(w, xs + ys) == Run(Run(w, xs), ys)
    decreases |ys|
  {
    if ys == [] {
      assert xs + ys == xs;
    } else {
      assert (xs + ys)[..|xs + ys| - 1] == xs + ys[..|ys| - 1];
      RunConcat(w, xs, ys[..|ys| - 1]);
    }
  }

  /** Only the start of a reconcile of the name, or a drop of it, ends the obligation. */
  lemma ObligationEnds(w: State, step: Step, name: string)
    requires OneTokenEach(w) && Owed(w, name) && !Starts(w, step, name) && !Drops(w, step, name)
    ensures Owed(Next(w, step), name)
  {
  }

  /** An Enqueue that has passed its pending check, whether it marked the name or found it
      marked, leaves a reconcile of the name owed until one starts, whatever the other threads
      do and however many other Enqueues there are, as long as the names fit the queue. */
  lemma {:induction false} EnqueueIsHonoured(before: seq<Step>, thread: nat, name: string, after: seq<Step>, names: set<string>)
    requires name != "" && thread !in Run(INITIAL, before).senders
    requires OnlyNames(before, names) && OnlyNames(after, names) && name in names && |names| <= 256
    requires NeverStarts(Run(INITIAL, before + [Mark(thread, name)]), after, name)
    ensures Owed(Run(INITIAL, before + [Mark(thread, name)] + after), name)
    decreases |after|
  {
    var xs := before + [Mark(thread, name)];
    RunConcat(INITIAL, xs, after);
    if after == [] {
      assert xs[..|xs| - 1] == before;
    } else {
      var shorter := after[..|after| - 1];
      EnqueueIsHonoured(before, thread, name, shorter, names);
      RunConcat(INITIAL, xs, shorter);
      var w := Run(INITIAL, xs + shorter);
      TokensInEveryRun(xs + shorter);
      NoSendDrops(xs + shorter, names);
      ObligationEnds(w, after[|after| - 1], name);
    }
  }

  /** Above the capacity that can fail: an Enqueue that finds the name marked by a sender which
      is about to drop it returns at once, and the drop leaves nothing owed. */
  lemma EnqueueLostToADrop(w: State, dropper: nat, thread: nat, name: string)
    requires OneTokenEach(w) && dropper in w.senders && w.senders[dropper] == Dropping(name) && w.consumer != Cleared(name)
    ensures Next(w, Mark(thread, name)) == w
    ensures !Owed(Next(w, Unmark(dropper)), name)
  {
    assert Holds(w, BySender(dropper), name);
  }

  // ---------- The worker as an object ----------

  class Worker {
    var pending: set<string>
    var queue: seq<string>

    constructor ()
      ensures pending == {} && queue == []
    {
      pending, queue := {}, [];
    }

    function View(senders: map<nat, Sender>, consumer: Consumer): State
      reads this
    {
      State(pending, queue, senders, consumer)
    }

    /** The first critical section of Enqueue. */
    method MarkPending(name: string, ghost thread: nat, ghost senders: map<nat, Sender>, ghost consumer: Consumer)
      returns (marked: bool)
      requires thread !in senders
      modifies this`pending
      ensures marked == (name != "" && name !in old(pending))
      ensures View(if marked then senders[thread := Marked(name)] else senders, consumer)
              == Next(old(View(senders, consumer)), Mark(thread, name))
    {
      if name == "" || name in pending { return false; }
      pending := pending + {name};
      return true;
    }

    /** The non-blocking send. */
    method TrySend(name: string, ghost thread: nat, ghost senders: map<nat, Sender>, ghost consumer: Consumer)
      returns (sent: bool)
      requires thread in senders && senders[thread] == Marked(name)
      modifies this`queue
      ensures sent == (|old(queue)| < 256)
      ensures View(if sent then senders - {thread} else senders[thread := Dropping(name)], consumer)
              == Next(old(View(senders, consumer)), Send(thread))
    {
      if |queue| >= CAPACITY { return false; }
      queue := queue + [name];
      return true;
    }

    /** The critical section that takes a mark back: after a full queue, and after a receive. */
    method ClearPending(name: string)
      modifies this`pending
      ensures pending == old(pending) - {name}
      ensures forall senders: map<nat, Sender>, consumer, thread ::
                thread in senders && senders[thread] == Dropping(name) ==>
                  View(senders - {thread}, consumer) == Next(old(View(senders, consumer)), Unmark(thread))
      ensures forall senders: map<nat, Sender> :: View(senders, Cleared(name)) == Next(old(View(senders, Received(name))), Clear)
    {
      pending := pending - {name};
    }

    /** Enqueue as one thread runs it without interference: the name ends up queued and pending,
        or, where it was empty, already pending, or the queue was full, nothing changes. */
    method Enqueue(name: string)
      modifies this
      ensures var taken := name != "" && name !in old(pending) && |old(queue)| < 256;
              && queue == (if taken then old(queue) + [name] else old(queue))
              && pending == (if taken then old(pending) + {name} else old(pending))
    {
      ghost var none: map<nat, Sender> := map[];
      var marked := MarkPending(name, 0, none, Waiting);
      if !marked { return; }
      var sent := TrySend(name, 0, none[0 := Marked(name)], Waiting);
      if !sent {
        ClearPending(name);
      }
    }
  }
}
