/** Order of a channel's messages: while the channel has no active row its message worker keeps the
    order it was sent them in. */
module EngineOrder {
  import opened Types
  import opened Store
  import opened Flow
  import opened Gateway
  import opened Engine
  import opened EngineRuns

  function ChannelKey(c: Id): Key { Key(ChannelEntity, c) }

  function MessageWorker(c: Id): Key { Key(MessageEntity, c) }

  /* Parked order */

  // The tickets of s that belong to worker w, in order.
  function OfWorker(ops: seq<Op>, s: seq<nat>, w: Key): seq<nat> {
    if s == [] then []
    else
      var n := |s| - 1;
      OfWorker(ops, s[..n], w) + if s[n] < |ops| && WorkerOf(ops[s[n]]) == w then [s[n]] else []
  }

  // Everything worker w has been sent and not let through, oldest first.
  function Line(f: Flow, c: Id): seq<nat> {
    var w := MessageWorker(c);
    OfWorker(f.ops, WaitersOf(f, ChannelKey(c)), w) + Content(f, InHand(w)) + QueueOf(f, w)
  }

  // The worker's ops wait for the channel and nothing else, and none has been let through.
  ghost predicate Waiting(f: Flow, c: Id)
    requires |f.place| == |f.ops|
  {
    var w := MessageWorker(c);
    && (forall i | 0 <= i < |f.ops| && WorkerOf(f.ops[i]) == w :: f.ops[i].deps == [ChannelKey(c)])
    && (forall i | 0 <= i < |f.ops| && WorkerOf(f.ops[i]) == w :: !f.place[i].Resent?)
    && (HandOf(f, w).Busy? ==> HandOf(f, w).stage.Fresh?)
  }

  function Arrival(s: World, st: Step, w: Key): seq<nat> {
    if st.SendOp? && st.n < |s.flow.submitting| && s.flow.submitting[st.n] < |s.flow.ops|
       && WorkerOf(s.flow.ops[s.flow.submitting[st.n]]) == w
    then [s.flow.submitting[st.n]] else []
  }

  // What a submitter may hand to the worker: messages to post or edit, not deletes.
  predicate WaitsForChannel(st: Step, c: Id) {
    st.SubmitOp? && WorkerOf(st.op) == MessageWorker(c) ==> st.op.deps == [ChannelKey(c)]
  }

  lemma {:induction false} OfWorkerOps(a: seq<Op>, b: seq<Op>, s: seq<nat>, w: Key)
    requires a <= b && forall j :: 0 <= j < |s| ==> s[j] < |a|
    ensures OfWorker(a, s, w) == OfWorker(b, s, w)
  {
    if s != [] {
      OfWorkerOps(a, b, s[..|s| - 1], w);
    }
  }

  lemma {:induction false} OfWorkerAppend(ops: seq<Op>, s: seq<nat>, i: nat, w: Key)
    ensures OfWorker(ops, s + [i], w) == OfWorker(ops, s, w) + if i < |ops| && WorkerOf(ops[i]) == w then [i] else []
  {
    assert (s + [i])[..|s|] == s;
  }

  lemma {:induction false} QueueAfter(f: Flow, m: Move, w: Key)
    requires |f.place| == |f.ops| && MoveAllowed(f, m)
    ensures QueueOf(Moved(f, m), w) ==
      if m.Sending? && WorkerOf(f.ops[f.submitting[m.n]]) == w then QueueOf(f, w) + [f.submitting[m.n]]
      else if m.Taking? && m.w == w then QueueOf(f, w)[1..]
      else if m.ResendingOne? && WorkerOf(f.ops[StageOf(f, m.w).rest[0]]) == w then
        QueueOf(f, w) + [StageOf(f, m.w).rest[0]]
      else QueueOf(f, w)
  {}

  // Only a Confirmed worker of the channel collects its waiters, and its row would be active.
  lemma {:induction false} NotCollected(cfg: Settings, s: World, st: Step, c: Id)
    requires WorldInv(s) && CanStep(cfg, s, st) && !IsActive(Lookup(s.tables, ChannelKey(c)))
    ensures MoveOf(s, st).Collecting? ==> MoveOf(s, st).dependency != ChannelKey(c)
  {
    if st.CollectWaiters? {
      assert StageFits(OpIn(s.flow, st.w), StageOf(s.flow, st.w), RowOf(s, st.w));
    }
  }

  // The worker's own steps, while it waits: take the next op, and park it.
  lemma {:induction false} OwnMove(cfg: Settings, s: World, st: Step, c: Id)
    requires WorldInv(s) && Waiting(s.flow, c) && CanStep(cfg, s, st) && !IsActive(Lookup(s.tables, ChannelKey(c)))
    requires !st.SubmitOp? && !st.SendOp? && st.w == MessageWorker(c)
    ensures st.TakeOp? || (st.CheckDeps? && MoveOf(s, st) == Parking(st.w, ChannelKey(c)))
  {
    if !st.TakeOp? {
      KeysApart(s, st.w, st.w);
    }
  }

  // What a move may be while the channel sleeps.
  predicate Patient(f: Flow, m: Move, c: Id) {
    && (m.Collecting? ==> m.dependency != ChannelKey(c))
    && (!m.Entering? && !m.Sending? && m.w == MessageWorker(c) ==> m.Taking? || m == Parking(m.w, ChannelKey(c)))
  }

  lemma {:induction false} IsPatient(cfg: Settings, s: World, st: Step, c: Id)
    requires WorldInv(s) && Waiting(s.flow, c) && CanStep(cfg, s, st) && !IsActive(Lookup(s.tables, ChannelKey(c)))
    ensures Patient(s.flow, MoveOf(s, st), c)
  {
    MoverOf(s, st);
    NotCollected(cfg, s, st, c);
    if !st.SubmitOp? && !st.SendOp? && st.w == MessageWorker(c) {
      OwnMove(cfg, s, st, c);
    }
  }

  lemma {:induction false} HeldTicket(f: Flow, w: Key)
    requires FlowInv(f) && Holds(f, w)
    ensures WorkerOf(f.ops[HandOf(f, w).ticket]) == w
  {
    assert HandOf(f, w).ticket in Content(f, InHand(w));
  }

  lemma {:induction false} WaitersPart(f: Flow, m: Move, c: Id)
    requires FlowInv(f) && MoveAllowed(f, m) && Patient(f, m, c)
    ensures OfWorker(Moved(f, m).ops, WaitersOf(Moved(f, m), ChannelKey(c)), MessageWorker(c))
      == OfWorker(f.ops, WaitersOf(f, ChannelKey(c)), MessageWorker(c))
       + if m.Parking? && m.w == MessageWorker(c) then [HandOf(f, m.w).ticket] else []
  {
    var w, k := MessageWorker(c), ChannelKey(c);
    MovedFrame(f, m);
    MovedWaiters(f, m, k);
    forall j | 0 <= j < |WaitersOf(f, k)| ensures WaitersOf(f, k)[j] < |f.ops| {
      assert WaitersOf(f, k)[j] in Content(f, Parked(k));
    }
    OfWorkerOps(f.ops, Moved(f, m).ops, WaitersOf(f, k), w);
    if m.Parking? {
      HeldTicket(f, m.w);
      OfWorkerAppend(f.ops, WaitersOf(f, k), HandOf(f, m.w).ticket, w);
    }
  }

  lemma {:induction false} HandPart(f: Flow, m: Move, c: Id)
    requires FlowInv(f) && MoveAllowed(f, m) && Patient(f, m, c)
    ensures Content(Moved(f, m), InHand(MessageWorker(c))) ==
      if m.Taking? && m.w == MessageWorker(c) then [QueueOf(f, m.w)[0]]
      else if m.Parking? && m.w == MessageWorker(c) then []
      else Content(f, InHand(MessageWorker(c)))
  {
    MovedFrame(f, m);
  }

  lemma {:induction false} NotResentHere(f: Flow, m: Move, c: Id)
    requires FlowInv(f) && Waiting(f, c) && MoveAllowed(f, m) && m.ResendingOne?
    ensures WorkerOf(f.ops[StageOf(f, m.w).rest[0]]) != MessageWorker(c)
  {
    assert StageOf(f, m.w).rest[0] in Content(f, Resent(m.w));
  }

  lemma {:induction false} OwnLineMoved(f: Flow, m: Move, c: Id)
    requires FlowInv(f) && MoveAllowed(f, m) && Patient(f, m, c) && !m.Entering? && !m.Sending?
    requires m.w == MessageWorker(c)
    ensures Line(Moved(f, m), c) == Line(f, c)
  {
    WaitersPart(f, m, c);
    HandPart(f, m, c);
    QueueAfter(f, m, m.w);
    Regroup(OfWorker(f.ops, WaitersOf(f, ChannelKey(c)), m.w), Content(f, InHand(m.w)), QueueOf(f, m.w));
  }

  lemma {:induction false} OtherLineMoved(f: Flow, m: Move, c: Id)
    requires FlowInv(f) && Waiting(f, c) && MoveAllowed(f, m) && Patient(f, m, c)
    requires m.Entering? || m.Sending? || m.w != MessageWorker(c)
    ensures Line(Moved(f, m), c) == Line(f, c)
      + if m.Sending? && WorkerOf(f.ops[f.submitting[m.n]]) == MessageWorker(c) then [f.submitting[m.n]] else []
  {
    var w := MessageWorker(c);
    WaitersPart(f, m, c);
    HandPart(f, m, c);
    QueueAfter(f, m, w);
    if m.ResendingOne? {
      NotResentHere(f, m, c);
    }
    Regroup(OfWorker(f.ops, WaitersOf(f, ChannelKey(c)), w), Content(f, InHand(w)), QueueOf(f, w));
  }

  lemma {:induction false} LineMoved(f: Flow, m: Move, c: Id)
    requires FlowInv(f) && Waiting(f, c) && MoveAllowed(f, m) && Patient(f, m, c)
    ensures Line(Moved(f, m), c) == Line(f, c)
      + if m.Sending? && WorkerOf(f.ops[f.submitting[m.n]]) == MessageWorker(c) then [f.submitting[m.n]] else []
  {
    if m.Entering? || m.Sending? || m.w != MessageWorker(c) {
      OtherLineMoved(f, m, c);
    } else {
      OwnLineMoved(f, m, c);
    }
  }

  // Taking from the queue, parking and being sent to leave the concatenation in order.
  lemma {:induction false} Regroup(a: seq<nat>, b: seq<nat>, q: seq<nat>)
    ensures q != [] ==> a + [] + q == a + [q[0]] + q[1..]
    ensures a + b + [] + q == a + b + q
    ensures forall x :: a + b + (q + [x]) == a + b + q + [x]
  {}

  lemma {:induction false} LineKept(cfg: Settings, s: World, st: Step, c: Id)
    requires WorldInv(s) && Waiting(s.flow, c) && CanStep(cfg, s, st) && !IsActive(Lookup(s.tables, ChannelKey(c)))
    ensures Line(Next(s, st).flow, c) == Line(s.flow, c) + Arrival(s, st, MessageWorker(c))
  {
    MoverOf(s, st);
    IsPatient(cfg, s, st, c);
    LineMoved(s.flow, MoveOf(s, st), c);
  }

  lemma {:induction false} WaitingMoved(f: Flow, m: Move, c: Id)
    requires FlowInv(f) && Waiting(f, c) && MoveAllowed(f, m) && Patient(f, m, c)
    requires m.Entering? && WorkerOf(m.op) == MessageWorker(c) ==> m.op.deps == [ChannelKey(c)]
    ensures |Moved(f, m).place| == |Moved(f, m).ops| && Waiting(Moved(f, m), c)
  {
    MovedFrame(f, m);
    FlowKept(f, m);
    if m.Collecting? {
      CollectedElsewhere(f, m, c);
    }
  }

  lemma {:induction false} CollectedElsewhere(f: Flow, m: Move, c: Id)
    requires FlowInv(f) && Waiting(f, c) && m.Collecting? && m.dependency != ChannelKey(c)
    ensures forall i | 0 <= i < |f.ops| && f.place[i] == Parked(m.dependency) :: WorkerOf(f.ops[i]) != MessageWorker(c)
  {
    forall i | 0 <= i < |f.ops| && f.place[i] == Parked(m.dependency) ensures WorkerOf(f.ops[i]) != MessageWorker(c) {
      assert m.dependency in f.ops[i].deps;
    }
  }

  lemma {:induction false} WaitingKept(cfg: Settings, s: World, st: Step, c: Id)
    requires WorldInv(s) && Waiting(s.flow, c) && CanStep(cfg, s, st) && WaitsForChannel(st, c)
    requires !IsActive(Lookup(s.tables, ChannelKey(c)))
    ensures |Next(s, st).flow.place| == |Next(s, st).flow.ops| && Waiting(Next(s, st).flow, c)
  {
    MoverOf(s, st);
    IsPatient(cfg, s, st, c);
    WaitingMoved(s.flow, MoveOf(s, st), c);
  }

  // The channel has no active row before any step of the run.
  ghost predicate Dormant(cfg: Settings, s: World, steps: seq<Step>, c: Id)
    requires Legal(cfg, s, steps)
    decreases |steps|
  {
    steps == [] || (!IsActive(Lookup(s.tables, ChannelKey(c))) && WaitsForChannel(steps[0], c)
                    && Dormant(cfg, Next(s, steps[0]), steps[1..], c))
  }

  ghost function Arrivals(cfg: Settings, s: World, steps: seq<Step>, w: Key): seq<nat>
    requires Legal(cfg, s, steps)
    decreases |steps|
  {
    if steps == [] then [] else Arrival(s, steps[0], w) + Arrivals(cfg, Next(s, steps[0]), steps[1..], w)
  }

  lemma {:induction false} Associate(a: seq<nat>, b: seq<nat>, c: seq<nat>)
    ensures (a + b) + c == a + (b + c)
  {}

  /** While the channel has no active row, its parked messages, the one in hand and the queued ones
      are, in this order, exactly what the worker was sent. */
  lemma {:induction false} ParkedInOrder(cfg: Settings, s: World, steps: seq<Step>, c: Id)
    requires WorldInv(s) && Waiting(s.flow, c) && Legal(cfg, s, steps) && Dormant(cfg, s, steps, c)
    ensures Line(End(cfg, s, steps).flow, c) == Line(s.flow, c) + Arrivals(cfg, s, steps, MessageWorker(c))
    decreases |steps|
  {
    if steps != [] {
      var s', w := Next(s, steps[0]), MessageWorker(c);
      StepKeepsInv(cfg, s, steps[0]);
      LineKept(cfg, s, steps[0], c);
      WaitingKept(cfg, s, steps[0], c);
      ParkedInOrder(cfg, s', steps[1..], c);
      Associate(Line(s.flow, c), Arrival(s, steps[0], w), Arrivals(cfg, s', steps[1..], w));
    }
  }
}
