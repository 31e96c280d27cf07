/** Where the engine's ops are: submitters, per-key worker queues, the op each worker has in hand,
    the waiters index and the lists being re-sent, with the wait-group counter. An op is named by its
    ticket, its index in submission order. Queues are unbounded. */
module Flow {
  import opened Types
  import opened Canonical

  /* Ops */

  datatype Desired =
    | ToRole(role: Role)
    | ToChannel(channel: Channel)
    | ToCategory(category: Category)
    | ToMessage(message: Message)
    | Nothing

  // channelID routes message ops; snapshot is what a category op resends.
  datatype Op = Op(kind: OpKind, key: Key, channelID: Id, desired: Desired, deps: seq<Key>,
                   snapshot: seq<Category>)

  // workerKey: its text "<type>:<id>" determines the pair, as no type name contains a colon.
  function WorkerOf(op: Op): Key {
    if op.key.kind == MessageEntity && op.channelID != NO_ID then Key(MessageEntity, op.channelID) else op.key
  }

  function StateOf(op: Op): State {
    match op.desired
    case ToRole(r) => RoleJSON(r)
    case ToChannel(c) => ChannelJSON(c)
    case ToCategory(c) => CategoryJSON(c)
    case ToMessage(m) => MessageJSON(m)
    case Nothing => EmptyObject
  }

  // How far a worker is with the op it holds.
  datatype Stage =
    | Fresh
    | Ready
    | Intend
    | Written(attempt: nat)
    | Removing(attempt: nat)
    | Applied(id: Id)
    | Gone
    | Confirmed
    | Resending(rest: seq<nat>)

  datatype Hand = Idle | Busy(ticket: nat, stage: Stage)

  datatype Place =
    | Submitting
    | Queued(worker: Key)
    | InHand(worker: Key)
    | Parked(dependency: Key)
    | Resent(worker: Key)
    | Finished

  // place is a history variable: no guard reads it.
  datatype Flow = Flow(ops: seq<Op>, submitting: seq<nat>, queues: map<Key, seq<nat>>,
                       hands: map<Key, Hand>, waiters: map<Key, seq<nat>>, counter: int, place: seq<Place>)

  const NO_FLOW := Flow([], [], map[], map[], map[], 0, [])

  function QueueOf(f: Flow, w: Key): seq<nat> {
    if w in f.queues then f.queues[w] else []
  }

  function HandOf(f: Flow, w: Key): Hand {
    if w in f.hands then f.hands[w] else Idle
  }

  function WaitersOf(f: Flow, k: Key): seq<nat> {
    if k in f.waiters then f.waiters[k] else []
  }

  predicate Holds(f: Flow, w: Key) {
    HandOf(f, w).Busy? && HandOf(f, w).ticket < |f.ops|
  }

  function OpIn(f: Flow, w: Key): Op
    requires Holds(f, w)
  {
    f.ops[HandOf(f, w).ticket]
  }

  function StageOf(f: Flow, w: Key): Stage
    requires Holds(f, w)
  {
    HandOf(f, w).stage
  }

  // The tickets actually found at a place.
  function Content(f: Flow, b: Place): seq<nat> {
    match b
    case Submitting => f.submitting
    case Queued(w) => QueueOf(f, w)
    case InHand(w) => if HandOf(f, w).Busy? then [HandOf(f, w).ticket] else []
    case Parked(k) => WaitersOf(f, k)
    case Resent(w) =>
      var h := HandOf(f, w);
      if h.Busy? && h.stage.Resending? then h.stage.rest else []
    case Finished => []
  }

  function Unfinished(place: seq<Place>): nat {
    if place == [] then 0
    else Unfinished(place[..|place| - 1]) + if place[|place| - 1].Finished? then 0 else 1
  }

  /* Moves */

  // Submit's wg.Add(1).
  function Enter(f: Flow, op: Op): Flow {
    f.(ops := f.ops + [op], submitting := f.submitting + [|f.ops|], counter := f.counter + 1,
       place := f.place + [Submitting])
  }

  function Enqueued(f: Flow, w: Key, i: nat): Flow
    requires i < |f.place|
  {
    f.(queues := f.queues[w := QueueOf(f, w) + [i]], place := f.place[i := Queued(w)])
  }

  // The blocked submitter at position n gets its op into the worker's queue.
  function Send(f: Flow, n: nat): Flow
    requires n < |f.submitting| && f.submitting[n] < |f.ops| == |f.place|
  {
    var i := f.submitting[n];
    Enqueued(f.(submitting := f.submitting[..n] + f.submitting[n + 1..]), WorkerOf(f.ops[i]), i)
  }

  function Take(f: Flow, w: Key): Flow
    requires QueueOf(f, w) != [] && QueueOf(f, w)[0] < |f.place|
  {
    var q := QueueOf(f, w);
    f.(queues := f.queues[w := q[1..]], hands := f.hands[w := Busy(q[0], Fresh)], place := f.place[q[0] := InHand(w)])
  }

  function Advance(f: Flow, w: Key, stage: Stage): Flow
    requires HandOf(f, w).Busy?
  {
    f.(hands := f.hands[w := Busy(HandOf(f, w).ticket, stage)])
  }

  // deferOp: append to the waiters index and return to the queue loop.
  function Park(f: Flow, w: Key, k: Key): Flow
    requires Holds(f, w) && HandOf(f, w).ticket < |f.place|
  {
    var i := HandOf(f, w).ticket;
    f.(hands := f.hands[w := Idle], waiters := f.waiters[k := WaitersOf(f, k) + [i]], place := f.place[i := Parked(k)])
  }

  // process returns; wg.Done().
  function Finish(f: Flow, w: Key): Flow
    requires Holds(f, w) && HandOf(f, w).ticket < |f.place|
  {
    f.(hands := f.hands[w := Idle], counter := f.counter - 1, place := f.place[HandOf(f, w).ticket := Finished])
  }

  // notifyWaiters' critical section: take the whole list for k and delete the index entry.
  function Collect(f: Flow, w: Key, k: Key): Flow
    requires HandOf(f, w).Busy?
  {
    f.(hands := f.hands[w := Busy(HandOf(f, w).ticket, Resending(WaitersOf(f, k)))],
       waiters := f.waiters - {k},
       place := seq(|f.place|,
                    i requires 0 <= i < |f.place| => if f.place[i] == Parked(k) then Resent(w) else f.place[i]))
  }

  function Resend(f: Flow, w: Key): Flow
    requires HandOf(f, w).Busy? && HandOf(f, w).stage.Resending? && HandOf(f, w).stage.rest != []
    requires HandOf(f, w).stage.rest[0] < |f.ops| == |f.place|
  {
    var rest := HandOf(f, w).stage.rest;
    Enqueued(Advance(f, w, Resending(rest[1..])), WorkerOf(f.ops[rest[0]]), rest[0])
  }

  datatype Move =
    | Entering(op: Op)
    | Sending(n: nat)
    | Taking(w: Key)
    | Advancing(w: Key, stage: Stage)
    | Parking(w: Key, dependency: Key)
    | Finishing(w: Key)
    | Collecting(w: Key, dependency: Key)
    | ResendingOne(w: Key)

  predicate MoveAllowed(f: Flow, m: Move) {
    match m
    case Entering(_) => true
    case Sending(n) => n < |f.submitting| && f.submitting[n] < |f.ops|
    case Taking(w) => HandOf(f, w).Idle? && QueueOf(f, w) != [] && QueueOf(f, w)[0] < |f.ops|
    case Advancing(w, stage) => Holds(f, w) && !StageOf(f, w).Resending? && !stage.Resending?
    case Parking(w, k) => Holds(f, w) && StageOf(f, w).Fresh? && k in OpIn(f, w).deps
    case Finishing(w) => Holds(f, w) && (StageOf(f, w).Resending? ==> StageOf(f, w).rest == [])
    case Collecting(w, _) => Holds(f, w) && StageOf(f, w).Confirmed?
    case ResendingOne(w) =>
      Holds(f, w) && StageOf(f, w).Resending? && StageOf(f, w).rest != [] && StageOf(f, w).rest[0] < |f.ops|
  }

  function Moved(f: Flow, m: Move): Flow
    requires |f.place| == |f.ops| && MoveAllowed(f, m)
  {
    match m
    case Entering(op) => Enter(f, op)
    case Sending(n) => Send(f, n)
    case Taking(w) => Take(f, w)
    case Advancing(w, stage) => Advance(f, w, stage)
    case Parking(w, k) => Park(f, w, k)
    case Finishing(w) => Finish(f, w)
    case Collecting(w, k) => Collect(f, w, k)
    case ResendingOne(w) => Resend(f, w)
  }

  /* The invariant */

  // Each ticket is recorded at exactly the place that contains it, once.
  ghost predicate Placed(f: Flow) {
    && |f.place| == |f.ops|
    && (forall b, i {:trigger i in Content(f, b)} :: i in Content(f, b) ==> i < |f.place| && f.place[i] == b)
    && (forall i | 0 <= i < |f.place| && !f.place[i].Finished? :: i in Content(f, f.place[i]))
    && (forall b :: Distinct(Content(f, b)))
  }

  ghost predicate Routed(f: Flow)
    requires |f.place| == |f.ops|
  {
    forall i | 0 <= i < |f.place| ::
      && (f.place[i].Queued? || f.place[i].InHand? ==> f.place[i].worker == WorkerOf(f.ops[i]))
      && (f.place[i].Parked? ==> f.place[i].dependency in f.ops[i].deps)
  }

  ghost predicate FlowInv(f: Flow) {
    Placed(f) && Routed(f) && f.counter == Unfinished(f.place)
  }

  lemma {:induction false} UnfinishedUpdate(place: seq<Place>, i: nat, b: Place)
    requires i < |place|
    ensures Unfinished(place[i := b])
         == Unfinished(place) - (if place[i].Finished? then 0 else 1) + (if b.Finished? then 0 else 1)
  {
    var n := |place| - 1;
    if i == n {
      assert place[i := b][..n] == place[..n];
    } else {
      UnfinishedUpdate(place[..n], i, b);
      assert place[i := b][..n] == place[..n][i := b];
    }
  }

  lemma {:induction false} UnfinishedSame(p: seq<Place>, q: seq<Place>)
    requires |p| == |q| && forall i :: 0 <= i < |p| ==> p[i].Finished? == q[i].Finished?
    ensures Unfinished(p) == Unfinished(q)
  {
    if p != [] {
      UnfinishedSame(p[..|p| - 1], q[..|q| - 1]);
    }
  }

  // A ticket leaving one place for another keeps the bookkeeping.
  lemma {:induction false} MovedKeepsPlaced(f: Flow, g: Flow, i: nat, b: Place)
    requires Placed(f) && |g.ops| == |f.ops|
    requires i < |f.place| && g.place == f.place[i := b] && f.place[i] != b && !f.place[i].Finished?
    requires forall j :: j in Content(g, f.place[i]) <==> j in Content(f, f.place[i]) && j != i
    requires Distinct(Content(g, f.place[i]))
    requires !b.Finished? ==> Content(g, b) == Content(f, b) + [i]
    requires forall c :: c != f.place[i] && c != b ==> Content(g, c) == Content(f, c)
    ensures Placed(g)
  {
    if !b.Finished? {
      assert i !in Content(f, b);
    }
    assert Content(g, Finished) == [];
    forall c, j | j in Content(g, c) ensures j < |g.place| && g.place[j] == c {
    }
  }

  // The same for the whole invariant.
  lemma {:induction false} MovedKeeps(f: Flow, g: Flow, i: nat, b: Place)
    requires FlowInv(f) && g.ops == f.ops && g.counter == f.counter - (if b.Finished? then 1 else 0)
    requires i < |f.place| && g.place == f.place[i := b] && f.place[i] != b && !f.place[i].Finished?
    requires forall j :: j in Content(g, f.place[i]) <==> j in Content(f, f.place[i]) && j != i
    requires Distinct(Content(g, f.place[i]))
    requires !b.Finished? ==> Content(g, b) == Content(f, b) + [i]
    requires forall c :: c != f.place[i] && c != b ==> Content(g, c) == Content(f, c)
    requires b.Queued? || b.InHand? ==> b.worker == WorkerOf(f.ops[i])
    requires b.Parked? ==> b.dependency in f.ops[i].deps
    ensures FlowInv(g)
  {
    MovedKeepsPlaced(f, g, i, b);
    UnfinishedUpdate(f.place, i, b);
  }

  lemma {:induction false} EnterContent(f: Flow, op: Op, b: Place)
    ensures Content(Enter(f, op), b) == if b.Submitting? then Content(f, b) + [|f.ops|] else Content(f, b)
  {}

  lemma {:induction false} EnterPlaced(f: Flow, op: Op)
    requires Placed(f)
    ensures Placed(Enter(f, op))
  {
    var g, n := Enter(f, op), |f.ops|;
    forall b ensures Content(g, b) == if b.Submitting? then Content(f, b) + [n] else Content(f, b) {
      EnterContent(f, op, b);
    }
    forall b, i | i in Content(g, b) ensures i < |g.place| && g.place[i] == b {
      assert i in Content(f, b) || (i == n && b.Submitting?);
    }
    forall i | 0 <= i < |g.place| && !g.place[i].Finished? ensures i in Content(g, g.place[i]) {
      assert i < n ==> i in Content(f, f.place[i]);
    }
    forall b ensures Distinct(Content(g, b)) {
      assert n !in Content(f, b) && Distinct(Content(f, b));
    }
  }

  lemma {:induction false} EnterKeeps(f: Flow, op: Op)
    requires FlowInv(f)
    ensures FlowInv(Enter(f, op))
  {
    EnterPlaced(f, op);
    assert Enter(f, op).place[..|f.place|] == f.place;
  }

  lemma {:induction false} EnqueuedContent(f: Flow, w: Key, i: nat)
    requires i < |f.place|
    ensures forall b :: Content(Enqueued(f, w, i), b) == Content(f, b) + if b == Queued(w) then [i] else []
  {}

  lemma {:induction false} RemovedAt<T>(s: seq<T>, n: nat)
    requires n < |s| && Distinct(s)
    ensures var t := s[..n] + s[n + 1..];
      Distinct(t) && forall x :: x in t <==> x in s && x != s[n]
  {
    var t := s[..n] + s[n + 1..];
    forall x | x in s && x != s[n] ensures x in t {
      var m :| 0 <= m < |s| && s[m] == x;
      assert if m < n then t[m] == x else t[m - 1] == x;
    }
  }

  lemma {:induction false} SentContent(f: Flow, n: nat)
    requires n < |f.submitting| && f.submitting[n] < |f.ops| == |f.place|
    ensures forall b: Place ::
      Content(Send(f, n), b) == (if b.Submitting? then f.submitting[..n] + f.submitting[n + 1..]
                                 else if b == Queued(WorkerOf(f.ops[f.submitting[n]])) then
                                   Content(f, b) + [f.submitting[n]]
                                 else Content(f, b))
  {
    var i := f.submitting[n];
    var mid := f.(submitting := f.submitting[..n] + f.submitting[n + 1..]);
    EnqueuedContent(mid, WorkerOf(f.ops[i]), i);
    assert forall b: Place :: !b.Submitting? ==> Content(mid, b) == Content(f, b);
  }

  lemma {:induction false} SendKeeps(f: Flow, n: nat)
    requires FlowInv(f) && n < |f.submitting|
    ensures f.submitting[n] < |f.ops| && FlowInv(Send(f, n))
  {
    var i := f.submitting[n];
    assert i in Content(f, Submitting);
    var w, g := WorkerOf(f.ops[i]), Send(f, n);
    SentContent(f, n);
    assert Distinct(Content(f, Submitting));
    RemovedAt(f.submitting, n);
    MovedKeeps(f, g, i, Queued(w));
  }

  lemma {:induction false} TakeKeeps(f: Flow, w: Key)
    requires FlowInv(f) && QueueOf(f, w) != [] && HandOf(f, w).Idle?
    ensures QueueOf(f, w)[0] < |f.place| && FlowInv(Take(f, w))
  {
    var q := QueueOf(f, w);
    var i := q[0];
    assert i in Content(f, Queued(w)) && Distinct(Content(f, Queued(w)));
    var g := Take(f, w);
    assert QueueOf(g, w) == q[1..];
    forall c | c != Queued(w) && c != InHand(w) ensures Content(g, c) == Content(f, c) {
    }
    assert q == [q[0]] + q[1..];
    MovedKeeps(f, g, i, InHand(w));
  }

  lemma {:induction false} AdvanceContent(f: Flow, w: Key, stage: Stage)
    requires HandOf(f, w).Busy?
    ensures forall b :: b != Resent(w) ==> Content(Advance(f, w, stage), b) == Content(f, b)
    ensures Content(Advance(f, w, stage), Resent(w)) == if stage.Resending? then stage.rest else []
  {}

  lemma {:induction false} AdvanceKeeps(f: Flow, w: Key, stage: Stage)
    requires FlowInv(f) && HandOf(f, w).Busy?
    requires !HandOf(f, w).stage.Resending? && !stage.Resending?
    ensures FlowInv(Advance(f, w, stage))
  {
    AdvanceContent(f, w, stage);
    assert forall b :: Content(Advance(f, w, stage), b) == Content(f, b);
  }

  lemma {:induction false} ParkKeeps(f: Flow, w: Key, k: Key)
    requires FlowInv(f) && Holds(f, w) && !StageOf(f, w).Resending? && k in OpIn(f, w).deps
    ensures FlowInv(Park(f, w, k))
  {
    var i, g := HandOf(f, w).ticket, Park(f, w, k);
    assert i in Content(f, InHand(w));
    forall c | c != InHand(w) && c != Parked(k) ensures Content(g, c) == Content(f, c) {
    }
    MovedKeeps(f, g, i, Parked(k));
  }

  lemma {:induction false} FinishKeeps(f: Flow, w: Key)
    requires FlowInv(f) && Holds(f, w) && (StageOf(f, w).Resending? ==> StageOf(f, w).rest == [])
    ensures FlowInv(Finish(f, w))
  {
    var i, g := HandOf(f, w).ticket, Finish(f, w);
    assert i in Content(f, InHand(w));
    forall c | c != InHand(w) ensures Content(g, c) == Content(f, c) {
    }
    MovedKeeps(f, g, i, Finished);
  }

  lemma {:induction false} CollectContent(f: Flow, w: Key, k: Key, b: Place)
    requires HandOf(f, w).Busy?
    ensures Content(Collect(f, w, k), b) ==
            if b == Parked(k) then [] else if b == Resent(w) then WaitersOf(f, k) else Content(f, b)
  {}

  lemma {:induction false} CollectPlaced(f: Flow, w: Key, k: Key)
    requires Placed(f) && Holds(f, w) && !StageOf(f, w).Resending?
    ensures Placed(Collect(f, w, k))
  {
    var g := Collect(f, w, k);
    forall b ensures Content(g, b) == if b == Parked(k) then [] else if b == Resent(w) then WaitersOf(f, k)
      else Content(f, b) {
      CollectContent(f, w, k, b);
    }
    assert Distinct(Content(f, Parked(k))) && Content(f, Resent(w)) == [];
    forall i | 0 <= i < |g.place| && !g.place[i].Finished? ensures i in Content(g, g.place[i]) {
      assert f.place[i] != Resent(w);
    }
    forall b, i | i in Content(g, b) ensures i < |g.place| && g.place[i] == b {
      assert b == Resent(w) ==> i in Content(f, Parked(k));
    }
  }

  lemma {:induction false} CollectKeeps(f: Flow, w: Key, k: Key)
    requires FlowInv(f) && Holds(f, w) && !StageOf(f, w).Resending?
    ensures FlowInv(Collect(f, w, k))
  {
    CollectPlaced(f, w, k);
    UnfinishedSame(f.place, Collect(f, w, k).place);
  }

  lemma {:induction false} ResendKeeps(f: Flow, w: Key)
    requires FlowInv(f) && Holds(f, w) && StageOf(f, w).Resending? && StageOf(f, w).rest != []
    ensures StageOf(f, w).rest[0] < |f.place| && FlowInv(Resend(f, w))
  {
    var rest := StageOf(f, w).rest;
    var i := rest[0];
    assert i in Content(f, Resent(w)) && Distinct(Content(f, Resent(w)));
    var v, g := WorkerOf(f.ops[i]), Resend(f, w);
    ResendContent(f, w);
    assert rest == [rest[0]] + rest[1..];
    MovedKeeps(f, g, i, Queued(v));
  }

  lemma {:induction false} ResendContent(f: Flow, w: Key)
    requires Holds(f, w) && StageOf(f, w).Resending? && StageOf(f, w).rest != []
    requires StageOf(f, w).rest[0] < |f.ops| == |f.place|
    ensures var rest := StageOf(f, w).rest;
      forall b :: Content(Resend(f, w), b) ==
        if b == Resent(w) then rest[1..]
        else if b == Queued(WorkerOf(f.ops[rest[0]])) then Content(f, b) + [rest[0]]
        else Content(f, b)
  {
    var rest := StageOf(f, w).rest;
    AdvanceContent(f, w, Resending(rest[1..]));
    EnqueuedContent(Advance(f, w, Resending(rest[1..])), WorkerOf(f.ops[rest[0]]), rest[0]);
  }

  // A worker's move leaves the other hands alone; handing an op over leaves all of them alone.
  lemma {:induction false} MovedFrame(f: Flow, m: Move)
    requires |f.place| == |f.ops| && MoveAllowed(f, m)
    ensures Moved(f, m).ops == if m.Entering? then f.ops + [m.op] else f.ops
    ensures forall v :: (m.Entering? || m.Sending? || v != m.w) ==> HandOf(Moved(f, m), v) == HandOf(f, v)
  {}

  lemma {:induction false} MovedWaiters(f: Flow, m: Move, k: Key)
    requires |f.place| == |f.ops| && MoveAllowed(f, m)
    ensures WaitersOf(Moved(f, m), k) ==
      if m.Parking? && m.dependency == k then WaitersOf(f, k) + [HandOf(f, m.w).ticket]
      else if m.Collecting? && m.dependency == k then []
      else WaitersOf(f, k)
  {}

  lemma {:induction false} FlowKept(f: Flow, m: Move)
    requires FlowInv(f) && MoveAllowed(f, m)
    ensures FlowInv(Moved(f, m))
  {
    match m
    case Entering(op) => EnterKeeps(f, op);
    case Sending(n) => SendKeeps(f, n);
    case Taking(w) => TakeKeeps(f, w);
    case Advancing(w, stage) => AdvanceKeeps(f, w, stage);
    case Parking(w, k) => ParkKeeps(f, w, k);
    case Finishing(w) => FinishKeeps(f, w);
    case Collecting(w, k) => CollectKeeps(f, w, k);
    case ResendingOne(w) => ResendKeeps(f, w);
  }

  /* Conservation */

  ghost predicate FoundOnceAt(f: Flow, i: nat, b: Place) {
    multiset(Content(f, b))[i] == 1
  }

  lemma {:induction false} DistinctCount<T>(s: seq<T>, x: T)
    requires Distinct(s)
    ensures multiset(s)[x] == if x in s then 1 else 0
  {
    if s != [] {
      DistinctCount(s[1..], x);
      assert s == [s[0]] + s[1..];
    }
  }

  /** An unfinished op is in exactly one place, once; a finished one is nowhere. */
  lemma {:induction false} Conservation(f: Flow, i: nat)
    requires FlowInv(f) && i < |f.ops|
    ensures f.place[i].Finished? ==> forall b :: i !in Content(f, b)
    ensures !f.place[i].Finished? ==> FoundOnceAt(f, i, f.place[i])
    ensures !f.place[i].Finished? ==> forall b :: b != f.place[i] ==> i !in Content(f, b)
  {
    DistinctCount(Content(f, f.place[i]), i);
  }

  lemma {:induction false} NoneUnfinished(place: seq<Place>)
    ensures Unfinished(place) == 0 <==> forall i :: 0 <= i < |place| ==> place[i].Finished?
  {
    if place != [] {
      NoneUnfinished(place[..|place| - 1]);
    }
  }

  lemma {:induction false} EmptyOrInhabited<T>(s: seq<T>)
    ensures s == [] || exists x :: x in s
  {
    if s != [] {
      assert s[0] in s;
    }
  }

  /** Wait returns exactly when every submitted op has finished: in particular nothing is parked. */
  lemma {:induction false} WaitReturnsIffDrained(f: Flow)
    requires FlowInv(f)
    ensures f.counter >= 0
    ensures f.counter == 0 <==> forall b :: Content(f, b) == []
  {
    NoneUnfinished(f.place);
    if forall b :: Content(f, b) == [] {
      forall i | 0 <= i < |f.place| ensures f.place[i].Finished? {
        assert Content(f, f.place[i]) == [];
      }
    }
    if f.counter == 0 {
      forall b ensures Content(f, b) == [] {
        EmptyOrInhabited(Content(f, b));
      }
    }
  }
}
