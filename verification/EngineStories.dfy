/** Runs from an empty start that show where an attractive claim about the engine fails: order across a
    wake-up, a delete against an earlier parked create, the states between which a late parking strands
    an op; and exactly when a failed update submitted again is dropped. */
module EngineStories {
  import opened Types
  import opened Canonical
  import opened Store
  import opened Flow
  import opened Gateway
  import opened Engine
  import opened EngineRuns
  import opened EngineQuiescence
  import opened EngineOrder

  const BLANK := World(NO_FLOW, Tables(map[], map[]), Remote(map[], []), [], {}, map[])

  // s is where run leads from an empty start.
  ghost predicate Reaches(cfg: Settings, run: seq<Step>, s: World) {
    Legal(cfg, BLANK, run) && End(cfg, BLANK, run) == s
  }

  lemma {:induction false} Extend(cfg: Settings, run: seq<Step>, s: World, st: Step)
    returns (run': seq<Step>, s': World)
    requires Reaches(cfg, run, s) && Enabled(cfg, s, st) && |s.flow.place| == |s.flow.ops|
    ensures CanStep(cfg, s, st) && s' == Next(s, st) && Reaches(cfg, run', s') && run' == run + [st]
  {
    MoveIsAllowed(cfg, s, st);
    RunExtends(cfg, BLANK, run, st);
    run', s' := run + [st], Next(s, st);
  }

  function PostOp(m: Message): Op {
    Op(OpCreate, Key(MessageEntity, m.id), m.channelID, ToMessage(m), [ChannelKey(m.channelID)], [])
  }

  function CreateOp(c: Channel, deps: seq<Key>): Op {
    Op(OpCreate, ChannelKey(c.id), NO_ID, ToChannel(c), deps, [])
  }

  function DeleteOp(c: Id): Op {
    Op(OpDelete, ChannelKey(c), NO_ID, Nothing, [], [])
  }

  // A world whose ops have not touched rows or Stoat yet.
  function Untouched(f: Flow): World {
    BLANK.(flow := f)
  }

  function Taken(c: Channel, m: Message): Flow {
    Flow([CreateOp(c, []), PostOp(m)], [],
         map[ChannelKey(c.id) := [], MessageWorker(c.id) := []],
         map[ChannelKey(c.id) := Busy(0, Fresh), MessageWorker(c.id) := Busy(1, Fresh)],
         map[], 2, [InHand(ChannelKey(c.id)), InHand(MessageWorker(c.id))])
  }

  // A channel without overwrites, and a message for it.
  predicate Plain(c: Channel, m: Message) {
    c.id != NO_ID && c.ctype != NoType && c.overwrites == map[] && m.id != NO_ID && m.channelID == c.id
  }

  function Submitted(c: Channel, m: Message): Flow {
    Flow([CreateOp(c, []), PostOp(m)], [0, 1], map[], map[], map[], 2, [Submitting, Submitting])
  }

  function Sent(c: Channel, m: Message): Flow {
    Flow([CreateOp(c, []), PostOp(m)], [], map[ChannelKey(c.id) := [0], MessageWorker(c.id) := [1]], map[], map[], 2,
         [Queued(ChannelKey(c.id)), Queued(MessageWorker(c.id))])
  }

  lemma {:induction false} SubmitBoth(cfg: Settings, c: Channel, m: Message) returns (run: seq<Step>)
    requires Plain(c, m)
    ensures Reaches(cfg, run, Untouched(Submitted(c, m)))
  {
    var s: World;
    run := [];
    run, s := Extend(cfg, run, BLANK, SubmitOp(CreateOp(c, [])));
    run, s := Extend(cfg, run, s, SubmitOp(PostOp(m)));
    assert s.flow == Submitted(c, m);
  }

  lemma {:induction false} SendFlow(c: Channel, m: Message)
    requires Plain(c, m)
    ensures Send(Send(Submitted(c, m), 0), 0) == Sent(c, m)
  {
    var f := Send(Submitted(c, m), 0);
    assert QueueOf(f, ChannelKey(c.id)) == [0] && f.submitting == [1];
    var g := Send(f, 0);
    assert QueueOf(g, MessageWorker(c.id)) == [1] && g.submitting == [];
  }

  lemma {:induction false} SendBoth(cfg: Settings, c: Channel, m: Message) returns (run: seq<Step>)
    requires Plain(c, m)
    ensures Reaches(cfg, run, Untouched(Sent(c, m)))
  {
    var s: World;
    run := SubmitBoth(cfg, c, m);
    run, s := Extend(cfg, run, Untouched(Submitted(c, m)), SendOp(0));
    assert s == Untouched(Send(Submitted(c, m), 0));
    run, s := Extend(cfg, run, s, SendOp(0));
    SendFlow(c, m);
  }

  lemma {:induction false} TakeFlow(c: Channel, m: Message)
    requires Plain(c, m)
    ensures Take(Take(Sent(c, m), ChannelKey(c.id)), MessageWorker(c.id)) == Taken(c, m)
  {
    var f := Take(Sent(c, m), ChannelKey(c.id));
    assert QueueOf(f, MessageWorker(c.id)) == [1] && QueueOf(f, ChannelKey(c.id)) == [];
    assert f.place == [InHand(ChannelKey(c.id)), Queued(MessageWorker(c.id))];
  }

  lemma {:induction false} TakeBoth(cfg: Settings, c: Channel, m: Message) returns (run: seq<Step>)
    requires Plain(c, m)
    ensures Reaches(cfg, run, Untouched(Taken(c, m)))
  {
    var s: World;
    run := SendBoth(cfg, c, m);
    run, s := Extend(cfg, run, Untouched(Sent(c, m)), TakeOp(ChannelKey(c.id)));
    assert s == Untouched(Take(Sent(c, m), ChannelKey(c.id)));
    run, s := Extend(cfg, run, s, TakeOp(MessageWorker(c.id)));
    TakeFlow(c, m);
  }

  /* The channel's create runs through while everything else stands still */

  ghost predicate ReadyToLand(cfg: Settings, s: World, c: Channel) {
    && !cfg.dryRun && |s.flow.place| == |s.flow.ops| && |s.flow.ops| > 0
    && c.id != NO_ID && c.ctype != NoType && c.overwrites == map[]
    && HandOf(s.flow, ChannelKey(c.id)) == Busy(0, Fresh) && s.flow.ops[0] == CreateOp(c, [])
    && s == Untouched(s.flow)
  }

  // After WritePending: the same flow but for the stage, and a pending row.
  function IntentWritten(s: World, c: Channel): World
    requires HandOf(s.flow, ChannelKey(c.id)).Busy?
  {
    s.(flow := Advance(s.flow, ChannelKey(c.id), Written(0)),
       tables := Tables(map[ChannelKey(c.id) := Row(NO_ID, Pending, ChannelJSON(c))], map[]))
  }

  lemma {:induction false} AdvanceTwice(f: Flow, w: Key, a: Stage, b: Stage)
    requires HandOf(f, w).Busy?
    ensures Advance(Advance(f, w, a), w, b) == Advance(f, w, b)
  {}

  // Whatever run' adds to run are steps of worker w.
  ghost predicate AddsOnly(run: seq<Step>, run': seq<Step>, w: Key) {
    && run <= run'
    && forall i | |run| <= i < |run'| :: !run'[i].SubmitOp? && !run'[i].SendOp? && run'[i].w == w
  }

  lemma {:induction false} DecideToWrite(cfg: Settings, run: seq<Step>, s: World, c: Channel) returns (run': seq<Step>)
    requires Reaches(cfg, run, s) && ReadyToLand(cfg, s, c)
    ensures Reaches(cfg, run', s.(flow := Advance(s.flow, ChannelKey(c.id), Intend)))
    ensures AddsOnly(run, run', ChannelKey(c.id))
  {
    var k, s' := ChannelKey(c.id), s.(flow := Advance(s.flow, ChannelKey(c.id), Ready));
    run' := CheckFirst(cfg, run, s, c);
    run', s' := Extend(cfg, run', s', Decide(k));
    AdvanceTwice(s.flow, k, Ready, Intend);
    assert s' == s.(flow := Advance(s.flow, k, Intend));
  }

  lemma {:induction false} CheckFirst(cfg: Settings, run: seq<Step>, s: World, c: Channel) returns (run': seq<Step>)
    requires Reaches(cfg, run, s) && ReadyToLand(cfg, s, c)
    ensures Reaches(cfg, run', s.(flow := Advance(s.flow, ChannelKey(c.id), Ready)))
    ensures AddsOnly(run, run', ChannelKey(c.id))
  {
    var s': World;
    run', s' := Extend(cfg, run, s, CheckDeps(ChannelKey(c.id)));
    assert s' == s.(flow := Advance(s.flow, ChannelKey(c.id), Ready));
  }

  lemma {:induction false} WriteIntentFirst(cfg: Settings, run: seq<Step>, s: World, c: Channel)
    returns (run': seq<Step>)
    requires Reaches(cfg, run, s) && ReadyToLand(cfg, s, c)
    ensures Reaches(cfg, run', IntentWritten(s, c)) && AddsOnly(run, run', ChannelKey(c.id))
  {
    var k, s' := ChannelKey(c.id), s.(flow := Advance(s.flow, ChannelKey(c.id), Intend));
    run' := DecideToWrite(cfg, run, s, c);
    run', s' := Extend(cfg, run', s', WriteIntent(k));
    AdvanceTwice(s.flow, k, Intend, Written(0));
    assert s'.tables.rows == map[k := Row(NO_ID, Pending, ChannelJSON(c))];
  }

  lemma {:induction false} AnswerToIntent(cfg: Settings, s: World, c: Channel) returns (after: Entity)
    requires ReadyToLand(cfg, s, c)
    ensures Enabled(cfg, IntentWritten(s, c), Succeeds(ChannelKey(c.id), "x", after))
  {
    var k, s' := ChannelKey(c.id), IntentWritten(s, c);
    assert OpIn(s'.flow, k) == CreateOp(c, []) && RowOf(s', k) == Found(NO_ID, Pending, ChannelJSON(c));
    after := WriteExists(cfg, s'.tables, CreateOp(c, []), None);
  }

  lemma {:induction false} CreateRemotely(cfg: Settings, run: seq<Step>, s: World, c: Channel)
    returns (run': seq<Step>, s': World)
    requires Reaches(cfg, run, s) && ReadyToLand(cfg, s, c)
    ensures Reaches(cfg, run', s') && AddsOnly(run, run', ChannelKey(c.id))
    ensures s'.flow == Advance(s.flow, ChannelKey(c.id), Applied("x")) && s'.tables == IntentWritten(s, c).tables
  {
    var k := ChannelKey(c.id);
    run' := WriteIntentFirst(cfg, run, s, c);
    var after := AnswerToIntent(cfg, s, c);
    run', s' := Extend(cfg, run', IntentWritten(s, c), Succeeds(k, "x", after));
    AdvanceTwice(s.flow, k, Written(0), Applied("x"));
  }

  lemma {:induction false} Land(cfg: Settings, run: seq<Step>, s: World, c: Channel)
    returns (run': seq<Step>, s': World)
    requires Reaches(cfg, run, s) && ReadyToLand(cfg, s, c)
    ensures Reaches(cfg, run', s') && s'.flow == Advance(s.flow, ChannelKey(c.id), Confirmed)
    ensures IsActive(Lookup(s'.tables, ChannelKey(c.id))) && AddsOnly(run, run', ChannelKey(c.id))
  {
    var k := ChannelKey(c.id);
    run', s' := CreateRemotely(cfg, run, s, c);
    run', s' := Extend(cfg, run', s', ConfirmRow(k));
    AdvanceTwice(s.flow, k, Applied("x"), Confirmed);
  }

  /* Order across a wake-up */

  // Two messages of one channel reached its worker in the order 1, 2; 2 is let through while 1 is parked.
  ghost predicate Overtaken(s: World, c: Id) {
    && WaitersOf(s.flow, ChannelKey(c)) == [1]
    && HandOf(s.flow, MessageWorker(c)) == Busy(2, Ready)
    && |s.flow.ops| == 3 && WorkerOf(s.flow.ops[1]) == WorkerOf(s.flow.ops[2]) == MessageWorker(c)
  }

  lemma {:induction false} ParkMessage(cfg: Settings, c: Channel, m: Message) returns (run: seq<Step>, s: World)
    requires !cfg.dryRun && Plain(c, m)
    ensures Reaches(cfg, run, s) && ReadyToLand(cfg, s, c)
    ensures s.flow == Park(Taken(c, m), MessageWorker(c.id), ChannelKey(c.id))
  {
    run := TakeBoth(cfg, c, m);
    run, s := Extend(cfg, run, Untouched(Taken(c, m)), CheckDeps(MessageWorker(c.id)));
  }

  lemma {:induction false} ParkedFlow(c: Channel, m: Message)
    requires Plain(c, m)
    ensures var f := Advance(Park(Taken(c, m), MessageWorker(c.id), ChannelKey(c.id)), ChannelKey(c.id), Confirmed);
      && f.ops == [CreateOp(c, []), PostOp(m)] && f.submitting == [] && |f.place| == 2
      && HandOf(f, MessageWorker(c.id)).Idle? && QueueOf(f, MessageWorker(c.id)) == []
      && WaitersOf(f, ChannelKey(c.id)) == [1]
  {
    assert WaitersOf(Taken(c, m), ChannelKey(c.id)) == [];
  }

  lemma {:induction false} LetThrough(cfg: Settings, run: seq<Step>, s: World, c: Id, m1: Op, m2: Message)
    returns (run': seq<Step>, s': World)
    requires Reaches(cfg, run, s) && |s.flow.place| == |s.flow.ops| == 3
    requires s.flow.ops[2] == PostOp(m2) && m2.channelID == c && s.flow.ops[1] == m1
    requires HandOf(s.flow, MessageWorker(c)).Idle? && QueueOf(s.flow, MessageWorker(c)) == [2]
    requires IsActive(Lookup(s.tables, ChannelKey(c)))
    ensures Reaches(cfg, run', s') && HandOf(s'.flow, MessageWorker(c)) == Busy(2, Ready)
    ensures WaitersOf(s'.flow, ChannelKey(c)) == WaitersOf(s.flow, ChannelKey(c)) && s'.flow.ops == s.flow.ops
  {
    run', s' := Extend(cfg, run, s, TakeOp(MessageWorker(c)));
    assert OpIn(s'.flow, MessageWorker(c)) == PostOp(m2) && s'.tables == s.tables;
    FirstUnmetSpec(s'.tables, PostOp(m2).deps);
    run', s' := Extend(cfg, run', s', CheckDeps(MessageWorker(c)));
  }

  /** Send order is not display order across a wake-up: for every channel without overwrites and every
      two messages of it there is a run in which the second passes the first. */
  lemma {:induction false} SecondMessageFirst(cfg: Settings, c: Channel, m1: Message, m2: Message)
    returns (run: seq<Step>, s: World)
    requires !cfg.dryRun && Plain(c, m1) && Plain(c, m2) && m1.id != m2.id
    ensures Reaches(cfg, run, s) && Overtaken(s, c.id)
  {
    run, s := ParkMessage(cfg, c, m1);
    run, s := Land(cfg, run, s, c);
    ParkedFlow(c, m1);
    run, s := SendThird(cfg, run, s, c, m1, m2);
    run, s := LetThrough(cfg, run, s, c.id, PostOp(m1), m2);
  }

  lemma {:induction false} SendThird(cfg: Settings, run: seq<Step>, s: World, c: Channel, m1: Message, m2: Message)
    returns (run': seq<Step>, s': World)
    requires Reaches(cfg, run, s) && Plain(c, m1) && Plain(c, m2) && m1.id != m2.id && |s.flow.place| == 2
    requires s.flow.ops == [CreateOp(c, []), PostOp(m1)] && s.flow.submitting == []
    requires QueueOf(s.flow, MessageWorker(c.id)) == []
    ensures Reaches(cfg, run', s') && s'.tables == s.tables && s'.flow.hands == s.flow.hands
    ensures s'.flow.waiters == s.flow.waiters
    ensures s'.flow.ops == [CreateOp(c, []), PostOp(m1), PostOp(m2)] && |s'.flow.place| == 3
    ensures QueueOf(s'.flow, MessageWorker(c.id)) == [2]
  {
    run', s' := Extend(cfg, run, s, SubmitOp(PostOp(m2)));
    assert s'.flow.submitting == [2] && s'.flow.ops == [CreateOp(c, []), PostOp(m1), PostOp(m2)];
    run', s' := Extend(cfg, run', s', SendOp(0));
  }

  // Woken and sent again, the first message stands behind the second.
  ghost predicate Requeued(s: World, c: Id) {
    && HandOf(s.flow, MessageWorker(c)) == Busy(2, Ready) && QueueOf(s.flow, MessageWorker(c)) == [1]
    && |s.flow.ops| == 3 && WorkerOf(s.flow.ops[1]) == WorkerOf(s.flow.ops[2]) == MessageWorker(c)
  }

  lemma {:induction false} WakeFirst(cfg: Settings, run: seq<Step>, s: World, c: Channel, m1: Message, m2: Message)
    returns (run': seq<Step>, s': World)
    requires Reaches(cfg, run, s) && m1.id != NO_ID && m1.channelID == m2.channelID == c.id != NO_ID
    requires |s.flow.place| == 3
    requires s.flow.ops == [CreateOp(c, []), PostOp(m1), PostOp(m2)]
    requires HandOf(s.flow, ChannelKey(c.id)) == Busy(0, Confirmed)
    requires WaitersOf(s.flow, ChannelKey(c.id)) == [1] && QueueOf(s.flow, MessageWorker(c.id)) == [2]
    ensures Reaches(cfg, run', s') && s'.tables == s.tables && s'.flow.ops == s.flow.ops && |s'.flow.place| == 3
    ensures QueueOf(s'.flow, MessageWorker(c.id)) == [2, 1]
    ensures HandOf(s'.flow, MessageWorker(c.id)) == HandOf(s.flow, MessageWorker(c.id))
  {
    var k := ChannelKey(c.id);
    run', s' := CollectFor(cfg, run, s, k, 0);
    run', s' := Extend(cfg, run', s', ResendOne(k));
  }

  lemma {:induction false} LetRequeuedBy(cfg: Settings, run: seq<Step>, s: World, c: Channel, m1: Message, m2: Message)
    returns (run': seq<Step>, s': World)
    requires Reaches(cfg, run, s) && m1.id != NO_ID && m1.channelID == m2.channelID == c.id != NO_ID
    requires |s.flow.place| == 3
    requires s.flow.ops == [CreateOp(c, []), PostOp(m1), PostOp(m2)] && HandOf(s.flow, MessageWorker(c.id)).Idle?
    requires QueueOf(s.flow, MessageWorker(c.id)) == [2, 1] && IsActive(Lookup(s.tables, ChannelKey(c.id)))
    ensures Reaches(cfg, run', s') && Requeued(s', c.id)
  {
    var w := MessageWorker(c.id);
    run', s' := Extend(cfg, run, s, TakeOp(w));
    assert OpIn(s'.flow, w) == PostOp(m2) && s'.tables == s.tables && QueueOf(s'.flow, w) == [1];
    FirstUnmetSpec(s'.tables, PostOp(m2).deps);
    run', s' := Extend(cfg, run', s', CheckDeps(w));
  }

  /** The overtaken op need not be parked or on its way back: here it is queued once more, behind. */
  lemma {:induction false} SecondMessageFirstRequeued(cfg: Settings, c: Channel, m1: Message, m2: Message)
    returns (run: seq<Step>, s: World)
    requires !cfg.dryRun && Plain(c, m1) && Plain(c, m2) && m1.id != m2.id
    ensures Reaches(cfg, run, s) && Requeued(s, c.id)
  {
    run, s := ParkMessage(cfg, c, m1);
    run, s := Land(cfg, run, s, c);
    ParkedFlow(c, m1);
    run, s := SendThird(cfg, run, s, c, m1, m2);
    run, s := WakeFirst(cfg, run, s, c, m1, m2);
    run, s := LetRequeuedBy(cfg, run, s, c, m1, m2);
  }

  /* A delete against an earlier parked create */

  function HeldCreate(c: Channel, r: Id): Flow {
    Flow([CreateOp(c, [Key(RoleEntity, r)])], [], map[ChannelKey(c.id) := []], map[ChannelKey(c.id) := Busy(0, Fresh)],
         map[], 1, [InHand(ChannelKey(c.id))])
  }

  function ParkedCreate(c: Channel, r: Id): Flow {
    Flow([CreateOp(c, [Key(RoleEntity, r)])], [], map[ChannelKey(c.id) := []], map[ChannelKey(c.id) := Idle],
         map[Key(RoleEntity, r) := [0]], 1, [Parked(Key(RoleEntity, r))])
  }

  // The same create still parked, and the later delete at work.
  function Deleting(c: Channel, r: Id, hand: Hand, queue: seq<nat>, place: Place): Flow {
    ParkedCreate(c, r).(ops := [CreateOp(c, [Key(RoleEntity, r)]), DeleteOp(c.id)],
                        queues := map[ChannelKey(c.id) := queue], hands := map[ChannelKey(c.id) := hand], counter := 2,
                        place := [Parked(Key(RoleEntity, r)), place])
  }

  lemma {:induction false} SendCreate(cfg: Settings, c: Channel, r: Id) returns (run: seq<Step>)
    requires OneOverwrite(c, r)
    ensures Reaches(cfg, run,
                    Untouched(HeldCreate(c, r).(queues := map[ChannelKey(c.id) := [0]], hands := map[],
                                                place := [Queued(ChannelKey(c.id))])))
  {
    var k, op, s := ChannelKey(c.id), CreateOp(c, [Key(RoleEntity, r)]), BLANK;
    run, s := Extend(cfg, [], BLANK, SubmitOp(op));
    run, s := Extend(cfg, run, s, SendOp(0));
    assert s == Untouched(Flow([op], [], map[k := [0]], map[], map[], 1, [Queued(k)]));
  }

  lemma {:induction false} TakeCreate(cfg: Settings, c: Channel, r: Id) returns (run: seq<Step>)
    requires OneOverwrite(c, r)
    ensures Reaches(cfg, run, Untouched(HeldCreate(c, r)))
  {
    var k := ChannelKey(c.id);
    var s := Untouched(HeldCreate(c, r).(queues := map[k := [0]], hands := map[], place := [Queued(k)]));
    run := SendCreate(cfg, c, r);
    run, s := Extend(cfg, run, s, TakeOp(k));
    assert s.flow.queues == map[k := []] && s.flow.hands == map[k := Busy(0, Fresh)];
    assert s == Untouched(HeldCreate(c, r));
  }

  lemma {:induction false} ParkCreate(cfg: Settings, c: Channel, r: Id) returns (run: seq<Step>)
    requires OneOverwrite(c, r)
    ensures Reaches(cfg, run, Untouched(ParkedCreate(c, r)))
  {
    var s: World;
    run := TakeCreate(cfg, c, r);
    run, s := Extend(cfg, run, Untouched(HeldCreate(c, r)), CheckDeps(ChannelKey(c.id)));
    assert MoveOf(Untouched(HeldCreate(c, r)), CheckDeps(ChannelKey(c.id))) ==
      Parking(ChannelKey(c.id), Key(RoleEntity, r));
    assert s.flow.waiters[Key(RoleEntity, r)] == [] + [0] == [0];
    assert s.flow == ParkedCreate(c, r);
  }

  predicate OneOverwrite(c: Channel, r: Id) {
    c.id != NO_ID && c.ctype != NoType && c.overwrites.Keys == {r}
  }

  lemma {:induction false} SubmitDelete(cfg: Settings, c: Channel, r: Id) returns (run: seq<Step>)
    requires OneOverwrite(c, r)
    ensures Reaches(cfg, run, Untouched(Deleting(c, r, Idle, [], Submitting).(submitting := [1])))
  {
    var s: World;
    run := ParkCreate(cfg, c, r);
    run, s := Extend(cfg, run, Untouched(ParkedCreate(c, r)), SubmitOp(DeleteOp(c.id)));
    assert s == Untouched(Deleting(c, r, Idle, [], Submitting).(submitting := [1]));
  }

  lemma {:induction false} SendDelete(cfg: Settings, c: Channel, r: Id) returns (run: seq<Step>)
    requires OneOverwrite(c, r)
    ensures Reaches(cfg, run, Untouched(Deleting(c, r, Idle, [1], Queued(ChannelKey(c.id)))))
  {
    var s: World;
    run := SubmitDelete(cfg, c, r);
    run, s := Extend(cfg, run, Untouched(Deleting(c, r, Idle, [], Submitting).(submitting := [1])), SendOp(0));
    assert s.flow.submitting == [] && s.flow.queues[ChannelKey(c.id)] == [] + [1] == [1];
    assert s == Untouched(Deleting(c, r, Idle, [1], Queued(ChannelKey(c.id))));
  }

  lemma {:induction false} TakeDelete(cfg: Settings, c: Channel, r: Id) returns (run: seq<Step>)
    requires OneOverwrite(c, r)
    ensures Reaches(cfg, run, Untouched(Deleting(c, r, Busy(1, Fresh), [], InHand(ChannelKey(c.id)))))
  {
    var s: World;
    run := SendDelete(cfg, c, r);
    run, s := Extend(cfg, run, Untouched(Deleting(c, r, Idle, [1], Queued(ChannelKey(c.id)))),
                     TakeOp(ChannelKey(c.id)));
    assert s == Untouched(Deleting(c, r, Busy(1, Fresh), [], InHand(ChannelKey(c.id))));
  }

  lemma {:induction false} CheckDelete(cfg: Settings, c: Channel, r: Id) returns (run: seq<Step>)
    requires OneOverwrite(c, r)
    ensures Reaches(cfg, run, Untouched(Deleting(c, r, Busy(1, Ready), [], InHand(ChannelKey(c.id)))))
  {
    var k, s := ChannelKey(c.id), Untouched(Deleting(c, r, Busy(1, Fresh), [], InHand(ChannelKey(c.id))));
    run := TakeDelete(cfg, c, r);
    run, s := Extend(cfg, run, s, CheckDeps(k));
    assert s == Untouched(Deleting(c, r, Busy(1, Ready), [], InHand(k)));
  }

  lemma {:induction false} DecideDelete(cfg: Settings, c: Channel, r: Id) returns (run: seq<Step>)
    requires !cfg.dryRun && OneOverwrite(c, r)
    ensures Reaches(cfg, run, Untouched(Deleting(c, r, Busy(1, Removing(0)), [], InHand(ChannelKey(c.id)))))
  {
    var k, s := ChannelKey(c.id), Untouched(Deleting(c, r, Busy(1, Ready), [], InHand(ChannelKey(c.id))));
    run := CheckDelete(cfg, c, r);
    run, s := Extend(cfg, run, s, Decide(k));
    assert s == Untouched(Deleting(c, r, Busy(1, Removing(0)), [], InHand(k)));
  }

  // The row is absent, so there is nothing to delete on Stoat.
  lemma {:induction false} CallDelete(cfg: Settings, c: Channel, r: Id) returns (run: seq<Step>)
    requires !cfg.dryRun && OneOverwrite(c, r)
    ensures Reaches(cfg, run, Untouched(Deleting(c, r, Busy(1, Gone), [], InHand(ChannelKey(c.id)))))
  {
    var k, s := ChannelKey(c.id), Untouched(Deleting(c, r, Busy(1, Removing(0)), [], InHand(ChannelKey(c.id))));
    run := DecideDelete(cfg, c, r);
    run, s := Extend(cfg, run, s, Succeeds(k, NO_ID, LiveMessage(NO_ID, "")));
    assert s == Untouched(Deleting(c, r, Busy(1, Gone), [], InHand(k)));
  }

  /** One worker per entity does not order a create before its delete: for every channel with one
      overwrite there is a run in which the delete, submitted second, has finished without effect while
      the create is still parked, waiting for nothing but its role. */
  lemma {:induction false} DeleteOvertakesCreate(cfg: Settings, c: Channel, r: Id) returns (run: seq<Step>)
    requires !cfg.dryRun && OneOverwrite(c, r)
    ensures Reaches(cfg, run, Untouched(Deleting(c, r, Idle, [], Finished).(counter := 1)))
  {
    var k, s := ChannelKey(c.id), Untouched(Deleting(c, r, Busy(1, Gone), [], InHand(ChannelKey(c.id))));
    run := CallDelete(cfg, c, r);
    run, s := Extend(cfg, run, s, EraseRow(k));
    assert s.tables.rows == map[];
    assert s.flow == Deleting(c, r, Idle, [], Finished).(counter := 1);
  }

  /* The dependency check and the parking as two steps */

  // A waiter without a reason: its dependency is active and nobody is left to wake it.
  ghost predicate Stranded(s: World, c: Id) {
    && WaitersOf(s.flow, ChannelKey(c)) == [1] && IsActive(Lookup(s.tables, ChannelKey(c)))
    && s.flow.counter == 1 && s.flow.submitting == []
    && forall w :: HandOf(s.flow, w).Idle? && QueueOf(s.flow, w) == []
  }

  function Notified(c: Channel, m: Message): Flow {
    Taken(c, m).(hands := map[ChannelKey(c.id) := Idle, MessageWorker(c.id) := Busy(1, Fresh)], counter := 1,
                 place := [Finished, InHand(MessageWorker(c.id))])
  }

  lemma {:induction false} NotifyFlow(c: Channel, m: Message)
    requires Plain(c, m)
    ensures var f, k := Advance(Taken(c, m), ChannelKey(c.id), Confirmed), ChannelKey(c.id);
      && WaitersOf(f, k) == [] && Finish(Collect(f, k, k), k) == Notified(c, m)
  {
    var f, k := Advance(Taken(c, m), ChannelKey(c.id), Confirmed), ChannelKey(c.id);
    assert Collect(f, k, k).place == f.place && Collect(f, k, k).waiters == map[];
  }

  lemma {:induction false} ParkedLate(c: Channel, m: Message)
    requires Plain(c, m)
    ensures var f := Park(Notified(c, m), MessageWorker(c.id), ChannelKey(c.id));
      && WaitersOf(f, ChannelKey(c.id)) == [1] && f.counter == 1 && f.submitting == []
      && forall w :: HandOf(f, w).Idle? && QueueOf(f, w) == []
  {}

  lemma {:induction false} Notify(cfg: Settings, run: seq<Step>, s: World, c: Channel, m: Message)
    returns (run': seq<Step>, s': World)
    requires Reaches(cfg, run, s) && Plain(c, m) && s.flow == Advance(Taken(c, m), ChannelKey(c.id), Confirmed)
    ensures Reaches(cfg, run', s') && s'.flow == Notified(c, m) && s'.tables == s.tables
    ensures AddsOnly(run, run', ChannelKey(c.id))
  {
    var k := ChannelKey(c.id);
    NotifyFlow(c, m);
    run', s' := CollectFor(cfg, run, s, k, 0);
    run', s' := Extend(cfg, run', s', ResendOne(k));
  }

  // The notifying worker's critical section.
  lemma {:induction false} CollectFor(cfg: Settings, run: seq<Step>, s: World, k: Key, i: nat)
    returns (run': seq<Step>, s': World)
    requires Reaches(cfg, run, s) && |s.flow.place| == |s.flow.ops| && HandOf(s.flow, k) == Busy(i, Confirmed)
    requires i < |s.flow.ops| && s.flow.ops[i].key == k
    ensures Reaches(cfg, run', s') && run' == run + [CollectWaiters(k)] && s' == s.(flow := Collect(s.flow, k, k))
    ensures HandOf(s'.flow, k) == Busy(i, Resending(WaitersOf(s.flow, k)))
  {
    run', s' := Extend(cfg, run, s, CollectWaiters(k));
  }

  /** If the message worker reads the dependency in s and parks only in s', after the channel's confirm
      and notify, the op is never woken and Wait never returns. */
  lemma {:induction false} LostWakeup(cfg: Settings, c: Channel, m: Message)
    returns (run: seq<Step>, s: World, run': seq<Step>, s': World)
    requires !cfg.dryRun && Plain(c, m)
    ensures Reaches(cfg, run, s) && Reaches(cfg, run', s') && AddsOnly(run, run', ChannelKey(c.id))
    ensures s == Untouched(Taken(c, m)) && Holds(s.flow, MessageWorker(c.id))
    ensures HandOf(s'.flow, MessageWorker(c.id)) == HandOf(s.flow, MessageWorker(c.id))
    ensures FirstUnmet(s.tables, OpIn(s.flow, MessageWorker(c.id)).deps) == Some(ChannelKey(c.id))
    ensures Holds(s'.flow, MessageWorker(c.id)) && HandOf(s'.flow, MessageWorker(c.id)).ticket < |s'.flow.place|
    ensures s'.flow == Notified(c, m)
    ensures Stranded(s'.(flow := Park(s'.flow, MessageWorker(c.id), ChannelKey(c.id))), c.id)
  {
    run := TakeBoth(cfg, c, m);
    s := Untouched(Taken(c, m));
    run', s' := Land(cfg, run, s, c);
    run', s' := Notify(cfg, run', s', c, m);
    ParkedLate(c, m);
  }

  /* A failed update submitted again */

  // The call of a create or edit ends in an error: reported by Stoat, reported for a create that landed,
  // or a 429 once too often.
  predicate GivesUp(s: World, st: Step) {
    && (st.Fails? || st.Loses? || st.Throttled?) && Holds(s.flow, st.w) && StageOf(s.flow, st.w).Written?
    && (st.Throttled? ==> StageOf(s.flow, st.w).attempt >= MAX_REMOTE_RETRIES)
  }

  /** Any such error leaves exactly the row of the intent behind, and the op is done with. */
  lemma {:induction false} FailureLeavesIntent(cfg: Settings, s: World, st: Step)
    requires WorldInv(s) && CanStep(cfg, s, st) && GivesUp(s, st)
    requires !OpIn(s.flow, st.w).key.kind.MessageEntity?
    ensures var row := Lookup(Next(s, st).tables, OpIn(s.flow, st.w).key);
      row.Found? && row.status.Pending? && row.state == StateOf(OpIn(s.flow, st.w))
    ensures MoveOf(s, st) == Finishing(st.w)
  {
    assert StageFits(OpIn(s.flow, st.w), StageOf(s.flow, st.w), RowOf(s, st.w));
  }

  /** Diff compares against that row, state that never arrived on Stoat: an op that meets the record of
      an earlier one is finished without a remote call exactly if the two have one Stoat shape, and goes
      on to write its own intent if not. Either way it leaves row, entities and waiters as they were. */
  lemma {:induction false} FailedUpdateNotRepaired(cfg: Settings, s: World, st: Step, failed: Op)
    requires WorldInv(s) && CanStep(cfg, s, st) && st.Decide? && !OpIn(s.flow, st.w).kind.OpDelete?
    requires Built(failed) && !failed.kind.OpDelete? && failed.key == OpIn(s.flow, st.w).key
    requires RowOf(s, st.w).Found? && RowOf(s, st.w).state == StateOf(failed)
    ensures MoveOf(s, st) == if SameOnStoat(OpIn(s.flow, st.w).desired, failed.desired) then Finishing(st.w)
      else Advancing(st.w, Intend)
    ensures Next(s, st).tables == s.tables && Next(s, st).remote == s.remote
    ensures forall k :: WaitersOf(Next(s, st).flow, k) == WaitersOf(s.flow, k)
  {
    assert Built(OpIn(s.flow, st.w));
    DiffAgainstRecord(OpIn(s.flow, st.w).desired, failed);
    forall k ensures WaitersOf(Next(s, st).flow, k) == WaitersOf(s.flow, k) {
      MovedWaiters(s.flow, MoveOf(s, st), k);
    }
  }

  // No step of the run writes, confirms or removes k's row.
  ghost predicate RowLeftAlone(cfg: Settings, s: World, steps: seq<Step>, k: Key)
    requires Legal(cfg, s, steps)
    decreases |steps|
  {
    steps == [] ||
    (&& ((steps[0].WriteIntent? || steps[0].ConfirmRow? || steps[0].EraseRow?) ==> OpIn(s.flow, steps[0].w).key != k)
     && RowLeftAlone(cfg, Next(s, steps[0]), steps[1..], k))
  }

  lemma {:induction false} RowStays(cfg: Settings, s: World, steps: seq<Step>, k: Key)
    requires Legal(cfg, s, steps) && RowLeftAlone(cfg, s, steps, k)
    ensures Lookup(End(cfg, s, steps).tables, k) == Lookup(s.tables, k)
    decreases |steps|
  {
    if steps != [] {
      if steps[0].WriteIntent? || steps[0].ConfirmRow? || steps[0].EraseRow? {
        TablesFrame(s, steps[0], k);
      }
      RowStays(cfg, Next(s, steps[0]), steps[1..], k);
    }
  }

  /** Over a run: after an op's create or edit ended in an error, lost creates included, the next op on its
      key to be decided is dropped, with the row still pending and no remote call, exactly if it asks for
      the shape that failed. */
  lemma {:induction false} ResubmissionDroppedIff(cfg: Settings, s: World, fails: Step, steps: seq<Step>, st: Step)
    requires WorldInv(s) && CanStep(cfg, s, fails) && GivesUp(s, fails)
    requires !OpIn(s.flow, fails.w).key.kind.MessageEntity?
    requires Legal(cfg, Next(s, fails), steps) && RowLeftAlone(cfg, Next(s, fails), steps, OpIn(s.flow, fails.w).key)
    requires var e := End(cfg, Next(s, fails), steps);
      && CanStep(cfg, e, st) && st.Decide? && !OpIn(e.flow, st.w).kind.OpDelete?
      && OpIn(e.flow, st.w).key == OpIn(s.flow, fails.w).key
    ensures var e, failed := End(cfg, Next(s, fails), steps), OpIn(s.flow, fails.w);
      && RowOf(e, st.w).Found? && RowOf(e, st.w).status.Pending? && Next(e, st).tables == e.tables
      && (MoveOf(e, st) == Finishing(st.w) <==> SameOnStoat(OpIn(e.flow, st.w).desired, failed.desired))
  {
    var failed := OpIn(s.flow, fails.w);
    StepKeepsInv(cfg, s, fails);
    RunKeepsInv(cfg, Next(s, fails), steps);
    FailureLeavesIntent(cfg, s, fails);
    RowStays(cfg, Next(s, fails), steps, failed.key);
    assert StageFits(failed, StageOf(s.flow, fails.w), RowOf(s, fails.w)) && Built(failed);
    FailedUpdateNotRepaired(cfg, End(cfg, Next(s, fails), steps), st, failed);
  }
}
