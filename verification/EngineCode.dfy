/** The engine's code, statement by statement, over the store object. What one worker does with one op
    when it is left alone is a run of the step machine. */
module EngineCode {
  import opened Types
  import opened Store
  import opened Flow
  import opened Gateway
  import opened Engine
  import opened EngineRuns
  import opened EngineOrder

  // What one remote call comes back with.
  datatype Reply =
    | TooManyRequests
    | Failure(partial: Option<Entity>)
    | LostCreate(id: Id, after: Entity)
    | Success(id: Id, after: Entity)

  ghost predicate AllLimited(replies: seq<Reply>) {
    forall i | 0 <= i < |replies| :: replies[i].TooManyRequests?
  }

  // w retries op: after this many answers, all of them 429.
  ghost predicate Retrying(f: Flow, w: Key, op: Op, deleting: bool, attempt: nat) {
    if attempt <= MAX_REMOTE_RETRIES then
      && Holds(f, w) && OpIn(f, w) == op && StageOf(f, w) == if deleting then Removing(attempt) else Written(attempt)
    else HandOf(f, w).Idle?
  }

  // A call of op has succeeded.
  ghost predicate Landed(f: Flow, w: Key, op: Op, deleting: bool) {
    && Holds(f, w) && OpIn(f, w) == op
    && (if deleting then StageOf(f, w).Gone? else StageOf(f, w).Applied?)
    && (StageOf(f, w).Applied? && IsMirrored(op.key.kind) ==> StageOf(f, w).id != NO_ID)
  }

  // What ends the loop: a success, an error that is not a 429, or the sixth 429.
  ghost predicate Answered(replies: seq<Reply>, ok: bool) {
    && 1 <= |replies| <= 6 && AllLimited(replies[..|replies| - 1])
    && (ok <==> replies[|replies| - 1].Success?)
    && (replies[|replies| - 1].TooManyRequests? ==> |replies| == 6)
  }

  lemma {:induction false} OneMoreAnswer(replies: seq<Reply>, reply: Reply)
    requires |replies| <= 5 && AllLimited(replies)
    ensures !reply.TooManyRequests? || |replies| == 5 ==> Answered(replies + [reply], reply.Success?)
    ensures reply.TooManyRequests? ==> AllLimited(replies + [reply])
  {
    assert (replies + [reply])[..|replies|] == replies;
  }

  function ReplyStep(w: Key, r: Reply): Step {
    match r
    case TooManyRequests => Throttled(w)
    case Failure(partial) => Fails(w, partial)
    case LostCreate(id, after) => Loses(w, id, after)
    case Success(id, after) => Succeeds(w, id, after)
  }

  // Stoat answers every call in a way the machine allows.
  ghost predicate Honest(cfg: Settings, stoat: (World, Key) -> Reply) {
    forall s: World, w: Key {:trigger stoat(s, w)} | Holds(s.flow, w) && CallingRemote(StageOf(s.flow, w)) ::
      Enabled(cfg, s, ReplyStep(w, stoat(s, w)))
  }

  // run leads from s to s'.
  ghost predicate Runs(cfg: Settings, s: World, run: seq<Step>, s': World) {
    Legal(cfg, s, run) && End(cfg, s, run) == s'
  }

  lemma {:induction false} OneStep(cfg: Settings, s: World, st: Step)
    requires Enabled(cfg, s, st) && |s.flow.place| == |s.flow.ops|
    ensures CanStep(cfg, s, st) && Runs(cfg, s, [st], Next(s, st))
  {
    MoveIsAllowed(cfg, s, st);
    assert Legal(cfg, Next(s, st), [st][1..]);
  }

  lemma {:induction false} Then(cfg: Settings, s: World, a: seq<Step>, s': World, b: seq<Step>, s'': World)
    requires Runs(cfg, s, a, s') && Runs(cfg, s', b, s'')
    ensures Runs(cfg, s, a + b, s'')
    decreases |a|
  {
    if a == [] {
      assert a + b == b;
    } else {
      assert a + b != [] && (a + b)[0] == a[0] && (a + b)[1..] == a[1..] + b;
      Then(cfg, Next(s, a[0]), a[1..], s', b, s'');
    }
  }

  // Where a reply leaves the op in hand.
  function AfterReply(f: Flow, w: Key, r: Reply): Flow
    requires Holds(f, w) && |f.place| == |f.ops| && CallingRemote(StageOf(f, w))
  {
    var stage := StageOf(f, w);
    match r
    case TooManyRequests =>
      if stage.attempt >= MAX_REMOTE_RETRIES then Finish(f, w)
      else Advance(f, w, if stage.Written? then Written(stage.attempt + 1) else Removing(stage.attempt + 1))
    case Failure(_) => Finish(f, w)
    case LostCreate(_, _) => Finish(f, w)
    case Success(id, _) => Advance(f, w, if stage.Removing? then Gone else Applied(id))
  }

  lemma {:induction false} ReplyIs(s: World, w: Key, r: Reply)
    requires Holds(s.flow, w) && |s.flow.place| == |s.flow.ops| && CallingRemote(StageOf(s.flow, w))
    requires MoveAllowed(s.flow, MoveOf(s, ReplyStep(w, r)))
    ensures Next(s, ReplyStep(w, r)).flow == AfterReply(s.flow, w, r)
    ensures TablesAfter(s, ReplyStep(w, r)) == s.tables
  {}

  lemma {:induction false} ReplyFrame(f: Flow, w: Key, r: Reply)
    requires Holds(f, w) && |f.place| == |f.ops| && CallingRemote(StageOf(f, w))
    ensures AfterReply(f, w, r).ops == f.ops && AfterReply(f, w, r).waiters == f.waiters
    ensures |AfterReply(f, w, r).place| == |f.ops|
  {}

  /* What process does to the store, field by field */

  ghost predicate OnlyRow(t: Tables, k: Key, t': Tables) {
    forall j | j != k :: Lookup(t', j) == Lookup(t, j)
  }

  // landed: the call succeeded. A channel row that message rows refer to is kept even then.
  ghost predicate Deleted(t: Tables, k: Key, landed: bool, t': Tables) {
    if !landed || (k.kind.ChannelEntity? && Lookup(t, k).Found? && exists m ::
                   m in t.messages && t.messages[m].channelID == k.id)
    then t' == t
    else Lookup(t', k).Absent? && OnlyRow(t, k, t')
  }

  // A message without a row whose channel has none: the store refuses the intent.
  ghost predicate IntentRefused(t: Tables, op: Op) {
    && op.key.kind.MessageEntity? && Lookup(t, op.key).Absent?
    && Lookup(t, Key(ChannelEntity, PayloadChannel(StateOf(op)))).Absent?
  }

  // The row holds the op's state: active after a success, otherwise as pending as its table can say, with
  // the id it had.
  ghost predicate WrittenOut(t: Tables, op: Op, landed: bool, t': Tables) {
    if IntentRefused(t, op) then !landed && t' == t
    else
      var row, row' := Lookup(t, op.key), Lookup(t', op.key);
      && row'.Found? && row'.state == StateOf(op) && OnlyRow(t, op.key, t')
      && (landed ==> row'.status == Active)
      && (!landed ==>
            && row'.stoatID == (if row.Found? then row.stoatID else NO_ID)
            && (row'.status == Pending || (op.key.kind.MessageEntity? && row'.stoatID != NO_ID)))
  }

  // What process leaves behind, given the engine's health.
  ghost predicate Processed(cfg: Settings, healthy: bool, op: Op, landed: bool, s: World, s': World) {
    if !healthy then
      && s'.backlog == s.backlog + [QueuedOp(op.key.kind, op.kind, StateOf(op))]
      && s'.tables == s.tables && s'.remote == s.remote
    else
      && s'.backlog == s.backlog
      && (if cfg.dryRun then s'.tables == s.tables && s'.remote == s.remote
          else if op.kind.OpDelete? then Deleted(s.tables, op.key, landed, s'.tables)
          else if Lookup(s.tables, op.key).Found? && DiffEqual(op.desired, Lookup(s.tables, op.key).state) then
            s'.tables == s.tables && s'.remote == s.remote
          else WrittenOut(s.tables, op, landed, s'.tables))
  }

  lemma {:induction false} IntentThenFailure(t: Tables, op: Op)
    ensures IntentRefused(t, op) <==> WithIntent(t, op.key, StateOf(op)).Err?
    ensures WithIntent(t, op.key, StateOf(op)).Ok? ==>
      WrittenOut(t, op, false, WithIntent(t, op.key, StateOf(op)).value)
  {}

  lemma {:induction false} IntentThenConfirm(t: Tables, op: Op, id: Id)
    requires WithIntent(t, op.key, StateOf(op)).Ok? && (op.key.kind.MessageEntity? ==> id != NO_ID)
    ensures WrittenOut(t, op, true, WithConfirm(WithIntent(t, op.key, StateOf(op)).value, op.key, id))
  {}

  lemma {:induction false} RemovalDeletes(t: Tables, k: Key)
    ensures Deleted(t, k, true, match WithRemoval(t, k) case Ok(t') => t' case Err => t)
  {}

  // Each worker's queue has grown by its own ops among the sent, in order.
  ghost predicate SentTo(f: Flow, g: Flow, sent: seq<nat>) {
    g.ops == f.ops && forall v :: QueueOf(g, v) == QueueOf(f, v) + OfWorker(f.ops, sent, v)
  }

  lemma {:induction false} OneMoreSent(f: Flow, g: Flow, h: Flow, sent: seq<nat>, i: nat)
    requires SentTo(f, g, sent) && SentTo(g, h, [i])
    ensures SentTo(f, h, sent + [i])
  {
    forall v ensures QueueOf(h, v) == QueueOf(f, v) + OfWorker(f.ops, sent + [i], v) {
      OneMoreOf(f.ops, sent, i, v);
      assert QueueOf(h, v) == (QueueOf(f, v) + OfWorker(f.ops, sent, v)) + OfWorker(f.ops, [i], v);
    }
  }

  lemma {:induction false} OneMoreOf(ops: seq<Op>, sent: seq<nat>, i: nat, v: Key)
    ensures OfWorker(ops, sent + [i], v) == OfWorker(ops, sent, v) + OfWorker(ops, [i], v)
  {
    OfWorkerAppend(ops, sent, i, v);
    OfWorkerAppend(ops, [], i, v);
    assert [] + [i] == [i];
  }

  lemma {:induction false} SentBetween(f: Flow, f': Flow, g: Flow, g': Flow, sent: seq<nat>)
    requires SentTo(f', g, sent) && f'.ops == f.ops && f'.queues == f.queues && g'.ops == g.ops && g'.queues == g.queues
    ensures SentTo(f, g', sent)
  {
    assert forall v :: QueueOf(f, v) == QueueOf(f', v) && QueueOf(g', v) == QueueOf(g, v);
  }

  lemma {:induction false} FirstAndRest(sent: seq<nat>, rest: seq<nat>)
    requires rest != []
    ensures rest[0] in rest && (forall i | i in rest[1..] :: i in rest)
    ensures sent + rest == (sent + [rest[0]]) + rest[1..]
  {}

  // Everybody who waits was submitted.
  ghost predicate Known(f: Flow) {
    |f.place| == |f.ops| && forall k, i | k in f.waiters && i in f.waiters[k] :: i < |f.ops|
  }

  /** ops, queues, waiters and counter are the engine's own; hands says how far each worker's call of
      tryRun has come and submitting who is blocked in Submit; place, issued and creator are history. */
  class OpEngine {
    const cfg: Settings
    const db: Database
    var ops: seq<Op>
    var submitting: seq<nat>
    var queues: map<Key, seq<nat>>
    var hands: map<Key, Hand>
    var waiters: map<Key, seq<nat>>
    var counter: int
    var place: seq<Place>
    var remote: Remote
    var issued: set<Id>
    var creator: map<Id, Key>

    constructor (cfg: Settings, db: Database, remote: Remote, issued: set<Id>)
      ensures this.cfg == cfg && this.db == db
      ensures State() == World(NO_FLOW, db.Contents(), remote, db.queue, issued, map[])
    {
      this.cfg, this.db, this.remote, this.issued, creator := cfg, db, remote, issued, map[];
      ops, submitting, queues, hands, waiters, counter, place := [], [], map[], map[], map[], 0, [];
    }

    function Now(): Flow
      reads this
    {
      Flow(ops, submitting, queues, hands, waiters, counter, place)
    }

    function State(): World
      reads this, db
    {
      World(Now(), db.Contents(), remote, db.queue, issued, creator)
    }

    /* The updates of the engine's fields */

    // wg.Add(1), with the op about to be sent.
    method Admit(op: Op)
      modifies this`ops, this`submitting, this`counter, this`place
      ensures Now() == Enter(old(Now()), op)
    {
      place := place + [Submitting];
      submitting := submitting + [|ops|];
      ops := ops + [op];
      counter := counter + 1;
    }

    // The send into a worker's queue.
    method PutInQueue(i: nat)
      requires i < |ops| == |place|
      modifies this`queues, this`place
      ensures Now() == Enqueued(old(Now()), WorkerOf(ops[i]), i)
    {
      var w := WorkerOf(ops[i]);
      var queue := if w in queues then queues[w] else [];
      queues := queues[w := queue + [i]];
      place := place[i := Queued(w)];
    }

    method SendLast()
      requires submitting != [] && submitting[|submitting| - 1] < |ops| == |place|
      modifies this`submitting, this`queues, this`place
      ensures Now() == Send(old(Now()), |old(submitting)| - 1)
    {
      var n := |submitting| - 1;
      var i := submitting[n];
      assert submitting[..n] + submitting[n + 1..] == submitting[..n];
      submitting := submitting[..n];
      PutInQueue(i);
    }

    method SetStage(w: Key, stage: Stage)
      requires HandOf(Now(), w).Busy?
      modifies this`hands
      ensures Now() == Advance(old(Now()), w, stage)
    {
      hands := hands[w := Busy(hands[w].ticket, stage)];
    }

    // wg.Done(); the worker turns to its queue.
    method Done(w: Key)
      requires Holds(Now(), w) && |place| == |ops|
      modifies this`hands, this`counter, this`place
      ensures Now() == Finish(old(Now()), w)
    {
      place := place[hands[w].ticket := Finished];
      counter := counter - 1;
      hands := hands[w := Idle];
    }

    // deferOp's critical section.
    method DeferOp(w: Key, k: Key)
      requires Holds(Now(), w) && |place| == |ops|
      modifies this`hands, this`waiters, this`place
      ensures Now() == Park(old(Now()), w, k)
    {
      var i := hands[w].ticket;
      var waiting := if k in waiters then waiters[k] else [];
      waiters := waiters[k := waiting + [i]];
      place := place[i := Parked(k)];
      hands := hands[w := Idle];
    }

    // notifyWaiters' critical section.
    method TakeWaiters(w: Key, k: Key)
      requires HandOf(Now(), w).Busy?
      modifies this`hands, this`waiters, this`place
      ensures Now() == Collect(old(Now()), w, k)
    {
      var waiting := if k in waiters then waiters[k] else [];
      waiters := waiters - {k};
      hands := hands[w := Busy(hands[w].ticket, Resending(waiting))];
      place := seq(|place|,
                   i requires 0 <= i < |place| reads this => if place[i] == Parked(k) then Resent(w) else place[i]);
    }

    method SendAgain(w: Key)
      requires Holds(Now(), w) && StageOf(Now(), w).Resending? && StageOf(Now(), w).rest != []
      requires StageOf(Now(), w).rest[0] < |ops| == |place|
      modifies this`hands, this`queues, this`place
      ensures Now() == Resend(old(Now()), w)
    {
      var rest := hands[w].stage.rest;
      SetStage(w, Resending(rest[1..]));
      PutInQueue(rest[0]);
    }

    /* What the workers do */

    ghost predicate AtStage(w: Key, stage: Stage)
      reads this
    {
      Holds(Now(), w) && StageOf(Now(), w) == stage
    }

    method Submit(op: Op) returns (ghost run: seq<Step>)
      requires Known(Now()) && Built(op) && SameWorker(Now().ops, op)
      modifies this
      ensures Runs(cfg, old(State()), run, State())
      ensures Now().ops == old(Now().ops) + [op]
      ensures QueueOf(Now(), WorkerOf(op)) == old(QueueOf(Now(), WorkerOf(op))) + [|old(Now().ops)|]
    {
      ghost var s := State();
      OneStep(cfg, s, SubmitOp(op));
      Admit(op);
      ghost var entered := State();
      assert entered.flow.submitting[|entered.flow.submitting| - 1] == |s.flow.ops|;
      ghost var sent := SendNewest();
      Then(cfg, s, [SubmitOp(op)], entered, sent, State());
      run := [SubmitOp(op)] + sent;
    }

    method SendNewest() returns (ghost run: seq<Step>)
      requires submitting != [] && submitting[|submitting| - 1] < |ops| == |place|
      modifies this`submitting, this`queues, this`place
      ensures Runs(cfg, old(State()), run, State())
      ensures var w := WorkerOf(ops[old(submitting[|submitting| - 1])]);
        QueueOf(Now(), w) == old(QueueOf(Now(), w)) + [old(submitting[|submitting| - 1])]
    {
      var n := |submitting| - 1;
      OneStep(cfg, State(), SendOp(n));
      SendLast();
      run := [SendOp(n)];
    }

    method FirstUnmetDependency(deps: seq<Key>) returns (unmet: Option<Key>)
      ensures unmet == FirstUnmet(db.Contents(), deps)
    {
      for i := 0 to |deps|
        invariant FirstUnmet(db.Contents(), deps) == FirstUnmet(db.Contents(), deps[i..])
      {
        var m := db.Get(deps[i]);
        if !IsActive(m) {
          return Some(deps[i]);
        }
        assert deps[i..][1..] == deps[i + 1..];
      }
      unmet := None;
    }

    method Refused(w: Key)
      requires AtStage(w, Ready) && Known(Now())
      modifies this, db
      ensures CanStep(cfg, old(State()), Refuse(w)) && State() == Next(old(State()), Refuse(w))
      ensures HandOf(Now(), w).Idle?
    {
      var op := OpIn(Now(), w);
      db.Enqueue(QueuedOp(op.key.kind, op.kind, StateOf(op)));
      Done(w);
    }

    // runRemote's reaction: five retries of a 429, then the op is given up, as after any other error.
    method React(w: Key, reply: Reply)
      requires Holds(Now(), w) && |place| == |ops| && CallingRemote(StageOf(Now(), w))
      modifies this`hands, this`counter, this`place
      ensures Now() == AfterReply(old(Now()), w, reply)
    {
      var stage := hands[w].stage;
      match reply {
        case TooManyRequests =>
          if stage.attempt >= MAX_REMOTE_RETRIES {
            Done(w);
          } else if stage.Written? {
            SetStage(w, Written(stage.attempt + 1));
          } else {
            SetStage(w, Removing(stage.attempt + 1));
          }
        case Failure(_) => Done(w);
        case LostCreate(_, _) => Done(w);
        case Success(id, _) => SetStage(w, if stage.Removing? then Gone else Applied(id));
      }
    }

    // One call; what it does to Stoat is the machine's business.
    method Call(w: Key, reply: Reply) returns (ghost run: seq<Step>)
      requires Known(Now()) && Holds(Now(), w) && CallingRemote(StageOf(Now(), w))
      requires Enabled(cfg, State(), ReplyStep(w, reply))
      modifies this
      ensures |run| == 1 && Runs(cfg, old(State()), run, State()) && Known(Now())
      ensures Now() == AfterReply(old(Now()), w, reply)
    {
      ghost var st, before := ReplyStep(w, reply), State();
      OneStep(cfg, before, st);
      ReplyIs(before, w, reply);
      ReplyFrame(before.flow, w, reply);
      var s := Next(State(), ReplyStep(w, reply));
      remote, issued, creator := s.remote, s.issued, s.creator;
      React(w, reply);
      run := [st];
      assert State() == Next(before, st);
    }

    // One attempt of the loop, added to the run so far.
    method Attempt(w: Key, stoat: (World, Key) -> Reply, ghost s: World, ghost run: seq<Step>)
      returns (reply: Reply, ghost run': seq<Step>)
      requires Known(Now()) && Holds(Now(), w) && CallingRemote(StageOf(Now(), w)) && Honest(cfg, stoat)
      requires Runs(cfg, s, run, State())
      modifies this
      ensures |run'| == |run| + 1 && Runs(cfg, s, run', State()) && Known(Now())
      ensures reply.Success? ==>
        Holds(Now(), w) && (if old(StageOf(Now(), w)).Removing? then StageOf(Now(), w).Gone?
                            else StageOf(Now(), w).Applied?)
      ensures reply.Success? && old(StageOf(Now(), w)).Written? && IsMirrored(old(OpIn(Now(), w)).key.kind) ==>
        StageOf(Now(), w).id != NO_ID
      ensures Now().ops == old(Now().ops) && (Holds(Now(), w) ==> OpIn(Now(), w) == old(OpIn(Now(), w)))
      ensures reply.Failure? || reply.LostCreate? ==> HandOf(Now(), w).Idle?
      ensures reply.TooManyRequests? ==>
        var stage := old(StageOf(Now(), w));
        if stage.attempt >= MAX_REMOTE_RETRIES then HandOf(Now(), w).Idle?
        else AtStage(w, if stage.Written? then Written(stage.attempt + 1) else Removing(stage.attempt + 1))
    {
      ghost var before := State();
      reply := stoat(State(), w);
      ghost var call := Call(w, reply);
      Then(cfg, s, run, before, call, State());
      run' := run + call;
    }

    // One round of the loop, with its place in it.
    method Round(w: Key, stoat: (World, Key) -> Reply, ghost op: Op, ghost deleting: bool, attempt: nat, ghost s: World,
                 ghost run: seq<Step>)
      returns (reply: Reply, ghost run': seq<Step>)
      requires Known(Now()) && Honest(cfg, stoat) && Runs(cfg, s, run, State())
      requires attempt <= MAX_REMOTE_RETRIES && Retrying(Now(), w, op, deleting, attempt)
      modifies this
      ensures |run'| == |run| + 1 && Runs(cfg, s, run', State()) && Known(Now())
      ensures match reply
              case Success(_, _) => Landed(Now(), w, op, deleting)
              case TooManyRequests => Retrying(Now(), w, op, deleting, attempt + 1)
              case _ => HandOf(Now(), w).Idle?
    {
      reply, run' := Attempt(w, stoat, s, run);
    }

    /** runRemote: only a 429 is retried, and six of them end it. */
    method RunRemote(w: Key, stoat: (World, Key) -> Reply)
      returns (ok: bool, ghost replies: seq<Reply>, ghost run: seq<Step>)
      requires Known(Now()) && (AtStage(w, Written(0)) || AtStage(w, Removing(0))) && Honest(cfg, stoat)
      modifies this
      ensures Runs(cfg, old(State()), run, State()) && |run| == |replies| && Answered(replies, ok)
      ensures Known(Now()) && (!ok ==> HandOf(Now(), w).Idle?)
      ensures ok ==> Landed(Now(), w, old(OpIn(Now(), w)), old(AtStage(w, Removing(0))))
    {
      ok, replies, run := false, [], [];
      ghost var s, op, deleting := State(), OpIn(Now(), w), AtStage(w, Removing(0));
      for attempt := 0 to MAX_REMOTE_RETRIES + 1
        invariant |replies| == |run| == attempt && Runs(cfg, s, run, State()) && Known(Now())
        invariant !ok && AllLimited(replies) && (attempt > MAX_REMOTE_RETRIES ==> Answered(replies, false))
        invariant Retrying(Now(), w, op, deleting, attempt)
      {
        var reply;
        reply, run := Round(w, stoat, op, deleting, attempt, s, run);
        OneMoreAnswer(replies, reply);
        replies := replies + [reply];
        ok := reply.Success?;
        if !reply.TooManyRequests? {
          break;
        }
      }
    }

    // One send of notifyWaiters' loop.
    method ResendFirst(w: Key) returns (ghost run: seq<Step>)
      requires Holds(Now(), w) && StageOf(Now(), w).Resending? && StageOf(Now(), w).rest != []
      requires |Now().place| == |Now().ops| && StageOf(Now(), w).rest[0] < |Now().ops|
      modifies this`hands, this`queues, this`place
      ensures Runs(cfg, old(State()), run, State()) && |Now().place| == |Now().ops|
      ensures AtStage(w, Resending(old(StageOf(Now(), w).rest)[1..]))
      ensures forall v ::
        QueueOf(Now(), v) == old(QueueOf(Now(), v)) + OfWorker(ops, [old(StageOf(Now(), w).rest)[0]], v)
    {
      ghost var i := StageOf(Now(), w).rest[0];
      forall v ensures OfWorker(ops, [i], v) == if WorkerOf(ops[i]) == v then [i] else [] {
        OfWorkerAppend(ops, [], i, v);
        assert [] + [i] == [i];
      }
      OneStep(cfg, State(), ResendOne(w));
      SendAgain(w);
      run := [ResendOne(w)];
    }

    // One round of the loop, added to the run so far.
    method ResendNext(w: Key, ghost s: World, ghost run: seq<Step>, ghost f: Flow, ghost sent: seq<nat>)
      returns (ghost run': seq<Step>)
      requires Holds(Now(), w) && StageOf(Now(), w).Resending? && StageOf(Now(), w).rest != []
      requires |Now().place| == |Now().ops| && StageOf(Now(), w).rest[0] < |Now().ops|
      requires Runs(cfg, s, run, State()) && SentTo(f, Now(), sent)
      modifies this`hands, this`queues, this`place
      ensures Runs(cfg, s, run', State()) && |Now().place| == |Now().ops|
      ensures AtStage(w, Resending(old(StageOf(Now(), w).rest)[1..]))
      ensures SentTo(f, Now(), sent + [old(StageOf(Now(), w).rest)[0]])
    {
      ghost var before, i := State(), StageOf(Now(), w).rest[0];
      ghost var one := ResendFirst(w);
      Then(cfg, s, run, before, one, State());
      OneMoreSent(f, before.flow, Now(), sent, i);
      run' := run + one;
    }

    // The loop, after the critical section.
    method ResendAll(w: Key, ghost s: World, ghost run: seq<Step>) returns (ghost run': seq<Step>)
      requires Holds(Now(), w) && StageOf(Now(), w).Resending? && |Now().place| == |Now().ops|
      requires forall i | i in StageOf(Now(), w).rest :: i < |Now().ops|
      requires Runs(cfg, s, run, State())
      modifies this`hands, this`queues, this`place
      ensures Runs(cfg, s, run', State()) && |Now().place| == |Now().ops|
      ensures AtStage(w, Resending([])) && SentTo(old(Now()), Now(), old(StageOf(Now(), w)).rest)
    {
      ghost var f, waited, sent := Now(), StageOf(Now(), w).rest, [];
      run' := run;
      while StageOf(Now(), w).rest != []
        invariant Runs(cfg, s, run', State()) && |Now().place| == |Now().ops|
        invariant Holds(Now(), w) && StageOf(Now(), w).Resending? && waited == sent + StageOf(Now(), w).rest
        invariant forall i | i in StageOf(Now(), w).rest :: i < |Now().ops|
        invariant SentTo(f, Now(), sent)
        decreases |StageOf(Now(), w).rest|
      {
        ghost var rest := StageOf(Now(), w).rest;
        FirstAndRest(sent, rest);
        run' := ResendNext(w, s, run', f, sent);
        sent := sent + [rest[0]];
      }
      assert sent + [] == sent;
    }

    /** Takes the whole waiters list of the key and sends each op to its own worker, in the order in which they were
        parked; then the op is done. */
    method NotifyWaiters(w: Key) returns (ghost run: seq<Step>)
      requires Known(Now()) && AtStage(w, Confirmed)
      modifies this`hands, this`queues, this`waiters, this`counter, this`place
      ensures Runs(cfg, old(State()), run, State()) && HandOf(Now(), w).Idle?
      ensures WaitersOf(Now(), old(OpIn(Now(), w)).key) == []
      ensures forall j | j != old(OpIn(Now(), w)).key :: WaitersOf(Now(), j) == old(WaitersOf(Now(), j))
      ensures SentTo(old(Now()), Now(), old(WaitersOf(Now(), OpIn(Now(), w).key)))
      ensures counter == old(counter) - 1
    {
      ghost var s, waited := State(), WaitersOf(Now(), OpIn(Now(), w).key);
      run := CollectAll(w);
      ghost var collected := Now();
      run := ResendAll(w, s, run);
      ghost var resent := Now();
      run := AllSent(w, s, run);
      SentBetween(s.flow, collected, resent, Now(), waited);
    }

    method AllSent(w: Key, ghost s: World, ghost run: seq<Step>) returns (ghost run': seq<Step>)
      requires AtStage(w, Resending([])) && |Now().place| == |Now().ops| && Runs(cfg, s, run, State())
      modifies this`hands, this`counter, this`place
      ensures Runs(cfg, s, run', State()) && HandOf(Now(), w).Idle? && counter == old(counter) - 1
    {
      ghost var before := State();
      OneStep(cfg, before, ResendOne(w));
      Done(w);
      Then(cfg, s, run, before, [ResendOne(w)], State());
      run' := run + [ResendOne(w)];
    }

    // The critical section of notifyWaiters.
    method CollectAll(w: Key) returns (ghost run: seq<Step>)
      requires Known(Now()) && AtStage(w, Confirmed)
      modifies this`hands, this`waiters, this`place
      ensures Runs(cfg, old(State()), run, State()) && |Now().place| == |Now().ops|
      ensures Holds(Now(), w) && StageOf(Now(), w).Resending?
      ensures forall i | i in StageOf(Now(), w).rest :: i < |Now().ops|
      ensures StageOf(Now(), w).rest == old(WaitersOf(Now(), OpIn(Now(), w).key))
      ensures WaitersOf(Now(), old(OpIn(Now(), w).key)) == []
      ensures forall j | j != old(OpIn(Now(), w)).key :: WaitersOf(Now(), j) == old(WaitersOf(Now(), j))
    {
      OneStep(cfg, State(), CollectWaiters(w));
      TakeWaiters(w, OpIn(Now(), w).key);
      run := [CollectWaiters(w)];
    }

    method ProcessDelete(w: Key, stoat: (World, Key) -> Reply) returns (ghost landed: bool, ghost run: seq<Step>)
      requires Known(Now()) && AtStage(w, Removing(0)) && Honest(cfg, stoat)
      modifies this, db
      ensures Runs(cfg, old(State()), run, State()) && HandOf(Now(), w).Idle?
      ensures db.queue == old(db.queue)
      ensures Deleted(old(db.Contents()), old(OpIn(Now(), w)).key, landed, db.Contents())
    {
      ghost var t, k := db.Contents(), OpIn(Now(), w).key;
      var ok;
      ghost var replies;
      ok, replies, run := RunRemote(w, stoat);
      landed := ok;
      if !ok {
        return;
      }
      run := EraseMapping(w, old(State()), run);
      RemovalDeletes(t, k);
    }

    // What follows a successful delete.
    method EraseMapping(w: Key, ghost s: World, ghost run: seq<Step>) returns (ghost run': seq<Step>)
      requires Holds(Now(), w) && StageOf(Now(), w).Gone? && |place| == |ops| && Runs(cfg, s, run, State())
      modifies this`hands, this`counter, this`place, db`rows, db`messages
      ensures Runs(cfg, s, run', State()) && HandOf(Now(), w).Idle?
      ensures db.Contents() ==
        match WithRemoval(old(db.Contents()), old(OpIn(Now(), w)).key) case Ok(t) => t case Err => old(db.Contents())
    {
      ghost var before := State();
      OneStep(cfg, before, EraseRow(w));
      var removed := db.Remove(OpIn(Now(), w).key);
      Done(w);
      Then(cfg, s, run, before, [EraseRow(w)], State());
      run' := run + [EraseRow(w)];
    }

    method ProcessWrite(w: Key, stoat: (World, Key) -> Reply) returns (ghost landed: bool, ghost run: seq<Step>)
      requires Known(Now()) && AtStage(w, Intend) && Honest(cfg, stoat)
      modifies this, db
      ensures Runs(cfg, old(State()), run, State()) && HandOf(Now(), w).Idle?
      ensures db.queue == old(db.queue)
      ensures WrittenOut(old(db.Contents()), old(OpIn(Now(), w)), landed, db.Contents())
    {
      ghost var s, op := State(), OpIn(Now(), w);
      IntentThenFailure(s.tables, op);
      var written;
      written, run := WriteAhead(w);
      landed := false;
      if written {
        ghost var id;
        landed, id, run := CallAndConfirm(w, stoat, s, run);
        if landed {
          IntentThenConfirm(s.tables, op, id);
        }
      }
    }

    // After the intent: the call, and the confirm of the id it answers.
    method CallAndConfirm(w: Key, stoat: (World, Key) -> Reply, ghost s: World, ghost run: seq<Step>)
      returns (ghost landed: bool, ghost id: Id, ghost run': seq<Step>)
      requires Known(Now()) && AtStage(w, Written(0)) && Honest(cfg, stoat) && Runs(cfg, s, run, State())
      modifies this, db
      ensures Runs(cfg, s, run', State()) && HandOf(Now(), w).Idle?
      ensures db.queue == old(db.queue)
      ensures !landed ==> db.Contents() == old(db.Contents())
      ensures landed ==>
        && db.Contents() == WithConfirm(old(db.Contents()), old(OpIn(Now(), w)).key, id)
        && (IsMirrored(old(OpIn(Now(), w)).key.kind) ==> id != NO_ID)
    {
      ghost var before := State();
      var ok;
      ghost var replies, calls;
      ok, replies, calls := RunRemote(w, stoat);
      Then(cfg, s, run, before, calls, State());
      run' := run + calls;
      landed, id := ok, NO_ID;
      if ok {
        id := StageOf(Now(), w).id;
        run' := ConfirmAndNotify(w, s, run');
      }
    }

    // The intent, which only the store can refuse.
    method WriteAhead(w: Key) returns (written: bool, ghost run: seq<Step>)
      requires Known(Now()) && AtStage(w, Intend)
      modifies this`hands, this`counter, this`place, db`rows, db`messages
      ensures Runs(cfg, old(State()), run, State()) && Known(Now())
      ensures var op, t := old(OpIn(Now(), w)), old(db.Contents());
        && written == WithIntent(t, op.key, StateOf(op)).Ok?
        && (if written then
            AtStage(w, Written(0)) && OpIn(Now(), w) == op && Ok(db.Contents()) == WithIntent(t, op.key, StateOf(op))
            else HandOf(Now(), w).Idle? && db.Contents() == t)
    {
      var op := OpIn(Now(), w);
      OneStep(cfg, State(), WriteIntent(w));
      written := db.WritePending(op.key, StateOf(op));
      run := [WriteIntent(w)];
      if written {
        SetStage(w, Written(0));
      } else {
        Done(w);
      }
    }

    method ConfirmAndNotify(w: Key, ghost s: World, ghost run: seq<Step>) returns (ghost run': seq<Step>)
      requires Known(Now()) && Holds(Now(), w) && StageOf(Now(), w).Applied? && Runs(cfg, s, run, State())
      modifies this`hands, this`queues, this`waiters, this`counter, this`place, db`rows, db`messages
      ensures Runs(cfg, s, run', State()) && HandOf(Now(), w).Idle?
      ensures db.Contents() == WithConfirm(old(db.Contents()), old(OpIn(Now(), w)).key, old(StageOf(Now(), w)).id)
    {
      ghost var before := State();
      OneStep(cfg, before, ConfirmRow(w));
      db.Confirm(OpIn(Now(), w).key, StageOf(Now(), w).id);
      SetStage(w, Confirmed);
      ghost var confirmed := State();
      Then(cfg, s, run, before, [ConfirmRow(w)], confirmed);
      ghost var rest := NotifyWaiters(w);
      Then(cfg, s, run + [ConfirmRow(w)], confirmed, rest, State());
      run' := run + [ConfirmRow(w)] + rest;
    }

    // process on a healthy engine outside a dry run: delete, skip or write.
    method Carry(w: Key, stoat: (World, Key) -> Reply) returns (ghost landed: bool, ghost run: seq<Step>)
      requires Known(Now()) && AtStage(w, Ready) && Honest(cfg, stoat) && !cfg.dryRun
      modifies this, db
      ensures Runs(cfg, old(State()), run, State()) && HandOf(Now(), w).Idle?
      ensures db.queue == old(db.queue)
      ensures Processed(cfg, true, old(OpIn(Now(), w)), landed, old(State()), State())
    {
      ghost var s := State();
      landed := false;
      OneStep(cfg, s, Decide(w));
      run := [Decide(w)];
      var op := OpIn(Now(), w);
      if op.kind.OpDelete? {
        SetStage(w, Removing(0));
        ghost var before, rest := State(), [];
        landed, rest := ProcessDelete(w, stoat);
        Then(cfg, s, run, before, rest, State());
        run := run + rest;
        return;
      }
      var mapping := db.Get(op.key);
      if mapping.Found? && DiffEqual(op.desired, mapping.state) {
        Done(w);
        return;
      }
      SetStage(w, Intend);
      ghost var before, rest := State(), [];
      landed, rest := ProcessWrite(w, stoat);
      Then(cfg, s, run, before, rest, State());
      run := run + rest;
    }

    /** process: refuse while unhealthy, rehearse in a dry run, otherwise delete, skip or write. landed tells
        whether a remote call succeeded. */
    method Process(w: Key, healthy: bool, stoat: (World, Key) -> Reply)
      returns (ghost landed: bool, ghost run: seq<Step>)
      requires Known(Now()) && AtStage(w, Ready) && Honest(cfg, stoat)
      modifies this, db
      ensures Runs(cfg, old(State()), run, State()) && HandOf(Now(), w).Idle?
      ensures !healthy ==>
        var op := old(OpIn(Now(), w));
        && db.queue == old(db.queue) + [QueuedOp(op.key.kind, op.kind, StateOf(op))]
        && db.Contents() == old(db.Contents()) && remote == old(remote)
      ensures healthy ==> db.queue == old(db.queue)
      ensures healthy && cfg.dryRun ==> db.Contents() == old(db.Contents()) && remote == old(remote)
      ensures Processed(cfg, healthy, old(OpIn(Now(), w)), landed, old(State()), State())
    {
      ghost var s := State();
      landed := false;
      if !healthy {
        OneStep(cfg, s, Refuse(w));
        Refused(w);
        run := [Refuse(w)];
        return;
      }
      if cfg.dryRun {
        OneStep(cfg, s, Rehearse(w));
        Done(w);
        run := [Rehearse(w)];
        return;
      }
      landed, run := Carry(w, stoat);
    }

    /** tryRun: park on the first unmet dependency and nothing else, or process to the end. */
    method TryRun(w: Key, healthy: bool, stoat: (World, Key) -> Reply)
      returns (parked: bool, ghost landed: bool, ghost run: seq<Step>)
      requires Known(Now()) && AtStage(w, Fresh) && Honest(cfg, stoat)
      modifies this, db
      ensures Runs(cfg, old(State()), run, State()) && HandOf(Now(), w).Idle?
      ensures parked <==> exists k :: k in old(OpIn(Now(), w)).deps && !IsActive(Lookup(old(db.Contents()), k))
      ensures parked ==>
        && db.Contents() == old(db.Contents()) && db.queue == old(db.queue) && remote == old(remote)
        && exists k :: IsFirstUnmet(old(db.Contents()), old(OpIn(Now(), w)).deps, k)
                    && WaitersOf(Now(), k) == old(WaitersOf(Now(), k)) + [old(HandOf(Now(), w)).ticket]
      ensures !parked && !healthy ==>
        var op := old(OpIn(Now(), w));
        && db.queue == old(db.queue) + [QueuedOp(op.key.kind, op.kind, StateOf(op))]
        && db.Contents() == old(db.Contents()) && remote == old(remote)
      ensures healthy ==> db.queue == old(db.queue)
      ensures healthy && cfg.dryRun ==> db.Contents() == old(db.Contents()) && remote == old(remote)
      ensures !parked ==> Processed(cfg, healthy, old(OpIn(Now(), w)), landed, old(State()), State())
    {
      ghost var s := State();
      OneStep(cfg, s, CheckDeps(w));
      run := [CheckDeps(w)];
      FirstUnmetSpec(s.tables, OpIn(Now(), w).deps);
      var unmet := FirstUnmetDependency(OpIn(Now(), w).deps);
      if unmet.Some? {
        DeferOp(w, unmet.value);
        FirstUnmetIsFirst(s.tables, OpIn(s.flow, w).deps);
        assert WaitersOf(Now(), unmet.value) == WaitersOf(s.flow, unmet.value) + [HandOf(s.flow, w).ticket];
        return true, false, run;
      }
      SetStage(w, Ready);
      ghost var before, rest := State(), [];
      landed, rest := Process(w, healthy, stoat);
      Then(cfg, s, run, before, rest, State());
      run := run + rest;
      parked := false;
    }
  }

  /** So every invariant of the machine holds whenever the code is between two ops. */
  lemma {:induction false} CodeKeepsInv(cfg: Settings, s: World, run: seq<Step>, s': World)
    requires WorldInv(s) && Runs(cfg, s, run, s')
    ensures WorldInv(s') && Known(s'.flow)
  {
    RunKeepsInv(cfg, s, run);
    forall k, i | k in s'.flow.waiters && i in s'.flow.waiters[k] ensures i < |s'.flow.ops| {
      assert i in Content(s'.flow, Parked(k));
    }
  }
}
