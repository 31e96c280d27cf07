/** The op engine as an interleaving step machine. Every step touches one shared thing: a queue, the
    waiters index, one row, or one remote call. The only steps coarser than the code are CheckDeps, which
    takes the dependency reads and the parking together (EngineFine takes them apart), and a remote call,
    which includes the row read of applyCreateOrEdit. */
module Engine {
  import opened Types
  import opened Store
  import opened Flow
  import opened Gateway

  const MAX_REMOTE_RETRIES: nat := 5

  // issued and creator are history: every Stoat id handed out, and who each created entity is for.
  datatype World = World(flow: Flow, tables: Tables, remote: Remote, backlog: seq<QueuedOp>,
                         issued: set<Id>, creator: map<Id, Key>)

  /* What the op builders build */

  predicate IsMirrored(kind: EntityType) {
    kind.RoleEntity? || kind.ChannelEntity? || kind.MessageEntity?
  }

  ghost predicate Built(op: Op) {
    && op.key.id != NO_ID && FromDiscord(op.desired)
    && (op.kind.OpDelete? <==> op.desired.Nothing?)
    && (match op.desired
        case Nothing =>
          && op.deps == [] && (IsMirrored(op.key.kind) || op.key.kind.CategoryEntity?)
          && (op.channelID != NO_ID <==> op.key.kind.MessageEntity?)
        case ToRole(r) => op.key == Key(RoleEntity, r.id) && op.deps == [] && op.channelID == NO_ID
        case ToChannel(c) =>
          && op.key == Key(ChannelEntity, c.id) && op.channelID == NO_ID
          && forall k :: k in op.deps <==> k.kind.RoleEntity? && k.id in c.overwrites
        case ToCategory(c) =>
          && op.key == Key(CategoryEntity, c.id) && op.channelID == NO_ID
          && forall k :: k in op.deps <==> k.kind.ChannelEntity? && k.id in c.channelIDs
        case ToMessage(m) =>
          && op.key == Key(MessageEntity, m.id) && op.channelID == m.channelID != NO_ID
          && op.deps == [Key(ChannelEntity, m.channelID)])
  }

  // A message id belongs to one channel, so ops on one key share a worker.
  ghost predicate SameWorker(ops: seq<Op>, op: Op) {
    forall i | 0 <= i < |ops| :: ops[i].key == op.key ==> WorkerOf(ops[i]) == WorkerOf(op)
  }

  function FirstUnmet(t: Tables, deps: seq<Key>): Option<Key> {
    if deps == [] then None
    else if !IsActive(Lookup(t, deps[0])) then Some(deps[0])
    else FirstUnmet(t, deps[1..])
  }

  /* Steps */

  datatype Step =
    | SubmitOp(op: Op)
    | SendOp(n: nat)
    | TakeOp(w: Key)
    | CheckDeps(w: Key)
    | Refuse(w: Key)
    | Rehearse(w: Key)
    | Decide(w: Key)
    | WriteIntent(w: Key)
    | Throttled(w: Key)
    | Fails(w: Key, partial: Option<Entity>)
    | Loses(w: Key, id: Id, after: Entity)
    | Succeeds(w: Key, id: Id, after: Entity)
    | ConfirmRow(w: Key)
    | EraseRow(w: Key)
    | CollectWaiters(w: Key)
    | ResendOne(w: Key)

  predicate CallingRemote(stage: Stage) {
    stage.Written? || stage.Removing?
  }

  function RowOf(s: World, w: Key): Mapping
    requires Holds(s.flow, w)
  {
    Lookup(s.tables, OpIn(s.flow, w).key)
  }

  predicate Unissued(s: World, id: Id) {
    id != NO_ID && id != EVERYONE && id !in s.issued
  }

  // Steps other than the three that hand an op over belong to a worker with an op in hand.
  predicate Addressed(f: Flow, st: Step) {
    st.SubmitOp? || st.SendOp? || st.TakeOp? || Holds(f, st.w)
  }

  // What a step does to the op it is about.
  function MoveOf(s: World, st: Step): Move
    requires Addressed(s.flow, st)
  {
    match st
    case SubmitOp(op) => Entering(op)
    case SendOp(n) => Sending(n)
    case TakeOp(w) => Taking(w)
    case CheckDeps(w) =>
      (match FirstUnmet(s.tables, OpIn(s.flow, w).deps)
       case Some(k) => Parking(w, k)
       case None => Advancing(w, Ready))
    case Decide(w) =>
      var op, row := OpIn(s.flow, w), RowOf(s, w);
      if op.kind.OpDelete? then Advancing(w, Removing(0))
      else if row.Found? && DiffEqual(op.desired, row.state) then Finishing(w)
      else Advancing(w, Intend)
    case WriteIntent(w) =>
      var op := OpIn(s.flow, w);
      if WithIntent(s.tables, op.key, StateOf(op)).Ok? then Advancing(w, Written(0)) else Finishing(w)
    case Throttled(w) =>
      (match StageOf(s.flow, w)
       case Written(n) => if n < MAX_REMOTE_RETRIES then Advancing(w, Written(n + 1)) else Finishing(w)
       case Removing(n) => if n < MAX_REMOTE_RETRIES then Advancing(w, Removing(n + 1)) else Finishing(w)
       case _ => Finishing(w))
    case Succeeds(w, id, _) => Advancing(w, if StageOf(s.flow, w).Removing? then Gone else Applied(id))
    case ConfirmRow(w) => Advancing(w, Confirmed)
    case CollectWaiters(w) => Collecting(w, OpIn(s.flow, w).key)
    case ResendOne(w) =>
      if StageOf(s.flow, w).Resending? && StageOf(s.flow, w).rest != [] then ResendingOne(w) else Finishing(w)
    case Refuse(w) => Finishing(w)
    case Rehearse(w) => Finishing(w)
    case Fails(w, _) => Finishing(w)
    case Loses(w, _, _) => Finishing(w)
    case EraseRow(w) => Finishing(w)
  }

  // What a step does to the mapping tables.
  function TablesAfter(s: World, st: Step): Tables
    requires Addressed(s.flow, st)
  {
    match st
    case WriteIntent(w) =>
      var op := OpIn(s.flow, w);
      (match WithIntent(s.tables, op.key, StateOf(op)) case Ok(t) => t case Err => s.tables)
    case ConfirmRow(w) =>
      if StageOf(s.flow, w).Applied? then WithConfirm(s.tables, OpIn(s.flow, w).key, StageOf(s.flow, w).id)
        else s.tables
    case EraseRow(w) =>
      (match WithRemoval(s.tables, OpIn(s.flow, w).key) case Ok(t) => t case Err => s.tables)
    case _ => s.tables
  }

  // The entity a step creates on Stoat.
  function Birth(s: World, st: Step): Option<Id>
    requires Addressed(s.flow, st)
  {
    match st
    case Loses(_, id, _) => Some(id)
    case Succeeds(w, id, _) =>
      if StageOf(s.flow, w).Written? && IsMirrored(OpIn(s.flow, w).key.kind) && CreateOrEdit(RowOf(s, w)).Create?
      then Some(id) else None
    case _ => None
  }

  function IssuedAfter(s: World, st: Step): set<Id>
    requires Addressed(s.flow, st)
  {
    if Birth(s, st).Some? then s.issued + {Birth(s, st).value} else s.issued
  }

  // What a step does to Stoat's entities. An edit that fails may have been written in part.
  function EntitiesAfter(s: World, st: Step): map<Id, Entity>
    requires Addressed(s.flow, st)
  {
    var live := s.remote.entities;
    match st
    case Loses(_, id, after) => live[id := after]
    case Succeeds(w, id, after) =>
      if !IsMirrored(OpIn(s.flow, w).key.kind) then live
      else if StageOf(s.flow, w).Written? then live[id := after]
      else
        (match DeleteTarget(RowOf(s, w))
         case None => live
         case Some(e) => live - {e})
    case Fails(w, partial) =>
      var target := CreateOrEdit(RowOf(s, w));
      if StageOf(s.flow, w).Written? && IsMirrored(OpIn(s.flow, w).key.kind) && target.Edit? && target.id in live
         && partial.Some?
      then live[target.id := partial.value] else live
    case _ => live
  }

  function SidebarAfter(s: World, st: Step): seq<Gateway.Slot>
    requires Addressed(s.flow, st)
  {
    if st.Succeeds? && OpIn(s.flow, st.w).key.kind.CategoryEntity? then Sidebar(s.tables, OpIn(s.flow, st.w).snapshot)
    else s.remote.sidebar
  }

  // A successful call: what the writer may answer, given the row Apply reads.
  ghost predicate Answers(cfg: Settings, s: World, w: Key, id: Id, after: Entity)
    requires Holds(s.flow, w)
  {
    var op, row := OpIn(s.flow, w), RowOf(s, w);
    if op.key.kind.CategoryEntity? then
      id == op.key.id
    else if StageOf(s.flow, w).Removing? then
      DeleteTarget(row).None? || DeleteTarget(row).value in s.remote.entities
    else
      match CreateOrEdit(row)
      case Create => Unissued(s, id) && Wrote(cfg, s.tables, op.desired, None, after)
      case Edit(e) =>
        id == e && e in s.remote.entities && Wrote(cfg, s.tables, op.desired, Some(s.remote.entities[e]), after)
  }

  // A create that lands on Stoat while the caller sees an error.
  predicate MayLose(s: World, w: Key, id: Id)
    requires Holds(s.flow, w)
  {
    && StageOf(s.flow, w).Written? && IsMirrored(OpIn(s.flow, w).key.kind)
    && CreateOrEdit(RowOf(s, w)).Create? && Unissued(s, id)
  }

  ghost predicate Enabled(cfg: Settings, s: World, st: Step) {
    match st
    case SubmitOp(op) => Built(op) && SameWorker(s.flow.ops, op)
    case SendOp(n) => n < |s.flow.submitting| && s.flow.submitting[n] < |s.flow.ops|
    case TakeOp(w) => HandOf(s.flow, w).Idle? && QueueOf(s.flow, w) != [] && QueueOf(s.flow, w)[0] < |s.flow.ops|
    case CheckDeps(w) => Holds(s.flow, w) && StageOf(s.flow, w).Fresh?
    case Refuse(w) => Holds(s.flow, w) && StageOf(s.flow, w).Ready?
    case Rehearse(w) => Holds(s.flow, w) && StageOf(s.flow, w).Ready? && cfg.dryRun
    case Decide(w) => Holds(s.flow, w) && StageOf(s.flow, w).Ready? && !cfg.dryRun
    case WriteIntent(w) => Holds(s.flow, w) && StageOf(s.flow, w).Intend?
    case Throttled(w) => Holds(s.flow, w) && CallingRemote(StageOf(s.flow, w))
    case Fails(w, _) => Holds(s.flow, w) && CallingRemote(StageOf(s.flow, w))
    case Loses(w, id, _) => Holds(s.flow, w) && MayLose(s, w, id)
    case Succeeds(w, id, after) => Holds(s.flow, w) && CallingRemote(StageOf(s.flow, w))
      && Answers(cfg, s, w, id, after)
    case ConfirmRow(w) => Holds(s.flow, w) && StageOf(s.flow, w).Applied?
    case EraseRow(w) => Holds(s.flow, w) && StageOf(s.flow, w).Gone?
    case CollectWaiters(w) => Holds(s.flow, w) && StageOf(s.flow, w).Confirmed?
    case ResendOne(w) =>
      && Holds(s.flow, w) && StageOf(s.flow, w).Resending?
      && (StageOf(s.flow, w).rest != [] ==> StageOf(s.flow, w).rest[0] < |s.flow.ops|)
  }

  function Next(s: World, st: Step): World
    requires |s.flow.place| == |s.flow.ops|
    requires Addressed(s.flow, st)
    requires MoveAllowed(s.flow, MoveOf(s, st))
  {
    World(
      Moved(s.flow, MoveOf(s, st)),
      TablesAfter(s, st),
      Remote(EntitiesAfter(s, st), SidebarAfter(s, st)),
      if st.Refuse? then
        s.backlog + [QueuedOp(OpIn(s.flow, st.w).key.kind, OpIn(s.flow, st.w).kind, StateOf(OpIn(s.flow, st.w)))]
      else s.backlog,
      IssuedAfter(s, st),
      if Birth(s, st).Some? then s.creator[Birth(s, st).value := OpIn(s.flow, st.w).key] else s.creator)
  }

  // Enabled with Next's own preconditions, which the invariant supplies.
  ghost predicate CanStep(cfg: Settings, s: World, st: Step) {
    && |s.flow.place| == |s.flow.ops| && Enabled(cfg, s, st)
    && Addressed(s.flow, st) && MoveAllowed(s.flow, MoveOf(s, st))
  }

  /* Start-up state: nothing submitted; rows of mirrored kinds have distinct, issued ids */

  ghost predicate RowsDistinct(t: Tables) {
    forall j: Key, k: Key | IsMirrored(j.kind) && IsMirrored(k.kind) && HasStoatEntity(Lookup(t, j))
      && HasStoatEntity(Lookup(t, k)) ::
      Lookup(t, j).stoatID == Lookup(t, k).stoatID ==> j == k
  }

  ghost predicate RowsIssued(s: World) {
    forall k: Key | IsMirrored(k.kind) && HasStoatEntity(Lookup(s.tables, k)) :: Lookup(s.tables, k).stoatID in s.issued
  }

  ghost predicate Initial(s: World) {
    && s.flow == NO_FLOW && s.creator == map[]
    && RowsDistinct(s.tables) && RowsIssued(s)
    && s.remote.entities.Keys <= s.issued && NO_ID !in s.issued && EVERYONE !in s.issued
  }

  /* The invariant */

  ghost predicate OpsBuilt(ops: seq<Op>) {
    && (forall i | 0 <= i < |ops| :: Built(ops[i]))
    && (forall i, j | 0 <= i < |ops| && 0 <= j < |ops| ::
        ops[i].key == ops[j].key ==> WorkerOf(ops[i]) == WorkerOf(ops[j]))
  }

  // What a stage says about the row of the op in hand.
  ghost predicate StageFits(op: Op, stage: Stage, row: Mapping) {
    && (op.kind.OpDelete? ==> stage.Fresh? || stage.Ready? || stage.Removing? || stage.Gone?)
    && (!op.kind.OpDelete? ==> !stage.Removing? && !stage.Gone?)
    && (stage.Written? || stage.Applied? ==>
          && row.Found? && row.state == StateOf(op)
          && (row.status.Pending? || (op.key.kind.MessageEntity? && row.stoatID != NO_ID)))
    && (stage.Applied? ==>
          && stage.id != NO_ID
          && (IsMirrored(op.key.kind) ==> row.stoatID == NO_ID || row.stoatID == stage.id))
    && (stage.Confirmed? ==> IsActive(row))
  }

  ghost predicate Staged(s: World) {
    forall w | Holds(s.flow, w) :: StageFits(OpIn(s.flow, w), StageOf(s.flow, w), RowOf(s, w))
  }

  ghost predicate JustAnswered(s: World, w: Key) {
    Holds(s.flow, w) && StageOf(s.flow, w).Applied? && IsMirrored(OpIn(s.flow, w).key.kind)
  }

  // An id just answered belongs to the op's key alone.
  ghost predicate AppliedDistinct(s: World) {
    && (forall w | JustAnswered(s, w) ::
          && StageOf(s.flow, w).id in s.issued
          && forall k: Key | IsMirrored(k.kind) && HasStoatEntity(Lookup(s.tables, k)) ::
               Lookup(s.tables, k).stoatID == StageOf(s.flow, w).id ==> k == OpIn(s.flow, w).key)
    && (forall v, w | JustAnswered(s, v) && JustAnswered(s, w) ::
          StageOf(s.flow, v) == StageOf(s.flow, w) ==> v == w)
  }

  ghost predicate IdsInv(s: World) {
    && RowsDistinct(s.tables) && RowsIssued(s) && AppliedDistinct(s)
    && s.remote.entities.Keys <= s.issued && s.creator.Keys <= s.issued && NO_ID !in s.issued && EVERYONE !in s.issued
  }

  ghost predicate WorldInv(s: World) {
    FlowInv(s.flow) && OpsBuilt(s.flow.ops) && Staged(s) && IdsInv(s)
  }

  lemma {:induction false} InitialInv(s: World)
    requires Initial(s)
    ensures WorldInv(s)
  {}

  lemma {:induction false} FirstUnmetSpec(t: Tables, deps: seq<Key>)
    ensures FirstUnmet(t, deps).Some? ==>
      FirstUnmet(t, deps).value in deps && !IsActive(Lookup(t, FirstUnmet(t, deps).value))
    ensures FirstUnmet(t, deps).None? <==> forall k :: k in deps ==> IsActive(Lookup(t, k))
  {
    if deps != [] {
      FirstUnmetSpec(t, deps[1..]);
      assert deps == [deps[0]] + deps[1..];
    }
  }

  // deps[i] has no active row, and all before it do.
  ghost predicate FirstAt(t: Tables, deps: seq<Key>, i: nat) {
    && i < |deps| && !(Lookup(t, deps[i]).Found? && Lookup(t, deps[i]).status == Active)
    && forall j | 0 <= j < i :: Lookup(t, deps[j]).Found? && Lookup(t, deps[j]).status == Active
  }

  ghost predicate IsFirstUnmet(t: Tables, deps: seq<Key>, k: Key) {
    exists i: nat :: FirstAt(t, deps, i) && deps[i] == k
  }

  lemma {:induction false} FirstUnmetIsFirst(t: Tables, deps: seq<Key>)
    requires FirstUnmet(t, deps).Some?
    ensures IsFirstUnmet(t, deps, FirstUnmet(t, deps).value)
  {
    if !IsActive(Lookup(t, deps[0])) {
      assert FirstAt(t, deps, 0);
    } else {
      FirstUnmetIsFirst(t, deps[1..]);
      var i: nat :| FirstAt(t, deps[1..], i) && deps[1..][i] == FirstUnmet(t, deps[1..]).value;
      LaterFirst(t, deps, i);
    }
  }

  lemma {:induction false} LaterFirst(t: Tables, deps: seq<Key>, i: nat)
    requires deps != [] && IsActive(Lookup(t, deps[0])) && FirstAt(t, deps[1..], i)
    ensures FirstAt(t, deps, i + 1) && deps[i + 1] == deps[1..][i]
  {
    forall j | 0 <= j < i + 1 ensures IsActive(Lookup(t, deps[j])) {
      assert j > 0 ==> deps[j] == deps[1..][j - 1];
    }
  }

  // Two busy workers hold ops on different keys.
  lemma {:induction false} KeysApart(s: World, v: Key, w: Key)
    requires FlowInv(s.flow) && OpsBuilt(s.flow.ops) && Holds(s.flow, v) && Holds(s.flow, w)
    ensures OpIn(s.flow, v).key == OpIn(s.flow, w).key ==> v == w
    ensures WorkerOf(OpIn(s.flow, w)) == w
  {
    assert HandOf(s.flow, v).ticket in Content(s.flow, InHand(v));
    assert HandOf(s.flow, w).ticket in Content(s.flow, InHand(w));
  }

  lemma {:induction false} MoveIsAllowed(cfg: Settings, s: World, st: Step)
    requires Enabled(cfg, s, st)
    ensures Addressed(s.flow, st)
    ensures MoveAllowed(s.flow, MoveOf(s, st))
  {
    if st.CheckDeps? {
      FirstUnmetSpec(s.tables, OpIn(s.flow, st.w).deps);
    }
  }

  // A step changes no row but that of its own op.
  lemma {:induction false} TablesFrame(s: World, st: Step, k: Key)
    requires Addressed(s.flow, st)
    requires st.SubmitOp? || st.SendOp? || st.TakeOp? || k != OpIn(s.flow, st.w).key
    ensures Lookup(TablesAfter(s, st), k) == Lookup(s.tables, k)
  {}

  lemma {:induction false} MoverOf(s: World, st: Step)
    requires Addressed(s.flow, st)
    ensures st.SubmitOp? ==> MoveOf(s, st) == Entering(st.op)
    ensures st.SendOp? ==> MoveOf(s, st) == Sending(st.n)
    ensures !st.SubmitOp? && !st.SendOp? ==>
      !MoveOf(s, st).Entering? && !MoveOf(s, st).Sending? && MoveOf(s, st).w == st.w
  {}

  lemma {:induction false} OtherHandKept(s: World, st: Step, w: Key)
    requires |s.flow.place| == |s.flow.ops| && Addressed(s.flow, st) && MoveAllowed(s.flow, MoveOf(s, st))
    requires Holds(s.flow, w) && (st.SubmitOp? || st.SendOp? || w != st.w)
    ensures Holds(Next(s, st).flow, w)
    ensures OpIn(Next(s, st).flow, w) == OpIn(s.flow, w) && StageOf(Next(s, st).flow, w) == StageOf(s.flow, w)
  {
    MoverOf(s, st);
    MovedFrame(s.flow, MoveOf(s, st));
  }

  // The other way round: another worker's hand was the same before.
  lemma {:induction false} OtherHandWas(s: World, st: Step, w: Key)
    requires FlowInv(s.flow) && Addressed(s.flow, st) && MoveAllowed(s.flow, MoveOf(s, st))
    requires Holds(Next(s, st).flow, w) && (st.SubmitOp? || st.SendOp? || w != st.w)
    ensures Holds(s.flow, w)
    ensures OpIn(Next(s, st).flow, w) == OpIn(s.flow, w) && HandOf(Next(s, st).flow, w) == HandOf(s.flow, w)
  {
    MoverOf(s, st);
    MovedFrame(s.flow, MoveOf(s, st));
    assert HandOf(s.flow, w).ticket in Content(s.flow, InHand(w));
  }

  lemma {:induction false} OpsBuiltKept(cfg: Settings, s: World, st: Step)
    requires FlowInv(s.flow) && OpsBuilt(s.flow.ops) && CanStep(cfg, s, st)
    ensures OpsBuilt(Next(s, st).flow.ops)
  {
    MoverOf(s, st);
    MovedFrame(s.flow, MoveOf(s, st));
  }

  // The stepping worker's own op after the step.
  lemma {:induction false} OwnStageFits(cfg: Settings, s: World, st: Step)
    requires WorldInv(s) && CanStep(cfg, s, st)
    requires !st.SubmitOp? && !st.SendOp? && Holds(Next(s, st).flow, st.w)
    ensures StageFits(OpIn(Next(s, st).flow, st.w), StageOf(Next(s, st).flow, st.w), RowOf(Next(s, st), st.w))
  {
    MoverOf(s, st);
    MovedFrame(s.flow, MoveOf(s, st));
    if st.Succeeds? {
      AnsweredFits(cfg, s, st);
    }
  }

  lemma {:induction false} AnsweredFits(cfg: Settings, s: World, st: Step)
    requires WorldInv(s) && CanStep(cfg, s, st) && st.Succeeds? && Holds(Next(s, st).flow, st.w)
    ensures StageFits(OpIn(Next(s, st).flow, st.w), StageOf(Next(s, st).flow, st.w), RowOf(Next(s, st), st.w))
  {
    assert StageFits(OpIn(s.flow, st.w), StageOf(s.flow, st.w), RowOf(s, st.w));
  }

  lemma {:induction false} OtherStageFits(s: World, st: Step, v: Key)
    requires FlowInv(s.flow) && OpsBuilt(s.flow.ops) && Staged(s)
    requires Addressed(s.flow, st) && MoveAllowed(s.flow, MoveOf(s, st))
    requires Holds(Next(s, st).flow, v) && (st.SubmitOp? || st.SendOp? || v != st.w)
    ensures StageFits(OpIn(Next(s, st).flow, v), StageOf(Next(s, st).flow, v), RowOf(Next(s, st), v))
  {
    MoverOf(s, st);
    MovedFrame(s.flow, MoveOf(s, st));
    assert HandOf(s.flow, v).ticket in Content(s.flow, InHand(v));
    if !st.SubmitOp? && !st.SendOp? && !st.TakeOp? {
      KeysApart(s, v, st.w);
    }
    TablesFrame(s, st, OpIn(s.flow, v).key);
  }

  lemma {:induction false} StagedKept(cfg: Settings, s: World, st: Step)
    requires WorldInv(s) && CanStep(cfg, s, st)
    ensures Staged(Next(s, st))
  {
    forall v | Holds(Next(s, st).flow, v)
      ensures StageFits(OpIn(Next(s, st).flow, v), StageOf(Next(s, st).flow, v), RowOf(Next(s, st), v))
    {
      if !st.SubmitOp? && !st.SendOp? && v == st.w {
        OwnStageFits(cfg, s, st);
      } else {
        OtherStageFits(s, st, v);
      }
    }
  }

  predicate Confirming(s: World, st: Step, k: Key) {
    st.ConfirmRow? && Holds(s.flow, st.w) && StageOf(s.flow, st.w).Applied? && OpIn(s.flow, st.w).key == k
  }

  // Where a row's id comes from: it was there, or it is being confirmed.
  lemma {:induction false} RowIDAfter(s: World, st: Step, k: Key)
    requires Addressed(s.flow, st) && HasStoatEntity(Lookup(TablesAfter(s, st), k))
    ensures var id := Lookup(TablesAfter(s, st), k).stoatID;
      if Confirming(s, st, k) then id == StageOf(s.flow, st.w).id
      else HasStoatEntity(Lookup(s.tables, k)) && Lookup(s.tables, k).stoatID == id
  {}

  lemma {:induction false} RowsKept(cfg: Settings, s: World, st: Step)
    requires WorldInv(s) && CanStep(cfg, s, st)
    ensures RowsDistinct(TablesAfter(s, st)) && RowsIssued(Next(s, st))
  {
    var t := TablesAfter(s, st);
    forall j: Key, k: Key | IsMirrored(j.kind) && IsMirrored(k.kind) && HasStoatEntity(Lookup(t, j))
      && HasStoatEntity(Lookup(t, k))
      ensures Lookup(t, j).stoatID == Lookup(t, k).stoatID ==> j == k
    {
      RowIDAfter(s, st, j);
      RowIDAfter(s, st, k);
    }
    forall k: Key | IsMirrored(k.kind) && HasStoatEntity(Lookup(t, k))
      ensures Lookup(t, k).stoatID in Next(s, st).issued
    {
      RowIDAfter(s, st, k);
    }
  }

  // A worker's own step leaves it with an answered id only if the step is the answer.
  lemma {:induction false} OwnAnswer(s: World, st: Step)
    requires Addressed(s.flow, st) && !st.SubmitOp? && !st.SendOp? && |s.flow.place| == |s.flow.ops|
    requires MoveAllowed(s.flow, MoveOf(s, st))
    requires HandOf(Moved(s.flow, MoveOf(s, st)), st.w).Busy?
    requires HandOf(Moved(s.flow, MoveOf(s, st)), st.w).stage.Applied?
    ensures st.Succeeds? && HandOf(s.flow, st.w).Busy? && !StageOf(s.flow, st.w).Removing?
    ensures HandOf(Moved(s.flow, MoveOf(s, st)), st.w) == Busy(HandOf(s.flow, st.w).ticket, Applied(st.id))
  {
    MoverOf(s, st);
  }

  // An answered id was answered before, or is the answer of this step.
  lemma {:induction false} AnsweredAfter(cfg: Settings, s: World, st: Step, w: Key)
    requires WorldInv(s) && CanStep(cfg, s, st)
    requires JustAnswered(Next(s, st), w)
    ensures Holds(s.flow, w) && OpIn(Next(s, st).flow, w) == OpIn(s.flow, w)
    ensures StageOf(Next(s, st).flow, w) == StageOf(s.flow, w)
            || (st.Succeeds? && st.w == w && StageOf(s.flow, w).Written?
              && StageOf(Next(s, st).flow, w) == Applied(st.id))
    ensures !Confirming(s, st, OpIn(s.flow, w).key)
  {
    if st.SubmitOp? || st.SendOp? || w != st.w {
      OtherHandWas(s, st, w);
      if st.ConfirmRow? {
        KeysApart(s, w, st.w);
      }
    } else {
      OwnAnswer(s, st);
    }
  }

  // The answer of this step is new, or it is the id the op's own row already has.
  lemma {:induction false} AnswerIsOwn(cfg: Settings, s: World, st: Step)
    requires WorldInv(s) && Enabled(cfg, s, st) && st.Succeeds? && StageOf(s.flow, st.w).Written?
    requires IsMirrored(OpIn(s.flow, st.w).key.kind)
    ensures st.id in IssuedAfter(s, st)
    ensures forall k: Key | IsMirrored(k.kind) && HasStoatEntity(Lookup(s.tables, k)) ::
              Lookup(s.tables, k).stoatID == st.id ==> k == OpIn(s.flow, st.w).key
    ensures forall v | JustAnswered(s, v) :: StageOf(s.flow, v).id != st.id
  {
    forall v | JustAnswered(s, v) ensures StageOf(s.flow, v).id != st.id {
      KeysApart(s, v, st.w);
    }
  }

  lemma {:induction false} AnswersKept(cfg: Settings, s: World, st: Step)
    requires WorldInv(s) && CanStep(cfg, s, st)
    ensures AppliedDistinct(Next(s, st))
  {
    var s' := Next(s, st);
    if st.Succeeds? && StageOf(s.flow, st.w).Written? && IsMirrored(OpIn(s.flow, st.w).key.kind) {
      AnswerIsOwn(cfg, s, st);
    }
    forall w | JustAnswered(s', w)
      ensures StageOf(s'.flow, w).id in s'.issued
      ensures forall k: Key | IsMirrored(k.kind) && HasStoatEntity(Lookup(s'.tables, k)) ::
        Lookup(s'.tables, k).stoatID == StageOf(s'.flow, w).id ==> k == OpIn(s'.flow, w).key
    {
      AnsweredAfter(cfg, s, st, w);
      forall k: Key | IsMirrored(k.kind) && HasStoatEntity(Lookup(s'.tables, k))
        && Lookup(s'.tables, k).stoatID == StageOf(s'.flow, w).id
        ensures k == OpIn(s'.flow, w).key
      {
        RowIDAfter(s, st, k);
      }
    }
    forall v, w | JustAnswered(s', v) && JustAnswered(s', w)
      ensures StageOf(s'.flow, v) == StageOf(s'.flow, w) ==> v == w
    {
      AnsweredAfter(cfg, s, st, v);
      AnsweredAfter(cfg, s, st, w);
    }
  }

  lemma {:induction false} StepKeepsInv(cfg: Settings, s: World, st: Step)
    requires WorldInv(s) && Enabled(cfg, s, st)
    ensures CanStep(cfg, s, st) && WorldInv(Next(s, st))
  {
    MoveIsAllowed(cfg, s, st);
    FlowKept(s.flow, MoveOf(s, st));
    OpsBuiltKept(cfg, s, st);
    StagedKept(cfg, s, st);
    RowsKept(cfg, s, st);
    AnswersKept(cfg, s, st);
    HistoryKept(cfg, s, st);
  }

  lemma {:induction false} HistoryKept(cfg: Settings, s: World, st: Step)
    requires WorldInv(s) && CanStep(cfg, s, st)
    ensures var s' := Next(s, st);
      s'.remote.entities.Keys <= s'.issued && s'.creator.Keys <= s'.issued && NO_ID !in s'.issued
        && EVERYONE !in s'.issued
  {}
}
