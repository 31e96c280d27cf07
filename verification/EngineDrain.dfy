/** Termination and draining: without new submissions every run is finite, and a run without failures
    that can go no further has finished every op. */
module EngineDrain {
  import opened Types
  import opened Store
  import opened Flow
  import opened Gateway
  import opened Engine
  import opened EngineRuns

  /* A cost that every engine step lowers */

  function StageCost(stage: Stage): nat {
    match stage
    case Fresh => 29
    case Ready => 28
    case Intend => 27
    case Written(n) => if n < MAX_REMOTE_RETRIES then 26 - n else 20
    case Removing(n) => if n < MAX_REMOTE_RETRIES then 26 - n else 20
    case Applied(_) => 10
    case Gone => 10
    case Confirmed => 9
    case Resending(_) => 2
  }

  // Whether ticket i may still wake others; each op collects waiters at most once.
  predicate MayNotify(f: Flow, i: nat)
    requires i < |f.place|
  {
    match f.place[i]
    case InHand(w) => !(HandOf(f, w).Busy? && HandOf(f, w).stage.Resending?)
    case Finished => false
    case _ => true
  }

  // n is the number of ops there will ever be: a worker may wake that many.
  function Cost(f: Flow, i: nat, n: nat): nat
    requires i < |f.place|
  {
    (if MayNotify(f, i) then 31 * n + 1 else 0)
    + match f.place[i]
      case Submitting => 40
      case Resent(_) => 31
      case Queued(_) => 30
      case InHand(w) => if HandOf(f, w).Busy? then StageCost(HandOf(f, w).stage) else 0
      case Parked(_) => 1
      case Finished => 0
  }

  function Costs(f: Flow, n: nat): seq<nat> {
    seq(|f.place|, i requires 0 <= i < |f.place| => Cost(f, i, n))
  }

  function Sum(a: seq<nat>): nat {
    if a == [] then 0 else Sum(a[..|a| - 1]) + a[|a| - 1]
  }

  function TotalCost(f: Flow, n: nat): nat {
    Sum(Costs(f, n))
  }

  lemma {:induction false} SumRise(a: seq<nat>, b: seq<nat>, d: nat)
    requires |a| == |b| && forall j :: 0 <= j < |a| ==> b[j] <= a[j] + d
    ensures Sum(b) <= Sum(a) + d * |a|
  {
    if a != [] {
      SumRise(a[..|a| - 1], b[..|b| - 1], d);
      assert d * |a| == d * (|a| - 1) + d;
    }
  }

  lemma {:induction false} SumDrop(a: seq<nat>, b: seq<nat>, i: nat, d: nat, e: nat)
    requires |a| == |b| && i < |a| && b[i] + e <= a[i]
    requires forall j :: 0 <= j < |a| && j != i ==> b[j] <= a[j] + d
    ensures Sum(b) + e <= Sum(a) + d * |a|
  {
    var n := |a| - 1;
    assert d * |a| == d * n + d;
    if i == n {
      SumRise(a[..n], b[..n], d);
    } else {
      SumDrop(a[..n], b[..n], i, d, e);
    }
  }

  predicate Downhill(f: Flow, m: Move) {
    match m
    case Entering(_) => false
    case Advancing(w, stage) => Holds(f, w) ==> StageCost(stage) < StageCost(StageOf(f, w))
    case _ => true
  }

  // The ticket a move is about.
  function Subject(f: Flow, m: Move): nat
    requires MoveAllowed(f, m) && !m.Entering?
  {
    if m.Sending? then f.submitting[m.n]
    else if m.Taking? then QueueOf(f, m.w)[0]
    else if m.ResendingOne? then StageOf(f, m.w).rest[0]
    else HandOf(f, m.w).ticket
  }

  lemma {:induction false} SubjectFound(f: Flow, m: Move)
    requires FlowInv(f) && MoveAllowed(f, m) && !m.Entering?
    ensures Subject(f, m) < |f.place|
    ensures f.place[Subject(f, m)] ==
      if m.Sending? then Submitting
      else if m.Taking? then Queued(m.w)
      else if m.ResendingOne? then Resent(m.w)
      else InHand(m.w)
  {
    if m.Sending? {
      assert f.submitting[m.n] in Content(f, Submitting);
    } else if m.Taking? {
      assert QueueOf(f, m.w)[0] in Content(f, Queued(m.w));
    } else if m.ResendingOne? {
      assert StageOf(f, m.w).rest[0] in Content(f, Resent(m.w));
    } else {
      assert HandOf(f, m.w).ticket in Content(f, InHand(m.w));
    }
  }

  lemma {:induction false} OthersCost(f: Flow, m: Move, j: nat, n: nat)
    requires FlowInv(f) && MoveAllowed(f, m) && Downhill(f, m) && j < |f.place| && j != Subject(f, m)
    ensures |Moved(f, m).place| == |f.place|
    ensures Cost(Moved(f, m), j, n) <= Cost(f, j, n) + if m.Collecting? then 30 else 0
  {
    var g := Moved(f, m);
    MovedFrame(f, m);
    if f.place[j].InHand? {
      assert j in Content(f, InHand(f.place[j].worker));
    }
  }

  lemma {:induction false} SubjectCost(f: Flow, m: Move, n: nat)
    requires FlowInv(f) && MoveAllowed(f, m) && Downhill(f, m)
    ensures Subject(f, m) < |f.place| == |Moved(f, m).place|
    ensures Cost(Moved(f, m), Subject(f, m), n) + (if m.Collecting? then 31 * n + 1 else 1) <= Cost(f, Subject(f, m), n)
  {
    SubjectFound(f, m);
    MovedFrame(f, m);
  }

  lemma {:induction false} MoveLowersCost(f: Flow, m: Move, n: nat)
    requires FlowInv(f) && MoveAllowed(f, m) && Downhill(f, m) && |f.place| <= n
    ensures TotalCost(Moved(f, m), n) < TotalCost(f, n)
  {
    var g, i := Moved(f, m), Subject(f, m);
    SubjectCost(f, m, n);
    forall j | 0 <= j < |f.place| && j != i ensures Cost(g, j, n) <= Cost(f, j, n) + if m.Collecting? then 30 else 0 {
      OthersCost(f, m, j, n);
    }
    SumDrop(Costs(f, n), Costs(g, n), i, if m.Collecting? then 30 else 0, if m.Collecting? then 31 * n + 1 else 1);
  }

  // A submission brings its own op's cost and changes nobody else's.
  lemma {:induction false} EnterCost(f: Flow, op: Op, n: nat)
    requires |f.place| == |f.ops|
    ensures TotalCost(Enter(f, op), n) == TotalCost(f, n) + 31 * n + 41
  {
    var g := Enter(f, op);
    assert Costs(g, n)[..|f.place|] == Costs(f, n);
    assert Costs(g, n)[|f.place|] == 31 * n + 41;
  }

  lemma {:induction false} StepIsDownhill(cfg: Settings, s: World, st: Step)
    requires WorldInv(s) && CanStep(cfg, s, st) && !st.SubmitOp?
    ensures Downhill(s.flow, MoveOf(s, st))
  {
    if st.Throttled? {
      RetryIsDownhill(s, st.w);
    } else if !st.SendOp? && !st.TakeOp? {
      CallIsDownhill(cfg, s, st);
    }
  }

  lemma {:induction false} RetryIsDownhill(s: World, w: Key)
    requires Holds(s.flow, w) && CallingRemote(StageOf(s.flow, w))
    ensures Downhill(s.flow, MoveOf(s, Throttled(w)))
  {}

  lemma {:induction false} CallIsDownhill(cfg: Settings, s: World, st: Step)
    requires Enabled(cfg, s, st) && Addressed(s.flow, st) && !st.SubmitOp? && !st.SendOp? && !st.TakeOp?
    requires !st.Throttled?
    ensures Downhill(s.flow, MoveOf(s, st))
  {}

  // What the submissions of a run are worth: each costs its own step besides.
  function Worth(submissions: nat, n: nat): nat {
    if submissions == 0 then 0 else Worth(submissions - 1, n) + 31 * n + 42
  }

  // The steps still to come if n ops are submitted in all.
  function Budget(f: Flow, n: nat): nat
    requires |f.ops| <= n
  {
    TotalCost(f, n) + Worth(n - |f.ops|, n)
  }

  lemma {:induction false} EnterLowersBudget(f: Flow, op: Op, n: nat)
    requires |f.place| == |f.ops| < n
    ensures Budget(Enter(f, op), n) < Budget(f, n)
  {
    EnterCost(f, op, n);
  }

  lemma {:induction false} MoveLowersBudget(f: Flow, m: Move, n: nat)
    requires FlowInv(f) && MoveAllowed(f, m) && (m.Entering? || Downhill(f, m)) && |Moved(f, m).ops| <= n
    ensures |f.ops| <= n && Budget(Moved(f, m), n) < Budget(f, n)
  {
    MovedFrame(f, m);
    if m.Entering? {
      EnterLowersBudget(f, m.op, n);
    } else {
      MoveLowersCost(f, m, n);
    }
  }

  /** Every engine step, whatever it answers, lowers what the run can still take. */
  lemma {:induction false} StepLowersBudget(cfg: Settings, s: World, st: Step, n: nat)
    requires WorldInv(s) && CanStep(cfg, s, st) && |Next(s, st).flow.ops| <= n
    ensures |s.flow.ops| <= n && Budget(Next(s, st).flow, n) < Budget(s.flow, n)
  {
    if !st.SubmitOp? {
      StepIsDownhill(cfg, s, st);
    }
    MoveLowersBudget(s.flow, MoveOf(s, st), n);
  }

  lemma {:induction false} RunBoundedByCost(cfg: Settings, s: World, steps: seq<Step>, n: nat)
    requires WorldInv(s) && Legal(cfg, s, steps) && |End(cfg, s, steps).flow.ops| == n
    ensures |s.flow.ops| <= n && |steps| + Budget(End(cfg, s, steps).flow, n) <= Budget(s.flow, n)
    decreases |steps|
  {
    if steps != [] {
      StepKeepsInv(cfg, s, steps[0]);
      RunBoundedByCost(cfg, Next(s, steps[0]), steps[1..], n);
      StepLowersBudget(cfg, s, steps[0], n);
    }
  }

  lemma {:induction false} SumAtMost(a: seq<nat>, bound: nat)
    requires forall j :: 0 <= j < |a| ==> a[j] <= bound
    ensures Sum(a) <= |a| * bound
  {
    if a != [] {
      SumAtMost(a[..|a| - 1], bound);
      assert |a| * bound == (|a| - 1) * bound + bound;
    }
  }

  function StepBound(n: nat): nat {
    n * (31 * n + 41)
  }

  lemma {:induction false} TotalAtMost(f: Flow, n: nat)
    ensures TotalCost(f, n) <= |f.place| * (31 * n + 41)
  {
    SumAtMost(Costs(f, n), 31 * n + 41);
  }

  lemma {:induction false} WorthIs(submissions: nat, n: nat)
    ensures Worth(submissions, n) == submissions * (31 * n + 42)
  {
    if submissions > 0 {
      WorthIs(submissions - 1, n);
      assert submissions * (31 * n + 42) == (submissions - 1) * (31 * n + 42) + (31 * n + 42);
    }
  }

  lemma {:induction false} WorthTogether(before: nat, n: nat)
    requires before <= n
    ensures before * (31 * n + 41) + Worth(n - before, n) == StepBound(n) + (n - before) <= n * (31 * n + 42)
  {
    WorthIs(n - before, n);
    var c := 31 * n + 41;
    assert (n - before) * (c + 1) == (n - before) * c + (n - before);
    assert before * c + (n - before) * c == n * c;
    assert n * (c + 1) == n * c + n;
  }

  lemma {:induction false} BudgetAtMost(f: Flow, n: nat)
    requires |f.place| == |f.ops| <= n
    ensures Budget(f, n) <= StepBound(n) + (n - |f.ops|) <= n * (31 * n + 42)
  {
    TotalAtMost(f, n);
    WorthTogether(|f.ops|, n);
  }

  /** Termination with a bound, over every run and with submissions at any point of it: a run that ends
      with n ops submitted has at most n (31 n + 41) steps and one for each op it submits itself, so at most
      n (31 n + 42), however the workers interleave, whatever fails, whoever wakes whom. */
  lemma {:induction false} EveryRunTerminates(cfg: Settings, s: World, steps: seq<Step>)
    requires WorldInv(s) && Legal(cfg, s, steps)
    ensures var n := |End(cfg, s, steps).flow.ops|;
      && |s.flow.ops| <= n
      && |steps| <= StepBound(n) + (n - |s.flow.ops|) <= n * (31 * n + 42)
  {
    RunBoundedByCost(cfg, s, steps, |End(cfg, s, steps).flow.ops|);
    BudgetAtMost(s.flow, |End(cfg, s, steps).flow.ops|);
  }

  /* Runs without failures */

  // Healthy, not a rehearsal, no deletes, no remote failure; a 429 may be retried but not exhausted.
  ghost predicate Smooth(s: World, st: Step) {
    match st
    case SubmitOp(op) => !op.kind.OpDelete?
    case Refuse(_) => false
    case Rehearse(_) => false
    case Fails(_, _) => false
    case Loses(_, _, _) => false
    case Throttled(w) =>
      Holds(s.flow, w) && StageOf(s.flow, w).Written? && StageOf(s.flow, w).attempt < MAX_REMOTE_RETRIES
    case _ => true
  }

  ghost predicate NoDeletes(ops: seq<Op>) {
    forall i | 0 <= i < |ops| :: !ops[i].kind.OpDelete?
  }

  // A worker is between its WritePending and its Confirm of k.
  ghost predicate InWindow(s: World, k: Key) {
    exists w :: Holds(s.flow, w) && (StageOf(s.flow, w).Written? || StageOf(s.flow, w).Applied?)
      && OpIn(s.flow, w).key == k
  }

  ghost predicate PendingExplained(s: World) {
    forall k | Lookup(s.tables, k).Found? && !IsActive(Lookup(s.tables, k)) :: InWindow(s, k)
  }

  ghost predicate DoneFound(s: World)
    requires |s.flow.place| == |s.flow.ops|
  {
    && (forall i | 0 <= i < |s.flow.ops| && s.flow.place[i].Finished? :: Lookup(s.tables, s.flow.ops[i].key).Found?)
    && (forall w | Holds(s.flow, w) && (StageOf(s.flow, w).Confirmed? || StageOf(s.flow, w).Resending?) ::
        RowOf(s, w).Found?)
  }

  ghost predicate DepsFound(s: World) {
    forall w, d | Holds(s.flow, w) && !StageOf(s.flow, w).Fresh? && d in OpIn(s.flow, w).deps ::
      Lookup(s.tables, d).Found?
  }

  predicate FitsKind(e: Entity, kind: EntityType) {
    match e
    case LiveRole(_) => kind.RoleEntity?
    case LiveChannel(_, _, _) => kind.ChannelEntity?
    case LiveMessage(_, _) => kind.MessageEntity?
  }

  ghost predicate LiveAs(live: map<Id, Entity>, e: Id, kind: EntityType) {
    e in live && FitsKind(live[e], kind)
  }

  ghost predicate EntitiesLive(s: World) {
    && (forall k: Key | IsMirrored(k.kind) && HasStoatEntity(Lookup(s.tables, k)) ::
          LiveAs(s.remote.entities, Lookup(s.tables, k).stoatID, k.kind))
    && (forall w | JustAnswered(s, w) :: LiveAs(s.remote.entities, StageOf(s.flow, w).id, OpIn(s.flow, w).key.kind))
  }

  ghost predicate SmoothInv(s: World) {
    && WorldInv(s) && NoLostWakeup(s)
    && NoDeletes(s.flow.ops) && PendingExplained(s) && DoneFound(s) && DepsFound(s) && EntitiesLive(s)
  }

  ghost predicate SmoothStep(cfg: Settings, s: World, st: Step) {
    CanStep(cfg, s, st) && Smooth(s, st)
  }

  lemma {:induction false} FoundKept(cfg: Settings, s: World, st: Step, k: Key)
    requires SmoothInv(s) && SmoothStep(cfg, s, st) && Lookup(s.tables, k).Found?
    ensures Lookup(TablesAfter(s, st), k).Found?
  {
    NothingErased(cfg, s, st);
    FoundUnlessErased(s, st, k);
  }

  lemma {:induction false} NothingErased(cfg: Settings, s: World, st: Step)
    requires SmoothInv(s) && SmoothStep(cfg, s, st)
    ensures !st.EraseRow?
    ensures forall w | Holds(s.flow, w) :: !StageOf(s.flow, w).Removing? && Built(OpIn(s.flow, w))
  {
    forall w | Holds(s.flow, w) ensures !StageOf(s.flow, w).Gone? && !StageOf(s.flow, w).Removing? {
      assert StageFits(OpIn(s.flow, w), StageOf(s.flow, w), RowOf(s, w));
    }
  }

  lemma {:induction false} FoundUnlessErased(s: World, st: Step, k: Key)
    requires Addressed(s.flow, st) && !st.EraseRow? && Lookup(s.tables, k).Found?
    ensures Lookup(TablesAfter(s, st), k).Found?
  {}

  lemma {:induction false} OwnWindowKept(cfg: Settings, s: World, st: Step)
    requires CanStep(cfg, s, st) && Smooth(s, st) && !st.SubmitOp? && !st.SendOp? && !st.ConfirmRow?
    requires Holds(s.flow, st.w) && (StageOf(s.flow, st.w).Written? || StageOf(s.flow, st.w).Applied?)
    ensures Holds(Next(s, st).flow, st.w) && OpIn(Next(s, st).flow, st.w) == OpIn(s.flow, st.w)
    ensures StageOf(Next(s, st).flow, st.w).Written? || StageOf(Next(s, st).flow, st.w).Applied?
  {}

  lemma {:induction false} WindowKept(cfg: Settings, s: World, st: Step, k: Key)
    requires SmoothInv(s) && SmoothStep(cfg, s, st) && InWindow(s, k)
    requires !Confirming(s, st, k)
    ensures InWindow(Next(s, st), k)
  {
    var w :| Holds(s.flow, w) && (StageOf(s.flow, w).Written? || StageOf(s.flow, w).Applied?)
      && OpIn(s.flow, w).key == k;
    if !st.SubmitOp? && !st.SendOp? && st.w == w {
      OwnWindowKept(cfg, s, st);
    } else {
      OtherHandKept(s, st, w);
    }
  }

  lemma {:induction false} WindowOpened(cfg: Settings, s: World, st: Step)
    requires SmoothInv(s) && SmoothStep(cfg, s, st) && st.WriteIntent?
    requires WithIntent(s.tables, OpIn(s.flow, st.w).key, StateOf(OpIn(s.flow, st.w))).Ok?
    ensures InWindow(Next(s, st), OpIn(s.flow, st.w).key)
  {
    var f' := Next(s, st).flow;
    assert Holds(f', st.w) && StageOf(f', st.w) == Written(0) && OpIn(f', st.w) == OpIn(s.flow, st.w);
  }

  // In a smooth run only a write-ahead makes a row inactive.
  lemma {:induction false} InactiveByIntent(cfg: Settings, s: World, st: Step, k: Key)
    requires SmoothInv(s) && SmoothStep(cfg, s, st)
    requires Lookup(TablesAfter(s, st), k).Found? && !IsActive(Lookup(TablesAfter(s, st), k))
    requires Lookup(TablesAfter(s, st), k) != Lookup(s.tables, k)
    ensures st.WriteIntent? && OpIn(s.flow, st.w).key == k
    ensures WithIntent(s.tables, k, StateOf(OpIn(s.flow, st.w))).Ok?
  {
    if Confirming(s, st, k) {
      ConfirmingActivates(s, st, k);
    }
  }

  lemma {:induction false} ConfirmingActivates(s: World, st: Step, k: Key)
    requires SmoothInv(s) && Confirming(s, st, k)
    ensures IsActive(Lookup(TablesAfter(s, st), k))
  {
    assert StageFits(OpIn(s.flow, st.w), StageOf(s.flow, st.w), RowOf(s, st.w));
  }

  lemma {:induction false} PendingKept(cfg: Settings, s: World, st: Step)
    requires SmoothInv(s) && SmoothStep(cfg, s, st)
    ensures PendingExplained(Next(s, st))
  {
    var t := TablesAfter(s, st);
    forall k | Lookup(t, k).Found? && !IsActive(Lookup(t, k)) ensures InWindow(Next(s, st), k) {
      if Confirming(s, st, k) {
        ConfirmingActivates(s, st, k);
      } else if Lookup(t, k) == Lookup(s.tables, k) {
        WindowKept(cfg, s, st, k);
      } else {
        InactiveByIntent(cfg, s, st, k);
        WindowOpened(cfg, s, st);
      }
    }
  }

  // The foreign key of a message holds: its channel was active when the op was let through.
  lemma {:induction false} IntentNeverRefused(s: World, w: Key)
    requires SmoothInv(s) && Holds(s.flow, w) && StageOf(s.flow, w).Intend?
    ensures WithIntent(s.tables, OpIn(s.flow, w).key, StateOf(OpIn(s.flow, w))).Ok?
  {
    var op := OpIn(s.flow, w);
    assert Built(op);
    if op.key.kind.MessageEntity? {
      assert StageFits(op, StageOf(s.flow, w), RowOf(s, w));
      assert Key(ChannelEntity, op.channelID) in op.deps;
    }
  }

  lemma {:induction false} FinishFound(cfg: Settings, s: World, st: Step)
    requires SmoothInv(s) && SmoothStep(cfg, s, st) && MoveOf(s, st).Finishing?
    ensures RowOf(s, st.w).Found?
  {
    assert StageFits(OpIn(s.flow, st.w), StageOf(s.flow, st.w), RowOf(s, st.w));
    if st.WriteIntent? {
      IntentNeverRefused(s, st.w);
    }
  }

  lemma {:induction false} NewlyFinished(f: Flow, m: Move, i: nat)
    requires FlowInv(f) && MoveAllowed(f, m) && i < |f.place|
    ensures i < |Moved(f, m).place|
    ensures Moved(f, m).place[i].Finished? && !f.place[i].Finished? ==> m.Finishing? && i == HandOf(f, m.w).ticket
  {}

  lemma {:induction false} DonePlaceFound(cfg: Settings, s: World, st: Step, i: nat)
    requires SmoothInv(s) && SmoothStep(cfg, s, st)
    requires i < |Next(s, st).flow.ops| == |Next(s, st).flow.place| && Next(s, st).flow.place[i].Finished?
    ensures Lookup(TablesAfter(s, st), Next(s, st).flow.ops[i].key).Found?
  {
    MoverOf(s, st);
    MovedFrame(s.flow, MoveOf(s, st));
    if i < |s.flow.ops| {
      NewlyFinished(s.flow, MoveOf(s, st), i);
      if !s.flow.place[i].Finished? {
        FinishFound(cfg, s, st);
      }
      FoundKept(cfg, s, st, s.flow.ops[i].key);
    }
  }

  lemma {:induction false} DoneKept(cfg: Settings, s: World, st: Step)
    requires SmoothInv(s) && SmoothStep(cfg, s, st)
    ensures FlowInv(Next(s, st).flow) && DoneFound(Next(s, st))
  {
    var s' := Next(s, st);
    StepKeepsInv(cfg, s, st);
    forall i | 0 <= i < |s'.flow.ops| && s'.flow.place[i].Finished?
      ensures Lookup(s'.tables, s'.flow.ops[i].key).Found?
    {
      DonePlaceFound(cfg, s, st, i);
    }
    forall w | Holds(s'.flow, w) && (StageOf(s'.flow, w).Confirmed? || StageOf(s'.flow, w).Resending?)
      ensures RowOf(s', w).Found?
    {
      HandFound(cfg, s, st, w);
    }
  }

  lemma {:induction false} HandFound(cfg: Settings, s: World, st: Step, w: Key)
    requires SmoothInv(s) && SmoothStep(cfg, s, st) && Holds(Next(s, st).flow, w)
    requires StageOf(Next(s, st).flow, w).Confirmed? || StageOf(Next(s, st).flow, w).Resending?
    ensures RowOf(Next(s, st), w).Found?
  {
    if st.SubmitOp? || st.SendOp? || w != st.w {
      OtherHandWas(s, st, w);
      FoundKept(cfg, s, st, OpIn(s.flow, w).key);
    } else {
      OwnHandFound(cfg, s, st);
    }
  }

  lemma {:induction false} OwnHandFound(cfg: Settings, s: World, st: Step)
    requires SmoothInv(s) && SmoothStep(cfg, s, st) && !st.SubmitOp? && !st.SendOp? && Holds(Next(s, st).flow, st.w)
    requires StageOf(Next(s, st).flow, st.w).Confirmed? || StageOf(Next(s, st).flow, st.w).Resending?
    ensures RowOf(Next(s, st), st.w).Found?
  {
    LateStages(cfg, s, st);
    assert StageFits(OpIn(s.flow, st.w), StageOf(s.flow, st.w), RowOf(s, st.w));
    FoundKept(cfg, s, st, OpIn(s.flow, st.w).key);
  }

  // A hand is in a late stage by confirming, collecting or re-sending.
  lemma {:induction false} LateMoves(f: Flow, m: Move)
    requires |f.place| == |f.ops| && MoveAllowed(f, m) && !m.Entering? && !m.Sending? && Holds(Moved(f, m), m.w)
    requires StageOf(Moved(f, m), m.w).Confirmed? || StageOf(Moved(f, m), m.w).Resending?
    ensures m.Collecting? || m.ResendingOne? || (m.Advancing? && m.stage.Confirmed?)
    ensures Holds(f, m.w) && OpIn(Moved(f, m), m.w) == OpIn(f, m.w)
  {}

  // A worker that confirms, collects or re-sends has applied its op.
  lemma {:induction false} LateStages(cfg: Settings, s: World, st: Step)
    requires CanStep(cfg, s, st) && !st.SubmitOp? && !st.SendOp? && Holds(Next(s, st).flow, st.w)
    requires StageOf(Next(s, st).flow, st.w).Confirmed? || StageOf(Next(s, st).flow, st.w).Resending?
    ensures Holds(s.flow, st.w) && OpIn(Next(s, st).flow, st.w) == OpIn(s.flow, st.w)
    ensures StageOf(s.flow, st.w).Applied? || StageOf(s.flow, st.w).Confirmed? || StageOf(s.flow, st.w).Resending?
  {
    MoverOf(s, st);
    LateMoves(s.flow, MoveOf(s, st));
  }

  // The op a busy worker holds after a step it held before, unless it has just taken it.
  lemma {:induction false} HeldBefore(cfg: Settings, s: World, st: Step, w: Key)
    requires FlowInv(s.flow) && CanStep(cfg, s, st)
    requires Holds(Next(s, st).flow, w) && !StageOf(Next(s, st).flow, w).Fresh?
    ensures Holds(s.flow, w) && OpIn(Next(s, st).flow, w) == OpIn(s.flow, w)
    ensures StageOf(s.flow, w).Fresh? ==> st.CheckDeps? && st.w == w && FirstUnmet(s.tables, OpIn(s.flow, w).deps).None?
  {
    if st.SubmitOp? || st.SendOp? || w != st.w {
      OtherHandWas(s, st, w);
    } else {
      OwnHeldBefore(cfg, s, st);
    }
  }

  lemma {:induction false} OwnHeldBefore(cfg: Settings, s: World, st: Step)
    requires CanStep(cfg, s, st) && !st.SubmitOp? && !st.SendOp?
    requires Holds(Next(s, st).flow, st.w) && !StageOf(Next(s, st).flow, st.w).Fresh?
    ensures Holds(s.flow, st.w) && OpIn(Next(s, st).flow, st.w) == OpIn(s.flow, st.w)
    ensures StageOf(s.flow, st.w).Fresh? ==> st.CheckDeps? && FirstUnmet(s.tables, OpIn(s.flow, st.w).deps).None?
  {
    MoverOf(s, st);
    MovedFrame(s.flow, MoveOf(s, st));
  }

  lemma {:induction false} DepFound(cfg: Settings, s: World, st: Step, w: Key, d: Key)
    requires SmoothInv(s) && SmoothStep(cfg, s, st)
    requires Holds(Next(s, st).flow, w) && !StageOf(Next(s, st).flow, w).Fresh? && d in OpIn(Next(s, st).flow, w).deps
    ensures Lookup(TablesAfter(s, st), d).Found?
  {
    HeldBefore(cfg, s, st, w);
    if StageOf(s.flow, w).Fresh? {
      FirstUnmetSpec(s.tables, OpIn(s.flow, w).deps);
    }
    FoundKept(cfg, s, st, d);
  }

  lemma {:induction false} DepsKept(cfg: Settings, s: World, st: Step)
    requires SmoothInv(s) && SmoothStep(cfg, s, st)
    ensures DepsFound(Next(s, st))
  {
    var s' := Next(s, st);
    forall w, d | Holds(s'.flow, w) && !StageOf(s'.flow, w).Fresh? && d in OpIn(s'.flow, w).deps
      ensures Lookup(s'.tables, d).Found?
    {
      DepFound(cfg, s, st, w, d);
    }
  }
}
