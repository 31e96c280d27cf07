/** The drain theorem: a smooth run that can go no further has finished every op. */
module EngineQuiescence {
  import opened Types
  import opened Canonical
  import opened Store
  import opened Flow
  import opened Gateway
  import opened Engine
  import opened EngineRuns
  import opened EngineDrain

  /* The last clause of the smooth invariant: every row's entity is live */

  lemma {:induction false} LiveKept(cfg: Settings, s: World, st: Step, e: Id, kind: EntityType)
    requires SmoothInv(s) && SmoothStep(cfg, s, st) && LiveAs(s.remote.entities, e, kind)
    ensures LiveAs(EntitiesAfter(s, st), e, kind)
  {
    NothingErased(cfg, s, st);
    LiveUnlessRemoved(cfg, s, st, e, kind);
  }

  lemma {:induction false} LiveUnlessRemoved(cfg: Settings, s: World, st: Step, e: Id, kind: EntityType)
    requires CanStep(cfg, s, st) && Smooth(s, st) && LiveAs(s.remote.entities, e, kind)
    requires s.remote.entities.Keys <= s.issued
    requires forall w | Holds(s.flow, w) :: !StageOf(s.flow, w).Removing? && Built(OpIn(s.flow, w))
    ensures LiveAs(EntitiesAfter(s, st), e, kind)
  {}

  lemma {:induction false} AnswerLive(cfg: Settings, s: World, st: Step)
    requires SmoothInv(s) && SmoothStep(cfg, s, st) && st.Succeeds? && StageOf(s.flow, st.w).Written?
    requires IsMirrored(OpIn(s.flow, st.w).key.kind)
    ensures LiveAs(EntitiesAfter(s, st), st.id, OpIn(s.flow, st.w).key.kind)
  {
    assert Built(OpIn(s.flow, st.w));
  }

  lemma {:induction false} EntitiesLiveKept(cfg: Settings, s: World, st: Step)
    requires SmoothInv(s) && SmoothStep(cfg, s, st)
    ensures EntitiesLive(Next(s, st))
  {
    var s' := Next(s, st);
    forall k: Key | IsMirrored(k.kind) && HasStoatEntity(Lookup(s'.tables, k))
      ensures LiveAs(s'.remote.entities, Lookup(s'.tables, k).stoatID, k.kind)
    {
      RowIDAfter(s, st, k);
      if Confirming(s, st, k) {
        assert JustAnswered(s, st.w);
      }
      LiveKept(cfg, s, st, Lookup(s'.tables, k).stoatID, k.kind);
    }
    forall w | JustAnswered(s', w)
      ensures LiveAs(s'.remote.entities, StageOf(s'.flow, w).id, OpIn(s'.flow, w).key.kind)
    {
      AnsweredAfter(cfg, s, st, w);
      if StageOf(s'.flow, w) == StageOf(s.flow, w) {
        LiveKept(cfg, s, st, StageOf(s.flow, w).id, OpIn(s.flow, w).key.kind);
      } else {
        AnswerLive(cfg, s, st);
      }
    }
  }

  lemma {:induction false} NoDeletesKept(cfg: Settings, s: World, st: Step)
    requires SmoothInv(s) && SmoothStep(cfg, s, st)
    ensures NoDeletes(Next(s, st).flow.ops)
  {
    MoverOf(s, st);
    MovedFrame(s.flow, MoveOf(s, st));
  }

  lemma {:induction false} SmoothKept(cfg: Settings, s: World, st: Step)
    requires SmoothInv(s) && SmoothStep(cfg, s, st)
    ensures SmoothInv(Next(s, st))
  {
    StepKeepsInv(cfg, s, st);
    WakeupNeverLost(cfg, s, st);
    NoDeletesKept(cfg, s, st);
    PendingKept(cfg, s, st);
    DoneKept(cfg, s, st);
    DepsKept(cfg, s, st);
    EntitiesLiveKept(cfg, s, st);
  }

  /* An answer always exists */

  ghost function Longest(ids: set<Id>): (n: nat)
    ensures forall id :: id in ids ==> |id| <= n
  {
    if ids == {} then 0
    else
      var id :| id in ids;
      var rest := Longest(ids - {id});
      if |id| > rest then |id| else rest
  }

  lemma {:induction false} FreshIDExists(s: World) returns (id: Id)
    ensures Unissued(s, id)
  {
    id := seq(Longest(s.issued) + 1, _ => 'x');
    assert id[0] == 'x' && EVERYONE[0] == 'd';
    assert |id| > Longest(s.issued);
  }

  lemma {:induction false} ResolutionExists(t: Tables, guildID: Id, ow: map<Id, StoatOverwrite>)
    returns (resolved: map<Id, StoatOverwrite>)
    ensures Resolves(t, guildID, ow, resolved)
  {
    var keys := set r | r in ow && Target(t, guildID, r).Some? :: Target(t, guildID, r).value;
    resolved := map k | k in keys :: var r :| r in ow && Target(t, guildID, r) == Some(k); ow[r];
  }

  lemma {:induction false} PushExists(before: map<Id, StoatOverwrite>, ow: map<Id, StoatOverwrite>)
    returns (after: map<Id, StoatOverwrite>)
    ensures Pushed(before, ow, after)
  {
    var written := set r | r in ow :: PermissionKey(r);
    after := before + map k | k in written :: var r :| r in ow && PermissionKey(r) == k; ow[r];
    forall k | k in after ensures WriteOf(before, ow, k, after[k]) {
      if k in written {
        assert exists r :: r in ow && PermissionKey(r) == k && after[k] == ow[r];
      }
    }
  }

  lemma {:induction false} WriteExists(cfg: Settings, t: Tables, op: Op, before: Option<Entity>) returns (after: Entity)
    requires Built(op) && IsMirrored(op.key.kind) && !op.kind.OpDelete?
    requires before.Some? ==> FitsKind(before.value, op.key.kind)
    ensures Wrote(cfg, t, op.desired, before, after)
  {
    match op.desired
    case ToRole(r) =>
      var want := RoleToStoat(r);
      after := LiveRole(if before.Some? then EditedRole(before.value.shape, want) else CreatedRole(want));
    case ToChannel(c) =>
      var perms := if before.Some? then before.value.perms else map[];
      var resolved := ResolutionExists(t, cfg.guildID, OverwritesToStoat(c.overwrites));
      var pushed := PushExists(Granted(perms, cfg.adminRoles, cfg.grant), resolved);
      assert ChannelPushed(cfg, t, OverwritesToStoat(c.overwrites), perms, pushed);
      var created := if c.ctype == Voice then Voice else Text;
      after := LiveChannel(c.name, if before.Some? then before.value.ctype else created, pushed);
    case ToMessage(m) =>
      after := if before.Some? then before.value.(content := m.content)
        else LiveMessage(MessageTarget(t, m), m.content);
  }

  lemma {:induction false} AnswerExists(cfg: Settings, s: World, w: Key) returns (id: Id, after: Entity)
    requires SmoothInv(s) && Holds(s.flow, w) && StageOf(s.flow, w).Written?
    ensures Answers(cfg, s, w, id, after)
  {
    var op, row := OpIn(s.flow, w), RowOf(s, w);
    assert Built(op) && !op.kind.OpDelete?;
    after := LiveMessage("", "");
    if op.key.kind.CategoryEntity? {
      id := op.key.id;
    } else if CreateOrEdit(row).Create? {
      id := FreshIDExists(s);
      after := WriteExists(cfg, s.tables, op, None);
    } else {
      id := row.stoatID;
      assert LiveAs(s.remote.entities, id, op.key.kind);
      after := WriteExists(cfg, s.tables, op, Some(s.remote.entities[id]));
    }
  }

  /* Progress */

  lemma {:induction false} WorkerCanStep(cfg: Settings, s: World, w: Key) returns (st: Step)
    requires SmoothInv(s) && !cfg.dryRun && Holds(s.flow, w)
    ensures Enabled(cfg, s, st) && Smooth(s, st) && !st.SubmitOp?
  {
    assert StageFits(OpIn(s.flow, w), StageOf(s.flow, w), RowOf(s, w));
    assert !OpIn(s.flow, w).kind.OpDelete?;
    match StageOf(s.flow, w)
    case Fresh => st := CheckDeps(w);
    case Ready => st := Decide(w);
    case Intend => st := WriteIntent(w);
    case Written(_) =>
      var id, after := AnswerExists(cfg, s, w);
      st := Succeeds(w, id, after);
    case Applied(_) => st := ConfirmRow(w);
    case Confirmed => st := CollectWaiters(w);
    case Resending(rest) =>
      if rest != [] {
        assert rest[0] in Content(s.flow, Resent(w));
      }
      st := ResendOne(w);
  }

  /** Whatever is not parked or finished can be moved on. */
  lemma {:induction false} Progress(cfg: Settings, s: World, i: nat) returns (st: Step)
    requires SmoothInv(s) && !cfg.dryRun
    requires i < |s.flow.ops| && !s.flow.place[i].Finished? && !s.flow.place[i].Parked?
    ensures SmoothStep(cfg, s, st) && !st.SubmitOp?
  {
    var f := s.flow;
    assert i in Content(f, f.place[i]);
    match f.place[i] {
      case Submitting =>
        var n :| 0 <= n < |f.submitting| && f.submitting[n] == i;
        st := SendOp(n);
      case Queued(w) =>
        if HandOf(f, w).Idle? {
          assert QueueOf(f, w)[0] in Content(f, Queued(w));
          st := TakeOp(w);
        } else {
          assert HandOf(f, w).ticket in Content(f, InHand(w));
          st := WorkerCanStep(cfg, s, w);
        }
      case InHand(w) => st := WorkerCanStep(cfg, s, w);
      case Resent(w) =>
        assert HandOf(f, w).ticket in Content(f, InHand(w));
        st := WorkerCanStep(cfg, s, w);
    }
    StepKeepsInv(cfg, s, st);
  }

  /* Draining */

  ghost predicate Stuck(cfg: Settings, s: World) {
    forall st :: SmoothStep(cfg, s, st) ==> st.SubmitOp?
  }

  // Each dependency has a row or an op that makes one.
  ghost predicate Covered(s: World) {
    forall i, d | 0 <= i < |s.flow.ops| && d in s.flow.ops[i].deps ::
      Lookup(s.tables, d).Found? || exists j :: 0 <= j < |s.flow.ops| && s.flow.ops[j].key == d
  }

  // Roles wait for nothing, channels for roles, categories and messages for channels.
  function Level(kind: EntityType): nat {
    match kind
    case RoleEntity => 0
    case ChannelEntity => 1
    case _ => 2
  }

  lemma {:induction false} Stratified(op: Op, d: Key)
    requires Built(op) && d in op.deps
    ensures Level(d.kind) < Level(op.key.kind)
  {}

  lemma {:induction false} HandsIdle(cfg: Settings, s: World, w: Key)
    requires SmoothInv(s) && !cfg.dryRun && Stuck(cfg, s)
    ensures HandOf(s.flow, w).Idle?
  {
    if HandOf(s.flow, w).Busy? {
      assert HandOf(s.flow, w).ticket in Content(s.flow, InHand(w));
      var st := Progress(cfg, s, HandOf(s.flow, w).ticket);
    }
  }

  lemma {:induction false} FoundIsActive(cfg: Settings, s: World, k: Key)
    requires SmoothInv(s) && !cfg.dryRun && Stuck(cfg, s) && Lookup(s.tables, k).Found?
    ensures IsActive(Lookup(s.tables, k))
  {
    if !IsActive(Lookup(s.tables, k)) {
      var w :| Holds(s.flow, w) && (StageOf(s.flow, w).Written? || StageOf(s.flow, w).Applied?)
        && OpIn(s.flow, w).key == k;
      HandsIdle(cfg, s, w);
    }
  }

  // No op waits for a key of any level: by induction on the level of the key.
  lemma {:induction false} NothingParked(cfg: Settings, s: World, i: nat)
    requires SmoothInv(s) && !cfg.dryRun && Stuck(cfg, s) && Covered(s)
    requires i < |s.flow.ops|
    ensures !s.flow.place[i].Parked?
    decreases Level(s.flow.ops[i].key.kind)
  {
    if s.flow.place[i].Parked? {
      var d := s.flow.place[i].dependency;
      assert i in Content(s.flow, Parked(d)) && d in s.flow.ops[i].deps && Built(s.flow.ops[i]);
      Stratified(s.flow.ops[i], d);
      if IsActive(Lookup(s.tables, d)) {
        var w :| Holds(s.flow, w) && StageOf(s.flow, w).Confirmed? && OpIn(s.flow, w).key == d;
        HandsIdle(cfg, s, w);
      } else if Lookup(s.tables, d).Found? {
        FoundIsActive(cfg, s, d);
      } else {
        var j :| 0 <= j < |s.flow.ops| && s.flow.ops[j].key == d;
        NothingParked(cfg, s, j);
        if !s.flow.place[j].Finished? {
          var st := Progress(cfg, s, j);
        }
      }
    }
  }

  /** A smooth state that can go no further is drained: every op has finished, the wait group is at
      zero, nothing is parked, and every submitted op's row is active. */
  lemma {:induction false} StuckIsDrained(cfg: Settings, s: World)
    requires SmoothInv(s) && !cfg.dryRun && Stuck(cfg, s) && Covered(s)
    ensures s.flow.counter == 0
    ensures forall b :: Content(s.flow, b) == []
    ensures forall i | 0 <= i < |s.flow.ops| :: IsActive(Lookup(s.tables, s.flow.ops[i].key))
  {
    forall i | 0 <= i < |s.flow.ops|
      ensures s.flow.place[i].Finished? && IsActive(Lookup(s.tables, s.flow.ops[i].key))
    {
      NothingParked(cfg, s, i);
      if !s.flow.place[i].Finished? {
        var st := Progress(cfg, s, i);
      }
      FoundIsActive(cfg, s, s.flow.ops[i].key);
    }
    NoneUnfinished(s.flow.place);
    WaitReturnsIffDrained(s.flow);
  }

  ghost predicate SmoothRun(cfg: Settings, s: World, steps: seq<Step>)
    decreases |steps|
  {
    steps == [] || (SmoothStep(cfg, s, steps[0]) && SmoothRun(cfg, Next(s, steps[0]), steps[1..]))
  }

  // A start with every row active and its entity live.
  ghost predicate HealthyStart(s: World) {
    && Initial(s) && EntitiesLive(s)
    && forall k :: Lookup(s.tables, k).Found? ==> IsActive(Lookup(s.tables, k))
  }

  lemma {:induction false} SmoothRunKept(cfg: Settings, s: World, steps: seq<Step>)
    requires SmoothInv(s) && SmoothRun(cfg, s, steps)
    ensures Legal(cfg, s, steps) && SmoothInv(End(cfg, s, steps))
    decreases |steps|
  {
    if steps != [] {
      SmoothKept(cfg, s, steps[0]);
      SmoothRunKept(cfg, Next(s, steps[0]), steps[1..]);
    }
  }

  /** The drain theorem. From a healthy start, any smooth run whose submitted ops depend only on what
      has a row or is itself submitted, and which cannot be continued without a new submission, has
      finished everything; and EveryRunTerminates says that point is reached. */
  lemma {:induction false} EveryMaximalRunDrains(cfg: Settings, s: World, steps: seq<Step>)
    requires HealthyStart(s) && !cfg.dryRun && SmoothRun(cfg, s, steps)
    ensures Legal(cfg, s, steps)
    ensures Stuck(cfg, End(cfg, s, steps)) && Covered(End(cfg, s, steps)) ==>
      var e := End(cfg, s, steps);
      && e.flow.counter == 0 && (forall b :: Content(e.flow, b) == [])
      && forall i | 0 <= i < |e.flow.ops| :: IsActive(Lookup(e.tables, e.flow.ops[i].key))
  {
    InitialInv(s);
    SmoothRunKept(cfg, s, steps);
    var e := End(cfg, s, steps);
    if Stuck(cfg, e) && Covered(e) {
      StuckIsDrained(cfg, e);
    }
  }

  /* Maximal runs of any kind: failures, deletes, rehearsals and refusals included */

  ghost predicate OnlySubmissionsLeft(cfg: Settings, s: World) {
    forall st :: CanStep(cfg, s, st) ==> st.SubmitOp?
  }

  // Whatever a worker is doing, some outcome of its next step is possible.
  lemma {:induction false} BusyWorkerMoves(cfg: Settings, s: World, w: Key) returns (st: Step)
    requires WorldInv(s) && Holds(s.flow, w)
    ensures CanStep(cfg, s, st) && !st.SubmitOp?
  {
    match StageOf(s.flow, w) {
      case Fresh => st := CheckDeps(w);
      case Ready => st := Refuse(w);
      case Intend => st := WriteIntent(w);
      case Written(_) => st := Throttled(w);
      case Removing(_) => st := Throttled(w);
      case Applied(_) => st := ConfirmRow(w);
      case Gone => st := EraseRow(w);
      case Confirmed => st := CollectWaiters(w);
      case Resending(rest) =>
        if rest != [] {
          assert rest[0] in Content(s.flow, Resent(w));
        }
        st := ResendOne(w);
    }
    MoveIsAllowed(cfg, s, st);
  }

  lemma {:induction false} UnparkedMoves(cfg: Settings, s: World, i: nat) returns (st: Step)
    requires WorldInv(s) && i < |s.flow.ops| && !s.flow.place[i].Finished? && !s.flow.place[i].Parked?
    ensures CanStep(cfg, s, st) && !st.SubmitOp?
  {
    var f := s.flow;
    assert i in Content(f, f.place[i]);
    match f.place[i] {
      case Submitting =>
        var n :| 0 <= n < |f.submitting| && f.submitting[n] == i;
        st := SendOp(n);
      case Queued(w) =>
        if HandOf(f, w).Idle? {
          assert QueueOf(f, w)[0] in Content(f, Queued(w));
          st := TakeOp(w);
        } else {
          assert HandOf(f, w).ticket in Content(f, InHand(w));
          st := BusyWorkerMoves(cfg, s, w);
        }
      case InHand(w) => st := BusyWorkerMoves(cfg, s, w);
      case Resent(w) =>
        assert HandOf(f, w).ticket in Content(f, InHand(w));
        st := BusyWorkerMoves(cfg, s, w);
    }
  }

  // Op i is parked on a dependency of its own whose row is not active.
  ghost predicate WaitsOnInactive(s: World, i: nat)
    requires FlowInv(s.flow) && i < |s.flow.ops|
  {
    && s.flow.place[i].Parked? && i in WaitersOf(s.flow, s.flow.place[i].dependency)
    && s.flow.place[i].dependency in s.flow.ops[i].deps
    && !IsActive(Lookup(s.tables, s.flow.place[i].dependency))
  }

  lemma {:induction false} StuckWaits(cfg: Settings, s: World, i: nat)
    requires WorldInv(s) && NoLostWakeup(s) && OnlySubmissionsLeft(cfg, s)
    requires i < |s.flow.ops| && !s.flow.place[i].Finished?
    ensures WaitsOnInactive(s, i)
  {
    if !s.flow.place[i].Parked? {
      var st := UnparkedMoves(cfg, s, i);
    } else {
      var k := s.flow.place[i].dependency;
      assert i in Content(s.flow, Parked(k));
      if WakeupPending(s, k) {
        var w :| Holds(s.flow, w) && StageOf(s.flow, w).Confirmed? && OpIn(s.flow, w).key == k;
        var st := BusyWorkerMoves(cfg, s, w);
      }
    }
  }

  /** What is true of every maximal run, whatever fails and whatever is deleted: an op that has not
      finished is parked on a dependency of its own whose row is not active, and Wait returns exactly
      when no op waits on such a row. */
  lemma {:induction false} EveryMaximalRunWaits(cfg: Settings, s: World, steps: seq<Step>)
    requires Initial(s) && Legal(cfg, s, steps) && OnlySubmissionsLeft(cfg, End(cfg, s, steps))
    ensures var e := End(cfg, s, steps);
      && FlowInv(e.flow)
      && (forall i | 0 <= i < |e.flow.ops| :: e.flow.place[i].Finished? || WaitsOnInactive(e, i))
      && (e.flow.counter == 0 <==> forall k | !IsActive(Lookup(e.tables, k)) :: WaitersOf(e.flow, k) == [])
  {
    InitialInv(s);
    RunKeepsInv(cfg, s, steps);
    NoWakeupLostInAnyRun(cfg, s, steps);
    var e := End(cfg, s, steps);
    forall i | 0 <= i < |e.flow.ops| ensures e.flow.place[i].Finished? || WaitsOnInactive(e, i) {
      if !e.flow.place[i].Finished? {
        StuckWaits(cfg, e, i);
      }
    }
    WaitReturnsIffDrained(e.flow);
    NoneUnfinished(e.flow.place);
    if e.flow.counter == 0 {
      forall k | !IsActive(Lookup(e.tables, k)) ensures WaitersOf(e.flow, k) == [] {
        assert Content(e.flow, Parked(k)) == [];
      }
    }
  }
}
