/** Properties of whole runs of the engine: conservation, identity, one create per row, intent before
    write, orphans and wake-ups, over every interleaving with any failures. */
module EngineRuns {
  import opened Types
  import opened Store
  import opened Flow
  import opened Gateway
  import opened Engine

  ghost predicate Legal(cfg: Settings, s: World, steps: seq<Step>)
    decreases |steps|
  {
    steps == [] || (CanStep(cfg, s, steps[0]) && Legal(cfg, Next(s, steps[0]), steps[1..]))
  }

  ghost function End(cfg: Settings, s: World, steps: seq<Step>): World
    requires Legal(cfg, s, steps)
    decreases |steps|
  {
    if steps == [] then s else End(cfg, Next(s, steps[0]), steps[1..])
  }

  lemma {:induction false} RunExtends(cfg: Settings, s: World, run: seq<Step>, st: Step)
    requires Legal(cfg, s, run) && CanStep(cfg, End(cfg, s, run), st)
    ensures Legal(cfg, s, run + [st]) && End(cfg, s, run + [st]) == Next(End(cfg, s, run), st)
    decreases |run|
  {
    if run == [] {
      assert run + [st] == [st];
      assert Legal(cfg, Next(s, st), [st][1..]);
    } else {
      RunExtends(cfg, Next(s, run[0]), run[1..], st);
      assert (run + [st])[1..] == run[1..] + [st];
    }
  }

  lemma {:induction false} RunKeepsInv(cfg: Settings, s: World, steps: seq<Step>)
    requires WorldInv(s) && Legal(cfg, s, steps)
    ensures WorldInv(End(cfg, s, steps))
    decreases |steps|
  {
    if steps != [] {
      StepKeepsInv(cfg, s, steps[0]);
      RunKeepsInv(cfg, Next(s, steps[0]), steps[1..]);
    }
  }

  lemma {:induction false} OpsGrow(cfg: Settings, s: World, steps: seq<Step>)
    requires Legal(cfg, s, steps)
    ensures s.flow.ops <= End(cfg, s, steps).flow.ops
    decreases |steps|
  {
    if steps != [] {
      MoverOf(s, steps[0]);
      MovedFrame(s.flow, MoveOf(s, steps[0]));
      OpsGrow(cfg, Next(s, steps[0]), steps[1..]);
    }
  }

  lemma {:induction false} RunSplits(cfg: Settings, s: World, steps: seq<Step>, n: nat)
    requires Legal(cfg, s, steps) && n <= |steps|
    ensures Legal(cfg, s, steps[..n]) && Legal(cfg, End(cfg, s, steps[..n]), steps[n..])
    ensures End(cfg, End(cfg, s, steps[..n]), steps[n..]) == End(cfg, s, steps)
    decreases |steps|
  {
    if n > 0 {
      RunSplits(cfg, Next(s, steps[0]), steps[1..], n - 1);
      assert steps[..n][1..] == steps[1..][..n - 1];
    } else {
      assert steps[n..] == steps && steps[..n] == [];
    }
  }

  /* Conservation */

  /** However far a run has come, an unfinished op is in exactly one place, once, a finished one is
      nowhere, and the wait group opens exactly when every queue, hand and waiters list is empty. */
  lemma {:induction false} OpsConserved(cfg: Settings, s: World, steps: seq<Step>, i: nat)
    requires Initial(s) && Legal(cfg, s, steps) && i < |End(cfg, s, steps).flow.ops|
    ensures var f := End(cfg, s, steps).flow;
      && i < |f.place|
      && (f.place[i].Finished? ==> forall b :: i !in Content(f, b))
      && (!f.place[i].Finished? ==> FoundOnceAt(f, i, f.place[i]) && forall b ::
          b != f.place[i] ==> i !in Content(f, b))
      && (f.counter == 0 <==> forall b :: Content(f, b) == [])
      && f.counter == Unfinished(f.place)
  {
    InitialInv(s);
    RunKeepsInv(cfg, s, steps);
    Conservation(End(cfg, s, steps).flow, i);
    WaitReturnsIffDrained(End(cfg, s, steps).flow);
  }

  /** wg.Done runs once per op: a step takes at most one off the counter, for an op that never
      returns to any place. */
  lemma {:induction false} FinishIsFinal(cfg: Settings, s: World, st: Step, i: nat)
    requires WorldInv(s) && CanStep(cfg, s, st) && i < |s.flow.ops| && s.flow.place[i].Finished?
    ensures Next(s, st).flow.place[i].Finished?
    ensures Next(s, st).flow.counter >= s.flow.counter - 1
  {
    FinishedStays(s.flow, MoveOf(s, st), i);
  }

  lemma {:induction false} FinishedStays(f: Flow, m: Move, i: nat)
    requires FlowInv(f) && MoveAllowed(f, m) && i < |f.place| && f.place[i].Finished?
    ensures i < |Moved(f, m).place| && Moved(f, m).place[i].Finished? && Moved(f, m).counter >= f.counter - 1
  {
    match m
    case Sending(n) => assert f.submitting[n] in Content(f, Submitting);
    case Taking(w) => assert QueueOf(f, w)[0] in Content(f, Queued(w));
    case Parking(w, _) => assert HandOf(f, w).ticket in Content(f, InHand(w));
    case Finishing(w) => assert HandOf(f, w).ticket in Content(f, InHand(w));
    case ResendingOne(w) => assert StageOf(f, w).rest[0] in Content(f, Resent(w));
    case _ =>
  }

  /* Identity */

  predicate Erases(s: World, st: Step, k: Key) {
    st.EraseRow? && Holds(s.flow, st.w) && OpIn(s.flow, st.w).key == k
  }

  /** A mirrored row's id, once there, never changes until the row is removed. */
  lemma {:induction false} IdentityStable(cfg: Settings, s: World, st: Step, k: Key)
    requires WorldInv(s) && CanStep(cfg, s, st) && IsMirrored(k.kind) && HasStoatEntity(Lookup(s.tables, k))
    ensures var row := Lookup(Next(s, st).tables, k);
      if row.Found? then row.stoatID == Lookup(s.tables, k).stoatID else Erases(s, st, k)
  {
    if st.SubmitOp? || st.SendOp? || st.TakeOp? || k != OpIn(s.flow, st.w).key {
      TablesFrame(s, st, k);
    }
  }

  // k has its Stoat id: in its row, or answered and about to be confirmed.
  ghost predicate Settled(s: World, k: Key) {
    HasStoatEntity(Lookup(s.tables, k)) || exists w :: JustAnswered(s, w) && OpIn(s.flow, w).key == k
  }

  // e is k's entity: its row or an answer about to be confirmed says so.
  ghost predicate OwnedBy(s: World, k: Key, e: Id) {
    || (HasStoatEntity(Lookup(s.tables, k)) && Lookup(s.tables, k).stoatID == e)
    || (exists w :: JustAnswered(s, w) && OpIn(s.flow, w).key == k && StageOf(s.flow, w).id == e)
  }

  predicate CreatesFor(s: World, st: Step, k: Key) {
    st.Succeeds? && Holds(s.flow, st.w) && Birth(s, st).Some? && OpIn(s.flow, st.w).key == k
  }

  lemma {:induction false} CreateSettles(cfg: Settings, s: World, st: Step, k: Key)
    requires WorldInv(s) && CanStep(cfg, s, st) && IsMirrored(k.kind) && CreatesFor(s, st, k)
    ensures Settled(Next(s, st), k) && !Settled(s, k)
  {
    MoverOf(s, st);
    MovedFrame(s.flow, MoveOf(s, st));
    assert JustAnswered(Next(s, st), st.w) && OpIn(Next(s, st).flow, st.w).key == k;
    if w :| JustAnswered(s, w) && OpIn(s.flow, w).key == k {
      KeysApart(s, w, st.w);
    }
  }

  lemma {:induction false} AnswerKept(cfg: Settings, s: World, st: Step, w: Key)
    requires WorldInv(s) && CanStep(cfg, s, st) && JustAnswered(s, w)
    ensures OwnedBy(Next(s, st), OpIn(s.flow, w).key, StageOf(s.flow, w).id)
  {
    if st.SubmitOp? || st.SendOp? || w != st.w {
      OtherHandKept(s, st, w);
      assert JustAnswered(Next(s, st), w);
    } else {
      OwnAnswerKept(cfg, s, st);
    }
  }

  // The worker itself can only confirm its answer.
  lemma {:induction false} OwnAnswerKept(cfg: Settings, s: World, st: Step)
    requires WorldInv(s) && CanStep(cfg, s, st) && !st.SubmitOp? && !st.SendOp? && JustAnswered(s, st.w)
    ensures HasStoatEntity(Lookup(TablesAfter(s, st), OpIn(s.flow, st.w).key))
    ensures Lookup(TablesAfter(s, st), OpIn(s.flow, st.w).key).stoatID == StageOf(s.flow, st.w).id
  {
    assert st.ConfirmRow? && StageFits(OpIn(s.flow, st.w), StageOf(s.flow, st.w), RowOf(s, st.w));
  }

  lemma {:induction false} SettledKept(cfg: Settings, s: World, st: Step, k: Key)
    requires WorldInv(s) && CanStep(cfg, s, st) && IsMirrored(k.kind) && !Erases(s, st, k)
    ensures Settled(s, k) ==> Settled(Next(s, st), k) && !CreatesFor(s, st, k)
    ensures CreatesFor(s, st, k) ==> Settled(Next(s, st), k)
  {
    if CreatesFor(s, st, k) {
      CreateSettles(cfg, s, st, k);
    } else if HasStoatEntity(Lookup(s.tables, k)) {
      IdentityStable(cfg, s, st, k);
    } else if w :| JustAnswered(s, w) && OpIn(s.flow, w).key == k {
      AnswerKept(cfg, s, st, w);
    }
  }

  // Creates reported for k along a run that does not remove its row.
  ghost function CreateCount(cfg: Settings, s: World, steps: seq<Step>, k: Key): nat
    requires Legal(cfg, s, steps)
    decreases |steps|
  {
    if steps == [] then 0
    else (if CreatesFor(s, steps[0], k) then 1 else 0) + CreateCount(cfg, Next(s, steps[0]), steps[1..], k)
  }

  ghost predicate NeverErased(cfg: Settings, s: World, steps: seq<Step>, k: Key)
    requires Legal(cfg, s, steps)
    decreases |steps|
  {
    steps == [] || (!Erases(s, steps[0], k) && NeverErased(cfg, Next(s, steps[0]), steps[1..], k))
  }

  /** Between two removals of a row at most one create succeeds for it, none if it had an id to begin
      with, and the id it has it keeps, whatever fails and however the workers interleave. */
  lemma {:induction false} AtMostOneCreate(cfg: Settings, s: World, steps: seq<Step>, k: Key)
    requires WorldInv(s) && Legal(cfg, s, steps) && IsMirrored(k.kind) && NeverErased(cfg, s, steps, k)
    ensures CreateCount(cfg, s, steps, k) <= if Settled(s, k) then 0 else 1
    ensures Settled(s, k) || CreateCount(cfg, s, steps, k) == 1 ==> Settled(End(cfg, s, steps), k)
    ensures HasStoatEntity(Lookup(s.tables, k)) ==>
      HasStoatEntity(Lookup(End(cfg, s, steps).tables, k))
      && Lookup(End(cfg, s, steps).tables, k).stoatID == Lookup(s.tables, k).stoatID
    decreases |steps|
  {
    if steps != [] {
      StepKeepsInv(cfg, s, steps[0]);
      SettledKept(cfg, s, steps[0], k);
      if HasStoatEntity(Lookup(s.tables, k)) {
        IdentityStable(cfg, s, steps[0], k);
      }
      AtMostOneCreate(cfg, Next(s, steps[0]), steps[1..], k);
    }
  }

  /** Two mirrored entities never share a Stoat id. */
  lemma {:induction false} IdsInjective(cfg: Settings, s: World, steps: seq<Step>)
    requires Initial(s) && Legal(cfg, s, steps)
    ensures RowsDistinct(End(cfg, s, steps).tables)
  {
    InitialInv(s);
    RunKeepsInv(cfg, s, steps);
  }

  /** Write-ahead: whatever a remote create or edit does, its row already holds the op's own
      canonical state, pending (a message row with an id reads active throughout). */
  lemma {:induction false} IntentPrecedesWrite(cfg: Settings, s: World, st: Step)
    requires WorldInv(s) && CanStep(cfg, s, st)
    requires st.Succeeds? || st.Fails? || st.Loses?
    requires !OpIn(s.flow, st.w).kind.OpDelete?
    ensures RowOf(s, st.w).Found? && RowOf(s, st.w).state == StateOf(OpIn(s.flow, st.w))
    ensures RowOf(s, st.w).status.Pending? || OpIn(s.flow, st.w).key.kind.MessageEntity?
  {
    assert StageFits(OpIn(s.flow, st.w), StageOf(s.flow, st.w), RowOf(s, st.w));
  }

  /* Wake-ups */

  // A worker stands between its Confirm of k and its notify of k.
  ghost predicate WakeupPending(s: World, k: Key) {
    exists w :: Holds(s.flow, w) && StageOf(s.flow, w).Confirmed? && OpIn(s.flow, w).key == k
  }

  ghost predicate NoLostWakeup(s: World) {
    forall k, i | i in WaitersOf(s.flow, k) :: !IsActive(Lookup(s.tables, k)) || WakeupPending(s, k)
  }

  lemma {:induction false} ActiveOnlyByConfirm(s: World, st: Step, k: Key)
    requires Addressed(s.flow, st) && IsActive(Lookup(TablesAfter(s, st), k))
    ensures IsActive(Lookup(s.tables, k)) || Confirming(s, st, k)
  {}

  lemma {:induction false} WakeupKept(cfg: Settings, s: World, st: Step, k: Key)
    requires WorldInv(s) && CanStep(cfg, s, st)
    requires WakeupPending(s, k) || Confirming(s, st, k)
    requires !(st.CollectWaiters? && OpIn(s.flow, st.w).key == k)
    ensures WakeupPending(Next(s, st), k)
  {
    if Confirming(s, st, k) {
      ConfirmedWakes(cfg, s, st, k);
    } else {
      var w :| Holds(s.flow, w) && StageOf(s.flow, w).Confirmed? && OpIn(s.flow, w).key == k;
      OtherHandKept(s, st, w);
      assert Holds(Next(s, st).flow, w) && StageOf(Next(s, st).flow, w).Confirmed?
             && OpIn(Next(s, st).flow, w).key == k;
    }
  }

  lemma {:induction false} ConfirmedWakes(cfg: Settings, s: World, st: Step, k: Key)
    requires WorldInv(s) && CanStep(cfg, s, st) && Confirming(s, st, k)
    ensures WakeupPending(Next(s, st), k)
  {
    var f' := Next(s, st).flow;
    assert Holds(f', st.w) && StageOf(f', st.w).Confirmed? && OpIn(f', st.w).key == k;
  }

  lemma {:induction false} ParkedBecauseUnmet(cfg: Settings, s: World, st: Step, k: Key)
    requires WorldInv(s) && CanStep(cfg, s, st)
    ensures WaitersOf(Next(s, st).flow, k) == WaitersOf(s.flow, k)
         || (st.CheckDeps? && !IsActive(Lookup(s.tables, k)) && TablesAfter(s, st) == s.tables)
         || WaitersOf(Next(s, st).flow, k) == []
    ensures st.CollectWaiters? && OpIn(s.flow, st.w).key == k ==> WaitersOf(Next(s, st).flow, k) == []
  {
    MovedWaiters(s.flow, MoveOf(s, st), k);
    WaitersMoves(s, st);
    if st.CheckDeps? {
      FirstUnmetSpec(s.tables, OpIn(s.flow, st.w).deps);
    }
  }

  lemma {:induction false} WaitersMoves(s: World, st: Step)
    requires Addressed(s.flow, st)
    ensures MoveOf(s, st).Parking? ==>
      st.CheckDeps? && FirstUnmet(s.tables, OpIn(s.flow, st.w).deps) == Some(MoveOf(s, st).dependency)
    ensures MoveOf(s, st).Collecting? <==> st.CollectWaiters?
    ensures st.CollectWaiters? ==> MoveOf(s, st).dependency == OpIn(s.flow, st.w).key
  {}

  /** With the dependency check and the parking in one step, an op parked on k always has a reason:
      k's row is not active, or the worker that activated it has yet to collect the waiters. */
  lemma {:induction false} WakeupNeverLost(cfg: Settings, s: World, st: Step)
    requires WorldInv(s) && NoLostWakeup(s) && CanStep(cfg, s, st)
    ensures NoLostWakeup(Next(s, st))
  {
    var s' := Next(s, st);
    forall k, i | i in WaitersOf(s'.flow, k) ensures !IsActive(Lookup(s'.tables, k)) || WakeupPending(s', k) {
      ParkedBecauseUnmet(cfg, s, st, k);
      if IsActive(Lookup(s'.tables, k)) {
        ActiveOnlyByConfirm(s, st, k);
        WakeupKept(cfg, s, st, k);
      }
    }
  }

  lemma {:induction false} NoWakeupLostInAnyRun(cfg: Settings, s: World, steps: seq<Step>)
    requires WorldInv(s) && NoLostWakeup(s) && Legal(cfg, s, steps)
    ensures NoLostWakeup(End(cfg, s, steps))
    decreases |steps|
  {
    if steps != [] {
      StepKeepsInv(cfg, s, steps[0]);
      WakeupNeverLost(cfg, s, steps[0]);
      NoWakeupLostInAnyRun(cfg, Next(s, steps[0]), steps[1..]);
    }
  }

  /* Orphans: entities the engine created that no row and no pending confirm knows */

  ghost predicate Orphan(s: World, e: Id) {
    e in s.creator && e in s.remote.entities && !OwnedBy(s, s.creator[e], e)
  }

  // A delete that found an active row has removed its entity.
  ghost predicate ErasedGone(s: World) {
    forall w | Holds(s.flow, w) && StageOf(s.flow, w).Gone? && IsMirrored(OpIn(s.flow, w).key.kind)
      && IsActive(RowOf(s, w)) ::
      RowOf(s, w).stoatID !in s.remote.entities
  }

  // Created entities sit in the row they were created for.
  ghost predicate OwnersInv(s: World) {
    && (forall k: Key | IsMirrored(k.kind) && HasStoatEntity(Lookup(s.tables, k))
        && Lookup(s.tables, k).stoatID in s.creator ::
          s.creator[Lookup(s.tables, k).stoatID] == k)
    && (forall w | JustAnswered(s, w) && StageOf(s.flow, w).id in s.creator ::
          s.creator[StageOf(s.flow, w).id] == OpIn(s.flow, w).key)
    && ErasedGone(s)
    && (forall e | e in s.creator :: IsMirrored(s.creator[e].kind))
  }

  lemma {:induction false} OwnersOfRows(cfg: Settings, s: World, st: Step, k: Key)
    requires WorldInv(s) && OwnersInv(s) && CanStep(cfg, s, st)
    requires IsMirrored(k.kind) && HasStoatEntity(Lookup(TablesAfter(s, st), k))
    requires Lookup(TablesAfter(s, st), k).stoatID in Next(s, st).creator
    ensures Next(s, st).creator[Lookup(TablesAfter(s, st), k).stoatID] == k
  {
    RowIDAfter(s, st, k);
  }

  lemma {:induction false} OwnersOfAnswers(cfg: Settings, s: World, st: Step, w: Key)
    requires WorldInv(s) && OwnersInv(s) && CanStep(cfg, s, st)
    requires JustAnswered(Next(s, st), w) && StageOf(Next(s, st).flow, w).id in Next(s, st).creator
    ensures Next(s, st).creator[StageOf(Next(s, st).flow, w).id] == OpIn(Next(s, st).flow, w).key
  {
    AnsweredAfter(cfg, s, st, w);
  }

  // Entities appear only by birth.
  lemma {:induction false} EntityOrigin(cfg: Settings, s: World, st: Step, e: Id)
    requires CanStep(cfg, s, st) && e in EntitiesAfter(s, st)
    ensures e in s.remote.entities || Birth(s, st) == Some(e)
  {}

  lemma {:induction false} GoneStaysGone(cfg: Settings, s: World, st: Step, w: Key)
    requires WorldInv(s) && ErasedGone(s) && CanStep(cfg, s, st)
    requires Holds(Next(s, st).flow, w) && StageOf(Next(s, st).flow, w).Gone?
    requires IsMirrored(OpIn(Next(s, st).flow, w).key.kind) && IsActive(RowOf(Next(s, st), w))
    ensures RowOf(Next(s, st), w).stoatID !in EntitiesAfter(s, st)
  {
    if st.SubmitOp? || st.SendOp? || w != st.w {
      OtherHandWas(s, st, w);
      OtherGoneStaysGone(cfg, s, st, w);
    } else {
      OwnGoneIsGone(cfg, s, st);
    }
  }

  // A delete that just succeeded took the active row's entity away.
  lemma {:induction false} OwnGoneIsGone(cfg: Settings, s: World, st: Step)
    requires CanStep(cfg, s, st) && !st.SubmitOp? && !st.SendOp? && !st.TakeOp?
    requires Holds(Next(s, st).flow, st.w) && StageOf(Next(s, st).flow, st.w).Gone?
    requires IsMirrored(OpIn(Next(s, st).flow, st.w).key.kind) && IsActive(RowOf(Next(s, st), st.w))
    ensures RowOf(Next(s, st), st.w).stoatID !in EntitiesAfter(s, st)
  {
    assert st.Succeeds?;
  }

  // Another worker's step leaves the row alone and creates under a fresh id only.
  lemma {:induction false} OtherGoneStaysGone(cfg: Settings, s: World, st: Step, w: Key)
    requires WorldInv(s) && ErasedGone(s) && CanStep(cfg, s, st) && (st.SubmitOp? || st.SendOp? || w != st.w)
    requires Holds(s.flow, w) && StageOf(s.flow, w).Gone? && IsMirrored(OpIn(s.flow, w).key.kind)
    requires IsActive(Lookup(TablesAfter(s, st), OpIn(s.flow, w).key))
    ensures Lookup(TablesAfter(s, st), OpIn(s.flow, w).key).stoatID !in EntitiesAfter(s, st)
  {
    var k := OpIn(s.flow, w).key;
    if !st.SubmitOp? && !st.SendOp? && !st.TakeOp? {
      KeysApart(s, w, st.w);
    }
    TablesFrame(s, st, k);
    if Lookup(s.tables, k).stoatID in EntitiesAfter(s, st) {
      EntityOrigin(cfg, s, st, Lookup(s.tables, k).stoatID);
      assert HasStoatEntity(Lookup(s.tables, k));
    }
  }

  lemma {:induction false} OwnersKept(cfg: Settings, s: World, st: Step)
    requires WorldInv(s) && OwnersInv(s) && CanStep(cfg, s, st)
    ensures OwnersInv(Next(s, st))
  {
    var s' := Next(s, st);
    forall k: Key | IsMirrored(k.kind) && HasStoatEntity(Lookup(s'.tables, k))
      && Lookup(s'.tables, k).stoatID in s'.creator
      ensures s'.creator[Lookup(s'.tables, k).stoatID] == k
    {
      OwnersOfRows(cfg, s, st, k);
    }
    forall w | JustAnswered(s', w) && StageOf(s'.flow, w).id in s'.creator
      ensures s'.creator[StageOf(s'.flow, w).id] == OpIn(s'.flow, w).key
    {
      OwnersOfAnswers(cfg, s, st, w);
    }
    forall w | Holds(s'.flow, w) && StageOf(s'.flow, w).Gone? && IsMirrored(OpIn(s'.flow, w).key.kind)
      && IsActive(RowOf(s', w))
      ensures RowOf(s', w).stoatID !in s'.remote.entities
    {
      GoneStaysGone(cfg, s, st, w);
    }
  }

  // The row goes while its entity lives: the delete op found a pending row and did nothing on Stoat.
  predicate Abandons(s: World, st: Step, e: Id) {
    && st.EraseRow? && Holds(s.flow, st.w) && WithRemoval(s.tables, OpIn(s.flow, st.w).key).Ok?
    && IsMirrored(OpIn(s.flow, st.w).key.kind)
    && HasStoatEntity(RowOf(s, st.w)) && RowOf(s, st.w).stoatID == e && RowOf(s, st.w).status.Pending?
    && e in s.creator && e in s.remote.entities
  }

  predicate Drops(st: Step, e: Id) {
    st.Loses? && st.id == e
  }

  lemma {:induction false} OwnershipGained(cfg: Settings, s: World, st: Step, k: Key, e: Id)
    requires WorldInv(s) && CanStep(cfg, s, st) && IsMirrored(k.kind)
    requires OwnedBy(Next(s, st), k, e) && e in s.issued
    ensures OwnedBy(s, k, e)
  {
    var s' := Next(s, st);
    if HasStoatEntity(Lookup(s'.tables, k)) && Lookup(s'.tables, k).stoatID == e {
      RowIDAfter(s, st, k);
      if Confirming(s, st, k) {
        assert JustAnswered(s, st.w) && StageOf(s.flow, st.w).id == e;
      }
    } else {
      var w :| JustAnswered(s', w) && OpIn(s'.flow, w).key == k && StageOf(s'.flow, w).id == e;
      AnsweredAfter(cfg, s, st, w);
      if StageOf(s.flow, w) == StageOf(s'.flow, w) {
        assert JustAnswered(s, w) && StageOf(s.flow, w).id == e;
      }
    }
  }

  lemma {:induction false} OwnershipLost(cfg: Settings, s: World, st: Step, k: Key, e: Id)
    requires WorldInv(s) && CanStep(cfg, s, st) && IsMirrored(k.kind)
    requires OwnedBy(s, k, e) && !OwnedBy(Next(s, st), k, e)
    ensures Erases(s, st, k) && WithRemoval(s.tables, k).Ok? && HasStoatEntity(Lookup(s.tables, k))
    ensures Lookup(s.tables, k).stoatID == e
  {
    if HasStoatEntity(Lookup(s.tables, k)) && Lookup(s.tables, k).stoatID == e {
      IdentityStable(cfg, s, st, k);
    } else {
      var w :| JustAnswered(s, w) && OpIn(s.flow, w).key == k && StageOf(s.flow, w).id == e;
      AnswerKept(cfg, s, st, w);
    }
  }

  lemma {:induction false} EntityGone(cfg: Settings, s: World, st: Step, e: Id)
    requires WorldInv(s) && OwnersInv(s) && CanStep(cfg, s, st)
    requires e in s.creator && e in s.remote.entities && e !in EntitiesAfter(s, st)
    ensures OwnedBy(s, s.creator[e], e)
  {
    assert st.Succeeds? && StageOf(s.flow, st.w).Removing?;
  }

  lemma {:induction false} BirthOwnedOrDropped(cfg: Settings, s: World, st: Step, e: Id)
    requires WorldInv(s) && CanStep(cfg, s, st) && Birth(s, st) == Some(e)
    ensures e !in s.issued && OwnedBy(Next(s, st), Next(s, st).creator[e], e) != Drops(st, e)
  {
    var k := OpIn(s.flow, st.w).key;
    if st.Succeeds? {
      CreateSettles(cfg, s, st, k);
      assert JustAnswered(Next(s, st), st.w) && StageOf(Next(s, st).flow, st.w).id == e;
    } else {
      if w :| JustAnswered(Next(s, st), w) && StageOf(Next(s, st).flow, w).id == e {
        AnsweredAfter(cfg, s, st, w);
      }
      if Lookup(Next(s, st).tables, k).Found? && Lookup(Next(s, st).tables, k).stoatID == e {
        RowIDAfter(s, st, k);
      }
    }
  }

  /** Exactly two things orphan an entity on Stoat: a create that lands but is reported as an error,
      and a delete op that meets a pending row. Once orphaned, always orphaned. */
  lemma {:induction false} OrphanSources(cfg: Settings, s: World, st: Step, e: Id)
    requires WorldInv(s) && OwnersInv(s) && CanStep(cfg, s, st)
    ensures Orphan(Next(s, st), e) <==> Orphan(s, e) || Drops(st, e) || Abandons(s, st, e)
  {
    var s' := Next(s, st);
    if Birth(s, st) == Some(e) {
      BirthOwnedOrDropped(cfg, s, st, e);
    } else if e in s.creator {
      var k := s.creator[e];
      assert s'.creator[e] == k;
      if e in s'.remote.entities {
        EntityOrigin(cfg, s, st, e);
      } else if e in s.remote.entities {
        EntityGone(cfg, s, st, e);
      }
      if OwnedBy(s', k, e) {
        OwnershipGained(cfg, s, st, k, e);
        if Abandons(s, st, e) {
          AbandonedUnowned(cfg, s, st, e);
        }
      } else if OwnedBy(s, k, e) {
        OwnershipLost(cfg, s, st, k, e);
      }
    }
  }

  lemma {:induction false} AbandonedUnowned(cfg: Settings, s: World, st: Step, e: Id)
    requires WorldInv(s) && OwnersInv(s) && CanStep(cfg, s, st) && Abandons(s, st, e)
    ensures !OwnedBy(Next(s, st), s.creator[e], e) && e in EntitiesAfter(s, st)
  {
    var k := OpIn(s.flow, st.w).key;
    assert s.creator[e] == k;
    if w :| JustAnswered(Next(s, st), w) && OpIn(Next(s, st).flow, w).key == k {
      AnsweredAfter(cfg, s, st, w);
      KeysApart(s, w, st.w);
    }
  }

  ghost predicate MakesOrphan(s: World, st: Step) {
    exists e :: Drops(st, e) || Abandons(s, st, e)
  }

  ghost predicate HasOrphan(s: World) {
    exists e :: Orphan(s, e)
  }

  ghost predicate SomeStepOrphans(cfg: Settings, s: World, steps: seq<Step>)
    requires Legal(cfg, s, steps)
    decreases |steps|
  {
    steps != [] && (MakesOrphan(s, steps[0]) || SomeStepOrphans(cfg, Next(s, steps[0]), steps[1..]))
  }

  lemma {:induction false} OrphanStep(cfg: Settings, s: World, st: Step)
    requires WorldInv(s) && OwnersInv(s) && CanStep(cfg, s, st)
    ensures HasOrphan(Next(s, st)) <==> HasOrphan(s) || MakesOrphan(s, st)
  {
    if HasOrphan(s) || MakesOrphan(s, st) {
      OrphanComes(cfg, s, st);
    }
    if e :| Orphan(Next(s, st), e) {
      OrphanSources(cfg, s, st, e);
    }
  }

  lemma {:induction false} OrphanComes(cfg: Settings, s: World, st: Step)
    requires WorldInv(s) && OwnersInv(s) && CanStep(cfg, s, st) && (HasOrphan(s) || MakesOrphan(s, st))
    ensures HasOrphan(Next(s, st))
  {
    var e :| Orphan(s, e) || Drops(st, e) || Abandons(s, st, e);
    OrphanSources(cfg, s, st, e);
  }

  /** Over a whole run: Stoat ends up with an orphan exactly if one of those two steps occurred. */
  lemma {:induction false} OrphanFreeIff(cfg: Settings, s: World, steps: seq<Step>)
    requires WorldInv(s) && OwnersInv(s) && Legal(cfg, s, steps)
    ensures HasOrphan(End(cfg, s, steps)) <==> HasOrphan(s) || SomeStepOrphans(cfg, s, steps)
    decreases |steps|
  {
    if steps != [] {
      StepKeepsInv(cfg, s, steps[0]);
      OwnersKept(cfg, s, steps[0]);
      OrphanStep(cfg, s, steps[0]);
      OrphanFreeIff(cfg, Next(s, steps[0]), steps[1..]);
    }
  }

  /* A start that owns what its rows already name */

  ghost function BoundKeys(t: Tables): set<Key> {
    (set k: Key | k in t.rows.Keys && IsMirrored(k.kind) && HasStoatEntity(Lookup(t, k)))
    + (set m | m in t.messages.Keys && HasStoatEntity(Lookup(t, Key(MessageEntity, m))) :: Key(MessageEntity, m))
  }

  ghost function BoundIDs(t: Tables): set<Id> {
    set k | k in BoundKeys(t) && HasStoatEntity(Lookup(t, k)) :: Lookup(t, k).stoatID
  }

  // Every entity a mirrored row names, as if created for that row.
  ghost function OwnersOf(t: Tables): map<Id, Key> {
    map e | e in BoundIDs(t) ::
      var k :| k in BoundKeys(t) && HasStoatEntity(Lookup(t, k)) && Lookup(t, k).stoatID == e; k
  }

  ghost predicate Names(t: Tables, k: Key, e: Id) {
    IsMirrored(k.kind) && HasStoatEntity(Lookup(t, k)) && Lookup(t, k).stoatID == e
  }

  lemma {:induction false} OwnersOfNames(t: Tables)
    requires RowsDistinct(t)
    ensures forall e, k :: e in OwnersOf(t) && OwnersOf(t)[e] == k <==> Names(t, k, e)
  {
    forall k: Key | IsMirrored(k.kind) && HasStoatEntity(Lookup(t, k))
      ensures k in BoundKeys(t) && Lookup(t, k).stoatID in BoundIDs(t)
    {}
  }

  lemma {:induction false} AdoptedStart(s: World)
    requires Initial(s)
    ensures var s' := s.(creator := OwnersOf(s.tables)); WorldInv(s') && OwnersInv(s') && !HasOrphan(s')
  {
    var s' := s.(creator := OwnersOf(s.tables));
    InitialInv(s);
    OwnersOfNames(s.tables);
    forall e | e in s'.creator
      ensures IsMirrored(s'.creator[e].kind) && e in s.issued && OwnedBy(s', s'.creator[e], e)
    {
      assert Names(s.tables, s'.creator[e], e);
    }
    forall k: Key | IsMirrored(k.kind) && HasStoatEntity(Lookup(s.tables, k))
      && Lookup(s.tables, k).stoatID in s'.creator
      ensures s'.creator[Lookup(s.tables, k).stoatID] == k
    {
      assert Names(s.tables, k, Lookup(s.tables, k).stoatID);
    }
  }

  /** From any start, counting the entities of all rows bound before it as well as those the run creates:
      one of them is left on Stoat without a row exactly if one of the two steps occurred. */
  lemma {:induction false} OrphanFreeFromStartIff(cfg: Settings, s: World, steps: seq<Step>)
    requires Initial(s) && Legal(cfg, s.(creator := OwnersOf(s.tables)), steps)
    ensures forall k, e | Names(s.tables, k, e) :: e in OwnersOf(s.tables) && OwnersOf(s.tables)[e] == k
    ensures HasOrphan(End(cfg, s.(creator := OwnersOf(s.tables)), steps)) <==>
            SomeStepOrphans(cfg, s.(creator := OwnersOf(s.tables)), steps)
  {
    AdoptedStart(s);
    OwnersOfNames(s.tables);
    OrphanFreeIff(cfg, s.(creator := OwnersOf(s.tables)), steps);
  }
}
