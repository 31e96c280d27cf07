/** The counterpart of orphans: a row that names an entity Stoat no longer has. Over every run that is so
    exactly between a delete's call and the removal of its row, or after the store refused that removal,
    for as long as the row is not removed after all. */
module EngineHollow {
  import opened Types
  import opened Store
  import opened Flow
  import opened Gateway
  import opened Engine
  import opened EngineRuns

  // k's row names an entity that is not there.
  ghost predicate Hollow(s: World, k: Key) {
    IsMirrored(k.kind) && HasStoatEntity(Lookup(s.tables, k)) && Lookup(s.tables, k).stoatID !in s.remote.entities
  }

  // A worker has deleted the entity of k's active row and is about to remove the row.
  ghost predicate Erasing(s: World, k: Key) {
    IsActive(Lookup(s.tables, k)) && exists w :: GoneAt(s, w, k)
  }

  predicate GoneAt(s: World, w: Key, k: Key) {
    Holds(s.flow, w) && StageOf(s.flow, w).Gone? && OpIn(s.flow, w).key == k
  }

  // Hollow, with nobody about to remove the row.
  ghost predicate Stale(s: World, k: Key) {
    Hollow(s, k) && !Erasing(s, k)
  }

  predicate Removes(s: World, st: Step, k: Key) {
    Erases(s, st, k) && WithRemoval(s.tables, k).Ok?
  }

  // The removal of an active row is refused after its entity was deleted: message rows refer to it.
  predicate Refuses(s: World, st: Step, k: Key) {
    && Erases(s, st, k) && WithRemoval(s.tables, k).Err? && IsMirrored(k.kind)
    && IsActive(Lookup(s.tables, k)) && HasStoatEntity(Lookup(s.tables, k))
  }

  /* Entities that are being erased are gone, entities being confirmed are there */

  ghost predicate GoneInv(s: World) {
    && (forall w | JustAnswered(s, w) :: StageOf(s.flow, w).id in s.remote.entities)
    && ErasedGone(s)
  }

  // An entity disappears only by the delete of the active row that names it.
  lemma {:induction false} EntityLost(cfg: Settings, s: World, st: Step, e: Id)
    requires CanStep(cfg, s, st) && e in s.remote.entities && e !in EntitiesAfter(s, st)
    ensures st.Succeeds? && StageOf(s.flow, st.w).Removing? && IsMirrored(OpIn(s.flow, st.w).key.kind)
    ensures IsActive(RowOf(s, st.w)) && RowOf(s, st.w).stoatID == e
  {}

  lemma {:induction false} AnswersStayLive(cfg: Settings, s: World, st: Step, w: Key)
    requires WorldInv(s) && GoneInv(s) && CanStep(cfg, s, st) && JustAnswered(Next(s, st), w)
    ensures StageOf(Next(s, st).flow, w).id in EntitiesAfter(s, st)
  {
    AnsweredAfter(cfg, s, st, w);
    var id := StageOf(Next(s, st).flow, w).id;
    if JustAnswered(s, w) && StageOf(s.flow, w).id == id && id !in EntitiesAfter(s, st) {
      EntityLost(cfg, s, st, id);
      OthersAnswer(s, w, st.w);
    }
  }

  // The row a delete op is about does not name another op's answer.
  lemma {:induction false} OthersAnswer(s: World, w: Key, v: Key)
    requires WorldInv(s) && JustAnswered(s, w) && Holds(s.flow, v) && StageOf(s.flow, v).Removing?
    requires IsMirrored(OpIn(s.flow, v).key.kind) && RowOf(s, v).Found?
    ensures RowOf(s, v).stoatID != StageOf(s.flow, w).id
  {
    KeysApart(s, v, w);
    assert StageFits(OpIn(s.flow, w), StageOf(s.flow, w), RowOf(s, w));
  }

  lemma {:induction false} OtherRowStays(cfg: Settings, s: World, st: Step, w: Key)
    requires WorldInv(s) && CanStep(cfg, s, st) && Holds(s.flow, w) && (st.SubmitOp? || st.SendOp? || w != st.w)
    ensures Lookup(TablesAfter(s, st), OpIn(s.flow, w).key) == RowOf(s, w)
  {
    if !st.SubmitOp? && !st.SendOp? && !st.TakeOp? {
      KeysApart(s, w, st.w);
    }
    TablesFrame(s, st, OpIn(s.flow, w).key);
  }

  // Ids are not handed out twice, so what is gone does not come back.
  lemma {:induction false} DeadStaysDead(cfg: Settings, s: World, st: Step, k: Key)
    requires WorldInv(s) && CanStep(cfg, s, st) && IsMirrored(k.kind) && Lookup(s.tables, k).Found?
    requires Lookup(s.tables, k).stoatID !in s.remote.entities
    ensures Lookup(s.tables, k).stoatID !in EntitiesAfter(s, st)
  {
    assert HasStoatEntity(Lookup(s.tables, k)) ==> Lookup(s.tables, k).stoatID in s.issued;
    if Lookup(s.tables, k).stoatID in EntitiesAfter(s, st) {
      EntityOrigin(cfg, s, st, Lookup(s.tables, k).stoatID);
    }
  }

  lemma {:induction false} GoneInvKept(cfg: Settings, s: World, st: Step)
    requires WorldInv(s) && GoneInv(s) && CanStep(cfg, s, st)
    ensures GoneInv(Next(s, st))
  {
    var s' := Next(s, st);
    forall w | JustAnswered(s', w) ensures StageOf(s'.flow, w).id in s'.remote.entities {
      AnswersStayLive(cfg, s, st, w);
    }
    forall w | Holds(s'.flow, w) && StageOf(s'.flow, w).Gone? && IsMirrored(OpIn(s'.flow, w).key.kind)
      && IsActive(RowOf(s', w))
      ensures RowOf(s', w).stoatID !in s'.remote.entities
    {
      GoneStaysGone(cfg, s, st, w);
    }
  }

  /* One step */

  // A row that is stale stays so until it is removed: no delete of it can succeed on Stoat.
  lemma {:induction false} StaleStays(cfg: Settings, s: World, st: Step, k: Key)
    requires WorldInv(s) && CanStep(cfg, s, st) && Stale(s, k) && !Removes(s, st, k)
    ensures Stale(Next(s, st), k)
  {
    StaysHollow(cfg, s, st, k);
    if w :| GoneAt(Next(s, st), w, k) && IsActive(Lookup(TablesAfter(s, st), k)) {
      GoneBefore(cfg, s, st, w, k);
    }
  }

  lemma {:induction false} StaysHollow(cfg: Settings, s: World, st: Step, k: Key)
    requires WorldInv(s) && CanStep(cfg, s, st) && Hollow(s, k) && !Removes(s, st, k)
    ensures Hollow(Next(s, st), k)
  {
    IdentityStable(cfg, s, st, k);
    DeadStaysDead(cfg, s, st, k);
  }

  // A worker whose delete found the entity of an active row had found it there.
  lemma {:induction false} GoneBefore(cfg: Settings, s: World, st: Step, w: Key, k: Key)
    requires WorldInv(s) && CanStep(cfg, s, st) && GoneAt(Next(s, st), w, k) && IsActive(Lookup(TablesAfter(s, st), k))
    ensures IsActive(Lookup(s.tables, k))
    ensures GoneAt(s, w, k) || Lookup(s.tables, k).stoatID in s.remote.entities || !IsMirrored(k.kind)
  {
    if st.SubmitOp? || st.SendOp? || w != st.w {
      OtherHandWas(s, st, w);
      OtherRowStays(cfg, s, st, w);
    } else {
      JustGone(cfg, s, st);
    }
  }

  lemma {:induction false} JustGone(cfg: Settings, s: World, st: Step)
    requires CanStep(cfg, s, st) && !st.SubmitOp? && !st.SendOp?
    requires Holds(Next(s, st).flow, st.w) && StageOf(Next(s, st).flow, st.w).Gone?
    ensures st.Succeeds? && Holds(s.flow, st.w) && StageOf(s.flow, st.w).Removing?
    ensures OpIn(Next(s, st).flow, st.w) == OpIn(s.flow, st.w) && TablesAfter(s, st) == s.tables
  {
    MoverOf(s, st);
  }

  lemma {:induction false} RefusalLeavesStale(cfg: Settings, s: World, st: Step, k: Key)
    requires WorldInv(s) && GoneInv(s) && CanStep(cfg, s, st) && Refuses(s, st, k)
    ensures Stale(Next(s, st), k)
  {
    assert TablesAfter(s, st) == s.tables && EntitiesAfter(s, st) == s.remote.entities;
    assert RowOf(s, st.w).stoatID !in s.remote.entities;
    if w :| GoneAt(Next(s, st), w, k) {
      OwnHandFreed(cfg, s, st);
      OtherHandWas(s, st, w);
      KeysApart(s, w, st.w);
    }
  }

  lemma {:induction false} OwnHandFreed(cfg: Settings, s: World, st: Step)
    requires CanStep(cfg, s, st) && st.EraseRow?
    ensures HandOf(Next(s, st).flow, st.w).Idle?
  {}

  // A row becomes hollow by the delete of its own entity only, which leaves the worker about to remove it.
  lemma {:induction false} HollowBefore(cfg: Settings, s: World, st: Step, k: Key)
    requires WorldInv(s) && GoneInv(s) && CanStep(cfg, s, st) && Hollow(Next(s, st), k)
    ensures Hollow(s, k) || Erasing(Next(s, st), k)
  {
    var e := Lookup(TablesAfter(s, st), k).stoatID;
    RowIDAfter(s, st, k);
    if Confirming(s, st, k) {
      assert JustAnswered(s, st.w);
    } else if e in s.remote.entities {
      EntityLost(cfg, s, st, e);
      assert OpIn(s.flow, st.w).key == k;
      assert GoneAt(Next(s, st), st.w, k);
    }
  }

  lemma {:induction false} ErasingGoesOn(cfg: Settings, s: World, st: Step, w: Key, k: Key)
    requires WorldInv(s) && CanStep(cfg, s, st) && GoneAt(s, w, k) && IsActive(Lookup(s.tables, k))
    ensures Erases(s, st, k) || Erasing(Next(s, st), k)
  {
    if st.SubmitOp? || st.SendOp? || w != st.w {
      OtherHandKept(s, st, w);
      OtherRowStays(cfg, s, st, w);
      assert GoneAt(Next(s, st), w, k);
    }
  }

  lemma {:induction false} StaleComes(cfg: Settings, s: World, st: Step, k: Key)
    requires WorldInv(s) && GoneInv(s) && CanStep(cfg, s, st) && Stale(Next(s, st), k) && !Stale(s, k)
    ensures Refuses(s, st, k)
  {
    HollowBefore(cfg, s, st, k);
    var w :| GoneAt(s, w, k);
    ErasingGoesOn(cfg, s, st, w, k);
  }

  /** A step leaves k's row stale exactly if it was and is not removed now, or its removal is refused now,
      with message rows on a channel whose entity has just been deleted. */
  lemma {:induction false} StaleSources(cfg: Settings, s: World, st: Step, k: Key)
    requires WorldInv(s) && GoneInv(s) && CanStep(cfg, s, st)
    ensures Stale(Next(s, st), k) <==> (Stale(s, k) && !Removes(s, st, k)) || Refuses(s, st, k)
    ensures Refuses(s, st, k) ==> k.kind.ChannelEntity? && ReferencedByMessage(s.tables, k.id)
  {
    if Refuses(s, st, k) {
      RefusalLeavesStale(cfg, s, st, k);
    } else if Stale(s, k) && !Removes(s, st, k) {
      StaleStays(cfg, s, st, k);
    } else if Stale(Next(s, st), k) {
      if Stale(s, k) {
        RemovedIsNotHollow(s, st, k);
      } else {
        StaleComes(cfg, s, st, k);
      }
    }
  }

  lemma {:induction false} RemovedIsNotHollow(s: World, st: Step, k: Key)
    requires Addressed(s.flow, st) && Removes(s, st, k)
    ensures Lookup(TablesAfter(s, st), k).Absent?
  {}

  /* Whole runs */

  ghost predicate NeverRemoved(cfg: Settings, s: World, steps: seq<Step>, k: Key)
    requires Legal(cfg, s, steps)
    decreases |steps|
  {
    steps == [] || (!Removes(s, steps[0], k) && NeverRemoved(cfg, Next(s, steps[0]), steps[1..], k))
  }

  // Some step of the run refuses to remove the row, and no later one removes it.
  ghost predicate RefusedForGood(cfg: Settings, s: World, steps: seq<Step>, k: Key)
    requires Legal(cfg, s, steps)
    decreases |steps|
  {
    steps != [] &&
    (|| (Refuses(s, steps[0], k) && NeverRemoved(cfg, Next(s, steps[0]), steps[1..], k))
     || RefusedForGood(cfg, Next(s, steps[0]), steps[1..], k))
  }

  lemma {:induction false} StaleIff(cfg: Settings, s: World, steps: seq<Step>, k: Key)
    requires WorldInv(s) && GoneInv(s) && Legal(cfg, s, steps)
    ensures GoneInv(End(cfg, s, steps)) && (RefusedForGood(cfg, s, steps, k) ==> k.kind.ChannelEntity?)
    ensures Stale(End(cfg, s, steps), k) <==>
      (Stale(s, k) && NeverRemoved(cfg, s, steps, k)) || RefusedForGood(cfg, s, steps, k)
    decreases |steps|
  {
    if steps != [] {
      StepKeepsInv(cfg, s, steps[0]);
      GoneInvKept(cfg, s, steps[0]);
      StaleSources(cfg, s, steps[0], k);
      StaleIff(cfg, Next(s, steps[0]), steps[1..], k);
    }
  }

  lemma {:induction false} HollowIsStaleOrErasing(s: World, k: Key)
    requires GoneInv(s) && IsMirrored(k.kind) && HasStoatEntity(Lookup(s.tables, k))
    ensures Hollow(s, k) <==> Stale(s, k) || Erasing(s, k)
  {
    if Erasing(s, k) {
      var w :| GoneAt(s, w, k);
    }
  }

  /** Over every run from any start: a row with an id names an entity Stoat does not have exactly if a worker
      stands between deleting that entity and removing the row, or the store refused a removal after the
      delete, which happens to channels only, or the row was like that at the start, and it has not been
      removed since. */
  lemma {:induction false} HollowIff(cfg: Settings, s: World, steps: seq<Step>, k: Key)
    requires Initial(s) && Legal(cfg, s, steps)
    requires IsMirrored(k.kind) && HasStoatEntity(Lookup(End(cfg, s, steps).tables, k))
    ensures Lookup(End(cfg, s, steps).tables, k).stoatID !in End(cfg, s, steps).remote.entities <==>
      || Erasing(End(cfg, s, steps), k)
      || RefusedForGood(cfg, s, steps, k)
      || (Hollow(s, k) && NeverRemoved(cfg, s, steps, k))
    ensures RefusedForGood(cfg, s, steps, k) ==> k.kind.ChannelEntity?
  {
    InitialInv(s);
    StaleIff(cfg, s, steps, k);
    HollowIsStaleOrErasing(End(cfg, s, steps), k);
  }
}
