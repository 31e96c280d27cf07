/** The diff cache is invisible: in every smooth run the engine that skips ops whose Diff is equal leaves
    the same roles and channels on Stoat, under the same ids, as a plain mirror that applies every op at
    the point where the engine applied or skipped it. */
module EngineCache {
  import opened Types
  import opened Canonical
  import opened Store
  import opened Flow
  import opened Gateway
  import opened Engine
  import opened EngineRuns
  import opened EngineDrain
  import opened EngineQuiescence

  predicate IsStructure(kind: EntityType) {
    kind.RoleEntity? || kind.ChannelEntity?
  }

  /* The plain mirror: ids and entities, no Diff, no rows */

  datatype Plain = Plain(ids: map<Key, Id>, entities: map<Id, Entity>)

  function PlainTables(m: Plain): Tables {
    Tables(map k | k in m.ids :: Row(m.ids[k], Active, EmptyObject), map[])
  }

  ghost predicate PlainStep(cfg: Settings, m: Plain, op: Op, id: Id, m': Plain) {
    if op.key in m.ids then
      var e := m.ids[op.key];
      && e in m.entities && e in m'.entities
      && m' == m.(entities := m.entities[e := m'.entities[e]])
      && Wrote(cfg, PlainTables(m), op.desired, Some(m.entities[e]), m'.entities[e])
    else
      && id in m'.entities
      && m' == Plain(m.ids[op.key := id], m.entities[id := m'.entities[id]])
      && Wrote(cfg, PlainTables(m), op.desired, None, m'.entities[id])
  }

  datatype Entry = Entry(ticket: nat, op: Op, id: Id)

  ghost predicate PlainRun(cfg: Settings, m: Plain, log: seq<Entry>, m': Plain)
    decreases |log|
  {
    if log == [] then m' == m
    else exists mid :: PlainStep(cfg, m, log[0].op, log[0].id, mid) && PlainRun(cfg, mid, log[1..], m')
  }

  /* Where the engine applies or skips an op */

  function EntryOf(s: World, st: Step): seq<Entry>
    requires Addressed(s.flow, st)
  {
    if st.Succeeds? && StageOf(s.flow, st.w).Written? && IsStructure(OpIn(s.flow, st.w).key.kind) then
      [Entry(HandOf(s.flow, st.w).ticket, OpIn(s.flow, st.w), st.id)]
    else if st.Decide? && MoveOf(s, st).Finishing? && IsStructure(OpIn(s.flow, st.w).key.kind)
      && RowOf(s, st.w).Found? then
      [Entry(HandOf(s.flow, st.w).ticket, OpIn(s.flow, st.w), RowOf(s, st.w).stoatID)]
    else []
  }

  ghost function LogOf(cfg: Settings, s: World, steps: seq<Step>): seq<Entry>
    requires Legal(cfg, s, steps)
    decreases |steps|
  {
    if steps == [] then [] else EntryOf(s, steps[0]) + LogOf(cfg, Next(s, steps[0]), steps[1..])
  }

  /* Writes depend on the shape and on where the overwritten roles go, nothing else */

  predicate SameShape(d: Desired, e: Desired) {
    || (d.ToRole? && e.ToRole? && RoleToStoat(d.role) == RoleToStoat(e.role))
    || (d.ToChannel? && e.ToChannel? && ChannelToStoat(d.channel) == ChannelToStoat(e.channel))
  }

  predicate TargetsAgree(cfg: Settings, t: Tables, u: Tables, d: Desired) {
    d.ToChannel? ==> forall r | r in d.channel.overwrites :: Target(t, cfg.guildID, r) == Target(u, cfg.guildID, r)
  }

  lemma {:induction false} ResolvesByTargets(t: Tables, u: Tables, guildID: Id, ow: map<Id, StoatOverwrite>,
                                             resolved: map<Id, StoatOverwrite>)
    requires forall r | r in ow :: Target(t, guildID, r) == Target(u, guildID, r)
    requires Resolves(t, guildID, ow, resolved)
    ensures Resolves(u, guildID, ow, resolved)
  {
    forall k | k in resolved ensures exists r :: r in ow && Target(u, guildID, r) == Some(k) && resolved[k] == ow[r] {
      var r :| r in ow && Target(t, guildID, r) == Some(k) && resolved[k] == ow[r];
      assert Target(u, guildID, r) == Some(k);
    }
  }

  lemma {:induction false} WroteTransfers(cfg: Settings, t: Tables, u: Tables, d: Desired, e: Desired,
                                          before: Option<Entity>, after: Entity)
    requires SameShape(d, e) && TargetsAgree(cfg, t, u, d) && Wrote(cfg, t, d, before, after)
    ensures Wrote(cfg, u, e, before, after)
  {
    if d.ToChannel? {
      var ow := OverwritesToStoat(d.channel.overwrites);
      assert ow == OverwritesToStoat(e.channel.overwrites);
      var perms := if before.Some? then before.value.perms else map[];
      var resolved :| Resolves(t, cfg.guildID, ow, resolved)
        && Pushed(Granted(perms, cfg.adminRoles, cfg.grant), resolved, after.perms);
      ResolvesByTargets(t, u, cfg.guildID, ow, resolved);
      assert ChannelPushed(cfg, u, ow, perms, after.perms);
    }
  }

  // Every overwritten role has its own Stoat id, none of them the everyone key.
  predicate RolesKnown(cfg: Settings, t: Tables, d: Desired) {
    d.ToChannel? ==> forall r | r in d.channel.overwrites && r != cfg.guildID ::
      HasStoatEntity(Lookup(t, Key(RoleEntity, r))) && Lookup(t, Key(RoleEntity, r)).stoatID != EVERYONE
  }

  lemma {:induction false} KnownTargetsSeparate(cfg: Settings, t: Tables, d: Desired)
    requires RowsDistinct(t) && RolesKnown(cfg, t, d) && d.ToChannel?
    ensures SeparateTargets(t, cfg.guildID, d.channel.overwrites.Keys)
    ensures forall r | r in d.channel.overwrites ::
      Target(t, cfg.guildID, r).Some? && Target(t, cfg.guildID, r).value != NO_ID
  {
    forall r, q | r in d.channel.overwrites && q in d.channel.overwrites
      && Target(t, cfg.guildID, r) == Target(t, cfg.guildID, q)
      ensures r == q
    {
      assert Key(RoleEntity, r) == Key(RoleEntity, q) || r == cfg.guildID || q == cfg.guildID;
    }
  }

  /** Writing one Stoat shape twice equals writing it once, for roles and for channel overwrites in any
      visiting order. */
  lemma {:induction false} WriteTwice(cfg: Settings, t: Tables, d: Desired, before: Option<Entity>, once: Entity,
                                      twice: Entity)
    requires d.ToRole? || d.ToChannel?
    requires RowsDistinct(t) && RolesKnown(cfg, t, d)
    requires Wrote(cfg, t, d, before, once) && Wrote(cfg, t, d, Some(once), twice)
    ensures twice == once
  {
    if d.ToChannel? {
      var ow := OverwritesToStoat(d.channel.overwrites);
      var perms := if before.Some? then before.value.perms else map[];
      var a :| Resolves(t, cfg.guildID, ow, a) && Pushed(Granted(perms, cfg.adminRoles, cfg.grant), a, once.perms);
      var b :| Resolves(t, cfg.guildID, ow, b)
        && Pushed(Granted(once.perms, cfg.adminRoles, cfg.grant), b, twice.perms);
      KnownTargetsSeparate(cfg, t, d);
      assert ow.Keys == d.channel.overwrites.Keys;
      ResolutionUnique(t, cfg.guildID, ow, a, b);
      assert NO_ID !in a;
      PushTwice(perms, cfg.adminRoles, cfg.grant, a, once.perms, twice.perms);
    }
  }

  /* Coherence: what a structure row records as written is what Stoat has, up to re-writing */

  function DesiredOf(state: State): Desired {
    match state
    case RoleState(_, _, _, _, _, _, _) => ToRole(ParseRole(state))
    case ChannelState(_, _, _, _, _, _) => ToChannel(ParseChannel(state))
    case _ => Nothing
  }

  // k's entity is e, last written with state: so says an active row or an answer being confirmed.
  ghost predicate Records(s: World, k: Key, e: Id, state: State) {
    || (IsActive(Lookup(s.tables, k)) && HasStoatEntity(Lookup(s.tables, k)) && Lookup(s.tables, k).stoatID == e
        && Lookup(s.tables, k).state == state)
    || (exists w ::
          && JustAnswered(s, w) && OpIn(s.flow, w).key == k
          && StageOf(s.flow, w).id == e && StateOf(OpIn(s.flow, w)) == state)
  }

  ghost predicate Absorbs(cfg: Settings, t: Tables, d: Desired, e: Entity) {
    forall after :: Wrote(cfg, t, d, Some(e), after) ==> after == e
  }

  ghost predicate CoherentAt(cfg: Settings, s: World, e: Id, state: State) {
    && e in s.remote.entities && RolesKnown(cfg, s.tables, DesiredOf(state))
    && Absorbs(cfg, s.tables, DesiredOf(state), s.remote.entities[e])
  }

  ghost predicate Coherent(cfg: Settings, s: World) {
    forall k: Key, e: Id, state: State | IsStructure(k.kind) && !DesiredOf(state).Nothing? && Records(s, k, e, state) ::
      CoherentAt(cfg, s, e, state)
  }

  // Role dependencies of an op let through had ids; active rows have ids; rows keep to their table.
  ghost predicate CacheInv(cfg: Settings, s: World) {
    && SmoothInv(s) && Coherent(cfg, s)
    && (forall k: Key | IsStructure(k.kind) && IsActive(Lookup(s.tables, k)) :: HasStoatEntity(Lookup(s.tables, k)))
    && (forall w, d | Holds(s.flow, w) && !StageOf(s.flow, w).Fresh? && d in OpIn(s.flow, w).deps
        && IsStructure(d.kind) ::
          HasStoatEntity(Lookup(s.tables, d)))
    && (forall k: Key | IsStructure(k.kind) && Lookup(s.tables, k).Found?
        && !DesiredOf(Lookup(s.tables, k).state).Nothing? ::
          DesiredOf(Lookup(s.tables, k).state).ToRole? <==> k.kind.RoleEntity?)
  }

  lemma {:induction false} StateShape(op: Op)
    requires op.desired.ToRole? || op.desired.ToChannel?
    ensures SameShape(op.desired, DesiredOf(StateOf(op))) && SameShape(DesiredOf(StateOf(op)), op.desired)
    ensures op.desired.ToChannel? ==>
      DesiredOf(StateOf(op)).channel.overwrites.Keys == op.desired.channel.overwrites.Keys
  {
    if op.desired.ToRole? {
      RoleShapeSurvives(op.desired.role);
    } else {
      ChannelShapeSurvives(op.desired.channel);
    }
  }

  // An op about to write knows the ids of the roles it overwrites.
  lemma {:induction false} OpRolesKnown(cfg: Settings, s: World, w: Key)
    requires CacheInv(cfg, s) && Holds(s.flow, w) && !StageOf(s.flow, w).Fresh?
    ensures RolesKnown(cfg, s.tables, OpIn(s.flow, w).desired)
  {
    var op := OpIn(s.flow, w);
    assert Built(op);
    if op.desired.ToChannel? {
      forall r | r in op.desired.channel.overwrites && r != cfg.guildID
        ensures HasStoatEntity(Lookup(s.tables, Key(RoleEntity, r)))
        ensures Lookup(s.tables, Key(RoleEntity, r)).stoatID != EVERYONE
      {
        assert Key(RoleEntity, r) in op.deps;
      }
    }
  }

  lemma {:induction false} StructureOp(s: World, w: Key)
    requires WorldInv(s) && NoDeletes(s.flow.ops) && Holds(s.flow, w) && IsStructure(OpIn(s.flow, w).key.kind)
    ensures var d := OpIn(s.flow, w).desired;
      (d.ToRole? || d.ToChannel?) && (d.ToRole? <==> OpIn(s.flow, w).key.kind.RoleEntity?)
  {
    assert Built(OpIn(s.flow, w));
  }

  // Ids of rows survive a smooth step, so known roles keep their targets.
  lemma {:induction false} TargetsKept(cfg: Settings, s: World, st: Step, d: Desired)
    requires SmoothInv(s) && SmoothStep(cfg, s, st) && RolesKnown(cfg, s.tables, d)
    ensures RolesKnown(cfg, TablesAfter(s, st), d)
    ensures TargetsAgree(cfg, s.tables, TablesAfter(s, st), d) && TargetsAgree(cfg, TablesAfter(s, st), s.tables, d)
  {
    if d.ToChannel? {
      forall r | r in d.channel.overwrites && r != cfg.guildID
        ensures HasStoatEntity(Lookup(TablesAfter(s, st), Key(RoleEntity, r)))
        ensures Lookup(TablesAfter(s, st), Key(RoleEntity, r)).stoatID == Lookup(s.tables, Key(RoleEntity, r)).stoatID
      {
        IdentityStable(cfg, s, st, Key(RoleEntity, r));
        FoundKept(cfg, s, st, Key(RoleEntity, r));
      }
    }
  }

  lemma {:induction false} AbsorbsTransfers(cfg: Settings, t: Tables, u: Tables, d: Desired, e: Entity)
    requires SameShape(d, d) && TargetsAgree(cfg, u, t, d) && Absorbs(cfg, t, d, e)
    ensures Absorbs(cfg, u, d, e)
  {
    forall after | Wrote(cfg, u, d, Some(e), after) ensures after == e {
      WroteTransfers(cfg, u, t, d, d, Some(e), after);
    }
  }

  // The step writes k's entity on Stoat.
  predicate Applies(s: World, st: Step, k: Key) {
    st.Succeeds? && Holds(s.flow, st.w) && StageOf(s.flow, st.w).Written? && OpIn(s.flow, st.w).key == k
  }

  lemma {:induction false} RowRecordsAfter(cfg: Settings, s: World, st: Step, k: Key)
    requires CacheInv(cfg, s) && SmoothStep(cfg, s, st) && IsStructure(k.kind)
    requires IsActive(Lookup(TablesAfter(s, st), k)) && HasStoatEntity(Lookup(TablesAfter(s, st), k))
    ensures Records(s, k, Lookup(TablesAfter(s, st), k).stoatID, Lookup(TablesAfter(s, st), k).state)
    ensures !Applies(s, st, k)
  {
    if st.SubmitOp? || st.SendOp? || st.TakeOp? || OpIn(s.flow, st.w).key != k {
      TablesFrame(s, st, k);
    } else if Confirming(s, st, k) {
      assert JustAnswered(s, st.w) && StageFits(OpIn(s.flow, st.w), StageOf(s.flow, st.w), RowOf(s, st.w));
    }
  }

  lemma {:induction false} RecordsAfter(cfg: Settings, s: World, st: Step, k: Key, e: Id, state: State)
    requires CacheInv(cfg, s) && SmoothStep(cfg, s, st) && IsStructure(k.kind) && Records(Next(s, st), k, e, state)
    ensures if Applies(s, st, k) then st.id == e && state == StateOf(OpIn(s.flow, st.w)) else Records(s, k, e, state)
  {
    var s' := Next(s, st);
    if w :|
      && JustAnswered(s', w) && OpIn(s'.flow, w).key == k
      && StageOf(s'.flow, w).id == e && StateOf(OpIn(s'.flow, w)) == state
    {
      AnswerRecordsAfter(cfg, s, st, k, w);
    } else {
      RowRecordsAfter(cfg, s, st, k);
    }
  }

  lemma {:induction false} AnswerRecordsAfter(cfg: Settings, s: World, st: Step, k: Key, w: Key)
    requires CacheInv(cfg, s) && SmoothStep(cfg, s, st) && IsStructure(k.kind)
    requires JustAnswered(Next(s, st), w) && OpIn(Next(s, st).flow, w).key == k
    ensures var id, state := StageOf(Next(s, st).flow, w).id, StateOf(OpIn(Next(s, st).flow, w));
      if Applies(s, st, k) then st.id == id && state == StateOf(OpIn(s.flow, st.w)) else Records(s, k, id, state)
  {
    AnsweredAfter(cfg, s, st, w);
    if Applies(s, st, k) {
      KeysApart(s, w, st.w);
      OwnAnswer(s, st);
    } else {
      assert JustAnswered(s, w);
    }
  }

  lemma {:induction false} EntityUntouched(cfg: Settings, s: World, st: Step, k: Key, e: Id)
    requires SmoothInv(s) && SmoothStep(cfg, s, st) && IsStructure(k.kind) && OwnedBy(s, k, e) && !Applies(s, st, k)
    requires e in s.remote.entities
    ensures e in EntitiesAfter(s, st) && EntitiesAfter(s, st)[e] == s.remote.entities[e]
  {
    var kind := match s.remote.entities[e]
                case LiveRole(_) => RoleEntity
                case LiveChannel(_, _, _) => ChannelEntity
                case LiveMessage(_, _) => MessageEntity;
    LiveKept(cfg, s, st, e, kind);
    assert e in s.issued;
    if st.Succeeds? && StageOf(s.flow, st.w).Written? && st.id == e && IsMirrored(OpIn(s.flow, st.w).key.kind) {
      AnswerIsOwn(cfg, s, st);
    }
  }

  lemma {:induction false} WrittenIsCoherent(cfg: Settings, s: World, st: Step, k: Key)
    requires CacheInv(cfg, s) && SmoothStep(cfg, s, st) && IsStructure(k.kind) && Applies(s, st, k)
    ensures CoherentAt(cfg, Next(s, st), st.id, StateOf(OpIn(s.flow, st.w)))
  {
    var op, t := OpIn(s.flow, st.w), s.tables;
    var d := DesiredOf(StateOf(op));
    StructureOp(s, st.w);
    StateShape(op);
    OpRolesKnown(cfg, s, st.w);
    assert TablesAfter(s, st) == t && EntitiesAfter(s, st)[st.id] == st.after;
    var before := if CreateOrEdit(RowOf(s, st.w)).Create? then None else Some(s.remote.entities[st.id]);
    assert Wrote(cfg, t, op.desired, before, st.after);
    forall again | Wrote(cfg, t, d, Some(st.after), again) ensures again == st.after {
      WroteTransfers(cfg, t, t, d, op.desired, Some(st.after), again);
      WriteTwice(cfg, t, op.desired, before, st.after, again);
    }
  }

  lemma {:induction false} CoherentKept(cfg: Settings, s: World, st: Step)
    requires CacheInv(cfg, s) && SmoothStep(cfg, s, st)
    ensures Coherent(cfg, Next(s, st))
  {
    var s' := Next(s, st);
    forall k: Key, e: Id, state: State | IsStructure(k.kind) && !DesiredOf(state).Nothing? && Records(s', k, e, state)
      ensures CoherentAt(cfg, s', e, state)
    {
      RecordsAfter(cfg, s, st, k, e, state);
      if Applies(s, st, k) {
        WrittenIsCoherent(cfg, s, st, k);
      } else {
        assert CoherentAt(cfg, s, e, state);
        EntityUntouched(cfg, s, st, k, e);
        TargetsKept(cfg, s, st, DesiredOf(state));
        AbsorbsTransfers(cfg, s.tables, s'.tables, DesiredOf(state), s.remote.entities[e]);
      }
    }
  }

  lemma {:induction false} ActiveHasID(cfg: Settings, s: World, st: Step, k: Key)
    requires CacheInv(cfg, s) && SmoothStep(cfg, s, st) && IsStructure(k.kind)
    requires IsActive(Lookup(TablesAfter(s, st), k))
    ensures HasStoatEntity(Lookup(TablesAfter(s, st), k))
  {
    ActiveOnlyByConfirm(s, st, k);
    if Confirming(s, st, k) {
      assert StageFits(OpIn(s.flow, st.w), StageOf(s.flow, st.w), RowOf(s, st.w));
    } else {
      IdentityStable(cfg, s, st, k);
    }
  }

  lemma {:induction false} DepHasID(cfg: Settings, s: World, st: Step, w: Key, d: Key)
    requires CacheInv(cfg, s) && SmoothStep(cfg, s, st) && IsStructure(d.kind)
    requires Holds(Next(s, st).flow, w) && !StageOf(Next(s, st).flow, w).Fresh? && d in OpIn(Next(s, st).flow, w).deps
    ensures HasStoatEntity(Lookup(TablesAfter(s, st), d))
  {
    HeldBefore(cfg, s, st, w);
    if StageOf(s.flow, w).Fresh? {
      FirstUnmetSpec(s.tables, OpIn(s.flow, w).deps);
    }
    IdentityStable(cfg, s, st, d);
    FoundKept(cfg, s, st, d);
  }

  lemma {:induction false} RowTypeKept(cfg: Settings, s: World, st: Step, k: Key)
    requires CacheInv(cfg, s) && SmoothStep(cfg, s, st) && IsStructure(k.kind)
    requires Lookup(TablesAfter(s, st), k).Found? && !DesiredOf(Lookup(TablesAfter(s, st), k).state).Nothing?
    ensures DesiredOf(Lookup(TablesAfter(s, st), k).state).ToRole? <==> k.kind.RoleEntity?
  {
    if st.SubmitOp? || st.SendOp? || st.TakeOp? || OpIn(s.flow, st.w).key != k {
      TablesFrame(s, st, k);
    } else if st.WriteIntent? {
      StructureOp(s, st.w);
      StateShape(OpIn(s.flow, st.w));
    }
  }

  lemma {:induction false} CacheKept(cfg: Settings, s: World, st: Step)
    requires CacheInv(cfg, s) && SmoothStep(cfg, s, st)
    ensures CacheInv(cfg, Next(s, st))
  {
    var s' := Next(s, st);
    SmoothKept(cfg, s, st);
    CoherentKept(cfg, s, st);
    forall k: Key | IsStructure(k.kind) && IsActive(Lookup(s'.tables, k)) ensures HasStoatEntity(Lookup(s'.tables, k)) {
      ActiveHasID(cfg, s, st, k);
    }
    forall w, d | Holds(s'.flow, w) && !StageOf(s'.flow, w).Fresh? && d in OpIn(s'.flow, w).deps && IsStructure(d.kind)
      ensures HasStoatEntity(Lookup(s'.tables, d))
    {
      DepHasID(cfg, s, st, w, d);
    }
    forall k: Key | IsStructure(k.kind) && Lookup(s'.tables, k).Found?
      && !DesiredOf(Lookup(s'.tables, k).state).Nothing?
      ensures DesiredOf(Lookup(s'.tables, k).state).ToRole? <==> k.kind.RoleEntity?
    {
      RowTypeKept(cfg, s, st, k);
    }
  }

  /* The simulation */

  // The plain mirror holds the engine's settled structure ids and their entities.
  ghost predicate Mirrors(s: World, m: Plain) {
    && (forall k | k in m.ids :: IsStructure(k.kind))
    && (forall k: Key | IsStructure(k.kind) && Settled(s, k) :: k in m.ids)
    && (forall k | k in m.ids ::
          && OwnedBy(s, k, m.ids[k])
          && m.ids[k] in m.entities && m.ids[k] in s.remote.entities
          && m.entities[m.ids[k]] == s.remote.entities[m.ids[k]])
  }

  lemma {:induction false} AnswerOwnedOnce(s: World, w: Key, e: Id)
    requires WorldInv(s) && JustAnswered(s, w) && OwnedBy(s, OpIn(s.flow, w).key, e)
    ensures e == StageOf(s.flow, w).id && e in s.issued
  {
    assert StageFits(OpIn(s.flow, w), StageOf(s.flow, w), RowOf(s, w));
    if v :| JustAnswered(s, v) && OpIn(s.flow, v).key == OpIn(s.flow, w).key && StageOf(s.flow, v).id == e {
      KeysApart(s, v, w);
    }
  }

  lemma {:induction false} OwnedOnce(s: World, k: Key, e1: Id, e2: Id)
    requires WorldInv(s) && IsMirrored(k.kind) && OwnedBy(s, k, e1) && OwnedBy(s, k, e2)
    ensures e1 == e2 && e1 in s.issued && Settled(s, k)
  {
    if w :| JustAnswered(s, w) && OpIn(s.flow, w).key == k {
      AnswerOwnedOnce(s, w, e1);
      AnswerOwnedOnce(s, w, e2);
    }
  }

  lemma {:induction false} OwnersApart(s: World, j: Key, k: Key, e: Id)
    requires WorldInv(s) && IsMirrored(j.kind) && IsMirrored(k.kind) && OwnedBy(s, j, e) && OwnedBy(s, k, e)
    ensures j == k
  {}

  lemma {:induction false} OwnedKept(cfg: Settings, s: World, st: Step, k: Key, e: Id)
    requires SmoothInv(s) && SmoothStep(cfg, s, st) && IsMirrored(k.kind) && OwnedBy(s, k, e)
    ensures OwnedBy(Next(s, st), k, e)
  {
    if !OwnedBy(Next(s, st), k, e) {
      OwnershipLost(cfg, s, st, k, e);
      FoundKept(cfg, s, st, k);
    }
  }

  // A key settles only when its entity is created.
  lemma {:induction false} SettledByCreate(cfg: Settings, s: World, st: Step, k: Key)
    requires SmoothInv(s) && SmoothStep(cfg, s, st) && IsMirrored(k.kind) && Settled(Next(s, st), k) && !Settled(s, k)
    ensures CreatesFor(s, st, k)
  {
    var s' := Next(s, st);
    if w :| JustAnswered(s', w) && OpIn(s'.flow, w).key == k {
      AnsweredAfter(cfg, s, st, w);
      assert !JustAnswered(s, w);
    } else {
      RowIDAfter(s, st, k);
      ConfirmingSettled(s, st, k);
    }
  }

  lemma {:induction false} ConfirmingSettled(s: World, st: Step, k: Key)
    requires IsMirrored(k.kind)
    ensures Confirming(s, st, k) ==> Settled(s, k)
  {
    if Confirming(s, st, k) {
      assert JustAnswered(s, st.w) && OpIn(s.flow, st.w).key == k;
    }
  }

  lemma {:induction false} QuietStep(cfg: Settings, s: World, st: Step, m: Plain)
    requires CacheInv(cfg, s) && SmoothStep(cfg, s, st) && Mirrors(s, m)
    requires forall k: Key | IsStructure(k.kind) :: !Applies(s, st, k)
    ensures Mirrors(Next(s, st), m)
  {
    var s' := Next(s, st);
    forall k: Key | IsStructure(k.kind) && Settled(s', k) ensures k in m.ids {
      if !Settled(s, k) {
        SettledByCreate(cfg, s, st, k);
      }
    }
    forall k | k in m.ids
      ensures OwnedBy(s', k, m.ids[k]) && m.ids[k] in s'.remote.entities
      ensures m.entities[m.ids[k]] == s'.remote.entities[m.ids[k]]
    {
      OwnedKept(cfg, s, st, k, m.ids[k]);
      EntityUntouched(cfg, s, st, k, m.ids[k]);
    }
  }

  lemma {:induction false} PlainTargets(cfg: Settings, s: World, m: Plain, d: Desired)
    requires WorldInv(s) && Mirrors(s, m) && RolesKnown(cfg, s.tables, d)
    ensures TargetsAgree(cfg, s.tables, PlainTables(m), d)
  {
    if d.ToChannel? {
      forall r | r in d.channel.overwrites && r != cfg.guildID
        ensures Lookup(PlainTables(m), Key(RoleEntity, r)).Found?
        ensures Lookup(PlainTables(m), Key(RoleEntity, r)).stoatID == Lookup(s.tables, Key(RoleEntity, r)).stoatID
      {
        var k := Key(RoleEntity, r);
        assert OwnedBy(s, k, Lookup(s.tables, k).stoatID);
        assert Settled(s, k);
        OwnedOnce(s, k, m.ids[k], Lookup(s.tables, k).stoatID);
      }
    }
  }

  // The mirror has the id and the entity of an op about to be skipped.
  lemma {:induction false} SkippedMirrored(cfg: Settings, s: World, w: Key, m: Plain)
    requires CacheInv(cfg, s) && Mirrors(s, m) && Holds(s.flow, w) && StageOf(s.flow, w).Ready?
    requires RowOf(s, w).Found? && IsStructure(OpIn(s.flow, w).key.kind)
    ensures var k, e := OpIn(s.flow, w).key, RowOf(s, w).stoatID;
      && k in m.ids && m.ids[k] == e && LiveAs(s.remote.entities, e, k.kind) && Records(s, k, e, RowOf(s, w).state)
      && e in m.entities && m.entities[e] == s.remote.entities[e]
  {
    var k, e := OpIn(s.flow, w).key, RowOf(s, w).stoatID;
    SkippedRowActive(cfg, s, w);
    assert OwnedBy(s, k, e) && Settled(s, k);
    OwnedOnce(s, k, e, m.ids[k]);
  }

  // Writing a shape equal to the recorded one leaves the entity as it is.
  lemma {:induction false} SkippedWrite(cfg: Settings, s: World, w: Key, m: Plain)
    requires CacheInv(cfg, s) && Mirrors(s, m) && Holds(s.flow, w) && StageOf(s.flow, w).Ready?
    requires RowOf(s, w).Found? && IsStructure(OpIn(s.flow, w).key.kind) && !OpIn(s.flow, w).kind.OpDelete?
    requires DiffEqual(OpIn(s.flow, w).desired, RowOf(s, w).state) && RowOf(s, w).stoatID in s.remote.entities
    ensures var e := s.remote.entities[RowOf(s, w).stoatID];
      Wrote(cfg, PlainTables(m), OpIn(s.flow, w).desired, Some(e), e)
  {
    var op, row := OpIn(s.flow, w), RowOf(s, w);
    var d, e := op.desired, s.remote.entities[row.stoatID];
    StructureOp(s, w);
    OpRolesKnown(cfg, s, w);
    PlainTargets(cfg, s, m, d);
    SkippedMirrored(cfg, s, w, m);
    assert Built(op);
    StoredShape(op, row.state);
    assert CoherentAt(cfg, s, row.stoatID, row.state);
    var after := WriteExists(cfg, s.tables, op, Some(e));
    WroteTransfers(cfg, s.tables, s.tables, d, DesiredOf(row.state), Some(e), after);
    WroteTransfers(cfg, s.tables, PlainTables(m), d, d, Some(e), after);
  }

  lemma {:induction false} SkipMeans(cfg: Settings, s: World, st: Step)
    requires CanStep(cfg, s, st) && st.Decide? && MoveOf(s, st).Finishing?
    ensures Holds(s.flow, st.w) && StageOf(s.flow, st.w).Ready? && !OpIn(s.flow, st.w).kind.OpDelete?
    ensures RowOf(s, st.w).Found? && DiffEqual(OpIn(s.flow, st.w).desired, RowOf(s, st.w).state)
  {}

  lemma {:induction false} SkippedEdit(cfg: Settings, s: World, w: Key, m: Plain)
    requires CacheInv(cfg, s) && Mirrors(s, m) && Holds(s.flow, w) && StageOf(s.flow, w).Ready?
    requires RowOf(s, w).Found? && IsStructure(OpIn(s.flow, w).key.kind) && !OpIn(s.flow, w).kind.OpDelete?
    requires DiffEqual(OpIn(s.flow, w).desired, RowOf(s, w).state)
    ensures PlainStep(cfg, m, OpIn(s.flow, w), RowOf(s, w).stoatID, m)
  {
    SkippedMirrored(cfg, s, w, m);
    SkippedWrite(cfg, s, w, m);
    EditInPlace(cfg, m, OpIn(s.flow, w), RowOf(s, w).stoatID);
  }

  lemma {:induction false} EditInPlace(cfg: Settings, m: Plain, op: Op, id: Id)
    requires op.key in m.ids && m.ids[op.key] in m.entities
    requires var e := m.entities[m.ids[op.key]]; Wrote(cfg, PlainTables(m), op.desired, Some(e), e)
    ensures PlainStep(cfg, m, op, id, m)
  {
    var e := m.ids[op.key];
    assert m.entities == m.entities[e := m.entities[e]];
  }

  // The engine skips: the plain mirror's edit changes nothing.
  lemma {:induction false} SkipStep(cfg: Settings, s: World, st: Step, m: Plain)
    requires CacheInv(cfg, s) && SmoothStep(cfg, s, st) && Mirrors(s, m)
    requires st.Decide? && MoveOf(s, st).Finishing? && IsStructure(OpIn(s.flow, st.w).key.kind)
    ensures RowOf(s, st.w).Found? && PlainStep(cfg, m, OpIn(s.flow, st.w), RowOf(s, st.w).stoatID, m)
  {
    SkipMeans(cfg, s, st);
    SkippedEdit(cfg, s, st.w, m);
  }

  lemma {:induction false} SkippedRowActive(cfg: Settings, s: World, w: Key)
    requires CacheInv(cfg, s) && Holds(s.flow, w) && StageOf(s.flow, w).Ready? && RowOf(s, w).Found?
    requires IsStructure(OpIn(s.flow, w).key.kind)
    ensures IsActive(RowOf(s, w)) && HasStoatEntity(RowOf(s, w))
  {
    if !IsActive(RowOf(s, w)) {
      var v :| Holds(s.flow, v) && (StageOf(s.flow, v).Written? || StageOf(s.flow, v).Applied?)
        && OpIn(s.flow, v).key == OpIn(s.flow, w).key;
      KeysApart(s, v, w);
    }
  }

  lemma {:induction false} StoredShape(op: Op, stored: State)
    requires op.desired.ToRole? || op.desired.ToChannel?
    requires FromDiscord(op.desired) && DiffEqual(op.desired, stored)
    ensures SameShape(op.desired, DesiredOf(stored))
  {
    if op.desired.ToRole? {
      assert RoleToStoat(op.desired.role).colour == op.desired.role.colour;
      assert stored.RoleState?;
    } else {
      assert ChannelToStoat(op.desired.channel).ctype == op.desired.channel.ctype;
      assert stored.ChannelState?;
    }
  }

  function PlainAfter(m: Plain, op: Op, id: Id, after: Entity): Plain {
    Plain(if op.key in m.ids then m.ids else m.ids[op.key := id],
          m.entities[if op.key in m.ids then m.ids[op.key] else id := after])
  }

  // The engine applies: so does the plain mirror, to the same entity.
  lemma {:induction false} ApplyStep(cfg: Settings, s: World, st: Step, m: Plain)
    requires CacheInv(cfg, s) && SmoothStep(cfg, s, st) && Mirrors(s, m)
    requires Addressed(s.flow, st) && st.Succeeds? && Applies(s, st, OpIn(s.flow, st.w).key)
    requires IsStructure(OpIn(s.flow, st.w).key.kind)
    ensures PlainStep(cfg, m, OpIn(s.flow, st.w), st.id, PlainAfter(m, OpIn(s.flow, st.w), st.id, st.after))
    ensures OpIn(s.flow, st.w).key in m.ids ==> m.ids[OpIn(s.flow, st.w).key] == st.id
  {
    var op, row := OpIn(s.flow, st.w), RowOf(s, st.w);
    StructureOp(s, st.w);
    OpRolesKnown(cfg, s, st.w);
    PlainTargets(cfg, s, m, op.desired);
    if CreateOrEdit(row).Create? {
      CreateSettles(cfg, s, st, op.key);
      if op.key in m.ids {
        OwnedOnce(s, op.key, m.ids[op.key], m.ids[op.key]);
      }
      WroteTransfers(cfg, s.tables, PlainTables(m), op.desired, op.desired, None, st.after);
    } else {
      assert OwnedBy(s, op.key, st.id) && Settled(s, op.key);
      OwnedOnce(s, op.key, st.id, m.ids[op.key]);
      WroteTransfers(cfg, s.tables, PlainTables(m), op.desired, op.desired, Some(s.remote.entities[st.id]), st.after);
    }
  }

  lemma {:induction false} OtherMirrored(cfg: Settings, s: World, st: Step, m: Plain, k: Key)
    requires CacheInv(cfg, s) && SmoothStep(cfg, s, st) && Mirrors(s, m)
    requires Addressed(s.flow, st) && st.Succeeds? && Applies(s, st, OpIn(s.flow, st.w).key)
    requires IsStructure(OpIn(s.flow, st.w).key.kind) && k in m.ids && k != OpIn(s.flow, st.w).key
    ensures OwnedBy(Next(s, st), k, m.ids[k]) && m.ids[k] in EntitiesAfter(s, st) && m.ids[k] != st.id
    ensures EntitiesAfter(s, st)[m.ids[k]] == m.entities[m.ids[k]]
  {
    OwnedKept(cfg, s, st, k, m.ids[k]);
    EntityUntouched(cfg, s, st, k, m.ids[k]);
    StepKeepsInv(cfg, s, st);
    AnswerOwned(cfg, s, st);
    if m.ids[k] == st.id {
      OwnersApart(Next(s, st), k, OpIn(s.flow, st.w).key, st.id);
    }
  }

  lemma {:induction false} SettledMirrored(cfg: Settings, s: World, st: Step, m: Plain, k: Key)
    requires CacheInv(cfg, s) && SmoothStep(cfg, s, st) && Mirrors(s, m) && st.Succeeds?
    requires IsStructure(k.kind) && Settled(Next(s, st), k)
    ensures k in m.ids || (Holds(s.flow, st.w) && k == OpIn(s.flow, st.w).key)
  {
    if !Settled(s, k) {
      SettledByCreate(cfg, s, st, k);
    }
  }

  lemma {:induction false} MirrorsExtended(s: World, m: Plain, key: Key, id: Id, after: Entity)
    requires IsStructure(key.kind) && forall k | k in m.ids :: IsStructure(k.kind)
    requires forall k: Key | IsStructure(k.kind) && Settled(s, k) :: k in m.ids || k == key
    requires forall k | k in m.ids && k != key ::
      && OwnedBy(s, k, m.ids[k]) && m.ids[k] in m.entities && m.ids[k] in s.remote.entities
      && m.entities[m.ids[k]] == s.remote.entities[m.ids[k]] && m.ids[k] != id
    requires OwnedBy(s, key, id) && id in s.remote.entities && s.remote.entities[id] == after
    ensures Mirrors(s, Plain(m.ids[key := id], m.entities[id := after]))
  {}

  lemma {:induction false} OthersMirrored(cfg: Settings, s: World, st: Step, m: Plain)
    requires CacheInv(cfg, s) && SmoothStep(cfg, s, st) && Mirrors(s, m)
    requires Addressed(s.flow, st) && st.Succeeds? && Applies(s, st, OpIn(s.flow, st.w).key)
    requires IsStructure(OpIn(s.flow, st.w).key.kind)
    ensures var s' := Next(s, st);
      forall k | k in m.ids && k != OpIn(s.flow, st.w).key ::
        && OwnedBy(s', k, m.ids[k]) && m.ids[k] in m.entities && m.ids[k] in s'.remote.entities
        && m.entities[m.ids[k]] == s'.remote.entities[m.ids[k]] && m.ids[k] != st.id
    ensures forall k: Key | IsStructure(k.kind) && Settled(Next(s, st), k) :: k in m.ids || k == OpIn(s.flow, st.w).key
  {
    var s', key := Next(s, st), OpIn(s.flow, st.w).key;
    forall k | k in m.ids && k != key
      ensures OwnedBy(s', k, m.ids[k]) && m.ids[k] in s'.remote.entities && m.ids[k] != st.id
      ensures m.entities[m.ids[k]] == s'.remote.entities[m.ids[k]]
    {
      OtherMirrored(cfg, s, st, m, k);
    }
    forall k: Key | IsStructure(k.kind) && Settled(s', k) ensures k in m.ids || k == key {
      SettledMirrored(cfg, s, st, m, k);
    }
  }

  lemma {:induction false} ApplyIsWrite(cfg: Settings, s: World, st: Step, m: Plain)
    requires CacheInv(cfg, s) && SmoothStep(cfg, s, st) && Mirrors(s, m)
    requires Addressed(s.flow, st) && st.Succeeds? && Applies(s, st, OpIn(s.flow, st.w).key)
    requires IsStructure(OpIn(s.flow, st.w).key.kind)
    ensures var k := OpIn(s.flow, st.w).key;
      PlainAfter(m, OpIn(s.flow, st.w), st.id, st.after) == Plain(m.ids[k := st.id], m.entities[st.id := st.after])
  {
    ApplyStep(cfg, s, st, m);
    PlainAfterIs(m, OpIn(s.flow, st.w), st.id, st.after);
  }

  // What was just written is there, and the op's own.
  lemma {:induction false} WrittenMirrored(cfg: Settings, s: World, st: Step)
    requires SmoothInv(s) && SmoothStep(cfg, s, st)
    requires Addressed(s.flow, st) && st.Succeeds? && Applies(s, st, OpIn(s.flow, st.w).key)
    requires IsStructure(OpIn(s.flow, st.w).key.kind)
    ensures OwnedBy(Next(s, st), OpIn(s.flow, st.w).key, st.id)
    ensures st.id in EntitiesAfter(s, st) && EntitiesAfter(s, st)[st.id] == st.after
  {
    AnswerOwned(cfg, s, st);
  }

  lemma {:induction false} ApplyMirrors(cfg: Settings, s: World, st: Step, m: Plain)
    requires CacheInv(cfg, s) && SmoothStep(cfg, s, st) && Mirrors(s, m)
    requires Addressed(s.flow, st) && st.Succeeds? && Applies(s, st, OpIn(s.flow, st.w).key)
    requires IsStructure(OpIn(s.flow, st.w).key.kind)
    ensures Mirrors(Next(s, st), PlainAfter(m, OpIn(s.flow, st.w), st.id, st.after))
  {
    ApplyIsWrite(cfg, s, st, m);
    WrittenMirrored(cfg, s, st);
    OthersMirrored(cfg, s, st, m);
    MirrorsExtended(Next(s, st), m, OpIn(s.flow, st.w).key, st.id, st.after);
  }

  lemma {:induction false} PlainAfterIs(m: Plain, op: Op, id: Id, after: Entity)
    requires op.key in m.ids ==> m.ids[op.key] == id
    ensures PlainAfter(m, op, id, after) == Plain(m.ids[op.key := id], m.entities[id := after])
  {
    assert op.key in m.ids ==> m.ids[op.key := id] == m.ids;
  }

  lemma {:induction false} AnswerOwned(cfg: Settings, s: World, st: Step)
    requires SmoothInv(s) && SmoothStep(cfg, s, st) && Addressed(s.flow, st) && st.Succeeds?
    requires StageOf(s.flow, st.w).Written? && IsMirrored(OpIn(s.flow, st.w).key.kind)
    ensures OwnedBy(Next(s, st), OpIn(s.flow, st.w).key, st.id)
  {
    assert JustAnswered(Next(s, st), st.w) && StageOf(Next(s, st).flow, st.w).id == st.id;
  }

  lemma {:induction false} StepSimulated(cfg: Settings, s: World, st: Step, m: Plain) returns (m': Plain)
    requires CacheInv(cfg, s) && SmoothStep(cfg, s, st) && Mirrors(s, m)
    ensures Mirrors(Next(s, st), m')
    ensures if EntryOf(s, st) == [] then m' == m else
      |EntryOf(s, st)| == 1 && PlainStep(cfg, m, EntryOf(s, st)[0].op, EntryOf(s, st)[0].id, m')
  {
    if st.Succeeds? && StageOf(s.flow, st.w).Written? && IsStructure(OpIn(s.flow, st.w).key.kind) {
      m' := PlainAfter(m, OpIn(s.flow, st.w), st.id, st.after);
      ApplyStep(cfg, s, st, m);
      ApplyMirrors(cfg, s, st, m);
    } else {
      m' := m;
      QuietStep(cfg, s, st, m);
      if EntryOf(s, st) != [] {
        SkipStep(cfg, s, st, m);
      }
    }
  }

  lemma {:induction false} PlainRunCons(cfg: Settings, a: Plain, entry: Entry, mid: Plain, l: seq<Entry>, c: Plain)
    requires PlainStep(cfg, a, entry.op, entry.id, mid) && PlainRun(cfg, mid, l, c)
    ensures PlainRun(cfg, a, [entry] + l, c)
  {
    var log := [entry] + l;
    assert log[0] == entry && log[1..] == l;
  }

  lemma {:induction false} PlainRunPrepend(cfg: Settings, a: Plain, entries: seq<Entry>, mid: Plain, l: seq<Entry>,
                                           c: Plain)
    requires if entries == [] then mid == a else |entries| == 1 && PlainStep(cfg, a, entries[0].op, entries[0].id, mid)
    requires PlainRun(cfg, mid, l, c)
    ensures PlainRun(cfg, a, entries + l, c)
  {
    if entries == [] {
      assert entries + l == l;
    } else {
      assert entries == [entries[0]];
      PlainRunCons(cfg, a, entries[0], mid, l, c);
    }
  }

  /** A plain mirror that applies every logged op in order can end with the engine's ids and entities. */
  lemma {:induction false} CacheSimulated(cfg: Settings, s: World, steps: seq<Step>, m: Plain) returns (m': Plain)
    requires CacheInv(cfg, s) && SmoothRun(cfg, s, steps) && Mirrors(s, m)
    ensures Legal(cfg, s, steps)
    ensures PlainRun(cfg, m, LogOf(cfg, s, steps), m') && Mirrors(End(cfg, s, steps), m')
    decreases |steps|
  {
    if steps == [] {
      m' := m;
    } else {
      var st := steps[0];
      CacheKept(cfg, s, st);
      var mid := StepSimulated(cfg, s, st, m);
      m' := CacheSimulated(cfg, Next(s, st), steps[1..], mid);
      PlainRunPrepend(cfg, m, EntryOf(s, st), mid, LogOf(cfg, Next(s, st), steps[1..]), m');
    }
  }

  /* The log holds every op the engine has dealt with, once */

  predicate Passed(s: World, i: nat) {
    PassedIn(s.flow, i)
  }

  predicate PassedIn(f: Flow, i: nat) {
    && i < |f.place|
    && (f.place[i].Finished?
        || (f.place[i].InHand? && HandOf(f, f.place[i].worker).Busy?
            && IsLate(HandOf(f, f.place[i].worker).stage)))
  }

  function Bit(b: bool): nat {
    if b then 1 else 0
  }

  function EntriesFor(log: seq<Entry>, i: nat): nat {
    if log == [] then 0 else Bit(log[0].ticket == i) + EntriesFor(log[1..], i)
  }

  lemma {:induction false} OtherPassedMoved(f: Flow, m: Move, i: nat)
    requires FlowInv(f) && MoveAllowed(f, m) && i < |f.place| && (m.Entering? || Subject(f, m) != i)
    ensures PassedIn(Moved(f, m), i) == PassedIn(f, i)
  {
    MovedFrame(f, m);
    if f.place[i].InHand? {
      assert i in Content(f, InHand(f.place[i].worker));
    }
  }

  lemma {:induction false} OtherPassedKept(s: World, st: Step, i: nat)
    requires FlowInv(s.flow) && Addressed(s.flow, st) && MoveAllowed(s.flow, MoveOf(s, st)) && i < |s.flow.place|
    requires st.SubmitOp? || Subject(s.flow, MoveOf(s, st)) != i
    ensures Passed(Next(s, st), i) == Passed(s, i)
  {
    OtherPassedMoved(s.flow, MoveOf(s, st), i);
  }

  // The worker's stage against its row, where a step needs it.
  lemma {:induction false} MoverFits(cfg: Settings, s: World, st: Step)
    requires SmoothInv(s) && SmoothStep(cfg, s, st) && !st.SubmitOp?
    ensures Holds(s.flow, Mover(s, st)) ==>
      StageFits(OpIn(s.flow, Mover(s, st)), StageOf(s.flow, Mover(s, st)), RowOf(s, Mover(s, st)))
    ensures st.WriteIntent? ==> MoveOf(s, st).Advancing?
  {
    if st.WriteIntent? {
      IntentNeverRefused(s, st.w);
    }
  }

  ghost predicate Counts(s: World, st: Step, i: nat)
    requires |s.flow.place| == |s.flow.ops| && i < |s.flow.ops|
    requires Addressed(s.flow, st) && MoveAllowed(s.flow, MoveOf(s, st))
  {
    && (IsStructure(s.flow.ops[i].key.kind) ==> Bit(Passed(Next(s, st), i)) == Bit(Passed(s, i)) + |EntryOf(s, st)|)
    && |EntryOf(s, st)| <= 1 && (EntryOf(s, st) != [] ==> EntryOf(s, st)[0].ticket == i)
  }

  lemma {:induction false} HandedOverCounts(s: World, st: Step)
    requires FlowInv(s.flow) && Addressed(s.flow, st) && MoveAllowed(s.flow, MoveOf(s, st))
    requires (st.SendOp? || st.TakeOp?)
    ensures Subject(s.flow, MoveOf(s, st)) < |s.flow.ops| && Counts(s, st, Subject(s.flow, MoveOf(s, st)))
  {
    SubjectFound(s.flow, MoveOf(s, st));
  }

  lemma {:induction false} ResentCounts(s: World, st: Step)
    requires FlowInv(s.flow) && Addressed(s.flow, st) && MoveAllowed(s.flow, MoveOf(s, st))
    requires MoveOf(s, st).ResendingOne? && st.ResendOne?
    ensures Subject(s.flow, MoveOf(s, st)) < |s.flow.ops| && Counts(s, st, Subject(s.flow, MoveOf(s, st)))
  {
    SubjectFound(s.flow, MoveOf(s, st));
  }

  predicate OwnStep(s: World, st: Step)
    requires Addressed(s.flow, st)
  {
    !st.SubmitOp? && !st.SendOp? && !st.TakeOp? && !MoveOf(s, st).ResendingOne?
  }

  // Skipping and applying are where an entry is logged.
  lemma {:induction false} DecidedCounts(cfg: Settings, s: World, st: Step)
    requires SmoothInv(s) && SmoothStep(cfg, s, st) && OwnStep(s, st) && st.Decide?
    ensures HandOf(s.flow, st.w).ticket < |s.flow.ops| && Counts(s, st, HandOf(s.flow, st.w).ticket)
  {
    assert HandOf(s.flow, st.w).ticket in Content(s.flow, InHand(st.w));
    MoverFits(cfg, s, st);
  }

  lemma {:induction false} AppliedCounts(cfg: Settings, s: World, st: Step)
    requires SmoothInv(s) && SmoothStep(cfg, s, st) && OwnStep(s, st) && st.Succeeds?
    ensures HandOf(s.flow, st.w).ticket < |s.flow.ops| && Counts(s, st, HandOf(s.flow, st.w).ticket)
  {
    assert HandOf(s.flow, st.w).ticket in Content(s.flow, InHand(st.w));
    MoverFits(cfg, s, st);
  }

  predicate IsLate(stage: Stage) {
    stage.Applied? || stage.Confirmed? || stage.Resending?
  }

  // Before its answer an op in hand is not passed.
  lemma {:induction false} EarlyStays(f: Flow, m: Move)
    requires FlowInv(f) && MoveAllowed(f, m) && (m.Parking? || (m.Advancing? && !IsLate(m.stage)))
    requires !IsLate(StageOf(f, m.w))
    ensures HandOf(f, m.w).ticket < |f.place|
    ensures !PassedIn(f, HandOf(f, m.w).ticket) && !PassedIn(Moved(f, m), HandOf(f, m.w).ticket)
  {
    assert HandOf(f, m.w).ticket in Content(f, InHand(m.w));
  }

  lemma {:induction false} EarlyMove(cfg: Settings, s: World, st: Step)
    requires SmoothInv(s) && SmoothStep(cfg, s, st) && (st.CheckDeps? || st.WriteIntent? || st.Throttled?)
    ensures var m := MoveOf(s, st);
      && (m.Parking? || (m.Advancing? && !IsLate(m.stage))) && m.w == st.w && !IsLate(StageOf(s.flow, st.w))
  {
    MoverFits(cfg, s, st);
  }

  lemma {:induction false} UnloggedCounts(cfg: Settings, s: World, st: Step)
    requires SmoothInv(s) && SmoothStep(cfg, s, st) && OwnStep(s, st)
    requires (st.CheckDeps? || st.WriteIntent? || st.Throttled?)
    ensures HandOf(s.flow, st.w).ticket < |s.flow.ops| && Counts(s, st, HandOf(s.flow, st.w).ticket)
  {
    EarlyMove(cfg, s, st);
    EarlyStays(s.flow, MoveOf(s, st));
  }

  // From its answer on an op counts as passed.
  lemma {:induction false} LateCounts(cfg: Settings, s: World, st: Step)
    requires SmoothInv(s) && SmoothStep(cfg, s, st) && OwnStep(s, st) && !st.Decide? && !st.Succeeds?
             && !st.CheckDeps? && !st.WriteIntent? && !st.Throttled?
    ensures HandOf(s.flow, st.w).ticket < |s.flow.ops| && Counts(s, st, HandOf(s.flow, st.w).ticket)
  {
    assert HandOf(s.flow, st.w).ticket in Content(s.flow, InHand(st.w));
    MoverFits(cfg, s, st);
  }

  lemma {:induction false} SubjectPassed(cfg: Settings, s: World, st: Step)
    requires SmoothInv(s) && SmoothStep(cfg, s, st) && !st.SubmitOp?
    ensures Subject(s.flow, MoveOf(s, st)) < |s.flow.ops| && Counts(s, st, Subject(s.flow, MoveOf(s, st)))
  {
    MoverOf(s, st);
    if st.SendOp? || st.TakeOp? {
      HandedOverCounts(s, st);
    } else if MoveOf(s, st).ResendingOne? {
      ResentCounts(s, st);
    } else if st.Decide? {
      DecidedCounts(cfg, s, st);
    } else if st.Succeeds? {
      AppliedCounts(cfg, s, st);
    } else if st.CheckDeps? || st.WriteIntent? || st.Throttled? {
      UnloggedCounts(cfg, s, st);
    } else {
      LateCounts(cfg, s, st);
    }
  }

  function Mover(s: World, st: Step): Key
    requires !st.SubmitOp?
  {
    if st.SendOp? then Key(ServerEntity, NO_ID) else st.w
  }

  lemma {:induction false} EntriesOfOne(log: seq<Entry>, i: nat)
    requires |log| <= 1
    ensures EntriesFor(log, i) == if log != [] && log[0].ticket == i then 1 else 0
  {}

  lemma {:induction false} SubmitCounted(s: World, st: Step, i: nat)
    requires FlowInv(s.flow) && st.SubmitOp?
    ensures EntryOf(s, st) == [] && Passed(Next(s, st), i) == Passed(s, i)
  {
    if i < |s.flow.place| {
      OtherPassedKept(s, st, i);
    }
  }

  // A step that accounts for its own subject accounts for every op.
  lemma {:induction false} OneEntryCounted(s: World, st: Step, i: nat)
    requires FlowInv(s.flow) && Addressed(s.flow, st) && MoveAllowed(s.flow, MoveOf(s, st)) && !st.SubmitOp?
    requires i < |s.flow.ops| ==> IsStructure(s.flow.ops[i].key.kind)
    requires Subject(s.flow, MoveOf(s, st)) < |s.flow.ops| && Counts(s, st, Subject(s.flow, MoveOf(s, st)))
    ensures EntriesFor(EntryOf(s, st), i) + Bit(Passed(s, i)) == Bit(Passed(Next(s, st), i))
  {
    EntriesOfOne(EntryOf(s, st), i);
    if i >= |s.flow.ops| {
      UnknownNotPassed(s, st, i);
    } else if Subject(s.flow, MoveOf(s, st)) != i {
      OtherPassedKept(s, st, i);
    }
  }

  lemma {:induction false} StepCounted(cfg: Settings, s: World, st: Step, i: nat)
    requires SmoothInv(s) && SmoothStep(cfg, s, st)
    requires i < |s.flow.ops| ==> IsStructure(s.flow.ops[i].key.kind)
    ensures EntriesFor(EntryOf(s, st), i) + Bit(Passed(s, i)) == Bit(Passed(Next(s, st), i))
  {
    if st.SubmitOp? {
      SubmitCounted(s, st, i);
    } else {
      SubjectPassed(cfg, s, st);
      OneEntryCounted(s, st, i);
    }
  }

  lemma {:induction false} UnknownNotPassed(s: World, st: Step, i: nat)
    requires FlowInv(s.flow) && Addressed(s.flow, st) && MoveAllowed(s.flow, MoveOf(s, st)) && !st.SubmitOp?
    requires i >= |s.flow.ops|
    ensures !Passed(s, i) && !Passed(Next(s, st), i)
  {
    MoverOf(s, st);
    MovedFrame(s.flow, MoveOf(s, st));
    FlowKept(s.flow, MoveOf(s, st));
  }

  lemma {:induction false} EntriesAppend(a: seq<Entry>, b: seq<Entry>, i: nat)
    ensures EntriesFor(a + b, i) == EntriesFor(a, i) + EntriesFor(b, i)
  {
    if a == [] {
      assert a + b == b;
    } else {
      EntriesAppend(a[1..], b, i);
      assert (a + b)[1..] == a[1..] + b;
    }
  }

  /** Every role or channel op gets exactly one log entry by the time it has been applied or skipped. */
  lemma {:induction false} LogComplete(cfg: Settings, s: World, steps: seq<Step>, i: nat)
    requires SmoothInv(s) && SmoothRun(cfg, s, steps) && Legal(cfg, s, steps)
    requires i < |End(cfg, s, steps).flow.ops| && IsStructure(End(cfg, s, steps).flow.ops[i].key.kind)
    ensures EntriesFor(LogOf(cfg, s, steps), i) + Bit(Passed(s, i)) == Bit(Passed(End(cfg, s, steps), i))
    decreases |steps|
  {
    if steps != [] {
      var st := steps[0];
      SmoothKept(cfg, s, st);
      OpsGrow(cfg, s, steps);
      StepCounted(cfg, s, st, i);
      LogComplete(cfg, Next(s, st), steps[1..], i);
      EntriesAppend(EntryOf(s, st), LogOf(cfg, Next(s, st), steps[1..]), i);
    }
  }
}
