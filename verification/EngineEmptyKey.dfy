/** When a channel is pushed with the empty key, which Stoat reads as "everyone": only if an overwritten
    role's row was removed and written again between the op's dependency check and its call; and a
    run in which that happens. */
module EngineEmptyKey {
  import opened Types
  import opened Canonical
  import opened Store
  import opened Flow
  import opened Gateway
  import opened Engine
  import opened EngineRuns
  import opened EngineQuiescence
  import opened EngineOrder
  import opened EngineStories

  /* An active row of a mirrored kind has an id */

  ghost predicate ActiveHaveIDs(t: Tables) {
    forall k: Key | IsMirrored(k.kind) && IsActive(Lookup(t, k)) :: HasStoatEntity(Lookup(t, k))
  }

  lemma {:induction false} ActiveHasID(cfg: Settings, s: World, st: Step, k: Key)
    requires WorldInv(s) && ActiveHaveIDs(s.tables) && CanStep(cfg, s, st)
    requires IsMirrored(k.kind) && IsActive(Lookup(TablesAfter(s, st), k))
    ensures HasStoatEntity(Lookup(TablesAfter(s, st), k))
  {
    ActiveOnlyByConfirm(s, st, k);
    if Confirming(s, st, k) {
      assert StageFits(OpIn(s.flow, st.w), StageOf(s.flow, st.w), RowOf(s, st.w));
    } else {
      IdentityStable(cfg, s, st, k);
    }
  }

  lemma {:induction false} ActiveIDsKept(cfg: Settings, s: World, steps: seq<Step>)
    requires WorldInv(s) && ActiveHaveIDs(s.tables) && Legal(cfg, s, steps)
    ensures ActiveHaveIDs(End(cfg, s, steps).tables)
    decreases |steps|
  {
    if steps != [] {
      StepKeepsInv(cfg, s, steps[0]);
      forall k: Key | IsMirrored(k.kind) && IsActive(Lookup(TablesAfter(s, steps[0]), k))
        ensures HasStoatEntity(Lookup(TablesAfter(s, steps[0]), k))
      {
        ActiveHasID(cfg, s, steps[0], k);
      }
      ActiveIDsKept(cfg, Next(s, steps[0]), steps[1..]);
    }
  }

  /* Before its call an op was let by */

  ghost predicate Past(s: World, w: Key, i: nat) {
    Holds(s.flow, w) && HandOf(s.flow, w).ticket == i && !StageOf(s.flow, w).Fresh?
  }

  lemma {:induction false} LetByStep(cfg: Settings, s: World, st: Step, w: Key, i: nat)
    requires FlowInv(s.flow) && CanStep(cfg, s, st) && Past(Next(s, st), w, i) && !Past(s, w, i)
    ensures st == CheckDeps(w) && HandOf(s.flow, w) == Busy(i, Fresh) && i < |s.flow.ops|
    ensures FirstUnmet(s.tables, s.flow.ops[i].deps).None?
  {
    MoverOf(s, st);
    MovedFrame(s.flow, MoveOf(s, st));
    assert HandOf(s.flow, w).Busy? ==> HandOf(s.flow, w).ticket in Content(s.flow, InHand(w));
  }

  // The check that let ticket i by, n steps into the run.
  ghost predicate CheckedAt(cfg: Settings, s: World, steps: seq<Step>, w: Key, i: nat, n: nat) {
    && n < |steps| && steps[n] == CheckDeps(w) && Legal(cfg, s, steps[..n])
    && var at := End(cfg, s, steps[..n]);
       HandOf(at.flow, w) == Busy(i, Fresh) && i < |at.flow.ops| && FirstUnmet(at.tables, at.flow.ops[i].deps).None?
  }

  lemma {:induction false} CheckedBefore(cfg: Settings, s: World, steps: seq<Step>, w: Key, i: nat) returns (n: nat)
    requires WorldInv(s) && Legal(cfg, s, steps) && Past(End(cfg, s, steps), w, i) && !Past(s, w, i)
    ensures CheckedAt(cfg, s, steps, w, i, n)
    decreases |steps|
  {
    var s' := Next(s, steps[0]);
    if Past(s', w, i) {
      LetByStep(cfg, s, steps[0], w, i);
      n := 0;
    } else {
      StepKeepsInv(cfg, s, steps[0]);
      var m := CheckedBefore(cfg, s', steps[1..], w, i);
      CheckedLater(cfg, s, steps, w, i, m);
      n := m + 1;
    }
  }

  lemma {:induction false} CheckedLater(cfg: Settings, s: World, steps: seq<Step>, w: Key, i: nat, m: nat)
    requires steps != [] && CanStep(cfg, s, steps[0]) && CheckedAt(cfg, Next(s, steps[0]), steps[1..], w, i, m)
    ensures CheckedAt(cfg, s, steps, w, i, m + 1)
  {
    var head := steps[..m + 1];
    assert head[0] == steps[0] && head[1..] == steps[1..][..m];
    assert End(cfg, s, head) == End(cfg, Next(s, steps[0]), steps[1..][..m]);
  }

  // Role r had its id at step n, and its row was removed some time after.
  ghost predicate ErasedSince(cfg: Settings, s: World, steps: seq<Step>, n: nat, r: Id) {
    && n <= |steps| && Legal(cfg, s, steps[..n]) && Legal(cfg, End(cfg, s, steps[..n]), steps[n..])
    && HasStoatEntity(Lookup(End(cfg, s, steps[..n]).tables, Key(RoleEntity, r)))
    && !NeverErased(cfg, End(cfg, s, steps[..n]), steps[n..], Key(RoleEntity, r))
  }

  // An op let by its check had every overwritten role's id.
  lemma {:induction false} CheckedHadIDs(cfg: Settings, at: World, op: Op, c: Channel, r: Id)
    requires ActiveHaveIDs(at.tables) && Built(op) && op.desired == ToChannel(c) && r in c.overwrites
    requires FirstUnmet(at.tables, op.deps).None?
    ensures HasStoatEntity(Lookup(at.tables, Key(RoleEntity, r)))
  {
    FirstUnmetSpec(at.tables, op.deps);
    assert Key(RoleEntity, r) in op.deps;
  }

  lemma {:induction false} IDLostByErasure(cfg: Settings, s: World, steps: seq<Step>, n: nat, r: Id)
    requires WorldInv(s) && Legal(cfg, s, steps) && n <= |steps| && Legal(cfg, s, steps[..n])
    requires HasStoatEntity(Lookup(End(cfg, s, steps[..n]).tables, Key(RoleEntity, r)))
    requires RowWithoutID(End(cfg, s, steps).tables, r)
    ensures ErasedSince(cfg, s, steps, n, r)
  {
    RunSplits(cfg, s, steps, n);
    RunKeepsInv(cfg, s, steps[..n]);
    if NeverErased(cfg, End(cfg, s, steps[..n]), steps[n..], Key(RoleEntity, r)) {
      AtMostOneCreate(cfg, End(cfg, s, steps[..n]), steps[n..], Key(RoleEntity, r));
    }
  }

  lemma {:induction false} SameOpLater(cfg: Settings, s: World, steps: seq<Step>, n: nat, i: nat)
    requires Legal(cfg, s, steps) && n <= |steps| && Legal(cfg, s, steps[..n]) && i < |End(cfg, s, steps[..n]).flow.ops|
    ensures i < |End(cfg, s, steps).flow.ops| && End(cfg, s, steps).flow.ops[i] == End(cfg, s, steps[..n]).flow.ops[i]
  {
    RunSplits(cfg, s, steps, n);
    OpsGrow(cfg, End(cfg, s, steps[..n]), steps[n..]);
  }

  /** In any run, a channel about to be written would get the empty key only because an overwritten
      role, active with an id when the op passed its dependency check, has had its row removed since
      (and is present again without an id). */
  lemma {:induction false} EmptyKeyNeedsErasure(cfg: Settings, s: World, steps: seq<Step>, w: Key, c: Channel,
                                                resolved: map<Id, StoatOverwrite>) returns (n: nat, r: Id)
    requires Initial(s) && ActiveHaveIDs(s.tables) && Legal(cfg, s, steps)
    requires var e := End(cfg, s, steps);
      && Holds(e.flow, w) && StageOf(e.flow, w).Written? && OpIn(e.flow, w).desired == ToChannel(c)
      && Resolves(e.tables, cfg.guildID, OverwritesToStoat(c.overwrites), resolved)
    requires NO_ID in resolved
    ensures var e := End(cfg, s, steps);
      && CheckedAt(cfg, s, steps, w, HandOf(e.flow, w).ticket, n)
      && r in c.overwrites && r != cfg.guildID && RowWithoutID(e.tables, r) && ErasedSince(cfg, s, steps, n, r)
  {
    var e := End(cfg, s, steps);
    var i := HandOf(e.flow, w).ticket;
    InitialInv(s);
    RunKeepsInv(cfg, s, steps);
    EmptyKeyIffRoleWithoutID(e.tables, cfg.guildID, OverwritesToStoat(c.overwrites), resolved);
    r :| r in OverwritesToStoat(c.overwrites) && r != cfg.guildID && RowWithoutID(e.tables, r);
    n := CheckedBefore(cfg, s, steps, w, i);
    ActiveIDsKept(cfg, s, steps[..n]);
    SameOpLater(cfg, s, steps, n, i);
    CheckedHadIDs(cfg, End(cfg, s, steps[..n]), e.flow.ops[i], c, r);
    IDLostByErasure(cfg, s, steps, n, r);
  }

  /* A run to it: the role is deleted and created again while the channel stands before its call */

  ghost predicate Leads(cfg: Settings, start: World, run: seq<Step>, s: World) {
    Legal(cfg, start, run) && End(cfg, start, run) == s && |s.flow.place| == |s.flow.ops|
  }

  lemma {:induction false} Onward(cfg: Settings, start: World, run: seq<Step>, s: World, st: Step)
    returns (run': seq<Step>, s': World)
    requires Leads(cfg, start, run, s) && Enabled(cfg, s, st)
    ensures CanStep(cfg, s, st) && s' == Next(s, st) && Leads(cfg, start, run', s')
  {
    MoveIsAllowed(cfg, s, st);
    RunExtends(cfg, start, run, st);
    run', s' := run + [st], Next(s, st);
  }

  // From s to s' worker w alone has moved; nothing waits to be sent and w's queue is empty.
  ghost predicate OnlyWorker(s: World, s': World, w: Key) {
    && s'.flow.submitting == [] && QueueOf(s'.flow, w) == [] && s.flow.ops <= s'.flow.ops
    && forall v | v != w :: HandOf(s'.flow, v) == HandOf(s.flow, v) && QueueOf(s'.flow, v) == QueueOf(s.flow, v)
  }

  ghost predicate Calm(s: World, w: Key) {
    s.flow.submitting == [] && QueueOf(s.flow, w) == [] && HandOf(s.flow, w).Idle?
  }

  lemma {:induction false} SubmitAndSend(cfg: Settings, start: World, run: seq<Step>, s: World, op: Op)
    returns (run': seq<Step>, s': World)
    requires Leads(cfg, start, run, s) && Calm(s, WorkerOf(op)) && Built(op) && SameWorker(s.flow.ops, op)
    ensures Leads(cfg, start, run', s') && s'.tables == s.tables && s'.remote == s.remote
    ensures s'.flow.ops == s.flow.ops + [op]
    ensures s'.flow.hands == s.flow.hands && s'.flow.submitting == []
    ensures QueueOf(s'.flow, WorkerOf(op)) == [|s.flow.ops|]
    ensures forall v | v != WorkerOf(op) :: QueueOf(s'.flow, v) == QueueOf(s.flow, v)
  {
    run', s' := Onward(cfg, start, run, s, SubmitOp(op));
    assert s'.flow.submitting == [|s.flow.ops|] && s'.flow.ops == s.flow.ops + [op];
    run', s' := Onward(cfg, start, run', s', SendOp(0));
  }

  lemma {:induction false} TakeAndCheck(cfg: Settings, start: World, run: seq<Step>, s: World, w: Key, i: nat)
    returns (run': seq<Step>, s': World)
    requires Leads(cfg, start, run, s) && HandOf(s.flow, w).Idle? && QueueOf(s.flow, w) == [i] && i < |s.flow.ops|
    requires FirstUnmet(s.tables, s.flow.ops[i].deps).None? && s.flow.submitting == []
    ensures Leads(cfg, start, run', s') && s'.tables == s.tables && s'.remote == s.remote && s'.flow.ops == s.flow.ops
    ensures OnlyWorker(s, s', w) && HandOf(s'.flow, w) == Busy(i, Ready)
  {
    run', s' := Onward(cfg, start, run, s, TakeOp(w));
    assert HandOf(s'.flow, w) == Busy(i, Fresh) && OpIn(s'.flow, w) == s.flow.ops[i] && s'.tables == s.tables;
    run', s' := Onward(cfg, start, run', s', CheckDeps(w));
  }

  // Submitted, sent, taken and let by its dependency check.
  lemma {:induction false} PickUp(cfg: Settings, start: World, run: seq<Step>, s: World, op: Op)
    returns (run': seq<Step>, s': World)
    requires Leads(cfg, start, run, s) && Calm(s, WorkerOf(op)) && Built(op) && SameWorker(s.flow.ops, op)
    requires FirstUnmet(s.tables, op.deps).None?
    ensures Leads(cfg, start, run', s') && s'.tables == s.tables && s'.remote == s.remote
    ensures s'.flow.ops == s.flow.ops + [op]
    ensures OnlyWorker(s, s', WorkerOf(op)) && HandOf(s'.flow, WorkerOf(op)) == Busy(|s.flow.ops|, Ready)
  {
    run', s' := SubmitAndSend(cfg, start, run, s, op);
    run', s' := TakeAndCheck(cfg, start, run', s', WorkerOf(op), |s.flow.ops|);
  }

  // An op on an absent row gets as far as its remote call.
  lemma {:induction false} BeginCreate(cfg: Settings, start: World, run: seq<Step>, s: World, w: Key, i: nat)
    returns (run': seq<Step>, s': World)
    requires Leads(cfg, start, run, s) && !cfg.dryRun && HandOf(s.flow, w) == Busy(i, Ready) && i < |s.flow.ops|
    requires var op := s.flow.ops[i];
      !op.kind.OpDelete? && !op.key.kind.MessageEntity? && Lookup(s.tables, op.key).Absent?
    requires s.flow.submitting == [] && QueueOf(s.flow, w) == []
    ensures Leads(cfg, start, run', s') && s'.flow.ops == s.flow.ops && s'.remote == s.remote
    ensures OnlyWorker(s, s', w) && HandOf(s'.flow, w) == Busy(i, Written(0))
    ensures var op := s.flow.ops[i];
      s'.tables == s.tables.(rows := s.tables.rows[op.key := Row(NO_ID, Pending, StateOf(op))])
  {
    run', s' := Onward(cfg, start, run, s, Decide(w));
    assert HandOf(s'.flow, w) == Busy(i, Intend) && s'.tables == s.tables && s'.flow.ops == s.flow.ops;
    run', s' := Onward(cfg, start, run', s', WriteIntent(w));
  }

  lemma {:induction false} DeleteRemotely(cfg: Settings, start: World, run: seq<Step>, s: World, w: Key, i: nat)
    returns (run': seq<Step>, s': World)
    requires Leads(cfg, start, run, s) && !cfg.dryRun && HandOf(s.flow, w) == Busy(i, Ready) && i < |s.flow.ops|
    requires var op := s.flow.ops[i];
      && op.kind.OpDelete? && op.key.kind.RoleEntity? && IsActive(Lookup(s.tables, op.key))
      && Lookup(s.tables, op.key).stoatID in s.remote.entities
    requires s.flow.submitting == [] && QueueOf(s.flow, w) == []
    ensures Leads(cfg, start, run', s') && s'.flow.ops == s.flow.ops && s'.tables == s.tables
    ensures OnlyWorker(s, s', w) && HandOf(s'.flow, w) == Busy(i, Gone)
  {
    run', s' := Onward(cfg, start, run, s, Decide(w));
    assert HandOf(s'.flow, w) == Busy(i, Removing(0)) && s'.tables == s.tables && s'.flow.ops == s.flow.ops;
    run', s' := Onward(cfg, start, run', s', Succeeds(w, NO_ID, LiveMessage(NO_ID, "")));
  }

  lemma {:induction false} FinishDelete(cfg: Settings, start: World, run: seq<Step>, s: World, w: Key, i: nat)
    returns (run': seq<Step>, s': World)
    requires Leads(cfg, start, run, s) && HandOf(s.flow, w) == Busy(i, Gone) && i < |s.flow.ops|
    requires s.flow.ops[i].key.kind.RoleEntity?
    requires s.flow.submitting == [] && QueueOf(s.flow, w) == []
    ensures Leads(cfg, start, run', s') && s'.flow.ops == s.flow.ops
    ensures s'.tables == s.tables.(rows := s.tables.rows - {s.flow.ops[i].key})
    ensures OnlyWorker(s, s', w) && HandOf(s'.flow, w).Idle?
  {
    run', s' := Onward(cfg, start, run, s, EraseRow(w));
  }

  lemma {:induction false} DeleteRole(cfg: Settings, start: World, run: seq<Step>, s: World, r: Id)
    returns (run': seq<Step>, s': World)
    requires Leads(cfg, start, run, s) && !cfg.dryRun && Calm(s, RoleKey(r)) && r != NO_ID
    requires SameWorker(s.flow.ops, RemoveOp(r))
    requires IsActive(Lookup(s.tables, RoleKey(r))) && Lookup(s.tables, RoleKey(r)).stoatID in s.remote.entities
    ensures Leads(cfg, start, run', s') && s'.flow.ops == s.flow.ops + [RemoveOp(r)]
    ensures s'.tables == s.tables.(rows := s.tables.rows - {RoleKey(r)})
    ensures OnlyWorker(s, s', RoleKey(r)) && HandOf(s'.flow, RoleKey(r)).Idle?
  {
    var w, i := RoleKey(r), |s.flow.ops|;
    run', s' := PickUp(cfg, start, run, s, RemoveOp(r));
    run', s' := DeleteRemotely(cfg, start, run', s', w, i);
    run', s' := FinishDelete(cfg, start, run', s', w, i);
  }

  function RoleKey(r: Id): Key {
    Key(RoleEntity, r)
  }

  function RemoveOp(r: Id): Op {
    Op(OpDelete, RoleKey(r), NO_ID, Nothing, [], [])
  }

  function RestoreOp(role: Role): Op {
    Op(OpCreate, RoleKey(role.id), NO_ID, ToRole(role), [], [])
  }

  // The role is mirrored as Stoat entity e; nothing else is known.
  function RoleMirrored(role: Role, e: Id): World {
    World(NO_FLOW, Tables(map[RoleKey(role.id) := Row(e, Active, RoleJSON(role))], map[]),
          Remote(map[e := LiveRole(RoleToStoat(role))], []), [], {e}, map[])
  }

  ghost predicate SoundStart(cfg: Settings, role: Role, e: Id, c: Channel) {
    && !cfg.dryRun && e != NO_ID && e != EVERYONE && role.colour != "" && role.id != NO_ID && role.id != cfg.guildID
    && OneOverwrite(c, role.id)
  }

  lemma {:induction false} ChannelAtItsCall(cfg: Settings, role: Role, e: Id, c: Channel)
    returns (run: seq<Step>, s: World)
    requires SoundStart(cfg, role, e, c)
    ensures Leads(cfg, RoleMirrored(role, e), run, s) && s.flow.submitting == []
    ensures s.flow.ops == [CreateOp(c, [RoleKey(role.id)])] && HandOf(s.flow, ChannelKey(c.id)) == Busy(0, Written(0))
    ensures forall v | v != ChannelKey(c.id) :: HandOf(s.flow, v).Idle? && QueueOf(s.flow, v) == []
    ensures s.remote == RoleMirrored(role, e).remote
    ensures s.tables.rows == RoleMirrored(role, e).tables.rows[ChannelKey(c.id) := Row(NO_ID, Pending, ChannelJSON(c))]
  {
    var start, op := RoleMirrored(role, e), CreateOp(c, [RoleKey(role.id)]);
    assert FirstUnmet(start.tables, op.deps[1..]).None?;
    run, s := PickUp(cfg, start, [], start, op);
    run, s := BeginCreate(cfg, start, run, s, ChannelKey(c.id), 0);
  }

  // The channel is about to be written while the role's row is pending without an id.
  ghost predicate RoleLostItsID(s: World, c: Channel, r: Id) {
    && HandOf(s.flow, ChannelKey(c.id)) == Busy(0, Written(0)) && |s.flow.ops| > 0
    && s.flow.ops[0] == CreateOp(c, [RoleKey(r)])
    && Lookup(s.tables, ChannelKey(c.id)) == Found(NO_ID, Pending, ChannelJSON(c))
    && RowWithoutID(s.tables, r)
  }

  lemma {:induction false} RoleReplaced(cfg: Settings, role: Role, e: Id, c: Channel) returns (run: seq<Step>, s: World)
    requires SoundStart(cfg, role, e, c)
    ensures Leads(cfg, RoleMirrored(role, e), run, s) && RoleLostItsID(s, c, role.id)
  {
    var start, k := RoleMirrored(role, e), RoleKey(role.id);
    run, s := ChannelAtItsCall(cfg, role, e, c);
    run, s := DeleteRole(cfg, start, run, s, role.id);
    run, s := PickUp(cfg, start, run, s, RestoreOp(role));
    run, s := BeginCreate(cfg, start, run, s, k, 2);
  }

  lemma {:induction false} PushedForEveryone(t: Tables, guildID: Id, r: Id, ow: map<Id, StoatOverwrite>,
                                             base: map<Id, StoatOverwrite>, resolved: map<Id, StoatOverwrite>,
                                             after: map<Id, StoatOverwrite>)
    requires ow.Keys == {r} && Target(t, guildID, r) == Some(NO_ID)
    requires Resolves(t, guildID, ow, resolved) && Pushed(base, resolved, after)
    ensures EVERYONE in after && after[EVERYONE] == ow[r]
  {
    assert r in ow && NO_ID in resolved && resolved[NO_ID] == ow[r];
    assert forall k | k in resolved :: k == NO_ID;
    assert PermissionKey(NO_ID) == EVERYONE && WriteOf(base, resolved, EVERYONE, after[EVERYONE]);
  }

  lemma {:induction false} CreatesWithEmptyKey(cfg: Settings, s: World, c: Channel, r: Id, id: Id, after: Entity)
    requires c.id != NO_ID && RoleLostItsID(s, c, r) && Answers(cfg, s, ChannelKey(c.id), id, after)
    ensures Wrote(cfg, s.tables, ToChannel(c), None, after)
  {
    assert OpIn(s.flow, ChannelKey(c.id)) == CreateOp(c, [RoleKey(r)]);
  }

  // What any successful call then writes.
  lemma {:induction false} OverwriteGoesToEveryone(cfg: Settings, s: World, c: Channel, r: Id, id: Id, after: Entity)
    requires OneOverwrite(c, r) && r != cfg.guildID && RoleLostItsID(s, c, r)
    requires Answers(cfg, s, ChannelKey(c.id), id, after)
    ensures after.LiveChannel? && EVERYONE in after.perms && after.perms[EVERYONE] == OverwriteToStoat(c.overwrites[r])
  {
    var ow := OverwritesToStoat(c.overwrites);
    CreatesWithEmptyKey(cfg, s, c, r, id, after);
    var resolved :| Resolves(s.tables, cfg.guildID, ow, resolved)
                    && Pushed(Granted(map[], cfg.adminRoles, cfg.grant), resolved, after.perms);
    assert ow.Keys == c.overwrites.Keys && Target(s.tables, cfg.guildID, r) == Some(NO_ID);
    PushedForEveryone(s.tables, cfg.guildID, r, ow, Granted(map[], cfg.adminRoles, cfg.grant), resolved, after.perms);
  }

  // Some call can succeed.
  lemma {:induction false} CallCanSucceed(cfg: Settings, s: World, c: Channel, r: Id) returns (id: Id, after: Entity)
    requires OneOverwrite(c, r) && RoleLostItsID(s, c, r) && |s.flow.place| == |s.flow.ops|
    ensures CanStep(cfg, s, Succeeds(ChannelKey(c.id), id, after))
  {
    var op := CreateOp(c, [RoleKey(r)]);
    id := FreshIDExists(s);
    after := WriteExists(cfg, s.tables, op, None);
    assert OpIn(s.flow, ChannelKey(c.id)) == op;
    MoveIsAllowed(cfg, s, Succeeds(ChannelKey(c.id), id, after));
  }

  // However the call succeeds, the role's permissions are everyone's.
  ghost predicate GivenToEveryone(cfg: Settings, s: World, c: Channel, r: Id)
    requires r in c.overwrites
  {
    forall id, after | CanStep(cfg, s, Succeeds(ChannelKey(c.id), id, after)) ::
      after.LiveChannel? && EVERYONE in after.perms && after.perms[EVERYONE] == OverwriteToStoat(c.overwrites[r])
  }

  lemma {:induction false} AnySuccess(cfg: Settings, s: World, c: Channel, r: Id)
    requires OneOverwrite(c, r) && r != cfg.guildID && RoleLostItsID(s, c, r)
    ensures GivenToEveryone(cfg, s, c, r)
  {
    forall id, after | CanStep(cfg, s, Succeeds(ChannelKey(c.id), id, after))
      ensures after.LiveChannel? && EVERYONE in after.perms
      ensures after.perms[EVERYONE] == OverwriteToStoat(c.overwrites[r])
    {
      OverwriteGoesToEveryone(cfg, s, c, r, id, after);
    }
  }

  lemma {:induction false} StartIsSound(cfg: Settings, role: Role, e: Id, c: Channel)
    requires SoundStart(cfg, role, e, c)
    ensures Initial(RoleMirrored(role, e)) && ActiveHaveIDs(RoleMirrored(role, e).tables)
  {}

  /** The engine reaches that call: for every channel with one overwrite, of a role other than the
      guild's, there is a run from a start with the role mirrored to a state where the channel's create
      can succeed and, however it does, gives the role's permissions to everyone. */
  lemma {:induction false} EmptyKeyReached(cfg: Settings, role: Role, e: Id, c: Channel)
    returns (run: seq<Step>, s: World, id: Id, after: Entity)
    requires SoundStart(cfg, role, e, c)
    ensures Initial(RoleMirrored(role, e)) && ActiveHaveIDs(RoleMirrored(role, e).tables)
    ensures Leads(cfg, RoleMirrored(role, e), run, s)
    ensures CanStep(cfg, s, Succeeds(ChannelKey(c.id), id, after)) && GivenToEveryone(cfg, s, c, role.id)
  {
    StartIsSound(cfg, role, e, c);
    run, s := RoleReplaced(cfg, role, e, c);
    id, after := CallCanSucceed(cfg, s, c, role.id);
    AnySuccess(cfg, s, c, role.id);
  }
}
