/** What a restart does about a row that a failed op left pending: the bind pass, the live pass and the
    converge op's own Diff in sequence. */
module Restart {
  import opened Types
  import opened Canonical
  import opened Store
  import opened Flow
  import opened Gateway
  import opened Engine
  import opened Bind
  import opened BindTheorems
  import opened Live
  import opened LiveTheorems

  /* The live pass re-stamps active rows only */

  lemma {:induction false} RoleStampsActive(t: Tables, roles: seq<Role>, live: seq<RoleInfo>, k: Key)
    requires k in RoleStamps(t, roles, live)
    ensures IsActive(Lookup(t, k))
  {
    var n := |roles| - 1;
    if k in RoleStamps(t, roles[..n], live) {
      RoleStampsActive(t, roles[..n], live, k);
    }
  }

  lemma {:induction false} ChannelStampsActive(t: Tables, channels: seq<Channel>, live: map<Id, ChannelInfo>,
                                               roleOf: map<Id, Id>, guildID: Id, k: Key)
    requires k in ChannelStamps(t, channels, live, roleOf, guildID)
    ensures IsActive(Lookup(t, k))
  {
    var n := |channels| - 1;
    if k in ChannelStamps(t, channels[..n], live, roleOf, guildID) {
      ChannelStampsActive(t, channels[..n], live, roleOf, guildID, k);
    }
  }

  lemma {:induction false} CategoryStampsActive(t: Tables, cats: seq<Category>, slots: seq<Slot>,
                                                channelOf: map<Id, Id>, k: Key)
    requires k in CategoryStamps(t, cats, slots, channelOf)
    ensures IsActive(Lookup(t, k))
  {
    var n := |cats| - 1;
    if k in CategoryStamps(t, cats[..n], slots, channelOf) {
      CategoryStampsActive(t, cats[..n], slots, channelOf, k);
    }
  }

  /** A row that is not active is not touched by the live pass. */
  lemma {:induction false} InactiveRowsStay(t: Tables, q: Wanted, live: Snapshot, k: Key)
    requires !IsActive(Lookup(t, k))
    ensures Lookup(LiveOutcome(t, q, live), k) == Lookup(t, k)
  {
    var roleOf, channelOf := Reverse(t, RoleEntity, RoleIDs(q.roles)),
      Reverse(t, ChannelEntity, ChannelIDs(q.channels));
    if k in RoleStamps(t, q.roles, live.roles) {
      RoleStampsActive(t, q.roles, live.roles, k);
    } else if k in ChannelStamps(t, q.channels, live.channels, roleOf, q.guildID) {
      ChannelStampsActive(t, q.channels, live.channels, roleOf, q.guildID, k);
    } else if k in CategoryStamps(t, q.categories, live.categories, channelOf) {
      CategoryStampsActive(t, q.categories, live.categories, channelOf, k);
    }
  }

  /* The bind pass of a kind */

  function Listed(p: Params, kind: EntityType): seq<Identity> {
    match kind
    case CategoryEntity => p.categories
    case ChannelEntity => p.channels
    case _ => p.roles
  }

  // What the pass of a kind pairs up.
  ghost function Matches(t: Tables, p: Params, server: Server, kind: EntityType): map<Id, Identity> {
    match kind
    case CategoryEntity => Pairs(t, kind, IDsOf(Elements(server.categories)), p.categories, Elements(server.categories))
    case ChannelEntity => Pairs(t, kind, IDSet(server.channelIDs), p.channels, Fetched(server))
    case _ => Pairs(t, kind, IDsOf(Elements(server.roles)), p.roles, Elements(server.roles))
  }

  // The pass of one kind, seen from the tables before the whole start.
  lemma {:induction false} PendingRowAfterPass(t: Tables, u: Tables, kind: EntityType, exist: set<Id>,
                                               items: seq<Identity>, listed: set<Identity>, d: Identity)
    requires Bindable(kind) && UniqueIDs(items) && d in items && !IsActive(Lookup(t, Key(kind, d.id)))
    requires forall k: Key | k.kind == kind :: Lookup(u, k) == Lookup(t, k)
    ensures var pairs := Pairs(t, kind, exist, items, listed);
      Lookup(Bound(u, kind, exist, items, listed), Key(kind, d.id)) ==
        if d.id in pairs then Found(pairs[d.id].id, Active, EmptyObject) else Lookup(t, Key(kind, d.id))
  {
    SameRowsSamePairs(t, u, kind, exist, items, listed);
    RowAfter(u, kind, exist, items, listed, d);
  }

  lemma {:induction false} PendingRowAfterStart(t: Tables, p: Params, server: Server, kind: EntityType, d: Identity)
    requires WellListed(p, server) && Bindable(kind) && d in Listed(p, kind) && !IsActive(Lookup(t, Key(kind, d.id)))
    ensures var pairs := Matches(t, p, server, kind);
      Lookup(StartOutcome(t, p, server), Key(kind, d.id)) ==
        if d.id in pairs then Found(pairs[d.id].id, Active, EmptyObject) else Lookup(t, Key(kind, d.id))
  {
    var t1 := CategoriesBound(t, p, server);
    var t2 := ChannelsBound(t1, p, server);
    PassesAreIndependent(t, p, server);
    match kind
    case CategoryEntity =>
      PendingRowAfterPass(t, t, kind, IDsOf(Elements(server.categories)), p.categories, Elements(server.categories), d);
    case ChannelEntity => PendingRowAfterPass(t, t1, kind, IDSet(server.channelIDs), p.channels, Fetched(server), d);
    case RoleEntity => PendingRowAfterPass(t, t2, kind, IDsOf(Elements(server.roles)), p.roles,
                                           Elements(server.roles), d);
  }

  // The tables the converge ops meet.
  ghost function Restarted(t: Tables, p: Params, server: Server, q: Wanted, live: Snapshot): Tables {
    LiveOutcome(StartOutcome(t, p, server), q, live)
  }

  /** A pending row after a restart: adopted and active if the bind pass finds it a partner, otherwise
      what it was, id, status and recorded state. */
  lemma {:induction false} PendingRowAfterRestart(t: Tables, p: Params, server: Server, q: Wanted, live: Snapshot,
                                                  kind: EntityType, d: Identity)
    requires WellListed(p, server) && Bindable(kind) && d in Listed(p, kind) && !IsActive(Lookup(t, Key(kind, d.id)))
    ensures var row, pairs := Lookup(Restarted(t, p, server, q, live), Key(kind, d.id)), Matches(t, p, server, kind);
      if d.id in pairs then IsActive(row) && row.stoatID == pairs[d.id].id else row == Lookup(t, Key(kind, d.id))
  {
    var t1, k := StartOutcome(t, p, server), Key(kind, d.id);
    PendingRowAfterStart(t, p, server, kind, d);
    if IsActive(Lookup(t1, k)) {
      LiveKeepsIdentities(t1, q, live);
      assert SameIdentity(Lookup(t1, k), Lookup(LiveOutcome(t1, q, live), k));
    } else {
      InactiveRowsStay(t1, q, live, k);
    }
  }

  /** A failed create or edit is not repaired by a restart: whatever Stoat holds, the converge op of the
      entity finishes without a remote call and leaves the row pending exactly if the bind pass found it
      no partner and the desired shape is still the one that failed. */
  lemma {:induction false} NotRepairedByRestartIff(t: Tables, p: Params, server: Server, q: Wanted, live: Snapshot,
                                                   d: Identity, failed: Op, cfg: Settings, s: World, st: Step)
    requires WellListed(p, server) && CanStep(cfg, s, st) && st.Decide?
    requires var op := OpIn(s.flow, st.w);
      && Built(op) && Built(failed) && failed.key == op.key && !op.kind.OpDelete? && !failed.kind.OpDelete?
      && Bindable(op.key.kind) && d in Listed(p, op.key.kind) && op.key.id == d.id
    requires var row := Lookup(t, failed.key); row.Found? && row.status.Pending? && row.state == StateOf(failed)
    requires RowOf(s, st.w) == Lookup(Restarted(t, p, server, q, live), failed.key)
    ensures MoveOf(s, st) == Finishing(st.w) && !IsActive(Lookup(Next(s, st).tables, failed.key)) <==>
      d.id !in Matches(t, p, server, failed.key.kind) && SameOnStoat(OpIn(s.flow, st.w).desired, failed.desired)
  {
    PendingRowAfterRestart(t, p, server, q, live, failed.key.kind, d);
    DiffAgainstRecord(OpIn(s.flow, st.w).desired, failed);
  }
}
