/** What a successful call leaves on Stoat, field by field and in terms of the row and the desired state
    alone: where a message lands, which bits a role or an overwrite gets, what the sidebar shows. */
module Pushes {
  import opened Types
  import opened Permissions
  import opened Canonical
  import opened Store
  import opened Flow
  import opened Gateway
  import opened Engine
  import opened EngineRuns

  /* Roles */

  /** A pushed role: allow and deny by permission, colour, hoist, the rank but never below 1, and the name
      of the create. */
  lemma {:induction false} RolePushed(cfg: Settings, t: Tables, r: Role, before: Option<Entity>, after: Entity)
    requires Wrote(cfg, t, ToRole(r), before, after)
    ensures after.LiveRole?
    ensures BitsOf(r.permissions.allow, after.shape.permissions.allow)
    ensures BitsOf(r.permissions.deny, after.shape.permissions.deny)
    ensures after.shape.colour == r.colour && after.shape.hoist == r.hoist
    ensures after.shape.rank == if r.rank < 1 then 1 else r.rank
    ensures before.None? ==> after.shape.name == r.name
    ensures before.Some? ==> before.value.LiveRole? && after.shape.name == before.value.shape.name
  {
    RoleShape(r, RoleToStoat(r));
  }

  /* Channels */

  // The row of role q, if there is one, names another id than e.
  ghost predicate NamesOther(t: Tables, q: Id, e: Id) {
    var m := Lookup(t, Key(RoleEntity, q));
    m.Found? ==> m.stoatID != e
  }

  // e is r's own key on the channel: no other overwrite goes there.
  ghost predicate OwnKey(cfg: Settings, t: Tables, roles: set<Id>, r: Id, e: Id) {
    forall q | q in roles && q != r && q != cfg.guildID :: NamesOther(t, q, e)
  }

  // The entry under e grants and denies what overwrite o says.
  ghost predicate EntryIs(perms: map<Id, StoatOverwrite>, e: Id, o: Overwrite) {
    e in perms && BitsOf(o.allow, perms[e].allow) && BitsOf(o.deny, perms[e].deny)
  }

  lemma {:induction false} PushedEntry(before: map<Id, StoatOverwrite>, resolved: map<Id, StoatOverwrite>,
                                       after: map<Id, StoatOverwrite>, e: Id)
    requires Pushed(before, resolved, after) && e in resolved && e != NO_ID && (e == EVERYONE ==> NO_ID !in resolved)
    ensures e in after && after[e] == resolved[e]
  {
    assert PermissionKey(e) == e && WriteOf(before, resolved, e, after[e]);
    assert forall r | r in resolved && PermissionKey(r) == e :: r == e;
  }

  lemma {:induction false} OwnEntry(t: Tables, guildID: Id, ow: map<Id, StoatOverwrite>,
                                    resolved: map<Id, StoatOverwrite>, r: Id, e: Id)
    requires Resolves(t, guildID, ow, resolved) && r in ow && Target(t, guildID, r) == Some(e)
    requires forall q | q in ow && q != r :: Target(t, guildID, q) != Some(e)
    ensures e in resolved && resolved[e] == ow[r]
  {
    var q :| q in ow && Target(t, guildID, q) == Some(e) && resolved[e] == ow[q];
  }

  lemma {:induction false} NoEntry(t: Tables, guildID: Id, ow: map<Id, StoatOverwrite>,
                                   resolved: map<Id, StoatOverwrite>, e: Id)
    requires Resolves(t, guildID, ow, resolved) && forall q | q in ow :: Target(t, guildID, q) != Some(e)
    ensures e !in resolved
  {}

  // The loop's result and the channel's permissions before and after, of one write.
  ghost predicate WrittenBy(cfg: Settings, t: Tables, c: Channel, before: Option<Entity>, after: Entity,
                            resolved: map<Id, StoatOverwrite>, base: map<Id, StoatOverwrite>)
  {
    && after.LiveChannel? && (before.Some? ==> before.value.LiveChannel?)
    && base == Granted(if before.Some? then before.value.perms else map[], cfg.adminRoles, cfg.grant)
    && Resolves(t, cfg.guildID, OverwritesToStoat(c.overwrites), resolved) && Pushed(base, resolved, after.perms)
  }

  lemma {:induction false} HowWritten(cfg: Settings, t: Tables, c: Channel, before: Option<Entity>, after: Entity)
    returns (resolved: map<Id, StoatOverwrite>, base: map<Id, StoatOverwrite>)
    requires Wrote(cfg, t, ToChannel(c), before, after)
    ensures after.name == c.name && WrittenBy(cfg, t, c, before, after, resolved, base)
  {
    var perms := if before.Some? then before.value.perms else map[];
    base := Granted(perms, cfg.adminRoles, cfg.grant);
    resolved :| Resolves(t, cfg.guildID, OverwritesToStoat(c.overwrites), resolved)
      && Pushed(base, resolved, after.perms);
  }

  /** A pushed channel has its name, and each overwrite of a role whose row names e under e. */
  lemma {:induction false} RoleOverwritePushed(cfg: Settings, t: Tables, c: Channel, before: Option<Entity>,
                                               after: Entity, r: Id, e: Id)
    requires Wrote(cfg, t, ToChannel(c), before, after) && r in c.overwrites && r != cfg.guildID
    requires Lookup(t, Key(RoleEntity, r)).Found? && Lookup(t, Key(RoleEntity, r)).stoatID == e
    requires e != NO_ID && e != EVERYONE && OwnKey(cfg, t, c.overwrites.Keys, r, e)
    ensures after.LiveChannel? && after.name == c.name && EntryIs(after.perms, e, c.overwrites[r])
  {
    var ow := OverwritesToStoat(c.overwrites);
    var resolved, base := HowWritten(cfg, t, c, before, after);
    forall q | q in ow && q != r ensures Target(t, cfg.guildID, q) != Some(e) {
      assert q != cfg.guildID ==> NamesOther(t, q, e);
    }
    OwnEntry(t, cfg.guildID, ow, resolved, r, e);
    PushedEntry(base, resolved, after.perms, e);
    OverwriteBits(c.overwrites[r]);
  }

  /** The overwrite of Discord's everyone role, which has the guild's id, under Stoat's name for it. */
  lemma {:induction false} EveryonePushed(cfg: Settings, t: Tables, c: Channel, before: Option<Entity>, after: Entity)
    requires Wrote(cfg, t, ToChannel(c), before, after) && cfg.guildID in c.overwrites
    requires OwnKey(cfg, t, c.overwrites.Keys, cfg.guildID, "default")
    requires OwnKey(cfg, t, c.overwrites.Keys, cfg.guildID, NO_ID)
    ensures after.LiveChannel? && EntryIs(after.perms, "default", c.overwrites[cfg.guildID])
  {
    var ow := OverwritesToStoat(c.overwrites);
    var resolved, base := HowWritten(cfg, t, c, before, after);
    forall q | q in ow && q != cfg.guildID
      ensures Target(t, cfg.guildID, q) != Some(EVERYONE) && Target(t, cfg.guildID, q) != Some(NO_ID)
    {
      assert NamesOther(t, q, "default") && NamesOther(t, q, NO_ID);
    }
    OwnEntry(t, cfg.guildID, ow, resolved, cfg.guildID, EVERYONE);
    NoEntry(t, cfg.guildID, ow, resolved, NO_ID);
    PushedEntry(base, resolved, after.perms, EVERYONE);
    OverwriteBits(c.overwrites[cfg.guildID]);
  }

  // No overwrite goes to key k: neither a role's row names it nor, for everyone, the guild's does.
  ghost predicate NotOverwritten(cfg: Settings, t: Tables, roles: set<Id>, k: Id) {
    && (forall q | q in roles && q != cfg.guildID :: NamesOther(t, q, k) && (k == EVERYONE ==> NamesOther(t, q, NO_ID)))
    && (k == EVERYONE ==> cfg.guildID !in roles)
  }

  lemma {:induction false} UnwrittenKey(base: map<Id, StoatOverwrite>, resolved: map<Id, StoatOverwrite>,
                                        after: map<Id, StoatOverwrite>, k: Id)
    requires Pushed(base, resolved, after) && forall r | r in resolved :: PermissionKey(r) != k
    ensures (k in after <==> k in base) && (k in base ==> after[k] == base[k])
  {
    if k in after {
      assert WriteOf(base, resolved, k, after[k]);
    }
  }

  lemma {:induction false} KeyUnwritten(cfg: Settings, t: Tables, ow: map<Id, StoatOverwrite>,
                                        resolved: map<Id, StoatOverwrite>, k: Id)
    requires Resolves(t, cfg.guildID, ow, resolved) && k != NO_ID && NotOverwritten(cfg, t, ow.Keys, k)
    ensures forall r | r in resolved :: PermissionKey(r) != k
  {
    forall r | r in resolved ensures PermissionKey(r) != k {
      var q :| q in ow && Target(t, cfg.guildID, q) == Some(r) && resolved[r] == ow[q];
      assert q == cfg.guildID || NamesOther(t, q, k);
    }
  }

  /** Every other key: a self-granting admin role has exactly the grant, all else is as it was. */
  lemma {:induction false} OtherKeysPushed(cfg: Settings, t: Tables, c: Channel, before: Option<Entity>,
                                           after: Entity, k: Id)
    requires Wrote(cfg, t, ToChannel(c), before, after) && k != NO_ID && NotOverwritten(cfg, t, c.overwrites.Keys, k)
    ensures after.LiveChannel? && (before.Some? ==> before.value.LiveChannel?)
    ensures k in cfg.adminRoles ==> k in after.perms && after.perms[k] == StoatOverwrite(cfg.grant, {})
    ensures k !in cfg.adminRoles && k != EVERYONE ==>
      var perms := if before.Some? then before.value.perms else map[];
      (k in after.perms <==> k in perms) && (k in perms ==> after.perms[k] == perms[k])
  {
    var perms := if before.Some? then before.value.perms else map[];
    var resolved, base := HowWritten(cfg, t, c, before, after);
    assert OverwritesToStoat(c.overwrites).Keys == c.overwrites.Keys;
    KeyUnwritten(cfg, t, OverwritesToStoat(c.overwrites), resolved, k);
    UnwrittenKey(base, resolved, after.perms, k);
    GrantedEntry(perms, cfg.adminRoles, cfg.grant, k);
    AdminKey(cfg.adminRoles, k);
  }

  lemma {:induction false} AdminKey(admins: seq<Id>, k: Id)
    requires k != NO_ID
    ensures k in admins ==> k in AdminKeys(admins)
    ensures k in AdminKeys(admins) && k != EVERYONE ==> k in admins
  {
    assert k in admins ==> PermissionKey(k) == k;
  }

  /* Calls of the engine */

  ghost predicate Writes(s: World, st: Step) {
    st.Succeeds? && Holds(s.flow, st.w) && StageOf(s.flow, st.w).Written? && IsMirrored(OpIn(s.flow, st.w).key.kind)
  }

  // What a write addresses: the entity the row names, and otherwise a new one.
  function BeforeCall(s: World, w: Key): Option<Entity>
    requires Holds(s.flow, w)
  {
    var row := RowOf(s, w);
    if row.Found? && row.stoatID != NO_ID && row.stoatID in s.remote.entities then Some(s.remote.entities[row.stoatID])
    else None
  }

  /** A successful write of a row with an id edits the entity of that id and no other; without one it creates an
      entity under a new id. */
  lemma {:induction false} CallLeaves(cfg: Settings, s: World, st: Step)
    requires WorldInv(s) && CanStep(cfg, s, st) && Writes(s, st)
    ensures var row := RowOf(s, st.w);
      if row.Found? && row.stoatID != NO_ID then st.id == row.stoatID && st.id in s.remote.entities
      else st.id != NO_ID && st.id !in s.remote.entities
    ensures st.id in EntitiesAfter(s, st)
    ensures Wrote(cfg, s.tables, OpIn(s.flow, st.w).desired, BeforeCall(s, st.w), EntitiesAfter(s, st)[st.id])
    ensures forall e | e != st.id :: e in EntitiesAfter(s, st) <==> e in s.remote.entities
    ensures forall e | e != st.id && e in s.remote.entities :: EntitiesAfter(s, st)[e] == s.remote.entities[e]
  {
    assert Built(OpIn(s.flow, st.w)) && StageFits(OpIn(s.flow, st.w), StageOf(s.flow, st.w), RowOf(s, st.w));
  }

  /* Messages */

  /** Where a message lands: a create posts its content to the Stoat channel that its channel's row names at
      the call; an edit changes the content and leaves it where it is. */
  lemma {:induction false} MessageLands(cfg: Settings, s: World, st: Step, m: Message)
    requires WorldInv(s) && CanStep(cfg, s, st) && Writes(s, st) && OpIn(s.flow, st.w).desired == ToMessage(m)
    ensures st.id in EntitiesAfter(s, st) && EntitiesAfter(s, st)[st.id].LiveMessage?
    ensures EntitiesAfter(s, st)[st.id].content == m.content
    ensures var row, channel := RowOf(s, st.w), Lookup(s.tables, Key(ChannelEntity, m.channelID));
      if row.Found? && row.stoatID != NO_ID then
        && st.id == row.stoatID && st.id in s.remote.entities && s.remote.entities[st.id].LiveMessage?
        && EntitiesAfter(s, st)[st.id].channelID == s.remote.entities[st.id].channelID
      else
        channel.Found? ==> EntitiesAfter(s, st)[st.id].channelID == channel.stoatID
  {
    CallLeaves(cfg, s, st);
  }

  // The step posts a new message of Discord channel c.
  ghost predicate Posts(s: World, st: Step, c: Id) {
    && Writes(s, st) && OpIn(s.flow, st.w).desired.ToMessage? && OpIn(s.flow, st.w).desired.message.channelID == c
    && !(RowOf(s, st.w).Found? && RowOf(s, st.w).stoatID != NO_ID)
  }

  // The Stoat channels the new messages of c are posted to in a run, in order.
  ghost function PostedTo(cfg: Settings, s: World, steps: seq<Step>, c: Id): seq<Id>
    requires Legal(cfg, s, steps)
    decreases |steps|
  {
    if steps == [] then []
    else
      (if Posts(s, steps[0], c) && steps[0].id in EntitiesAfter(s, steps[0])
          && EntitiesAfter(s, steps[0])[steps[0].id].LiveMessage?
       then [EntitiesAfter(s, steps[0])[steps[0].id].channelID] else [])
      + PostedTo(cfg, Next(s, steps[0]), steps[1..], c)
  }

  /** Over every run: as long as the channel's row is not removed, every new message of it is posted to the one
      Stoat channel the row names. */
  lemma {:induction false} MessagesStayTogether(cfg: Settings, s: World, steps: seq<Step>, c: Id, e: Id)
    requires WorldInv(s) && Legal(cfg, s, steps) && NeverErased(cfg, s, steps, Key(ChannelEntity, c))
    requires Lookup(s.tables, Key(ChannelEntity, c)).Found?
    requires Lookup(s.tables, Key(ChannelEntity, c)).stoatID == e != NO_ID
    ensures forall i | 0 <= i < |PostedTo(cfg, s, steps, c)| :: PostedTo(cfg, s, steps, c)[i] == e
    decreases |steps|
  {
    if steps != [] {
      StepKeepsInv(cfg, s, steps[0]);
      IdentityStable(cfg, s, steps[0], Key(ChannelEntity, c));
      MessagesStayTogether(cfg, Next(s, steps[0]), steps[1..], c, e);
      if Posts(s, steps[0], c) {
        PostLands(cfg, s, steps[0], c, e);
      }
    }
  }

  lemma {:induction false} PostLands(cfg: Settings, s: World, st: Step, c: Id, e: Id)
    requires WorldInv(s) && CanStep(cfg, s, st) && Posts(s, st, c)
    requires Lookup(s.tables, Key(ChannelEntity, c)).Found? && Lookup(s.tables, Key(ChannelEntity, c)).stoatID == e
    ensures st.id in EntitiesAfter(s, st) && EntitiesAfter(s, st)[st.id].LiveMessage?
    ensures EntitiesAfter(s, st)[st.id].channelID == e
  {
    MessageLands(cfg, s, st, OpIn(s.flow, st.w).desired.message);
  }

  /* The sidebar */

  // Indices of the channels of a category that have an active row.
  ghost predicate ShownAt(t: Tables, ids: seq<Id>, at: seq<nat>) {
    && (forall i, j | 0 <= i < j < |at| :: at[i] < at[j])
    && (forall i: nat :: i in at <==> i < |ids| && IsActive(Lookup(t, Key(ChannelEntity, ids[i]))))
  }

  lemma {:induction false} ChannelsShown(t: Tables, ids: seq<Id>) returns (at: seq<nat>)
    ensures ShownAt(t, ids, at) && |ResolvedChannels(t, ids)| == |at|
    ensures forall i | 0 <= i < |at| ::
      at[i] in at && at[i] < |ids| && ResolvedChannels(t, ids)[i] == Lookup(t, Key(ChannelEntity, ids[at[i]])).stoatID
  {
    at := [];
    if ids != [] {
      var n := |ids| - 1;
      at := ChannelsShown(t, ids[..n]);
      forall i | 0 <= i < |at| ensures at[i] < n && ids[..n][at[i]] == ids[at[i]] {
        assert at[i] in at;
      }
      if IsActive(Lookup(t, Key(ChannelEntity, ids[n]))) {
        at := at + [n];
      }
    }
  }

  /** A successful category op makes the sidebar show its snapshot: one slot per category, in order, under its own id
      and name; every other step leaves the sidebar alone. */
  lemma {:induction false} SidebarShows(cfg: Settings, s: World, st: Step)
    requires CanStep(cfg, s, st)
    ensures var shown := Next(s, st).remote.sidebar;
      if st.Succeeds? && OpIn(s.flow, st.w).key.kind.CategoryEntity? then
        var cats := OpIn(s.flow, st.w).snapshot;
        && |shown| == |cats|
        && forall i | 0 <= i < |cats| ::
             && shown[i].id == cats[i].id && shown[i].title == cats[i].name
             && shown[i].channelIDs == ResolvedChannels(s.tables, cats[i].channelIDs)
      else shown == s.remote.sidebar
  {}
}
