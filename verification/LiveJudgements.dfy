/** The live pass entity by entity, in the entities' own fields: whom each row is judged by, and when it is
    stamped as matching; and roles pushed, read back and judged. */
module LiveJudgements {
  import opened Types
  import opened Canonical
  import opened Store
  import opened Flow
  import opened Gateway
  import opened Live
  import opened LiveTheorems
  import opened LiveRoundTrip

  // The row keeps its id and status and records this state.
  ghost predicate Stamped(t: Tables, u: Tables, k: Key, state: State) {
    && Lookup(t, k).Found? && Lookup(u, k).Found?
    && Lookup(u, k).stoatID == Lookup(t, k).stoatID && Lookup(u, k).status == Lookup(t, k).status
    && Lookup(u, k).state == state
  }

  ghost predicate UniqueRoleInfos(roles: seq<RoleInfo>) {
    forall i, j | 0 <= i < |roles| && 0 <= j < |roles| :: roles[i].id == roles[j].id ==> i == j
  }

  /** A role with an active row is judged by the live role of the row's own id: it is stamped with the desired state
      if that one has the desired name, colour, hoist, rank and permission bits, and forced to resync if not.
      Without such a live role, or without an active row, its row is left alone. */
  lemma {:induction false} RoleJudgedByItsOwn(t: Tables, p: Wanted, live: Snapshot, i: nat)
    requires WellFormed(p) && i < |p.roles| && UniqueRoleInfos(live.roles)
    ensures var k, u := Key(RoleEntity, p.roles[i].id), LiveOutcome(t, p, live);
      var row := Lookup(t, k);
      && (forall n | 0 <= n < |live.roles| && row.Found? && row.status == Active && live.roles[n].id == row.stoatID ::
            Stamped(t, u, k, if ShapeOf(p.roles[i], live.roles[n].shape) then RoleJSON(p.roles[i]) else EmptyObject))
      && (row.Absent? || row.status == Pending
          || (forall n | 0 <= n < |live.roles| :: live.roles[n].id != row.stoatID) ==>
            Lookup(u, k) == row)
  {
    RolesAreJudged(t, p, live, i);
    forall n | 0 <= n < |live.roles|
      ensures live.roles[n].shape == RoleToStoat(p.roles[i]) <==> ShapeOf(p.roles[i], live.roles[n].shape)
    {
      RoleShape(p.roles[i], live.roles[n].shape);
    }
  }

  /** A role pushed and found again under its row's id is stamped as matching exactly if its rank is above the
      reserved one and the push did not have to rename it. */
  lemma {:induction false} RoleReadsBackThroughPass(cfg: Settings, t: Tables, p: Wanted, live: Snapshot, i: nat, n: nat,
                                                    before: Option<Entity>, after: Entity)
    requires WellFormed(p) && i < |p.roles| && UniqueRoleInfos(live.roles) && n < |live.roles|
    requires Wrote(cfg, t, ToRole(p.roles[i]), before, after) && after == LiveRole(live.roles[n].shape)
    requires var row := Lookup(t, Key(RoleEntity, p.roles[i].id));
      row.Found? && row.status == Active && row.stoatID == live.roles[n].id
    ensures Stamped(t, LiveOutcome(t, p, live), Key(RoleEntity, p.roles[i].id),
      if p.roles[i].rank >= 1 && (before.Some? ==> before.value.LiveRole? && before.value.shape.name == p.roles[i].name)
      then RoleJSON(p.roles[i]) else EmptyObject)
  {
    RoleJudgedByItsOwn(t, p, live, i);
    RoleReadsBackIff(cfg, t, p.roles[i], before, after);
    RoleShape(p.roles[i], live.roles[n].shape);
  }

  /** A channel with an active row is judged by the live channel of the row's own id: name, type and the re-keyed
      overwrites decide. */
  lemma {:induction false} ChannelJudgedByItsOwn(t: Tables, p: Wanted, live: Snapshot, i: nat)
    requires WellFormed(p) && i < |p.channels|
    ensures var k, u := Key(ChannelEntity, p.channels[i].id), LiveOutcome(t, p, live);
      var c, row := p.channels[i], Lookup(t, k);
      if row.Found? && row.status == Active && row.stoatID in live.channels then
        var info := live.channels[row.stoatID];
        Stamped(t, u, k,
          if info.name == c.name && info.ctype == c.ctype
             && ReadsAs(info, Reverse(t, RoleEntity, RoleIDs(p.roles)), p.guildID, OverwritesToStoat(c.overwrites))
          then ChannelJSON(c) else EmptyObject)
      else Lookup(u, k) == row
  {
    ChannelsAreJudged(t, p, live, i);
  }

  /** A category with an active row is judged by the first slot under the row's id: its title, its members in order
      and its place in the list decide. */
  lemma {:induction false} CategoryJudgedByItsOwn(t: Tables, p: Wanted, live: Snapshot, i: nat)
    requires WellFormed(p) && i < |p.categories|
    ensures var k, u, slots := Key(CategoryEntity, p.categories[i].id), LiveOutcome(t, p, live), live.categories;
      var cat, row := p.categories[i], Lookup(t, k);
      && (forall n | 0 <= n < |slots| && row.Found? && row.status == Active && slots[n].id == row.stoatID
                     && forall j | 0 <= j < n :: slots[j].id != row.stoatID ::
            Stamped(t, u, k,
              if slots[n].title == cat.name && n == cat.position
                 && ReadMembers(Reverse(t, ChannelEntity, ChannelIDs(p.channels)), slots[n].channelIDs) ==
                   cat.channelIDs
              then CategoryJSON(cat) else EmptyObject))
      && (row.Absent? || row.status == Pending || (forall n | 0 <= n < |slots| :: slots[n].id != row.stoatID) ==>
            Lookup(u, k) == row)
  {
    CategoriesAreJudged(t, p, live, i);
  }
}
