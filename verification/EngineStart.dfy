/** Which starts the mirror theorem covers: rows recorded as "{}" always, and rows recorded with a state
    exactly when writing that state again would change nothing on Stoat. */
module EngineStart {
  import opened Types
  import opened Canonical
  import opened Store
  import opened Flow
  import opened Gateway
  import opened Engine
  import opened EngineRuns
  import opened EngineDrain
  import opened EngineQuiescence
  import opened EngineCache
  import opened Live
  import opened LiveTheorems
  import opened LiveRoundTrip

  // Structure rows have ids, and their states are of their own table or "{}".
  ghost predicate RowsSound(t: Tables) {
    forall k: Key | IsStructure(k.kind) && Lookup(t, k).Found? ::
      && HasStoatEntity(Lookup(t, k))
      && (DesiredOf(Lookup(t, k).state).Nothing? || (DesiredOf(Lookup(t, k).state).ToRole? <==> k.kind.RoleEntity?))
  }

  // The structure rows and their entities, taken over as they are.
  function TakenOver(s: World): Plain {
    Plain(map k | k in s.tables.rows && IsStructure(k.kind) :: s.tables.rows[k].stoatID, s.remote.entities)
  }

  lemma {:induction false} RecordsAtStart(s: World, k: Key, e: Id, state: State)
    requires HealthyStart(s) && RowsSound(s.tables) && IsStructure(k.kind)
    ensures Records(s, k, e, state) <==>
      Lookup(s.tables, k).Found? && Lookup(s.tables, k).stoatID == e && Lookup(s.tables, k).state == state
  {}

  // What a row records can be written again without effect.
  ghost predicate RowCoherent(cfg: Settings, s: World, k: Key)
    requires Lookup(s.tables, k).Found?
  {
    DesiredOf(Lookup(s.tables, k).state).Nothing?
      || CoherentAt(cfg, s, Lookup(s.tables, k).stoatID, Lookup(s.tables, k).state)
  }

  /** A healthy start is one the mirror theorem covers exactly if every role and channel row that records
      a state records one that Stoat would absorb; the mirror then starts with the rows' ids. */
  lemma {:induction false} StartFitsIff(cfg: Settings, s: World)
    requires HealthyStart(s) && RowsSound(s.tables)
    ensures CacheInv(cfg, s) <==> forall k: Key | IsStructure(k.kind) && Lookup(s.tables, k).Found? ::
      RowCoherent(cfg, s, k)
    ensures Mirrors(s, TakenOver(s))
  {
    InitialInv(s);
    forall k: Key, e: Id, state: State | IsStructure(k.kind)
      ensures Records(s, k, e, state) <==>
        Lookup(s.tables, k).Found? && Lookup(s.tables, k).stoatID == e && Lookup(s.tables, k).state == state
    {
      RecordsAtStart(s, k, e, state);
    }
    if CacheInv(cfg, s) {
      forall k: Key | IsStructure(k.kind) && Lookup(s.tables, k).Found? ensures RowCoherent(cfg, s, k) {
        assert Records(s, k, Lookup(s.tables, k).stoatID, Lookup(s.tables, k).state);
      }
    }
    StartMirrored(s);
  }

  lemma {:induction false} StartMirrored(s: World)
    requires HealthyStart(s) && RowsSound(s.tables)
    ensures Mirrors(s, TakenOver(s))
  {
    var m := TakenOver(s);
    forall k | k in m.ids ensures OwnedBy(s, k, m.ids[k]) && m.ids[k] in s.remote.entities {
      assert Lookup(s.tables, k) == Found(m.ids[k], s.tables.rows[k].status, s.tables.rows[k].state);
      assert LiveAs(s.remote.entities, m.ids[k], k.kind);
    }
  }

  /** What the bind pass leaves: every adopted row is recorded as "{}", and such starts are covered. */
  lemma {:induction false} BoundStartFits(cfg: Settings, s: World)
    requires HealthyStart(s) && RowsSound(s.tables)
    requires forall k: Key | IsStructure(k.kind) && Lookup(s.tables, k).Found? ::
      Lookup(s.tables, k).state == EmptyObject
    ensures CacheInv(cfg, s) && Mirrors(s, TakenOver(s))
  {
    StartFitsIff(cfg, s);
  }

  /* Rows the live pass stamps as matching */

  /** A role that reads back as desired is absorbed exactly if its rank is one Stoat keeps. */
  lemma {:induction false} MatchedRoleCoherentIff(cfg: Settings, s: World, r: Role, e: Id)
    requires e in s.remote.entities && s.remote.entities[e] == LiveRole(RoleToStoat(r))
    ensures CoherentAt(cfg, s, e, RoleJSON(r)) <==> r.rank >= MINIMUM_MIRRORED_RANK
  {
    var d := DesiredOf(RoleJSON(r));
    RoleShapeSurvives(r);
    var after := LiveRole(EditedRole(RoleToStoat(r), RoleToStoat(d.role)));
    assert Wrote(cfg, s.tables, d, Some(s.remote.entities[e]), after);
  }

  // Every self-grant that no overwrite of the channel replaces is on it.
  ghost predicate GrantsPresent(cfg: Settings, t: Tables, c: Channel, perms: map<Id, StoatOverwrite>) {
    forall k | k in AdminKeys(cfg.adminRoles) && !Overwritten(t, cfg.guildID, c.overwrites.Keys, k) ::
      k in perms && perms[k] == StoatOverwrite(cfg.grant, {})
  }

  ghost predicate Overwritten(t: Tables, guildID: Id, roles: set<Id>, k: Id) {
    exists r :: r in roles && Target(t, guildID, r) == Some(k)
  }

  // Each overwrite is on the channel, under its own key.
  ghost predicate OnChannel(t: Tables, guildID: Id, ow: map<Id, StoatOverwrite>, perms: map<Id, StoatOverwrite>) {
    forall r | r in ow :: var k := Target(t, guildID, r);
      k.Some? && k.value != NO_ID && k.value in perms && perms[k.value] == ow[r]
  }

  ghost predicate ProperIDs(t: Tables, roles: seq<Id>) {
    && UniqueTargets(t, RoleEntity, roles)
    && forall r | r in roles && IsActive(Lookup(t, Key(RoleEntity, r))) ::
         Lookup(t, Key(RoleEntity, r)).stoatID != NO_ID && Lookup(t, Key(RoleEntity, r)).stoatID != EVERYONE
  }

  lemma {:induction false} MatchedOnChannel(t: Tables, guildID: Id, roles: seq<Id>, ow: map<Id, StoatOverwrite>,
                                            name: string, ctype: ChannelType, perms: map<Id, StoatOverwrite>)
    requires ProperIDs(t, roles) && ReadsAs(ReadChannel(name, ctype, perms), Reverse(t, RoleEntity, roles), guildID, ow)
    ensures OnChannel(t, guildID, ow, perms) <==> (guildID in ow ==> EVERYONE in perms)
    ensures forall r | r in ow && r != guildID ::
      HasStoatEntity(Lookup(t, Key(RoleEntity, r))) && Lookup(t, Key(RoleEntity, r)).stoatID != EVERYONE
  {
    var info, reverse := ReadChannel(name, ctype, perms), Reverse(t, RoleEntity, roles);
    ReverseInverts(t, RoleEntity, roles);
    forall r | r in ow && r != guildID
      ensures var k := Target(t, guildID, r); k.Some? && k.value != NO_ID && k.value in perms && perms[k.value] == ow[r]
      ensures HasStoatEntity(Lookup(t, Key(RoleEntity, r))) && Lookup(t, Key(RoleEntity, r)).stoatID != EVERYONE
    {
      var k :| k in info.rolePerms && k in reverse && reverse[k] == r && info.rolePerms[k] == ow[r];
    }
  }

  // With every overwrite in place a push only adds the missing grants.
  lemma {:induction false} PushOnto(cfg: Settings, t: Tables, c: Channel, resolved: map<Id, StoatOverwrite>,
                                    perms: map<Id, StoatOverwrite>, after: map<Id, StoatOverwrite>)
    requires Resolves(t, cfg.guildID, OverwritesToStoat(c.overwrites), resolved)
    requires OnChannel(t, cfg.guildID, OverwritesToStoat(c.overwrites), perms)
    requires Pushed(Granted(perms, cfg.adminRoles, cfg.grant), resolved, after)
    ensures after == perms <==> GrantsPresent(cfg, t, c, perms)
  {
    var base, ow := Granted(perms, cfg.adminRoles, cfg.grant), OverwritesToStoat(c.overwrites);
    assert ow.Keys == c.overwrites.Keys;
    forall k ensures k in resolved <==> Overwritten(t, cfg.guildID, ow.Keys, k) {}
    assert NO_ID !in resolved;
    PushedAll(base, resolved, after);
    forall k | k in after ensures k in resolved || after[k] == base[k] {
      assert WriteOf(base, resolved, k, after[k]);
    }
    forall k ensures k in base <==> k in perms || k in AdminKeys(cfg.adminRoles) {
      GrantedEntry(perms, cfg.adminRoles, cfg.grant, k);
    }
    if after == perms {
      forall k | k in AdminKeys(cfg.adminRoles) && !Overwritten(t, cfg.guildID, c.overwrites.Keys, k)
        ensures k in perms && perms[k] == StoatOverwrite(cfg.grant, {})
      {
        GrantedEntry(perms, cfg.adminRoles, cfg.grant, k);
      }
    }
    if GrantsPresent(cfg, t, c, perms) {
      forall k | k in after ensures k in perms && after[k] == perms[k] {
        GrantedEntry(perms, cfg.adminRoles, cfg.grant, k);
      }
      assert after.Keys == perms.Keys;
    }
  }

  lemma {:induction false} ChannelAbsorbsIff(cfg: Settings, t: Tables, c: Channel, name: string, ctype: ChannelType,
                                             perms: map<Id, StoatOverwrite>)
    requires name == c.name
    requires OnChannel(t, cfg.guildID, OverwritesToStoat(c.overwrites), perms)
    ensures Absorbs(cfg, t, ToChannel(c), LiveChannel(name, ctype, perms)) <==> GrantsPresent(cfg, t, c, perms)
  {
    var ow, base, e := OverwritesToStoat(c.overwrites), Granted(perms, cfg.adminRoles, cfg.grant),
      LiveChannel(name, ctype, perms);
    forall after | Wrote(cfg, t, ToChannel(c), Some(e), after) ensures after == e <==> GrantsPresent(cfg, t, c, perms) {
      var resolved :| Resolves(t, cfg.guildID, ow, resolved) && Pushed(base, resolved, after.perms);
      PushOnto(cfg, t, c, resolved, perms, after.perms);
    }
    var resolved := ResolutionExists(t, cfg.guildID, ow);
    var pushed := PushExists(base, resolved);
    assert ChannelPushed(cfg, t, ow, perms, pushed);
    assert Wrote(cfg, t, ToChannel(c), Some(e), LiveChannel(name, ctype, pushed));
  }

  // Without the everyone entry the push is what adds it.
  lemma {:induction false} EveryoneMissing(cfg: Settings, t: Tables, c: Channel, e: Entity)
    requires e.LiveChannel? && cfg.guildID in c.overwrites && EVERYONE !in e.perms
    ensures !Absorbs(cfg, t, ToChannel(c), e)
  {
    var ow := OverwritesToStoat(c.overwrites);
    var base := Granted(e.perms, cfg.adminRoles, cfg.grant);
    var resolved := ResolutionExists(t, cfg.guildID, ow);
    var pushed := PushExists(base, resolved);
    assert Target(t, cfg.guildID, cfg.guildID) == Some(EVERYONE) && cfg.guildID in ow;
    assert EVERYONE in resolved && PermissionKey(EVERYONE) in pushed;
    assert ChannelPushed(cfg, t, ow, e.perms, pushed);
    var after := LiveChannel(c.name, e.ctype, pushed);
    assert Wrote(cfg, t, ToChannel(c), Some(e), after) && after != e;
  }

  lemma {:induction false} AbsorbsByShape(cfg: Settings, t: Tables, c: Channel, e: Entity)
    ensures Absorbs(cfg, t, DesiredOf(ChannelJSON(c)), e) <==> Absorbs(cfg, t, ToChannel(c), e)
  {
    ChannelShapeSurvives(c);
    var d := DesiredOf(ChannelJSON(c));
    forall after ensures Wrote(cfg, t, d, Some(e), after) <==> Wrote(cfg, t, ToChannel(c), Some(e), after) {}
  }

  /** A channel that the live pass judges a match is absorbed exactly if every self-grant no overwrite
      replaces is on it and, when Discord's everyone role is overwritten, so is the everyone entry. The
      verdict does not look at the grants of roles outside the mirror, and the converge op that Diff then
      skips is what would have written them. */
  lemma {:induction false} MatchedChannelCoherentIff(cfg: Settings, s: World, c: Channel, e: Id, roles: seq<Id>)
    requires ProperIDs(s.tables, roles) && e in s.remote.entities && s.remote.entities[e].LiveChannel?
    requires var it := s.remote.entities[e];
      ChannelMatches(ReadChannel(it.name, it.ctype, it.perms), c, Reverse(s.tables, RoleEntity, roles), cfg.guildID)
    ensures CoherentAt(cfg, s, e, ChannelJSON(c)) <==>
      && GrantsPresent(cfg, s.tables, c, s.remote.entities[e].perms)
      && (cfg.guildID in c.overwrites ==> EVERYONE in s.remote.entities[e].perms)
  {
    var it, d, ow := s.remote.entities[e], DesiredOf(ChannelJSON(c)), OverwritesToStoat(c.overwrites);
    MatchedOnChannel(s.tables, cfg.guildID, roles, ow, it.name, it.ctype, it.perms);
    assert d.channel.overwrites.Keys == c.overwrites.Keys == ow.Keys;
    AbsorbsByShape(cfg, s.tables, c, it);
    if cfg.guildID in c.overwrites && EVERYONE !in it.perms {
      EveryoneMissing(cfg, s.tables, c, it);
    } else {
      ChannelAbsorbsIff(cfg, s.tables, c, it.name, it.ctype, it.perms);
    }
  }

  /* After the live pass */

  // The pass saw every role and channel that has a row, as it is on Stoat, and has re-stamped its row.
  ghost predicate Reconciled(cfg: Settings, s: World, q: Wanted, live: Snapshot) {
    && WellFormed(q) && q.guildID == cfg.guildID && LiveOutcome(s.tables, q, live) == s.tables
    && (forall k: Key | k.kind.RoleEntity? && Lookup(s.tables, k).Found? ::
          && k.id in RoleIDs(q.roles) && Lookup(s.tables, k).stoatID in s.remote.entities
          && s.remote.entities[Lookup(s.tables, k).stoatID].LiveRole?
          && FindRole(live.roles, Lookup(s.tables, k).stoatID) ==
            Some(s.remote.entities[Lookup(s.tables, k).stoatID].shape))
    && (forall k: Key | k.kind.ChannelEntity? && Lookup(s.tables, k).Found? ::
          && k.id in ChannelIDs(q.channels) && Lookup(s.tables, k).stoatID in s.remote.entities
          && s.remote.entities[Lookup(s.tables, k).stoatID].LiveChannel?
          && Lookup(s.tables, k).stoatID in live.channels
          && live.channels[Lookup(s.tables, k).stoatID] == Seen(s.remote.entities[Lookup(s.tables, k).stoatID]))
  }

  function Seen(e: Entity): ChannelInfo
    requires e.LiveChannel?
  {
    ReadChannel(e.name, e.ctype, e.perms)
  }

  ghost predicate RoleFits(s: World, r: Role, live: Snapshot) {
    RoleVerdict(s.tables, r, live.roles) == Some(true) ==> r.rank >= MINIMUM_MIRRORED_RANK
  }

  ghost predicate ChannelFits(cfg: Settings, s: World, q: Wanted, c: Channel, live: Snapshot) {
    var row := Lookup(s.tables, Key(ChannelEntity, c.id));
    ChannelVerdict(s.tables, c, live.channels, Reverse(s.tables, RoleEntity, RoleIDs(q.roles)), q.guildID) ==
      Some(true) &&
    row.Found? && row.stoatID in s.remote.entities && s.remote.entities[row.stoatID].LiveChannel? ==>
      && GrantsPresent(cfg, s.tables, c, s.remote.entities[row.stoatID].perms)
      && (cfg.guildID in c.overwrites ==> EVERYONE in s.remote.entities[row.stoatID].perms)
  }

  lemma {:induction false} RoleRowIff(cfg: Settings, s: World, q: Wanted, live: Snapshot, i: nat)
    requires HealthyStart(s) && Reconciled(cfg, s, q, live) && i < |q.roles|
    requires Lookup(s.tables, Key(RoleEntity, q.roles[i].id)).Found?
    ensures RowCoherent(cfg, s, Key(RoleEntity, q.roles[i].id)) <==> RoleFits(s, q.roles[i], live)
  {
    var r, row := q.roles[i], Lookup(s.tables, Key(RoleEntity, q.roles[i].id));
    RolesAreJudged(s.tables, q, live, i);
    if s.remote.entities[row.stoatID].shape == RoleToStoat(r) {
      MatchedRoleCoherentIff(cfg, s, r, row.stoatID);
    }
  }

  lemma {:induction false} StartIDsProper(s: World, roles: seq<Id>)
    requires HealthyStart(s) && RowsSound(s.tables)
    ensures ProperIDs(s.tables, roles)
  {
    forall d, e | d in roles && e in roles && IsActive(Lookup(s.tables, Key(RoleEntity, d)))
      && IsActive(Lookup(s.tables, Key(RoleEntity, e)))
      ensures Lookup(s.tables, Key(RoleEntity, d)).stoatID == Lookup(s.tables, Key(RoleEntity, e)).stoatID ==> d == e
    {
      assert Lookup(s.tables, Key(RoleEntity, d)).stoatID == Lookup(s.tables, Key(RoleEntity, e)).stoatID ==>
        Key(RoleEntity, d) == Key(RoleEntity, e);
    }
  }

  lemma {:induction false} ChannelRowIff(cfg: Settings, s: World, q: Wanted, live: Snapshot, i: nat)
    requires HealthyStart(s) && RowsSound(s.tables) && Reconciled(cfg, s, q, live)
    requires i < |q.channels| && Lookup(s.tables, Key(ChannelEntity, q.channels[i].id)).Found?
    ensures RowCoherent(cfg, s, Key(ChannelEntity, q.channels[i].id)) <==> ChannelFits(cfg, s, q, q.channels[i], live)
  {
    var c, row := q.channels[i], Lookup(s.tables, Key(ChannelEntity, q.channels[i].id));
    ChannelsAreJudged(s.tables, q, live, i);
    StartIDsProper(s, RoleIDs(q.roles));
    if ChannelVerdict(s.tables, c, live.channels, Reverse(s.tables, RoleEntity, RoleIDs(q.roles)), q.guildID) ==
      Some(true) {
      MatchedChannelCoherentIff(cfg, s, c, row.stoatID, RoleIDs(q.roles));
    }
  }

  lemma {:induction false} RolesFitIff(cfg: Settings, s: World, q: Wanted, live: Snapshot)
    requires HealthyStart(s) && Reconciled(cfg, s, q, live)
    ensures (forall i | 0 <= i < |q.roles| :: RoleFits(s, q.roles[i], live)) <==>
            forall k: Key | k.kind.RoleEntity? && Lookup(s.tables, k).Found? :: RowCoherent(cfg, s, k)
  {
    forall i | 0 <= i < |q.roles| && Lookup(s.tables, Key(RoleEntity, q.roles[i].id)).Found?
      ensures RowCoherent(cfg, s, Key(RoleEntity, q.roles[i].id)) <==> RoleFits(s, q.roles[i], live)
    {
      RoleRowIff(cfg, s, q, live, i);
    }
    RowsListed(cfg, s, q, live);
  }

  lemma {:induction false} ChannelsFitIff(cfg: Settings, s: World, q: Wanted, live: Snapshot)
    requires HealthyStart(s) && RowsSound(s.tables) && Reconciled(cfg, s, q, live)
    ensures (forall i | 0 <= i < |q.channels| :: ChannelFits(cfg, s, q, q.channels[i], live)) <==>
            forall k: Key | k.kind.ChannelEntity? && Lookup(s.tables, k).Found? :: RowCoherent(cfg, s, k)
  {
    forall i | 0 <= i < |q.channels| && Lookup(s.tables, Key(ChannelEntity, q.channels[i].id)).Found?
      ensures RowCoherent(cfg, s, Key(ChannelEntity, q.channels[i].id)) <==> ChannelFits(cfg, s, q, q.channels[i], live)
    {
      ChannelRowIff(cfg, s, q, live, i);
    }
    RowsListed(cfg, s, q, live);
  }

  /** What a whole start leaves: after the bind pass and a live pass that could fetch everything, the
      mirror theorem covers the run exactly if every role judged a match has a rank Stoat keeps, and every
      channel judged a match already has the self-grants and the everyone entry a push would write. */
  lemma {:induction false} ReconciledStartFitsIff(cfg: Settings, s: World, q: Wanted, live: Snapshot)
    requires HealthyStart(s) && RowsSound(s.tables) && Reconciled(cfg, s, q, live)
    ensures CacheInv(cfg, s) <==>
      && (forall i | 0 <= i < |q.roles| :: RoleFits(s, q.roles[i], live))
      && (forall i | 0 <= i < |q.channels| :: ChannelFits(cfg, s, q, q.channels[i], live))
  {
    StartFitsIff(cfg, s);
    RolesFitIff(cfg, s, q, live);
    ChannelsFitIff(cfg, s, q, live);
  }

  lemma {:induction false} RowsListed(cfg: Settings, s: World, q: Wanted, live: Snapshot)
    requires Reconciled(cfg, s, q, live)
    ensures forall k: Key | k.kind.RoleEntity? && Lookup(s.tables, k).Found? ::
      exists i :: 0 <= i < |q.roles| && Key(RoleEntity, q.roles[i].id) == k
    ensures forall k: Key | k.kind.ChannelEntity? && Lookup(s.tables, k).Found? ::
      exists i :: 0 <= i < |q.channels| && Key(ChannelEntity, q.channels[i].id) == k
  {
    forall k: Key | k.kind.RoleEntity? && Lookup(s.tables, k).Found?
      ensures exists i :: 0 <= i < |q.roles| && Key(RoleEntity, q.roles[i].id) == k
    {
      var i :| 0 <= i < |RoleIDs(q.roles)| && RoleIDs(q.roles)[i] == k.id;
      assert Key(RoleEntity, q.roles[i].id) == k;
    }
    forall k: Key | k.kind.ChannelEntity? && Lookup(s.tables, k).Found?
      ensures exists i :: 0 <= i < |q.channels| && Key(ChannelEntity, q.channels[i].id) == k
    {
      var i :| 0 <= i < |ChannelIDs(q.channels)| && ChannelIDs(q.channels)[i] == k.id;
      assert Key(ChannelEntity, q.channels[i].id) == k;
    }
  }
}
