/** Push, then read back: the live pass undoes the two id translations of the appliers, and exactly when
    a pushed entity still reads as drift. */
module LiveRoundTrip {
  import opened Types
  import opened Canonical
  import opened Store
  import opened Flow
  import opened Gateway
  import opened Live

  /* Overwrites */

  // FetchChannel's answer about a live channel.
  function ReadChannel(name: string, ctype: ChannelType, perms: map<Id, StoatOverwrite>): ChannelInfo {
    ChannelInfo(name, ctype, if EVERYONE in perms then Some(perms[EVERYONE]) else None, perms - {EVERYONE})
  }

  // The Discord role a permission key is read back as.
  function NameOf(reverse: map<Id, Id>, guildID: Id, k: Id): Option<Id> {
    if k == EVERYONE then Some(guildID) else if k in reverse then Some(reverse[k]) else None
  }

  // Every overwritten role is bound; no role's Stoat id is one of the two spellings of "everyone".
  ghost predicate RolesBound(t: Tables, guildID: Id, roles: seq<Id>, overwritten: set<Id>) {
    && UniqueTargets(t, RoleEntity, roles)
    && (forall r | r in overwritten :: r == guildID || (r in roles && IsActive(Lookup(t, Key(RoleEntity, r)))))
    && forall r | r in roles && IsActive(Lookup(t, Key(RoleEntity, r))) ::
         Lookup(t, Key(RoleEntity, r)).stoatID != NO_ID && Lookup(t, Key(RoleEntity, r)).stoatID != EVERYONE
  }

  // Nothing readable is left of what was there before and nobody wants.
  ghost predicate NoStrayKey(reverse: map<Id, Id>, guildID: Id, base: map<Id, StoatOverwrite>, wanted: set<Id>) {
    forall k | k in base && NameOf(reverse, guildID, k).Some? :: NamesOne(reverse, guildID, wanted, k)
  }

  lemma {:induction false} TargetNames(t: Tables, guildID: Id, roles: seq<Id>, ow: map<Id, StoatOverwrite>, r: Id)
    requires RolesBound(t, guildID, roles, ow.Keys) && r in ow
    ensures Target(t, guildID, r).Some?
    ensures NameOf(Reverse(t, RoleEntity, roles), guildID, Target(t, guildID, r).value) == Some(r)
  {
    ReverseInverts(t, RoleEntity, roles);
  }

  // Without the empty key, what is pushed is what is on the channel.
  lemma {:induction false} PushedFrom(base: map<Id, StoatOverwrite>, resolved: map<Id, StoatOverwrite>,
                                      after: map<Id, StoatOverwrite>, k: Id)
    requires Pushed(base, resolved, after) && NO_ID !in resolved
    ensures k in after <==> k in base || k in resolved
    ensures k in resolved ==> after[k] == resolved[k]
  {
    if k in after {
      assert WriteOf(base, resolved, k, after[k]);
    }
    if k in resolved {
      assert PermissionKey(k) == k;
    }
  }

  // What is pushed for role r is r's overwrite, under the key r is named by.
  lemma {:induction false} ResolvedEntry(t: Tables, guildID: Id, roles: seq<Id>, ow: map<Id, StoatOverwrite>,
                                         resolved: map<Id, StoatOverwrite>, r: Id)
    requires Resolves(t, guildID, ow, resolved) && RolesBound(t, guildID, roles, ow.Keys) && r in ow
    ensures var s := Target(t, guildID, r); s.Some? && s.value in resolved && resolved[s.value] == ow[r]
  {
    TargetNames(t, guildID, roles, ow, r);
    var s := Target(t, guildID, r).value;
    var q :| q in ow && Target(t, guildID, q) == Some(s) && resolved[s] == ow[q];
    TargetNames(t, guildID, roles, ow, q);
  }

  ghost predicate NamesOne(reverse: map<Id, Id>, guildID: Id, wanted: set<Id>, k: Id) {
    NameOf(reverse, guildID, k).Some? && NameOf(reverse, guildID, k).value in wanted
  }

  // What is pushed for role r: its overwrite, under a key that is read back as r.
  ghost predicate PushedFor(t: Tables, reverse: map<Id, Id>, guildID: Id, ow: map<Id, StoatOverwrite>,
                            resolved: map<Id, StoatOverwrite>, r: Id)
    requires r in ow
  {
    var s := Target(t, guildID, r);
    s.Some? && s.value in resolved && resolved[s.value] == ow[r] && NameOf(reverse, guildID, s.value) == Some(r)
  }

  // resolved is ow under names.
  ghost predicate Renames(t: Tables, reverse: map<Id, Id>, guildID: Id, ow: map<Id, StoatOverwrite>,
                          resolved: map<Id, StoatOverwrite>) {
    && NO_ID !in resolved && EVERYONE !in reverse
    && (forall r | r in ow :: PushedFor(t, reverse, guildID, ow, resolved, r))
    && (forall k | k in resolved :: NamesOne(reverse, guildID, ow.Keys, k))
  }

  lemma {:induction false} ResolvedName(t: Tables, guildID: Id, roles: seq<Id>, ow: map<Id, StoatOverwrite>,
                                        resolved: map<Id, StoatOverwrite>, q: Id)
    requires Resolves(t, guildID, ow, resolved) && RolesBound(t, guildID, roles, ow.Keys) && q in resolved
    ensures q != NO_ID && NamesOne(Reverse(t, RoleEntity, roles), guildID, ow.Keys, q)
  {
    var r :| r in ow && Target(t, guildID, r) == Some(q) && resolved[q] == ow[r];
    TargetNames(t, guildID, roles, ow, r);
  }

  lemma {:induction false} ResolvedAll(t: Tables, guildID: Id, roles: seq<Id>, ow: map<Id, StoatOverwrite>,
                                       resolved: map<Id, StoatOverwrite>)
    requires Resolves(t, guildID, ow, resolved) && RolesBound(t, guildID, roles, ow.Keys)
    ensures Renames(t, Reverse(t, RoleEntity, roles), guildID, ow, resolved)
  {
    var reverse := Reverse(t, RoleEntity, roles);
    forall r | r in ow ensures PushedFor(t, reverse, guildID, ow, resolved, r) {
      ResolvedEntry(t, guildID, roles, ow, resolved, r);
      TargetNames(t, guildID, roles, ow, r);
    }
    forall q | q in resolved ensures q != NO_ID && NamesOne(reverse, guildID, ow.Keys, q) {
      ResolvedName(t, guildID, roles, ow, resolved, q);
    }
    ReverseInverts(t, RoleEntity, roles);
  }

  lemma {:induction false} PushedAll(base: map<Id, StoatOverwrite>, resolved: map<Id, StoatOverwrite>,
                                     after: map<Id, StoatOverwrite>)
    requires Pushed(base, resolved, after) && NO_ID !in resolved
    ensures forall k :: (k in after <==> k in base || k in resolved) && (k in resolved ==> after[k] == resolved[k])
  {
    forall k ensures (k in after <==> k in base || k in resolved) && (k in resolved ==> after[k] == resolved[k]) {
      PushedFrom(base, resolved, after, k);
    }
  }

  /** Re-keying undoes resolving, in any order of both loops: the channel reads back as the pushed
      Discord-keyed map exactly when no other readable key is on it. */
  lemma {:induction false} OverwritesReadBack(t: Tables, guildID: Id, roles: seq<Id>, ow: map<Id, StoatOverwrite>,
                                              resolved: map<Id, StoatOverwrite>, base: map<Id, StoatOverwrite>,
                                              after: map<Id, StoatOverwrite>, name: string, ctype: ChannelType)
    requires Resolves(t, guildID, ow, resolved) && Pushed(base, resolved, after)
    requires RolesBound(t, guildID, roles, ow.Keys)
    ensures var reverse := Reverse(t, RoleEntity, roles);
      ReadsAs(ReadChannel(name, ctype, after), reverse, guildID, ow) <==> NoStrayKey(reverse, guildID, base, ow.Keys)
  {
    ResolvedAll(t, guildID, roles, ow, resolved);
    PushedAll(base, resolved, after);
    ReadsBackIff(t, Reverse(t, RoleEntity, roles), guildID, ow, resolved, base, after, name, ctype);
  }

  // The same on keys alone.
  lemma {:induction false} ReadsBackIff(t: Tables, reverse: map<Id, Id>, guildID: Id, ow: map<Id, StoatOverwrite>,
                                        resolved: map<Id, StoatOverwrite>, base: map<Id, StoatOverwrite>,
                                        after: map<Id, StoatOverwrite>, name: string, ctype: ChannelType)
    requires Renames(t, reverse, guildID, ow, resolved)
    requires forall k :: (k in after <==> k in base || k in resolved) && (k in resolved ==> after[k] == resolved[k])
    ensures ReadsAs(ReadChannel(name, ctype, after), reverse, guildID, ow) <==>
      NoStrayKey(reverse, guildID, base, ow.Keys)
  {
    if NoStrayKey(reverse, guildID, base, ow.Keys) {
      StrayFreeReadsBack(t, reverse, guildID, ow, resolved, base, after, name, ctype);
    }
    if ReadsAs(ReadChannel(name, ctype, after), reverse, guildID, ow) {
      forall k | k in base && NameOf(reverse, guildID, k).Some? ensures NamesOne(reverse, guildID, ow.Keys, k) {
        assert k in after;
      }
    }
  }

  lemma {:induction false} WantedReadsBack(t: Tables, reverse: map<Id, Id>, guildID: Id,
                                           ow: map<Id, StoatOverwrite>, resolved: map<Id, StoatOverwrite>,
                                           after: map<Id, StoatOverwrite>, name: string, ctype: ChannelType, d: Id)
    requires Renames(t, reverse, guildID, ow, resolved) && d in ow
    requires forall k | k in resolved :: k in after && after[k] == resolved[k]
    ensures var info := ReadChannel(name, ctype, after);
      (d == guildID && info.everyone.Some?) || NamedBy(info, reverse, d, ow[d])
  {
    assert PushedFor(t, reverse, guildID, ow, resolved, d);
    assert Target(t, guildID, d).value in after;
  }

  lemma {:induction false} StrayFreeReadsBack(t: Tables, reverse: map<Id, Id>, guildID: Id,
                                              ow: map<Id, StoatOverwrite>, resolved: map<Id, StoatOverwrite>,
                                              base: map<Id, StoatOverwrite>, after: map<Id, StoatOverwrite>,
                                              name: string, ctype: ChannelType)
    requires Renames(t, reverse, guildID, ow, resolved) && NoStrayKey(reverse, guildID, base, ow.Keys)
    requires forall k :: (k in after <==> k in base || k in resolved) && (k in resolved ==> after[k] == resolved[k])
    ensures ReadsAs(ReadChannel(name, ctype, after), reverse, guildID, ow)
  {
    var info := ReadChannel(name, ctype, after);
    if EVERYONE in after {
      assert NamesOne(reverse, guildID, ow.Keys, EVERYONE);
      assert PushedFor(t, reverse, guildID, ow, resolved, guildID);
    }
    forall d | d in ow ensures (d == guildID && info.everyone.Some?) || NamedBy(info, reverse, d, ow[d]) {
      WantedReadsBack(t, reverse, guildID, ow, resolved, after, name, ctype, d);
    }
    forall s | s in info.rolePerms && s in reverse ensures reverse[s] in ow {
      assert NameOf(reverse, guildID, s) == Some(reverse[s]);
      assert NamesOne(reverse, guildID, ow.Keys, s);
    }
  }

  /* Channels and roles after a successful Apply */

  function PermsBefore(before: Option<Entity>): map<Id, StoatOverwrite> {
    if before.Some? && before.value.LiveChannel? then before.value.perms else map[]
  }

  /** A pushed channel reads back as a match exactly when its type was right already and every readable
      key that was on it, or that the admin grants put there, belongs to a wanted overwrite: removing an
      overwrite on Discord, or mirroring an admin role the channel does not overwrite, is drift at every
      start, and no push repairs it. */
  lemma {:induction false} ChannelReadsBackIff(cfg: Settings, t: Tables, c: Channel, before: Option<Entity>,
                                               after: Entity, roles: seq<Id>)
    requires c.ctype != NoType && Wrote(cfg, t, ToChannel(c), before, after)
    requires RolesBound(t, cfg.guildID, roles, c.overwrites.Keys)
    ensures var reverse := Reverse(t, RoleEntity, roles);
      ChannelMatches(ReadChannel(after.name, after.ctype, after.perms), c, reverse, cfg.guildID) <==>
      && (before.Some? ==> before.value.ctype == c.ctype)
      && (forall k | k in PermsBefore(before).Keys + AdminKeys(cfg.adminRoles)
          && NameOf(reverse, cfg.guildID, k).Some? ::
            NamesOne(reverse, cfg.guildID, c.overwrites.Keys, k))
  {
    var ow, perms, reverse := OverwritesToStoat(c.overwrites), PermsBefore(before), Reverse(t, RoleEntity, roles);
    var base := Granted(perms, cfg.adminRoles, cfg.grant);
    assert ow.Keys == c.overwrites.Keys;
    assert ChannelPushed(cfg, t, ow, perms, after.perms);
    var resolved :| Resolves(t, cfg.guildID, ow, resolved) && Pushed(base, resolved, after.perms);
    OverwritesReadBack(t, cfg.guildID, roles, ow, resolved, base, after.perms, after.name, after.ctype);
    forall k ensures k in base <==> k in perms.Keys + AdminKeys(cfg.adminRoles) {
      GrantedEntry(perms, cfg.adminRoles, cfg.grant, k);
    }
  }

  /** For a fresh channel without admin grants the round trip is exact. */
  lemma {:induction false} FreshChannelReadsBack(cfg: Settings, t: Tables, c: Channel, after: Entity, roles: seq<Id>)
    requires c.ctype != NoType && Wrote(cfg, t, ToChannel(c), None, after) && cfg.adminRoles == []
    requires RolesBound(t, cfg.guildID, roles, c.overwrites.Keys)
    ensures ChannelMatches(ReadChannel(after.name, after.ctype, after.perms), c, Reverse(t, RoleEntity, roles),
                           cfg.guildID)
  {
    ChannelReadsBackIff(cfg, t, c, None, after, roles);
  }

  /** A pushed role reads back as a match exactly when its rank is above the reserved one and an edit did
      not have to rename it: EditRole clamps the rank and never sends the name. So @everyone, which
      Discord ranks 0, and every renamed role are drift at every start. */
  lemma {:induction false} RoleReadsBackIff(cfg: Settings, t: Tables, r: Role, before: Option<Entity>, after: Entity)
    requires Wrote(cfg, t, ToRole(r), before, after)
    ensures after.LiveRole? && (after.shape == RoleToStoat(r) <==>
      r.rank >= MINIMUM_MIRRORED_RANK && (before.Some? ==> before.value.shape.name == r.name))
  {
    if before.Some? {
      assert after == LiveRole(EditedRole(before.value.shape, RoleToStoat(r)));
    } else {
      assert after == LiveRole(CreatedRole(RoleToStoat(r)));
    }
  }

  /* Categories */

  function Mapped(t: Tables, ids: seq<Id>): seq<Id> {
    if ids == [] then []
    else
      var last, rest := ids[|ids| - 1], Mapped(t, ids[..|ids| - 1]);
      if IsActive(Lookup(t, Key(ChannelEntity, last))) then rest + [last] else rest
  }

  lemma {:induction false} MembersReadBack(t: Tables, channels: seq<Id>, ids: seq<Id>)
    requires UniqueTargets(t, ChannelEntity, channels) && forall c | c in ids :: c in channels
    ensures ReadMembers(Reverse(t, ChannelEntity, channels), ResolvedChannels(t, ids)) == Mapped(t, ids)
  {
    if ids != [] {
      var n, reverse := |ids| - 1, Reverse(t, ChannelEntity, channels);
      MembersReadBack(t, channels, ids[..n]);
      var m := Lookup(t, Key(ChannelEntity, ids[n]));
      assert ids[n] in channels;
      if IsActive(m) {
        ReverseInverts(t, ChannelEntity, channels);
        var rest := ResolvedChannels(t, ids[..n]);
        assert (rest + [m.stoatID])[..|rest|] == rest;
      }
    }
  }

  lemma {:induction false} MappedIsAllIff(t: Tables, ids: seq<Id>)
    ensures |Mapped(t, ids)| <= |ids|
    ensures Mapped(t, ids) == ids <==> forall c | c in ids :: IsActive(Lookup(t, Key(ChannelEntity, c)))
  {
    if ids != [] {
      var n := |ids| - 1;
      MappedIsAllIff(t, ids[..n]);
      assert ids == ids[..n] + [ids[n]];
    }
  }

  // Category ids are unique and positions are indices, as the Discord side builds the list.
  ghost predicate Numbered(cats: seq<Category>) {
    && (forall i, j | 0 <= i < |cats| && 0 <= j < |cats| :: cats[i].id == cats[j].id ==> i == j)
    && forall i | 0 <= i < |cats| :: cats[i].position == i
  }

  /** After one resend of the whole list, category i reads back as a match, name, order and position,
      exactly when all its member channels are active. */
  lemma {:induction false} CategoryReadsBackIff(t: Tables, cats: seq<Category>, channels: seq<Id>, i: nat)
    requires i < |cats| && Numbered(cats) && UniqueTargets(t, ChannelEntity, channels)
    requires forall c | c in cats[i].channelIDs :: c in channels
    requires var m := Lookup(t, Key(CategoryEntity, cats[i].id)); IsActive(m) && m.stoatID == cats[i].id
    ensures CategoryVerdict(t, cats[i], Sidebar(t, cats), Reverse(t, ChannelEntity, channels)) ==
            Some(forall c | c in cats[i].channelIDs :: IsActive(Lookup(t, Key(ChannelEntity, c))))
  {
    var slots := Sidebar(t, cats);
    var n := FindCategory(slots, cats[i].id);
    assert slots[i].id == cats[i].id;
    assert n == Some(i);
    MembersReadBack(t, channels, cats[i].channelIDs);
    MappedIsAllIff(t, cats[i].channelIDs);
  }
}
