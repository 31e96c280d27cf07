/** The live reconcile pass: reading Stoat's state back through the inverse id translation, the verdict
    on every active row, and the re-stamp that keeps identity. */
module Live {
  import opened Types
  import opened Canonical
  import opened Store
  import opened Gateway

  datatype RoleInfo = RoleInfo(id: Id, shape: StoatRole)

  datatype ChannelInfo = ChannelInfo(name: string, ctype: ChannelType, everyone: Option<StoatOverwrite>,
                                     rolePerms: map<Id, StoatOverwrite>)

  // What FetchServer and FetchChannel answer; a channel outside the map could not be fetched.
  datatype Snapshot = Snapshot(roles: seq<RoleInfo>, channels: map<Id, ChannelInfo>, categories: seq<Slot>)

  datatype Wanted = Wanted(guildID: Id, roles: seq<Role>, channels: seq<Channel>, categories: seq<Category>)

  ghost predicate WellFormed(p: Wanted) {
    && (forall i, j | 0 <= i < |p.roles| && 0 <= j < |p.roles| :: p.roles[i].id == p.roles[j].id ==> i == j)
    && (forall i, j | 0 <= i < |p.channels| && 0 <= j < |p.channels| :: p.channels[i].id == p.channels[j].id ==> i == j)
    && (forall i, j | 0 <= i < |p.categories| && 0 <= j < |p.categories| ::
        p.categories[i].id == p.categories[j].id ==> i == j)
  }

  function RoleIDs(roles: seq<Role>): seq<Id> {
    seq(|roles|, i requires 0 <= i < |roles| => roles[i].id)
  }

  function ChannelIDs(channels: seq<Channel>): seq<Id> {
    seq(|channels|, i requires 0 <= i < |channels| => channels[i].id)
  }

  /* reverseMapping */

  function Reverse(t: Tables, kind: EntityType, ids: seq<Id>): map<Id, Id> {
    if ids == [] then map[]
    else
      var last, rest := ids[|ids| - 1], Reverse(t, kind, ids[..|ids| - 1]);
      var m := Lookup(t, Key(kind, last));
      if IsActive(m) then rest[m.stoatID := last] else rest
  }

  method ReverseMapping(kind: EntityType, ids: seq<Id>, db: Database) returns (reverse: map<Id, Id>)
    ensures reverse == Reverse(db.Contents(), kind, ids)
  {
    reverse := map[];
    for i := 0 to |ids|
      invariant reverse == Reverse(db.Contents(), kind, ids[..i])
    {
      assert ids[..i + 1][..i] == ids[..i];
      var m := db.Get(Key(kind, ids[i]));
      if !IsActive(m) {
        continue;
      }
      reverse := reverse[m.stoatID := ids[i]];
    }
    assert ids[..|ids|] == ids;
  }

  ghost predicate UniqueTargets(t: Tables, kind: EntityType, ids: seq<Id>) {
    forall d, e | d in ids && e in ids && IsActive(Lookup(t, Key(kind, d))) && IsActive(Lookup(t, Key(kind, e))) ::
      Lookup(t, Key(kind, d)).stoatID == Lookup(t, Key(kind, e)).stoatID ==> d == e
  }

  /** The inverse translation: it names only active rows, and with unique targets all of them. */
  lemma {:induction false} ReverseInverts(t: Tables, kind: EntityType, ids: seq<Id>)
    ensures forall s | s in Reverse(t, kind, ids) ::
      var d := Reverse(t, kind, ids)[s];
      d in ids && IsActive(Lookup(t, Key(kind, d))) && Lookup(t, Key(kind, d)).stoatID == s
    ensures UniqueTargets(t, kind, ids) ==> forall d | d in ids && IsActive(Lookup(t, Key(kind, d))) ::
      var s := Lookup(t, Key(kind, d)).stoatID;
      s in Reverse(t, kind, ids) && Reverse(t, kind, ids)[s] == d
  {
    if ids != [] {
      var pre := ids[..|ids| - 1];
      ReverseInverts(t, kind, pre);
      assert ids == pre + [ids[|ids| - 1]];
      assert UniqueTargets(t, kind, ids) ==> UniqueTargets(t, kind, pre);
    }
  }

  lemma {:induction false} ReverseByRows(t: Tables, u: Tables, kind: EntityType, ids: seq<Id>)
    requires forall d | d in ids :: SameIdentity(Lookup(t, Key(kind, d)), Lookup(u, Key(kind, d)))
    ensures Reverse(t, kind, ids) == Reverse(u, kind, ids)
  {
    if ids != [] {
      ReverseByRows(t, u, kind, ids[..|ids| - 1]);
      assert ids[|ids| - 1] in ids;
    }
  }

  predicate SameIdentity(m: Mapping, n: Mapping) {
    match (m, n)
    case (Absent, Absent) => true
    case (Found(a, s, _), Found(b, r, _)) => a == b && s == r
    case _ => false
  }

  /* Re-keying a channel's live overwrites */

  ghost predicate NamedBy(info: ChannelInfo, reverse: map<Id, Id>, d: Id, v: StoatOverwrite) {
    exists s :: s in info.rolePerms && s in reverse && reverse[s] == d && info.rolePerms[s] == v
  }

  // m is a possible outcome of the loop, whatever order the permissions are visited in.
  ghost predicate ReadsAs(info: ChannelInfo, reverse: map<Id, Id>, guildID: Id, m: map<Id, StoatOverwrite>) {
    && (info.everyone.Some? ==> guildID in m && m[guildID] == info.everyone.value)
    && (forall d | d in m :: (d == guildID && info.everyone.Some?) || NamedBy(info, reverse, d, m[d]))
    && (forall s | s in info.rolePerms && s in reverse :: reverse[s] in m)
  }

  method RekeyOverwrites(info: ChannelInfo, reverse: map<Id, Id>, guildID: Id) returns (live: map<Id, StoatOverwrite>)
    ensures ReadsAs(info, reverse, guildID, live)
  {
    live := map[];
    var todo := info.rolePerms.Keys;
    while todo != {}
      invariant todo <= info.rolePerms.Keys
      invariant forall d | d in live :: NamedBy(info, reverse, d, live[d])
      invariant forall s | s in info.rolePerms && s !in todo && s in reverse :: reverse[s] in live
      decreases |todo|
    {
      var s :| s in todo;
      todo := todo - {s};
      if s !in reverse {
        continue;
      }
      live := live[reverse[s] := info.rolePerms[s]];
      assert NamedBy(info, reverse, reverse[s], info.rolePerms[s]);
    }
    if info.everyone.Some? {
      live := live[guildID := info.everyone.value];
    }
  }

  lemma {:induction false} ReadingUnique(info: ChannelInfo, reverse: map<Id, Id>, guildID: Id,
                                         a: map<Id, StoatOverwrite>, b: map<Id, StoatOverwrite>)
    requires InjectiveMap(reverse) && ReadsAs(info, reverse, guildID, a) && ReadsAs(info, reverse, guildID, b)
    ensures a == b
  {
    forall d ensures d in a <==> d in b {
      if d in a && d != guildID { assert NamedBy(info, reverse, d, a[d]); }
      if d in b && d != guildID { assert NamedBy(info, reverse, d, b[d]); }
    }
    forall d | d in a ensures a[d] == b[d] {
      if d != guildID || info.everyone.None? {
        var s :| s in info.rolePerms && s in reverse && reverse[s] == d && info.rolePerms[s] == a[d];
        var r :| r in info.rolePerms && r in reverse && reverse[r] == d && info.rolePerms[r] == b[d];
        assert s == r;
      }
    }
  }

  /* Verdicts; None leaves the row alone */

  function FindRole(roles: seq<RoleInfo>, id: Id): (shape: Option<StoatRole>)
    ensures shape.Some? <==> exists i :: 0 <= i < |roles| && roles[i].id == id
    ensures shape.Some? ==> exists i :: 0 <= i < |roles| && roles[i].id == id && roles[i].shape == shape.value
                                     && forall j | 0 <= j < i :: roles[j].id != id
  {
    if roles == [] then None
    else if roles[0].id == id then Some(roles[0].shape)
    else FindRole(roles[1..], id)
  }

  function FindCategory(slots: seq<Slot>, id: Id): (n: Option<nat>)
    ensures n.Some? ==> n.value < |slots| && slots[n.value].id == id && forall j | 0 <= j < n.value :: slots[j].id != id
    ensures n.None? ==> forall j | 0 <= j < |slots| :: slots[j].id != id
  {
    if slots == [] then None
    else if slots[0].id == id then Some(0)
    else
      match FindCategory(slots[1..], id)
      case Some(n) => Some(n + 1)
      case None => None
  }

  function ReadMembers(reverse: map<Id, Id>, ids: seq<Id>): seq<Id> {
    if ids == [] then []
    else
      var last, rest := ids[|ids| - 1], ReadMembers(reverse, ids[..|ids| - 1]);
      if last in reverse then rest + [reverse[last]] else rest
  }

  function RoleVerdict(t: Tables, role: Role, roles: seq<RoleInfo>): Option<bool> {
    var m := Lookup(t, Key(RoleEntity, role.id));
    if !IsActive(m) then None
    else
      match FindRole(roles, m.stoatID)
      case None => None
      case Some(live) => Some(live == RoleToStoat(role))
  }

  ghost predicate ChannelMatches(info: ChannelInfo, ch: Channel, reverse: map<Id, Id>, guildID: Id) {
    info.name == ch.name && info.ctype == ch.ctype && ReadsAs(info, reverse, guildID, OverwritesToStoat(ch.overwrites))
  }

  ghost function ChannelVerdict(t: Tables, ch: Channel, channels: map<Id, ChannelInfo>, reverse: map<Id, Id>,
                                guildID: Id): Option<bool> {
    var m := Lookup(t, Key(ChannelEntity, ch.id));
    if !IsActive(m) || m.stoatID !in channels then None
    else Some(ChannelMatches(channels[m.stoatID], ch, reverse, guildID))
  }

  function CategoryVerdict(t: Tables, cat: Category, slots: seq<Slot>, reverse: map<Id, Id>): Option<bool> {
    var m := Lookup(t, Key(CategoryEntity, cat.id));
    if !IsActive(m) then None
    else
      match FindCategory(slots, m.stoatID)
      case None => None
      case Some(n) => Some(Category(cat.id, slots[n].title, ReadMembers(reverse, slots[n].channelIDs), n) == cat)
  }

  /* repairMapping */

  function Repaired(t: Tables, k: Key, verdict: Option<bool>, desired: State): Tables {
    if verdict.None? || k !in t.rows then t
    else t.(rows := t.rows[k := t.rows[k].(state := if verdict.value then desired else EmptyObject)])
  }

  method RepairMapping(k: Key, stoatID: Id, matches: bool, desired: State, db: Database)
    requires !k.kind.MessageEntity? && IsActive(Lookup(db.Contents(), k)) && Lookup(db.Contents(), k).stoatID == stoatID
    modifies db`rows, db`messages
    ensures db.Contents() == Repaired(old(db.Contents()), k, Some(matches), desired)
  {
    var written := db.WritePending(k, if matches then desired else EmptyObject);
    db.Confirm(k, stoatID);
  }

  method ReconcileRoleLive(role: Role, roles: seq<RoleInfo>, db: Database)
    modifies db`rows, db`messages
    ensures db.Contents() ==
      Repaired(old(db.Contents()), Key(RoleEntity, role.id), RoleVerdict(old(db.Contents()), role, roles),
               RoleJSON(role))
  {
    var m := db.Get(Key(RoleEntity, role.id));
    if !IsActive(m) {
      return;
    }
    var live := FindRole(roles, m.stoatID);
    if live.None? {
      return;
    }
    RepairMapping(Key(RoleEntity, role.id), m.stoatID, live.value == RoleToStoat(role), RoleJSON(role), db);
  }

  method ReconcileChannelLive(ch: Channel, channels: map<Id, ChannelInfo>, reverse: map<Id, Id>, guildID: Id,
                              db: Database)
    requires InjectiveMap(reverse)
    modifies db`rows, db`messages
    ensures db.Contents() ==
      Repaired(old(db.Contents()), Key(ChannelEntity, ch.id),
               ChannelVerdict(old(db.Contents()), ch, channels, reverse, guildID),
               ChannelJSON(ch))
  {
    var m := db.Get(Key(ChannelEntity, ch.id));
    if !IsActive(m) || m.stoatID !in channels {
      return;
    }
    var info := channels[m.stoatID];
    var live := RekeyOverwrites(info, reverse, guildID);
    var desired := TranslateOverwrites(ch.overwrites);
    if ReadsAs(info, reverse, guildID, desired) {
      ReadingUnique(info, reverse, guildID, live, desired);
    }
    var matches := info.name == ch.name && info.ctype == ch.ctype && live == desired;
    RepairMapping(Key(ChannelEntity, ch.id), m.stoatID, matches, ChannelJSON(ch), db);
  }

  method ReconcileCategoryLive(cat: Category, slots: seq<Slot>, reverse: map<Id, Id>, db: Database)
    modifies db`rows, db`messages
    ensures db.Contents() ==
      Repaired(old(db.Contents()), Key(CategoryEntity, cat.id),
               CategoryVerdict(old(db.Contents()), cat, slots, reverse),
               CategoryJSON(cat))
  {
    var m := db.Get(Key(CategoryEntity, cat.id));
    if !IsActive(m) {
      return;
    }
    var n := FindCategory(slots, m.stoatID);
    if n.None? {
      return;
    }
    var ids, members := slots[n.value].channelIDs, [];
    for i := 0 to |ids|
      invariant members == ReadMembers(reverse, ids[..i])
    {
      assert ids[..i + 1][..i] == ids[..i];
      if ids[i] !in reverse {
        continue;
      }
      members := members + [reverse[ids[i]]];
    }
    assert ids[..|ids|] == ids;
    var live := Category(cat.id, slots[n.value].title, members, n.value);
    RepairMapping(Key(CategoryEntity, cat.id), m.stoatID, live == cat, CategoryJSON(cat), db);
  }
}
