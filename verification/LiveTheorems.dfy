/** The whole live pass in closed form: it re-stamps states and nothing else, is idempotent, and makes
    the converge pass skip exactly the entities that match. */
module LiveTheorems {
  import opened Types
  import opened Canonical
  import opened Store
  import opened Flow
  import opened Gateway
  import opened Live

  // The states the pass writes, by row.
  ghost function Stamp(k: Key, verdict: Option<bool>, desired: State): map<Key, State> {
    if verdict.None? then map[] else map[k := if verdict.value then desired else EmptyObject]
  }

  ghost function RoleStamps(t: Tables, roles: seq<Role>, live: seq<RoleInfo>): map<Key, State> {
    if roles == [] then map[]
    else
      var n := |roles| - 1;
      RoleStamps(t, roles[..n], live) +
      Stamp(Key(RoleEntity, roles[n].id), RoleVerdict(t, roles[n], live), RoleJSON(roles[n]))
  }

  ghost function ChannelStamps(t: Tables, channels: seq<Channel>, live: map<Id, ChannelInfo>, reverse: map<Id, Id>,
                               guildID: Id): map<Key, State> {
    if channels == [] then map[]
    else
      var n := |channels| - 1;
      ChannelStamps(t, channels[..n], live, reverse, guildID) +
      Stamp(Key(ChannelEntity, channels[n].id), ChannelVerdict(t, channels[n], live, reverse, guildID),
            ChannelJSON(channels[n]))
  }

  ghost function CategoryStamps(t: Tables, cats: seq<Category>, slots: seq<Slot>, reverse: map<Id, Id>)
    : map<Key, State>
  {
    if cats == [] then map[]
    else
      var n := |cats| - 1;
      CategoryStamps(t, cats[..n], slots, reverse) +
      Stamp(Key(CategoryEntity, cats[n].id), CategoryVerdict(t, cats[n], slots, reverse), CategoryJSON(cats[n]))
  }

  ghost function Stamps(t: Tables, p: Wanted, live: Snapshot): map<Key, State> {
    RoleStamps(t, p.roles, live.roles) +
    ChannelStamps(t, p.channels, live.channels, Reverse(t, RoleEntity, RoleIDs(p.roles)), p.guildID) +
    CategoryStamps(t, p.categories, live.categories, Reverse(t, ChannelEntity, ChannelIDs(p.channels)))
  }

  ghost function Restamped(t: Tables, stamps: map<Key, State>): Tables {
    t.(rows := map k | k in t.rows :: if k in stamps then t.rows[k].(state := stamps[k]) else t.rows[k])
  }

  ghost function LiveOutcome(t: Tables, p: Wanted, live: Snapshot): Tables {
    Restamped(t, Stamps(t, p, live))
  }

  /* The pass */

  ghost predicate SameIdentities(t: Tables, u: Tables) {
    forall k :: SameIdentity(Lookup(t, k), Lookup(u, k))
  }

  lemma {:induction false} RestampKeepsIdentities(t: Tables, stamps: map<Key, State>)
    ensures SameIdentities(t, Restamped(t, stamps)) && Restamped(t, stamps).rows.Keys == t.rows.Keys
  {}

  lemma {:induction false} RestampStep(t: Tables, stamps: map<Key, State>, k: Key, verdict: Option<bool>,
                                       desired: State)
    ensures Repaired(Restamped(t, stamps), k, verdict, desired) == Restamped(t, stamps + Stamp(k, verdict, desired))
  {
    assert Repaired(Restamped(t, stamps), k, verdict, desired).rows ==
      Restamped(t, stamps + Stamp(k, verdict, desired)).rows;
  }

  method ReconcileRoles(roles: seq<Role>, live: seq<RoleInfo>, db: Database)
    modifies db`rows, db`messages
    ensures db.Contents() == Restamped(old(db.Contents()), RoleStamps(old(db.Contents()), roles, live))
  {
    ghost var t := db.Contents();
    assert Restamped(t, map[]).rows == t.rows;
    for i := 0 to |roles|
      invariant db.Contents() == Restamped(t, RoleStamps(t, roles[..i], live))
    {
      ghost var before := RoleStamps(t, roles[..i], live);
      assert roles[..i + 1][..i] == roles[..i];
      RestampKeepsIdentities(t, before);
      assert SameIdentity(Lookup(t, Key(RoleEntity, roles[i].id)), Lookup(db.Contents(), Key(RoleEntity, roles[i].id)));
      RestampStep(t, before, Key(RoleEntity, roles[i].id), RoleVerdict(t, roles[i], live), RoleJSON(roles[i]));
      ReconcileRoleLive(roles[i], live, db);
    }
    assert roles[..|roles|] == roles;
  }

  method ReconcileChannels(channels: seq<Channel>, live: map<Id, ChannelInfo>, roleOf: map<Id, Id>, guildID: Id,
                           db: Database)
    requires InjectiveMap(roleOf)
    modifies db`rows, db`messages
    ensures db.Contents() ==
      Restamped(old(db.Contents()), ChannelStamps(old(db.Contents()), channels, live, roleOf, guildID))
  {
    ghost var t := db.Contents();
    assert Restamped(t, map[]).rows == t.rows;
    for i := 0 to |channels|
      invariant db.Contents() == Restamped(t, ChannelStamps(t, channels[..i], live, roleOf, guildID))
    {
      ghost var before := ChannelStamps(t, channels[..i], live, roleOf, guildID);
      assert channels[..i + 1][..i] == channels[..i];
      RestampKeepsIdentities(t, before);
      assert SameIdentity(Lookup(t, Key(ChannelEntity, channels[i].id)),
                          Lookup(db.Contents(), Key(ChannelEntity, channels[i].id)));
      RestampStep(t, before, Key(ChannelEntity, channels[i].id), ChannelVerdict(t, channels[i], live, roleOf, guildID),
                  ChannelJSON(channels[i]));
      ReconcileChannelLive(channels[i], live, roleOf, guildID, db);
    }
    assert channels[..|channels|] == channels;
  }

  method ReconcileCategories(cats: seq<Category>, slots: seq<Slot>, channelOf: map<Id, Id>, db: Database)
    modifies db`rows, db`messages
    ensures db.Contents() == Restamped(old(db.Contents()), CategoryStamps(old(db.Contents()), cats, slots, channelOf))
  {
    ghost var t := db.Contents();
    assert Restamped(t, map[]).rows == t.rows;
    for i := 0 to |cats|
      invariant db.Contents() == Restamped(t, CategoryStamps(t, cats[..i], slots, channelOf))
    {
      ghost var before := CategoryStamps(t, cats[..i], slots, channelOf);
      assert cats[..i + 1][..i] == cats[..i];
      RestampKeepsIdentities(t, before);
      assert SameIdentity(Lookup(t, Key(CategoryEntity, cats[i].id)),
                          Lookup(db.Contents(), Key(CategoryEntity, cats[i].id)));
      RestampStep(t, before, Key(CategoryEntity, cats[i].id), CategoryVerdict(t, cats[i], slots, channelOf),
                  CategoryJSON(cats[i]));
      ReconcileCategoryLive(cats[i], slots, channelOf, db);
    }
    assert cats[..|cats|] == cats;
  }

  lemma {:induction false} ChannelStampsByIdentity(t: Tables, u: Tables, channels: seq<Channel>,
                                                   live: map<Id, ChannelInfo>, roleOf: map<Id, Id>, guildID: Id)
    requires SameIdentities(t, u)
    ensures ChannelStamps(t, channels, live, roleOf, guildID) == ChannelStamps(u, channels, live, roleOf, guildID)
  {
    if channels != [] {
      var n := |channels| - 1;
      ChannelStampsByIdentity(t, u, channels[..n], live, roleOf, guildID);
      assert SameIdentity(Lookup(t, Key(ChannelEntity, channels[n].id)), Lookup(u, Key(ChannelEntity, channels[n].id)));
    }
  }

  lemma {:induction false} RoleStampsByIdentity(t: Tables, u: Tables, roles: seq<Role>, live: seq<RoleInfo>)
    requires SameIdentities(t, u)
    ensures RoleStamps(t, roles, live) == RoleStamps(u, roles, live)
  {
    if roles != [] {
      var n := |roles| - 1;
      RoleStampsByIdentity(t, u, roles[..n], live);
      assert SameIdentity(Lookup(t, Key(RoleEntity, roles[n].id)), Lookup(u, Key(RoleEntity, roles[n].id)));
    }
  }

  lemma {:induction false} CategoryStampsByIdentity(t: Tables, u: Tables, cats: seq<Category>, slots: seq<Slot>,
                                                    channelOf: map<Id, Id>)
    requires SameIdentities(t, u)
    ensures CategoryStamps(t, cats, slots, channelOf) == CategoryStamps(u, cats, slots, channelOf)
  {
    if cats != [] {
      var n := |cats| - 1;
      CategoryStampsByIdentity(t, u, cats[..n], slots, channelOf);
      assert SameIdentity(Lookup(t, Key(CategoryEntity, cats[n].id)), Lookup(u, Key(CategoryEntity, cats[n].id)));
    }
  }

  lemma {:induction false} RestampTwice(t: Tables, a: map<Key, State>, b: map<Key, State>)
    ensures Restamped(Restamped(t, a), b) == Restamped(t, a + b)
  {
    assert Restamped(Restamped(t, a), b).rows == Restamped(t, a + b).rows;
  }

  method ReconcileLive(p: Wanted, fetched: Option<Snapshot>, db: Database) returns (ok: bool)
    modifies db`rows, db`messages
    ensures ok == fetched.Some?
    ensures db.Contents() == if ok then LiveOutcome(old(db.Contents()), p, fetched.value) else old(db.Contents())
  {
    if fetched.None? {
      return false;
    }
    var live := fetched.value;
    ghost var t := db.Contents();
    var roleOf := ReverseMapping(RoleEntity, RoleIDs(p.roles), db);
    var channelOf := ReverseMapping(ChannelEntity, ChannelIDs(p.channels), db);
    ReverseInverts(t, RoleEntity, RoleIDs(p.roles));
    ghost var a := RoleStamps(t, p.roles, live.roles);
    ghost var b := ChannelStamps(t, p.channels, live.channels, roleOf, p.guildID);
    ghost var c := CategoryStamps(t, p.categories, live.categories, channelOf);
    ReconcileRoles(p.roles, live.roles, db);
    RestampKeepsIdentities(t, a);
    ChannelStampsByIdentity(t, db.Contents(), p.channels, live.channels, roleOf, p.guildID);
    ReconcileChannels(p.channels, live.channels, roleOf, p.guildID, db);
    RestampTwice(t, a, b);
    RestampKeepsIdentities(t, a + b);
    CategoryStampsByIdentity(t, db.Contents(), p.categories, live.categories, channelOf);
    ReconcileCategories(p.categories, live.categories, channelOf, db);
    RestampTwice(t, a + b, c);
    ok := true;
  }

  /* What the pass keeps, and what a second one does */

  /** No row appears or disappears, and every status and Stoat id is what it was. */
  lemma {:induction false} LiveKeepsIdentities(t: Tables, p: Wanted, live: Snapshot)
    ensures LiveOutcome(t, p, live).rows.Keys == t.rows.Keys && LiveOutcome(t, p, live).messages == t.messages
    ensures SameIdentities(t, LiveOutcome(t, p, live))
  {
    RestampKeepsIdentities(t, Stamps(t, p, live));
  }

  lemma {:induction false} LiveIsIdempotent(t: Tables, p: Wanted, live: Snapshot)
    ensures LiveOutcome(LiveOutcome(t, p, live), p, live) == LiveOutcome(t, p, live)
  {
    var u := LiveOutcome(t, p, live);
    LiveKeepsIdentities(t, p, live);
    assert forall k :: SameIdentity(Lookup(t, k), Lookup(u, k));
    ReverseByRows(t, u, RoleEntity, RoleIDs(p.roles));
    ReverseByRows(t, u, ChannelEntity, ChannelIDs(p.channels));
    RoleStampsByIdentity(t, u, p.roles, live.roles);
    ChannelStampsByIdentity(t, u, p.channels, live.channels, Reverse(t, RoleEntity, RoleIDs(p.roles)), p.guildID);
    CategoryStampsByIdentity(t, u, p.categories, live.categories, Reverse(t, ChannelEntity, ChannelIDs(p.channels)));
    RestampTwice(t, Stamps(t, p, live), Stamps(t, p, live));
    assert Stamps(t, p, live) + Stamps(t, p, live) == Stamps(t, p, live);
  }

  /* The state each row ends with */

  // The row of one judged entity, before and after.
  ghost predicate Judged(t: Tables, u: Tables, k: Key, verdict: Option<bool>, desired: State) {
    if verdict.None? then Lookup(u, k) == Lookup(t, k)
    else
      && Lookup(t, k).Found?
      && Lookup(u, k) == Found(Lookup(t, k).stoatID, Lookup(t, k).status,
                               if verdict.value then desired else EmptyObject)
  }

  lemma {:induction false} RoleStampKeys(t: Tables, roles: seq<Role>, live: seq<RoleInfo>, k: Key)
    requires k in RoleStamps(t, roles, live)
    ensures k.kind.RoleEntity? && exists r :: r in roles && r.id == k.id
  {
    var n := |roles| - 1;
    if k in RoleStamps(t, roles[..n], live) {
      RoleStampKeys(t, roles[..n], live, k);
    } else {
      assert roles[n] in roles;
    }
  }

  lemma {:induction false} RoleStamped(t: Tables, roles: seq<Role>, live: seq<RoleInfo>, i: nat)
    requires i < |roles| && forall j, k | 0 <= j < |roles| && 0 <= k < |roles| :: roles[j].id == roles[k].id ==> j == k
    ensures StampedAs(RoleStamps(t, roles, live), Key(RoleEntity, roles[i].id), RoleVerdict(t, roles[i], live),
                      RoleJSON(roles[i]))
  {
    var n := |roles| - 1;
    if i < n {
      RoleStamped(t, roles[..n], live, i);
    } else if Key(RoleEntity, roles[n].id) in RoleStamps(t, roles[..n], live) {
      RoleStampKeys(t, roles[..n], live, Key(RoleEntity, roles[n].id));
    }
  }

  ghost predicate StampedAs(stamps: map<Key, State>, k: Key, verdict: Option<bool>, desired: State) {
    && (k in stamps <==> verdict.Some?)
    && (verdict.Some? ==> stamps[k] == if verdict.value then desired else EmptyObject)
  }

  lemma {:induction false} ChannelStampKeys(t: Tables, channels: seq<Channel>, live: map<Id, ChannelInfo>,
                                            roleOf: map<Id, Id>, guildID: Id, k: Key)
    requires k in ChannelStamps(t, channels, live, roleOf, guildID)
    ensures k.kind.ChannelEntity? && exists c :: c in channels && c.id == k.id
  {
    var n := |channels| - 1;
    if k in ChannelStamps(t, channels[..n], live, roleOf, guildID) {
      ChannelStampKeys(t, channels[..n], live, roleOf, guildID, k);
    } else {
      assert channels[n] in channels;
    }
  }

  lemma {:induction false} ChannelStamped(t: Tables, channels: seq<Channel>, live: map<Id, ChannelInfo>,
                                          roleOf: map<Id, Id>, guildID: Id, i: nat)
    requires i < |channels| && forall j, k | 0 <= j < |channels| && 0 <= k < |channels| ::
      channels[j].id == channels[k].id ==> j == k
    ensures StampedAs(ChannelStamps(t, channels, live, roleOf, guildID), Key(ChannelEntity, channels[i].id),
                      ChannelVerdict(t, channels[i], live, roleOf, guildID), ChannelJSON(channels[i]))
  {
    var n := |channels| - 1;
    if i < n {
      ChannelStamped(t, channels[..n], live, roleOf, guildID, i);
    } else if Key(ChannelEntity, channels[n].id) in ChannelStamps(t, channels[..n], live, roleOf, guildID) {
      ChannelStampKeys(t, channels[..n], live, roleOf, guildID, Key(ChannelEntity, channels[n].id));
    }
  }

  lemma {:induction false} CategoryStampKeys(t: Tables, cats: seq<Category>, slots: seq<Slot>,
                                             channelOf: map<Id, Id>, k: Key)
    requires k in CategoryStamps(t, cats, slots, channelOf)
    ensures k.kind.CategoryEntity? && exists c :: c in cats && c.id == k.id
  {
    var n := |cats| - 1;
    if k in CategoryStamps(t, cats[..n], slots, channelOf) {
      CategoryStampKeys(t, cats[..n], slots, channelOf, k);
    } else {
      assert cats[n] in cats;
    }
  }

  lemma {:induction false} CategoryStamped(t: Tables, cats: seq<Category>, slots: seq<Slot>, channelOf: map<Id, Id>,
                                           i: nat)
    requires i < |cats| && forall j, k | 0 <= j < |cats| && 0 <= k < |cats| :: cats[j].id == cats[k].id ==> j == k
    ensures StampedAs(CategoryStamps(t, cats, slots, channelOf), Key(CategoryEntity, cats[i].id),
                      CategoryVerdict(t, cats[i], slots, channelOf), CategoryJSON(cats[i]))
  {
    var n := |cats| - 1;
    if i < n {
      CategoryStamped(t, cats[..n], slots, channelOf, i);
    } else if Key(CategoryEntity, cats[n].id) in CategoryStamps(t, cats[..n], slots, channelOf) {
      CategoryStampKeys(t, cats[..n], slots, channelOf, Key(CategoryEntity, cats[n].id));
    }
  }

  lemma {:induction false} StampsByKind(t: Tables, p: Wanted, live: Snapshot, k: Key)
    ensures var roles := RoleStamps(t, p.roles, live.roles);
      var channels := ChannelStamps(t, p.channels, live.channels, Reverse(t, RoleEntity, RoleIDs(p.roles)), p.guildID);
      var cats := CategoryStamps(t, p.categories, live.categories, Reverse(t, ChannelEntity, ChannelIDs(p.channels)));
      var own := match k.kind
                 case RoleEntity => roles
                 case ChannelEntity => channels
                 case CategoryEntity => cats
                 case _ => map[];
      && (k in Stamps(t, p, live) <==> k in own)
      && (k in own ==> Stamps(t, p, live)[k] == own[k])
  {
    var roles := RoleStamps(t, p.roles, live.roles);
    var roleOf, channelOf := Reverse(t, RoleEntity, RoleIDs(p.roles)),
      Reverse(t, ChannelEntity, ChannelIDs(p.channels));
    if k in roles { RoleStampKeys(t, p.roles, live.roles, k); }
    if k in ChannelStamps(t, p.channels, live.channels, roleOf, p.guildID) {
      ChannelStampKeys(t, p.channels, live.channels, roleOf, p.guildID, k);
    }
    if k in CategoryStamps(t, p.categories, live.categories, channelOf) {
      CategoryStampKeys(t, p.categories, live.categories, channelOf, k);
    }
  }

  /** Every listed entity's row ends as its own verdict says, whatever the other rows were. */
  lemma {:induction false} RolesAreJudged(t: Tables, p: Wanted, live: Snapshot, i: nat)
    requires WellFormed(p) && i < |p.roles|
    ensures Judged(t, LiveOutcome(t, p, live), Key(RoleEntity, p.roles[i].id),
                   RoleVerdict(t, p.roles[i], live.roles), RoleJSON(p.roles[i]))
  {
    StampsByKind(t, p, live, Key(RoleEntity, p.roles[i].id));
    RoleStamped(t, p.roles, live.roles, i);
  }

  lemma {:induction false} ChannelsAreJudged(t: Tables, p: Wanted, live: Snapshot, i: nat)
    requires WellFormed(p) && i < |p.channels|
    ensures Judged(t, LiveOutcome(t, p, live), Key(ChannelEntity, p.channels[i].id),
                   ChannelVerdict(t, p.channels[i], live.channels, Reverse(t, RoleEntity, RoleIDs(p.roles)), p.guildID),
                   ChannelJSON(p.channels[i]))
  {
    StampsByKind(t, p, live, Key(ChannelEntity, p.channels[i].id));
    ChannelStamped(t, p.channels, live.channels, Reverse(t, RoleEntity, RoleIDs(p.roles)), p.guildID, i);
  }

  lemma {:induction false} CategoriesAreJudged(t: Tables, p: Wanted, live: Snapshot, i: nat)
    requires WellFormed(p) && i < |p.categories|
    ensures Judged(t, LiveOutcome(t, p, live), Key(CategoryEntity, p.categories[i].id),
      CategoryVerdict(t, p.categories[i], live.categories, Reverse(t, ChannelEntity, ChannelIDs(p.channels))),
      CategoryJSON(p.categories[i]))
  {
    StampsByKind(t, p, live, Key(CategoryEntity, p.categories[i].id));
    CategoryStamped(t, p.categories, live.categories, Reverse(t, ChannelEntity, ChannelIDs(p.channels)), i);
  }

  /** The converge op of a judged entity is skipped by Diff exactly when the live state matched; otherwise
      it reaches Apply, which edits the entity the row names. */
  lemma {:induction false} ConvergeSkipsIffMatched(t: Tables, u: Tables, op: Op, verdict: bool)
    requires FromDiscord(op.desired) && (op.desired.ToRole? || op.desired.ToChannel? || op.desired.ToCategory?)
    requires Judged(t, u, op.key, Some(verdict), StateOf(op)) && HasStoatEntity(Lookup(t, op.key))
    ensures DiffEqual(op.desired, Lookup(u, op.key).state) <==> verdict
    ensures CreateOrEdit(Lookup(u, op.key)) == Edit(Lookup(t, op.key).stoatID)
  {
    DiffReflexive(op);
    SentinelForcesPush(op.desired, Lookup(t, op.key).stoatID, Lookup(t, op.key).status);
  }
}
