/** What applying an op does on Stoat: create-or-edit, the re-keying of overwrites from Discord to
    Stoat role ids, the keyed permission writes of a channel, and the resend of the category list. */
module Gateway {
  import opened Types
  import opened Permissions
  import opened Canonical
  import opened Store
  import opened Flow

  const EVERYONE: Id := "default"
  const MINIMUM_MIRRORED_RANK := 1

  // adminRoles are the Stoat ids whose self-grant goes on every channel, grant its bits.
  datatype Settings = Settings(guildID: Id, adminRoles: seq<Id>, grant: Bits64, dryRun: bool)

  /* Stoat's side */

  datatype Entity =
    | LiveRole(shape: StoatRole)
    | LiveChannel(name: string, ctype: ChannelType, perms: map<Id, StoatOverwrite>)
    | LiveMessage(channelID: Id, content: string)

  datatype Slot = Slot(id: Id, title: string, channelIDs: seq<Id>)

  datatype Remote = Remote(entities: map<Id, Entity>, sidebar: seq<Slot>)

  /* Create or edit, delete or not */

  datatype Write = Create | Edit(id: Id)

  // applyCreateOrEdit
  function CreateOrEdit(m: Mapping): Write {
    if HasStoatEntity(m) then Edit(m.stoatID) else Create
  }

  // applyDelete: the id to delete, if any
  function DeleteTarget(m: Mapping): Option<Id> {
    if IsActive(m) then Some(m.stoatID) else None
  }

  /* resolveOverwriteRoleIDs */

  // Where the overwrite of Discord role r goes; None when the role has no row at all.
  function Target(t: Tables, guildID: Id, r: Id): Option<Id> {
    if r == guildID then Some(EVERYONE)
    else match Lookup(t, Key(RoleEntity, r))
      case Absent => None
      case Found(id, _, _) => Some(id)
  }

  // resolved is a possible outcome of the loop, whatever order the overwrites are visited in.
  ghost predicate Resolves(t: Tables, guildID: Id, ow: map<Id, StoatOverwrite>, resolved: map<Id, StoatOverwrite>) {
    && (forall r | r in ow && Target(t, guildID, r).Some? :: Target(t, guildID, r).value in resolved)
    && (forall k | k in resolved :: exists r :: r in ow && Target(t, guildID, r) == Some(k) && resolved[k] == ow[r])
  }

  // No two overwrites go to the same Stoat key.
  ghost predicate SeparateTargets(t: Tables, guildID: Id, roles: set<Id>) {
    forall r, q | r in roles && q in roles && Target(t, guildID, r) == Target(t, guildID, q) ::
      Target(t, guildID, r).Some? ==> r == q
  }

  method ResolveOverwriteRoleIDs(ow: map<Id, StoatOverwrite>, guildID: Id, db: Database)
    returns (resolved: map<Id, StoatOverwrite>)
    ensures Resolves(db.Contents(), guildID, ow, resolved)
  {
    resolved := map[];
    var todo := ow.Keys;
    while todo != {}
      invariant todo <= ow.Keys
      invariant Resolves(db.Contents(), guildID, map r | r in ow && r !in todo :: ow[r], resolved)
      decreases |todo|
    {
      var r :| r in todo;
      ghost var done := map r | r in ow && r !in todo :: ow[r];
      todo := todo - {r};
      ghost var done' := map r | r in ow && r !in todo :: ow[r];
      assert done'.Keys == done.Keys + {r};
      if r == guildID {
        resolved := resolved[EVERYONE := ow[r]];
      } else {
        var m := db.Get(Key(RoleEntity, r));
        if m.Found? {
          resolved := resolved[m.stoatID := ow[r]];
        }
      }
      forall k | k in resolved
        ensures exists q :: q in done' && Target(db.Contents(), guildID, q) == Some(k) && resolved[k] == done'[q]
      {
        if Target(db.Contents(), guildID, r) == Some(k) {
          assert r in done';
        } else {
          var q :| q in done && Target(db.Contents(), guildID, q) == Some(k) && resolved[k] == done[q];
          assert q in done';
        }
      }
    }
    assert (map r | r in ow && r !in todo :: ow[r]) == ow;
  }

  lemma {:induction false} ResolutionUnique(t: Tables, guildID: Id, ow: map<Id, StoatOverwrite>,
                                            a: map<Id, StoatOverwrite>, b: map<Id, StoatOverwrite>)
    requires SeparateTargets(t, guildID, ow.Keys)
    requires Resolves(t, guildID, ow, a) && Resolves(t, guildID, ow, b)
    ensures a == b
  {
    forall k ensures k in a <==> k in b {
    }
    forall k | k in a ensures a[k] == b[k] {
      var r :| r in ow && Target(t, guildID, r) == Some(k) && a[k] == ow[r];
      var q :| q in ow && Target(t, guildID, q) == Some(k) && b[k] == ow[q];
      assert r == q;
    }
  }

  /** The empty key, which the permission endpoint reads as "everyone", appears exactly when some
      overwritten role has a row without a Stoat id: the loop tests for a row, not for an id. */
  lemma {:induction false} EmptyKeyIffRoleWithoutID(t: Tables, guildID: Id, ow: map<Id, StoatOverwrite>,
                                                    resolved: map<Id, StoatOverwrite>)
    requires Resolves(t, guildID, ow, resolved)
    ensures NO_ID in resolved <==> exists r :: r in ow && r != guildID && RowWithoutID(t, r)
  {
    if NO_ID in resolved {
      var r :| r in ow && Target(t, guildID, r) == Some(NO_ID) && resolved[NO_ID] == ow[r];
      assert RowWithoutID(t, r);
    }
    if r :| r in ow && r != guildID && RowWithoutID(t, r) {
      assert Target(t, guildID, r) == Some(NO_ID);
    }
  }

  predicate RowWithoutID(t: Tables, r: Id) {
    Lookup(t, Key(RoleEntity, r)).Found? && !HasStoatEntity(Lookup(t, Key(RoleEntity, r)))
  }

  /* applyChannelOverwrites: keyed writes in sequence */

  function PermissionKey(roleID: Id): Id {
    if roleID == NO_ID then EVERYONE else roleID
  }

  function Granted(perms: map<Id, StoatOverwrite>, admins: seq<Id>, grant: Bits64): map<Id, StoatOverwrite> {
    if admins == [] then perms
    else
      var n := |admins| - 1;
      Granted(perms, admins[..n], grant)[PermissionKey(admins[n]) := StoatOverwrite(grant, {})]
  }

  function AdminKeys(admins: seq<Id>): set<Id> {
    set a | a in admins :: PermissionKey(a)
  }

  lemma {:induction false} GrantedEntry(perms: map<Id, StoatOverwrite>, admins: seq<Id>, grant: Bits64, k: Id)
    ensures k in Granted(perms, admins, grant) <==> k in perms || k in AdminKeys(admins)
    ensures k in AdminKeys(admins) ==> Granted(perms, admins, grant)[k] == StoatOverwrite(grant, {})
    ensures k in perms && k !in AdminKeys(admins) ==> Granted(perms, admins, grant)[k] == perms[k]
  {
    if admins != [] {
      var n := |admins| - 1;
      GrantedEntry(perms, admins[..n], grant, k);
      assert admins == admins[..n] + [admins[n]];
      assert AdminKeys(admins) == AdminKeys(admins[..n]) + {PermissionKey(admins[n])};
    }
  }

  // after is a possible state of the channel's permissions once every entry of ow is written.
  ghost predicate Pushed(before: map<Id, StoatOverwrite>, ow: map<Id, StoatOverwrite>, after: map<Id, StoatOverwrite>) {
    && (forall k | k in before :: k in after)
    && (forall r | r in ow :: PermissionKey(r) in after)
    && (forall k | k in after :: WriteOf(before, ow, k, after[k]))
  }

  ghost predicate WriteOf(before: map<Id, StoatOverwrite>, ow: map<Id, StoatOverwrite>, k: Id, v: StoatOverwrite) {
    || (exists r :: r in ow && PermissionKey(r) == k && v == ow[r])
    || (k in before && v == before[k] && forall r :: r in ow ==> PermissionKey(r) != k)
  }

  // Both spellings of "everyone" at once would make the outcome depend on the order.
  ghost predicate SeparateKeys(ow: map<Id, StoatOverwrite>) {
    !(NO_ID in ow && EVERYONE in ow)
  }

  method ApplyChannelOverwrites(perms: map<Id, StoatOverwrite>, admins: seq<Id>, grant: Bits64,
                                ow: map<Id, StoatOverwrite>)
    returns (after: map<Id, StoatOverwrite>)
    ensures Pushed(Granted(perms, admins, grant), ow, after)
  {
    after := perms;
    for i := 0 to |admins|
      invariant after == Granted(perms, admins[..i], grant)
    {
      after := after[PermissionKey(admins[i]) := StoatOverwrite(grant, {})];
      assert admins[..i + 1][..i] == admins[..i];
    }
    assert admins[..|admins|] == admins;
    ghost var before := after;
    var todo := ow.Keys;
    while todo != {}
      invariant todo <= ow.Keys
      invariant Pushed(before, Without(ow, todo), after)
      decreases |todo|
    {
      var r :| r in todo;
      PushOne(before, ow, todo, r, after);
      after := after[PermissionKey(r) := ow[r]];
      todo := todo - {r};
    }
    assert Without(ow, todo) == ow;
  }

  ghost function Without(ow: map<Id, StoatOverwrite>, todo: set<Id>): map<Id, StoatOverwrite> {
    map r | r in ow && r !in todo :: ow[r]
  }

  lemma {:induction false} PushOne(before: map<Id, StoatOverwrite>, ow: map<Id, StoatOverwrite>, todo: set<Id>, r: Id,
                perms: map<Id, StoatOverwrite>)
    requires r in todo && todo <= ow.Keys && Pushed(before, Without(ow, todo), perms)
    ensures Pushed(before, Without(ow, todo - {r}), perms[PermissionKey(r) := ow[r]])
  {
    var done, done', after := Without(ow, todo), Without(ow, todo - {r}), perms[PermissionKey(r) := ow[r]];
    assert done'.Keys == done.Keys + {r};
    forall k | k in after ensures WriteOf(before, done', k, after[k]) {
      if k == PermissionKey(r) {
        assert r in done';
      } else {
        assert WriteOf(before, done, k, perms[k]);
        if q :| q in done && PermissionKey(q) == k && perms[k] == done[q] {
          assert q in done';
        }
      }
    }
  }

  lemma {:induction false} PushUnique(before: map<Id, StoatOverwrite>, ow: map<Id, StoatOverwrite>,
                                      a: map<Id, StoatOverwrite>, b: map<Id, StoatOverwrite>)
    requires SeparateKeys(ow) && Pushed(before, ow, a) && Pushed(before, ow, b)
    ensures a == b
  {
    forall k ensures k in a <==> k in b {
      if k in a { assert WriteOf(before, ow, k, a[k]); }
      if k in b { assert WriteOf(before, ow, k, b[k]); }
    }
    forall k | k in a ensures a[k] == b[k] {
      assert WriteOf(before, ow, k, a[k]) && WriteOf(before, ow, k, b[k]);
    }
  }

  /** Writing one wire shape twice is writing it once, in any order both times. */
  lemma {:induction false} PushTwice(before: map<Id, StoatOverwrite>, admins: seq<Id>, grant: Bits64,
                                     ow: map<Id, StoatOverwrite>, once: map<Id, StoatOverwrite>,
                                     twice: map<Id, StoatOverwrite>)
    requires SeparateKeys(ow)
    requires Pushed(Granted(before, admins, grant), ow, once)
    requires Pushed(Granted(once, admins, grant), ow, twice)
    ensures twice == once
  {
    forall k ensures k in twice <==> k in once {
      GrantedEntry(before, admins, grant, k);
      GrantedEntry(once, admins, grant, k);
      if k in twice { assert WriteOf(Granted(once, admins, grant), ow, k, twice[k]); }
    }
    forall k | k in once ensures twice[k] == once[k] {
      assert WriteOf(Granted(before, admins, grant), ow, k, once[k]);
      assert WriteOf(Granted(once, admins, grant), ow, k, twice[k]);
      GrantedEntry(before, admins, grant, k);
      GrantedEntry(once, admins, grant, k);
    }
  }

  /* resendCategories and resolveChannelIDs */

  function ResolvedChannels(t: Tables, ids: seq<Id>): seq<Id> {
    if ids == [] then []
    else
      var last, rest := ids[|ids| - 1], ResolvedChannels(t, ids[..|ids| - 1]);
      var m := Lookup(t, Key(ChannelEntity, last));
      if IsActive(m) then rest + [m.stoatID] else rest
  }

  function Sidebar(t: Tables, cats: seq<Category>): seq<Slot> {
    seq(|cats|, i requires 0 <= i < |cats| => Slot(cats[i].id, cats[i].name, ResolvedChannels(t, cats[i].channelIDs)))
  }

  method ResolveChannelIDs(ids: seq<Id>, db: Database) returns (resolved: seq<Id>)
    ensures resolved == ResolvedChannels(db.Contents(), ids)
  {
    resolved := [];
    for i := 0 to |ids|
      invariant resolved == ResolvedChannels(db.Contents(), ids[..i])
    {
      assert ids[..i + 1][..i] == ids[..i];
      var m := db.Get(Key(ChannelEntity, ids[i]));
      if IsActive(m) {
        resolved := resolved + [m.stoatID];
      }
    }
    assert ids[..|ids|] == ids;
  }

  method ResendCategories(cats: seq<Category>, db: Database) returns (pushed: seq<Slot>)
    ensures pushed == Sidebar(db.Contents(), cats)
  {
    pushed := [];
    for i := 0 to |cats|
      invariant pushed == Sidebar(db.Contents(), cats[..i])
    {
      var ids := ResolveChannelIDs(cats[i].channelIDs, db);
      pushed := pushed + [Slot(cats[i].id, cats[i].name, ids)];
      assert cats[..i + 1][..i] == cats[..i];
    }
    assert cats[..|cats|] == cats;
  }

  /* The effect of a successful Apply on the entity it addresses */

  // EditRole sends colour, hoist, clamped rank and permissions, and never the name.
  function EditedRole(live: StoatRole, want: StoatRole): StoatRole {
    want.(name := live.name, rank := if want.rank < MINIMUM_MIRRORED_RANK then MINIMUM_MIRRORED_RANK else want.rank)
  }

  // The create endpoint takes the name, the edit that follows it the rest.
  function CreatedRole(want: StoatRole): StoatRole {
    EditedRole(want, want)
  }

  ghost predicate ChannelPushed(cfg: Settings, t: Tables, ow: map<Id, StoatOverwrite>,
                                before: map<Id, StoatOverwrite>, after: map<Id, StoatOverwrite>) {
    exists resolved ::
      Resolves(t, cfg.guildID, ow, resolved) && Pushed(Granted(before, cfg.adminRoles, cfg.grant), resolved, after)
  }

  // before is None for a create.
  ghost predicate Wrote(cfg: Settings, t: Tables, d: Desired, before: Option<Entity>, after: Entity) {
    match d
    case ToRole(r) =>
      var want := RoleToStoat(r);
      (match before
       case None => after == LiveRole(CreatedRole(want))
       case Some(e) => e.LiveRole? && after == LiveRole(EditedRole(e.shape, want)))
    case ToChannel(c) =>
      && after.LiveChannel? && after.name == c.name
      && (match before
          case None =>
            && after.ctype == (if c.ctype == Voice then Voice else Text)
            && ChannelPushed(cfg, t, OverwritesToStoat(c.overwrites), map[], after.perms)
          case Some(e) =>
            && e.LiveChannel? && after.ctype == e.ctype
            && ChannelPushed(cfg, t, OverwritesToStoat(c.overwrites), e.perms, after.perms))
    case ToMessage(m) =>
      (match before
       case None => after == LiveMessage(MessageTarget(t, m), m.content)
       case Some(e) => e.LiveMessage? && after == e.(content := m.content))
    case _ => false
  }

  function MessageTarget(t: Tables, m: Message): Id {
    match Lookup(t, Key(ChannelEntity, m.channelID))
    case Absent => NO_ID
    case Found(id, _, _) => id
  }

  /* Diff: desired against stored, both in Stoat's shape */

  function DiffEqual(d: Desired, stored: State): bool {
    match d
    case ToRole(r) => RoleToStoat(ParseRole(stored)) == RoleToStoat(r)
    case ToChannel(c) => ChannelToStoat(ParseChannel(stored)) == ChannelToStoat(c)
    case ToCategory(c) => ParseCategory(stored) == c
    case ToMessage(m) => ParseMessage(stored).content == m.content
    case Nothing => false
  }

  // What the Discord adapter builds: a "#RRGGBB" colour, a modelled channel type, a real id.
  predicate FromDiscord(d: Desired) {
    match d
    case ToRole(r) => r.colour != ""
    case ToChannel(c) => c.ctype != NoType
    case ToCategory(c) => c.id != NO_ID
    case ToMessage(m) => true
    case Nothing => true
  }

  /** The "{}" sentinel: no role, channel or category ever diffs equal against it, so the op reaches
      Apply, and an adopted row's Apply is an edit of the adopted id. */
  lemma {:induction false} SentinelForcesPush(d: Desired, adopted: Id, status: Status)
    requires FromDiscord(d) && (d.ToRole? || d.ToChannel? || d.ToCategory?)
    ensures !DiffEqual(d, EmptyObject)
    ensures adopted != NO_ID ==> CreateOrEdit(Found(adopted, status, EmptyObject)) == Edit(adopted)
  {
    if d.ToRole? {
      assert RoleToStoat(ParseRole(EmptyObject)).colour == "";
    } else if d.ToChannel? {
      assert ChannelToStoat(ParseChannel(EmptyObject)).ctype == NoType;
    }
  }

  /** An entity always diffs equal against its own stored record. */
  lemma {:induction false} DiffReflexive(f: Op)
    requires !f.desired.Nothing?
    ensures DiffEqual(f.desired, StateOf(f))
  {
    match f.desired
    case ToRole(r) => RoleShapeSurvives(r);
    case ToChannel(c) => ChannelShapeSurvives(c);
    case _ =>
  }

  // Two desired states of one kind that Stoat could not tell apart; categories compare whole.
  predicate SameOnStoat(a: Desired, b: Desired) {
    match (a, b)
    case (ToRole(r), ToRole(q)) => RoleToStoat(r) == RoleToStoat(q)
    case (ToChannel(c), ToChannel(e)) => ChannelToStoat(c) == ChannelToStoat(e)
    case (ToCategory(c), ToCategory(e)) => c == e
    case (ToMessage(m), ToMessage(n)) => m.content == n.content
    case _ => false
  }

  predicate SameKind(a: Desired, b: Desired) {
    (a.ToRole? && b.ToRole?) || (a.ToChannel? && b.ToChannel?) || (a.ToCategory? && b.ToCategory?)
    || (a.ToMessage? && b.ToMessage?)
  }

  /** Diff against what an earlier op recorded compares the two ops' Stoat shapes: neither the order of
      a permission list nor a channel's position or category counts. */
  lemma {:induction false} DiffAgainstRecord(d: Desired, earlier: Op)
    requires SameKind(d, earlier.desired)
    ensures DiffEqual(d, StateOf(earlier)) <==> SameOnStoat(d, earlier.desired)
  {
    match earlier.desired
    case ToRole(r) => RoleShapeSurvives(r);
    case ToChannel(c) => ChannelShapeSurvives(c);
    case _ =>
  }
}
