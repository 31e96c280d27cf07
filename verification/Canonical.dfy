/** The neutral entity model, its deterministic serialized records and its translation to Stoat's
    wire shape. A serialized record stands for the JSON text: two texts are equal exactly when the
    records are, because encoding/json writes struct fields in order and map keys sorted. */
module Canonical {
  import opened Types
  import opened Permissions

  datatype Overwrite = Overwrite(allow: seq<Permission>, deny: seq<Permission>)

  // NoType is the zero value "", which only a parsed "{}" carries.
  datatype ChannelType = Text | Voice | NoType

  datatype Role = Role(id: Id, name: string, colour: string, hoist: bool, rank: int,
                       permissions: Overwrite, privileged: bool)

  datatype Channel = Channel(id: Id, name: string, ctype: ChannelType, categoryID: Id, position: int,
                             overwrites: map<Id, Overwrite>)

  datatype Category = Category(id: Id, name: string, channelIDs: seq<Id>, position: int)

  datatype Message = Message(id: Id, channelID: Id, content: string, replyToID: Id)

  /* Stoat's wire shapes */

  datatype StoatOverwrite = StoatOverwrite(allow: Bits64, deny: Bits64)

  datatype StoatRole = StoatRole(name: string, colour: string, hoist: bool, rank: int,
                                 permissions: StoatOverwrite)

  datatype StoatChannel = StoatChannel(name: string, ctype: ChannelType, overwrites: map<Id, StoatOverwrite>)

  function OverwriteToStoat(o: Overwrite): StoatOverwrite {
    StoatOverwrite(StoatMask(o.allow), StoatMask(o.deny))
  }

  lemma {:induction false} OverwriteBits(o: Overwrite)
    ensures BitsOf(o.allow, OverwriteToStoat(o).allow) && BitsOf(o.deny, OverwriteToStoat(o).deny)
  {
    MaskBits(o.allow);
    MaskBits(o.deny);
  }

  function RoleToStoat(r: Role): StoatRole {
    StoatRole(r.name, r.colour, r.hoist, r.rank, OverwriteToStoat(r.permissions))
  }

  function OverwritesToStoat(m: map<Id, Overwrite>): map<Id, StoatOverwrite> {
    map id | id in m :: OverwriteToStoat(m[id])
  }

  function ChannelToStoat(c: Channel): StoatChannel {
    StoatChannel(c.name, c.ctype, OverwritesToStoat(c.overwrites))
  }

  /** Channel.ToStoat's map-filling loop; Go visits the keys in any order. */
  method TranslateOverwrites(m: map<Id, Overwrite>) returns (out: map<Id, StoatOverwrite>)
    ensures out == OverwritesToStoat(m)
    ensures out.Keys == m.Keys
    ensures forall id | id in m :: BitsOf(m[id].allow, out[id].allow) && BitsOf(m[id].deny, out[id].deny)
  {
    out := map[];
    var todo := m.Keys;
    while todo != {}
      invariant todo <= m.Keys
      invariant out.Keys == m.Keys - todo
      invariant forall id :: id in out ==> out[id] == OverwriteToStoat(m[id])
      invariant forall id | id in out :: BitsOf(m[id].allow, out[id].allow) && BitsOf(m[id].deny, out[id].deny)
      decreases |todo|
    {
      var id :| id in todo;
      var allow := StoatBits(m[id].allow);
      var deny := StoatBits(m[id].deny);
      MaskBits(m[id].allow);
      MaskBits(m[id].deny);
      out := out[id := StoatOverwrite(allow, deny)];
      todo := todo - {id};
    }
  }

  // shape is r on the wire, field by field.
  ghost predicate ShapeOf(r: Role, shape: StoatRole) {
    && shape.name == r.name && shape.colour == r.colour && shape.hoist == r.hoist && shape.rank == r.rank
    && BitsOf(r.permissions.allow, shape.permissions.allow) && BitsOf(r.permissions.deny, shape.permissions.deny)
  }

  lemma {:induction false} RoleShape(r: Role, shape: StoatRole)
    ensures shape == RoleToStoat(r) <==> ShapeOf(r, shape)
  {
    OverwriteBits(r.permissions);
    if ShapeOf(r, shape) {
      BitsUnique(r.permissions.allow, shape.permissions.allow, RoleToStoat(r).permissions.allow);
      BitsUnique(r.permissions.deny, shape.permissions.deny, RoleToStoat(r).permissions.deny);
    }
  }

  /* sortedPermissions: slices.Sort on a copy */

  function Insert(p: Permission, s: seq<Permission>): seq<Permission> {
    if s == [] then [p]
    else if Rank(p) <= Rank(s[0]) then [p] + s
    else [s[0]] + Insert(p, s[1..])
  }

  function SortedPermissions(s: seq<Permission>): seq<Permission> {
    if s == [] then [] else Insert(s[0], SortedPermissions(s[1..]))
  }

  ghost predicate Ascending(s: seq<Permission>) {
    forall i, j :: 0 <= i < j < |s| ==> Rank(s[i]) <= Rank(s[j])
  }

  lemma {:induction false} RankInjective(p: Permission, q: Permission)
    requires Rank(p) == Rank(q)
    ensures p == q
  {}

  lemma {:induction false} InsertAdds(p: Permission, s: seq<Permission>)
    ensures multiset(Insert(p, s)) == multiset(s) + multiset{p}
  {
    if s != [] && Rank(p) > Rank(s[0]) {
      InsertAdds(p, s[1..]);
      assert s == [s[0]] + s[1..];
    }
  }

  lemma {:induction false} InsertKeepsAscending(p: Permission, s: seq<Permission>)
    requires Ascending(s)
    ensures Ascending(Insert(p, s))
  {
    if s != [] && Rank(p) > Rank(s[0]) {
      var t := Insert(p, s[1..]);
      InsertKeepsAscending(p, s[1..]);
      forall i | 0 <= i < |t| ensures Rank(s[0]) <= Rank(t[i]) {
        InsertAdds(p, s[1..]);
        assert t[i] in multiset(t);
        assert t[i] == p || t[i] in s[1..];
      }
    }
  }

  /** What slices.Sort promises, and determines the result by SortUnique. */
  lemma {:induction false} SortCorrect(s: seq<Permission>)
    ensures multiset(SortedPermissions(s)) == multiset(s)
    ensures Ascending(SortedPermissions(s))
  {
    if s != [] {
      SortCorrect(s[1..]);
      InsertAdds(s[0], SortedPermissions(s[1..]));
      InsertKeepsAscending(s[0], SortedPermissions(s[1..]));
      assert s == [s[0]] + s[1..];
    }
  }

  lemma {:induction false} SameLowest(s: seq<Permission>, t: seq<Permission>)
    requires Ascending(s) && Ascending(t) && multiset(s) == multiset(t) && s != [] && t != []
    ensures s[0] == t[0]
  {
    assert s[0] in multiset(t) && t[0] in multiset(s);
    var i :| 0 <= i < |t| && t[i] == s[0];
    var j :| 0 <= j < |s| && s[j] == t[0];
    assert Rank(t[0]) <= Rank(t[i]) && Rank(s[0]) <= Rank(s[j]);
    RankInjective(s[0], t[0]);
  }

  lemma {:induction false} SameRest(s: seq<Permission>, t: seq<Permission>)
    requires multiset(s) == multiset(t) && s != [] && t != [] && s[0] == t[0]
    ensures multiset(s[1..]) == multiset(t[1..])
  {
    assert s == [s[0]] + s[1..] && t == [t[0]] + t[1..];
    assert multiset(s[1..]) == multiset(s) - multiset{s[0]};
    assert multiset(t[1..]) == multiset(t) - multiset{s[0]};
  }

  lemma {:induction false} SortUnique(s: seq<Permission>, t: seq<Permission>)
    requires Ascending(s) && Ascending(t) && multiset(s) == multiset(t)
    ensures s == t
  {
    assert |t| == |multiset(t)| == |multiset(s)| == |s|;
    if s != [] {
      SameLowest(s, t);
      SameRest(s, t);
      SortUnique(s[1..], t[1..]);
    }
  }

  lemma {:induction false} SortedEqualIffPermutation(s: seq<Permission>, t: seq<Permission>)
    ensures SortedPermissions(s) == SortedPermissions(t) <==> multiset(s) == multiset(t)
  {
    SortCorrect(s);
    SortCorrect(t);
    if multiset(s) == multiset(t) {
      SortUnique(SortedPermissions(s), SortedPermissions(t));
    }
  }

  lemma {:induction false} MaskOfPermutation(s: seq<Permission>, t: seq<Permission>)
    requires multiset(s) == multiset(t)
    ensures StoatMask(s) == StoatMask(t)
  {
    assert forall p :: p in s <==> p in multiset(s);
    assert forall p :: p in t <==> p in multiset(t);
    assert forall p :: p in s <==> p in t;
  }

  /* Serialized records and their parsers */

  datatype OverwriteJSON = OverwriteJSON(allow: seq<Permission>, deny: seq<Permission>)

  // The canonical_state column. EmptyObject is the text "{}".
  datatype State =
    | EmptyObject
    | RoleState(id: Id, name: string, colour: string, hoist: bool, rank: int, permissions: OverwriteJSON,
                privileged: bool)
    | ChannelState(id: Id, name: string, ctype: ChannelType, categoryID: Id, position: int,
                   overwrites: map<Id, OverwriteJSON>)
    | CategoryState(id: Id, name: string, channelIDs: seq<Id>, position: int)
    | MessageState(id: Id, channelID: Id, content: string, replyToID: Id)

  function Canonicalize(o: Overwrite): OverwriteJSON {
    OverwriteJSON(SortedPermissions(o.allow), SortedPermissions(o.deny))
  }

  function OverwritesJSON(m: map<Id, Overwrite>): map<Id, OverwriteJSON> {
    map id | id in m :: Canonicalize(m[id])
  }

  function ParseOverwrite(o: OverwriteJSON): Overwrite {
    Overwrite(o.allow, o.deny)
  }

  function RoleJSON(r: Role): State {
    RoleState(r.id, r.name, r.colour, r.hoist, r.rank, Canonicalize(r.permissions), r.privileged)
  }

  function ChannelJSON(c: Channel): State {
    ChannelState(c.id, c.name, c.ctype, c.categoryID, c.position, OverwritesJSON(c.overwrites))
  }

  function CategoryJSON(c: Category): State {
    CategoryState(c.id, c.name, c.channelIDs, c.position)
  }

  function MessageJSON(m: Message): State {
    MessageState(m.id, m.channelID, m.content, m.replyToID)
  }

  // The parsers read "{}" as the zero value. A record of another table never reaches them: each
  // table only ever receives its own records and "{}".
  function ParseRole(s: State): Role {
    match s
    case RoleState(id, name, colour, hoist, rank, permissions, privileged) =>
      Role(id, name, colour, hoist, rank, ParseOverwrite(permissions), privileged)
    case _ => Role("", "", "", false, 0, Overwrite([], []), false)
  }

  function ParseChannel(s: State): Channel {
    match s
    case ChannelState(id, name, ctype, categoryID, position, overwrites) =>
      Channel(id, name, ctype, categoryID, position, map r | r in overwrites :: ParseOverwrite(overwrites[r]))
    case _ => Channel("", "", NoType, "", 0, map[])
  }

  function ParseCategory(s: State): Category {
    match s
    case CategoryState(id, name, channelIDs, position) => Category(id, name, channelIDs, position)
    case _ => Category("", "", [], 0)
  }

  function ParseMessage(s: State): Message {
    match s
    case MessageState(id, channelID, content, replyToID) => Message(id, channelID, content, replyToID)
    case _ => Message("", "", "", "")
  }

  /* Canonical form: records are equal exactly up to permutation of the permission lists */

  ghost predicate SameOverwrite(a: Overwrite, b: Overwrite) {
    multiset(a.allow) == multiset(b.allow) && multiset(a.deny) == multiset(b.deny)
  }

  ghost predicate SameOverwrites(a: map<Id, Overwrite>, b: map<Id, Overwrite>) {
    a.Keys == b.Keys && forall id | id in a :: SameOverwrite(a[id], b[id])
  }

  ghost predicate SameRole(a: Role, b: Role) {
    && a.(permissions := b.permissions) == b
    && SameOverwrite(a.permissions, b.permissions)
  }

  ghost predicate SameChannel(a: Channel, b: Channel) {
    && a.(overwrites := b.overwrites) == b
    && SameOverwrites(a.overwrites, b.overwrites)
  }

  lemma {:induction false} CanonicalizeEqual(a: Overwrite, b: Overwrite)
    ensures Canonicalize(a) == Canonicalize(b) <==> SameOverwrite(a, b)
  {
    SortedEqualIffPermutation(a.allow, b.allow);
    SortedEqualIffPermutation(a.deny, b.deny);
  }

  lemma {:induction false} RoleRecordIsCanonical(a: Role, b: Role)
    ensures RoleJSON(a) == RoleJSON(b) <==> SameRole(a, b)
  {
    CanonicalizeEqual(a.permissions, b.permissions);
  }

  lemma {:induction false} SameOverwritesSameJSON(a: map<Id, Overwrite>, b: map<Id, Overwrite>)
    requires SameOverwrites(a, b)
    ensures OverwritesJSON(a) == OverwritesJSON(b)
  {
    forall id | id in a ensures id in b && Canonicalize(a[id]) == Canonicalize(b[id]) {
      assert id in b.Keys;
      CanonicalizeEqual(a[id], b[id]);
    }
  }

  lemma {:induction false} SameJSONSameOverwrites(a: map<Id, Overwrite>, b: map<Id, Overwrite>)
    requires OverwritesJSON(a) == OverwritesJSON(b)
    ensures SameOverwrites(a, b)
  {
    var ja, jb := OverwritesJSON(a), OverwritesJSON(b);
    assert ja.Keys == a.Keys && jb.Keys == b.Keys;
    forall id | id in a ensures SameOverwrite(a[id], b[id]) {
      assert id in ja.Keys;
      assert id in b.Keys;
      assert ja[id] == jb[id];
      CanonicalizeEqual(a[id], b[id]);
    }
  }

  lemma {:induction false} ChannelRecordIsCanonical(a: Channel, b: Channel)
    ensures ChannelJSON(a) == ChannelJSON(b) <==> SameChannel(a, b)
  {
    if SameChannel(a, b) {
      SameOverwritesSameJSON(a.overwrites, b.overwrites);
    }
    if ChannelJSON(a) == ChannelJSON(b) {
      SameJSONSameOverwrites(a.overwrites, b.overwrites);
    }
  }

  /* Diff of an entity against its own stored state is always equal */

  lemma {:induction false} OverwriteShapeSurvives(o: Overwrite)
    ensures OverwriteToStoat(ParseOverwrite(Canonicalize(o))) == OverwriteToStoat(o)
  {
    SortCorrect(o.allow);
    SortCorrect(o.deny);
    MaskOfPermutation(SortedPermissions(o.allow), o.allow);
    MaskOfPermutation(SortedPermissions(o.deny), o.deny);
  }

  lemma {:induction false} RoleShapeSurvives(r: Role)
    ensures RoleToStoat(ParseRole(RoleJSON(r))) == RoleToStoat(r)
  {
    OverwriteShapeSurvives(r.permissions);
  }

  lemma {:induction false} ChannelShapeSurvives(c: Channel)
    ensures ChannelToStoat(ParseChannel(ChannelJSON(c))) == ChannelToStoat(c)
  {
    var back := ParseChannel(ChannelJSON(c));
    assert back.overwrites.Keys == c.overwrites.Keys;
    forall id | id in c.overwrites
      ensures OverwritesToStoat(back.overwrites)[id] == OverwritesToStoat(c.overwrites)[id]
    {
      OverwriteShapeSurvives(c.overwrites[id]);
    }
    assert OverwritesToStoat(back.overwrites) == OverwritesToStoat(c.overwrites);
  }
}
