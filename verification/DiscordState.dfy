/** Deriving the ordered category list from the guild's flat channel list: group, sort, renumber. Maps
    are visited in any order and sorting is not stable, so the result is fixed only as far as positions
    tell entities apart. */
module DiscordState {
  import opened Types
  import opened Canonical
  import opened Store
  import opened Gateway
  import opened Live
  import opened LiveRoundTrip

  datatype DiscordType = GuildText | GuildNews | GuildForum | GuildVoice | GuildStageVoice | GuildCategory | Unmodelled

  datatype GuildChannel = GuildChannel(id: Id, name: string, dtype: DiscordType, parentID: Id, position: int)

  function ChannelTypeFromDiscord(d: DiscordType): Option<ChannelType> {
    match d
    case GuildText => Some(Text)
    case GuildNews => Some(Text)
    case GuildForum => Some(Text)
    case GuildVoice => Some(Voice)
    case GuildStageVoice => Some(Voice)
    case GuildCategory => None
    case Unmodelled => None
  }

  ghost predicate UniqueChannels(guild: seq<GuildChannel>) {
    forall i, j | 0 <= i < |guild| && 0 <= j < |guild| :: guild[i].id == guild[j].id ==> i == j
  }

  /* slices.SortFunc: a permutation in ascending order, and no more is promised */

  ghost predicate AscendingBy<T(!new)>(key: T -> int, s: seq<T>) {
    forall i, j | 0 <= i < j < |s| :: key(s[i]) <= key(s[j])
  }

  ghost predicate SortedFrom<T(!new)>(key: T -> int, s: seq<T>, r: seq<T>) {
    multiset(r) == multiset(s) && AscendingBy(key, r)
  }

  lemma {:induction false} InsertedAt<T>(r: seq<T>, n: nat, x: T)
    requires n <= |r|
    ensures multiset(r[..n] + [x] + r[n..]) == multiset(r) + multiset{x}
  {
    assert r == r[..n] + r[n..];
  }

  lemma {:induction false} InsertSorted<T(!new)>(key: T -> int, r: seq<T>, n: nat, x: T)
    requires AscendingBy(key, r) && n <= |r|
    requires n > 0 ==> key(r[n - 1]) <= key(x)
    requires n < |r| ==> key(x) <= key(r[n])
    ensures AscendingBy(key, r[..n] + [x] + r[n..])
  {
    var r' := r[..n] + [x] + r[n..];
    forall i | 0 <= i < n ensures r'[i] == r[i] && key(r[i]) <= key(x) {}
    forall j | n < j < |r'| ensures r'[j] == r[j - 1] && key(x) <= key(r[j - 1]) {}
  }

  method InsertByKey<T(!new)>(key: T -> int, s: seq<T>, x: T) returns (r: seq<T>)
    requires AscendingBy(key, s)
    ensures AscendingBy(key, r) && multiset(r) == multiset(s) + multiset{x}
  {
    var n := |s|;
    while n > 0 && key(s[n - 1]) > key(x)
      invariant 0 <= n <= |s|
      invariant n < |s| ==> key(x) <= key(s[n])
    {
      n := n - 1;
    }
    InsertSorted(key, s, n, x);
    InsertedAt(s, n, x);
    r := s[..n] + [x] + s[n..];
  }

  method SortFunc<T(!new)>(key: T -> int, s: seq<T>) returns (r: seq<T>)
    ensures SortedFrom(key, s, r)
  {
    r := [];
    for i := 0 to |s|
      invariant SortedFrom(key, s[..i], r)
    {
      ghost var before := r;
      r := InsertByKey(key, r, s[i]);
      assert s[..i + 1] == s[..i] + [s[i]];
      assert multiset(r) == multiset(before) + multiset{s[i]};
    }
    assert s[..|s|] == s;
  }

  /* What a sorted list of distinct channels amounts to */

  function ByPosition(): GuildChannel -> int {
    (c: GuildChannel) => c.position
  }

  // order lists the channels of s, each once, in ascending position.
  ghost predicate Arranges(order: seq<GuildChannel>, s: set<GuildChannel>) {
    Distinct(order) && (forall g :: g in order <==> g in s) && AscendingBy(ByPosition(), order)
  }

  lemma {:induction false} OnceIfDistinct<T>(s: seq<T>, e: T)
    requires Distinct(s)
    ensures multiset(s)[e] <= 1
  {
    if s != [] {
      var n := |s| - 1;
      OnceIfDistinct(s[..n], e);
      assert s == s[..n] + [s[n]];
    }
  }

  lemma {:induction false} PermutedDistinct<T>(s: seq<T>, r: seq<T>)
    requires Distinct(s) && multiset(r) == multiset(s)
    ensures Distinct(r) && forall c :: c in r <==> c in s
  {
    assert forall c :: c in r <==> c in multiset(r);
    assert forall c :: c in s <==> c in multiset(s);
    forall i, j | 0 <= i < j < |r| ensures r[i] != r[j] {
      OnceIfDistinct(s, r[i]);
      assert r == r[..j] + r[j..];
      assert r[i] in r[..j] && r[j] in r[j..];
    }
  }

  /** Where positions tell the channels apart, there is one arrangement. */
  lemma {:induction false} ArrangementUnique(a: seq<GuildChannel>, b: seq<GuildChannel>, s: set<GuildChannel>)
    requires Arranges(a, s) && Arranges(b, s)
    requires forall g, h | g in s && h in s :: g.position == h.position ==> g == h
    ensures a == b
    decreases |a|
  {
    assert a != [] ==> a[0] in a && a[0] in s && a[0] in b;
    assert b != [] ==> b[0] in b && b[0] in s && b[0] in a;
    if a != [] {
      var i :| 0 <= i < |b| && b[i] == a[0];
      var j :| 0 <= j < |a| && a[j] == b[0];
      assert b[0].position <= b[i].position
             && a[0].position <= a[j].position by { AscendingAt(a, j); AscendingAt(b, i); }
      ArrangedTail(a, s);
      ArrangedTail(b, s);
      ArrangementUnique(a[1..], b[1..], s - {a[0]});
    }
  }

  lemma {:induction false} AscendingAt(a: seq<GuildChannel>, j: nat)
    requires AscendingBy(ByPosition(), a) && j < |a|
    ensures a[0].position <= a[j].position
  {
    assert j > 0 ==> ByPosition()(a[0]) <= ByPosition()(a[j]);
  }

  lemma {:induction false} ArrangedTail(a: seq<GuildChannel>, s: set<GuildChannel>)
    requires Arranges(a, s) && a != []
    ensures Arranges(a[1..], s - {a[0]})
  {
    assert a == [a[0]] + a[1..];
  }

  /* categoriesFromState */

  predicate IsCategory(c: GuildChannel) {
    c.dtype == GuildCategory
  }

  predicate IsMember(guild: seq<GuildChannel>, cat: Id, c: GuildChannel) {
    && c.parentID == cat && cat != NO_ID
    && ChannelTypeFromDiscord(c.dtype).Some?
    && exists g :: g in guild && IsCategory(g) && g.id == cat
  }

  // The members map's entry for cat after the first upTo channels.
  function Members(guild: seq<GuildChannel>, cat: Id, upTo: nat): seq<GuildChannel>
    requires upTo <= |guild|
  {
    if upTo == 0 then []
    else if IsMember(guild, cat, guild[upTo - 1]) then Members(guild, cat, upTo - 1) + [guild[upTo - 1]]
    else Members(guild, cat, upTo - 1)
  }

  function MembersOf(guild: seq<GuildChannel>, cat: Id): set<GuildChannel> {
    set c | c in guild && IsMember(guild, cat, c)
  }

  function Categories(guild: seq<GuildChannel>): set<GuildChannel> {
    set g | g in guild && IsCategory(g)
  }

  function IDs(channels: seq<GuildChannel>): seq<Id> {
    seq(|channels|, i requires 0 <= i < |channels| => channels[i].id)
  }

  // cat lists the members of g in ascending position.
  ghost predicate Derived(guild: seq<GuildChannel>, g: GuildChannel, cat: Category) {
    cat.id == g.id && cat.name == g.name && ListsMembers(guild, cat)
  }

  ghost predicate ListsMembers(guild: seq<GuildChannel>, cat: Category) {
    exists members :: Arranges(members, MembersOf(guild, cat.id)) && cat.channelIDs == IDs(members)
  }

  // The list: one entry for every category channel, in sidebar order, each with its members, numbered.
  ghost predicate SidebarFrom(guild: seq<GuildChannel>, order: seq<GuildChannel>, cats: seq<Category>) {
    && Arranges(order, Categories(guild)) && |cats| == |order|
    && forall i | 0 <= i < |cats| :: cats[i].position == i && Derived(guild, order[i], cats[i])
  }

  ghost predicate IsSidebarOf(guild: seq<GuildChannel>, cats: seq<Category>) {
    exists order :: SidebarFrom(guild, order, cats)
  }

  // The names and positions fields collected from the first upTo channels.
  function NamesOf(guild: seq<GuildChannel>, upTo: nat): map<Id, string>
    requires upTo <= |guild|
  {
    if upTo == 0 then map[]
    else if IsCategory(guild[upTo - 1]) then NamesOf(guild, upTo - 1)[guild[upTo - 1].id := guild[upTo - 1].name]
    else NamesOf(guild, upTo - 1)
  }

  function PositionsOf(guild: seq<GuildChannel>, upTo: nat): map<Id, int>
    requires upTo <= |guild|
  {
    if upTo == 0 then map[]
    else if IsCategory(guild[upTo - 1]) then
      PositionsOf(guild, upTo - 1)[guild[upTo - 1].id := guild[upTo - 1].position]
    else PositionsOf(guild, upTo - 1)
  }

  function Positions(guild: seq<GuildChannel>): map<Id, int> {
    PositionsOf(guild, |guild|)
  }

  function PositionIn(positions: map<Id, int>): Category -> int {
    (c: Category) => if c.id in positions then positions[c.id] else 0
  }

  lemma {:induction false} FieldsSpec(guild: seq<GuildChannel>, upTo: nat)
    requires UniqueChannels(guild) && upTo <= |guild|
    ensures var names, positions := NamesOf(guild, upTo), PositionsOf(guild, upTo);
      && names.Keys == positions.Keys
      && (forall id | id in names :: exists i :: 0 <= i < upTo && IsCategory(guild[i]) && guild[i].id == id)
      && forall i | 0 <= i < upTo && IsCategory(guild[i]) ::
           guild[i].id in names && names[guild[i].id] == guild[i].name && positions[guild[i].id] == guild[i].position
  {
    if upTo > 0 {
      FieldsSpec(guild, upTo - 1);
    }
  }

  method CollectMembers(guild: seq<GuildChannel>, names: map<Id, string>) returns (members: map<Id, seq<GuildChannel>>)
    requires forall id :: id in names <==> exists g :: g in guild && IsCategory(g) && g.id == id
    ensures forall cat :: (if cat in members then members[cat] else []) == Members(guild, cat, |guild|)
  {
    members := map[];
    for i := 0 to |guild|
      invariant forall cat :: (if cat in members then members[cat] else []) == Members(guild, cat, i)
    {
      var ch := guild[i];
      if ch.parentID == NO_ID || ch.parentID !in names || ChannelTypeFromDiscord(ch.dtype).None? {
        continue;
      }
      var so := if ch.parentID in members then members[ch.parentID] else [];
      members := members[ch.parentID := so + [ch]];
    }
  }

  lemma {:induction false} MembersSpec(guild: seq<GuildChannel>, cat: Id, upTo: nat)
    requires UniqueChannels(guild) && upTo <= |guild|
    ensures forall c :: c in Members(guild, cat, upTo) <==> c in guild[..upTo] && IsMember(guild, cat, c)
    ensures Distinct(Members(guild, cat, upTo))
  {
    if upTo > 0 {
      MembersSpec(guild, cat, upTo - 1);
      assert guild[..upTo] == guild[..upTo - 1] + [guild[upTo - 1]];
      assert guild[upTo - 1] !in guild[..upTo - 1];
    }
  }

  // One entry, as the loop over names builds it.
  method ListMembers(guild: seq<GuildChannel>, id: Id, name: string, members: map<Id, seq<GuildChannel>>)
    returns (cat: Category)
    requires UniqueChannels(guild)
    requires (if id in members then members[id] else []) == Members(guild, id, |guild|)
    ensures cat.id == id && cat.name == name && ListsMembers(guild, cat)
  {
    var channels := SortFunc(ByPosition(), if id in members then members[id] else []);
    cat := Category(id, name, IDs(channels), 0);
    MembersSpec(guild, id, |guild|);
    PermutedDistinct(Members(guild, id, |guild|), channels);
    assert guild[..|guild|] == guild;
    assert Arranges(channels, MembersOf(guild, id));
  }

  ghost predicate UniqueCategoryIDs(s: seq<Category>) {
    forall i, j | 0 <= i < |s| && 0 <= j < |s| :: s[i].id == s[j].id ==> i == j
  }

  lemma {:induction false} SortKeepsUnique(s: seq<Category>, r: seq<Category>)
    requires UniqueCategoryIDs(s) && multiset(r) == multiset(s)
    ensures UniqueCategoryIDs(r) && forall c :: c in r <==> c in s
  {
    assert Distinct(s);
    PermutedDistinct(s, r);
    forall i, j | 0 <= i < |r| && 0 <= j < |r| && r[i].id == r[j].id ensures i == j {
      assert r[i] in s && r[j] in s;
    }
  }

  // The entries before sorting: every name once.
  ghost predicate Entries(guild: seq<GuildChannel>, ids: set<Id>, cats: seq<Category>) {
    && UniqueCategoryIDs(cats)
    && (forall c | c in cats ::
        c.id in ids && c.id in NamesOf(guild, |guild|) && c.name == NamesOf(guild, |guild|)[c.id]
          && ListsMembers(guild, c))
    && (set c | c in cats :: c.id) == ids
  }

  ghost function CategoryWith(guild: seq<GuildChannel>, id: Id): GuildChannel
    requires id in NamesOf(guild, |guild|) && UniqueChannels(guild)
  {
    FieldsSpec(guild, |guild|);
    var g :| g in guild && IsCategory(g) && g.id == id;
    g
  }

  lemma {:induction false} CategoryWithSpec(guild: seq<GuildChannel>, id: Id)
    requires UniqueChannels(guild) && id in NamesOf(guild, |guild|)
    ensures var g := CategoryWith(guild, id);
      && g in Categories(guild) && g.id == id && g.name == NamesOf(guild, |guild|)[id]
      && id in Positions(guild) && Positions(guild)[id] == g.position
  {
    FieldsSpec(guild, |guild|);
    var g := CategoryWith(guild, id);
    var i :| 0 <= i < |guild| && guild[i] == g;
  }

  // The category channels behind the entries.
  ghost function Behind(guild: seq<GuildChannel>, cats: seq<Category>): (order: seq<GuildChannel>)
    requires UniqueChannels(guild) && forall i | 0 <= i < |cats| :: cats[i].id in NamesOf(guild, |guild|)
    ensures |order| == |cats|
    ensures forall i | 0 <= i < |cats| :: order[i] == CategoryWith(guild, cats[i].id)
  {
    seq(|cats|, i requires 0 <= i < |cats| => CategoryWith(guild, cats[i].id))
  }

  lemma {:induction false} BehindArranges(guild: seq<GuildChannel>, cats: seq<Category>)
    requires UniqueChannels(guild) && UniqueCategoryIDs(cats)
    requires forall i | 0 <= i < |cats| :: cats[i].id in NamesOf(guild, |guild|)
    requires forall id | id in NamesOf(guild, |guild|) :: exists i :: 0 <= i < |cats| && cats[i].id == id
    requires AscendingBy(PositionIn(Positions(guild)), cats)
    ensures Arranges(Behind(guild, cats), Categories(guild))
  {
    var order := Behind(guild, cats);
    forall i | 0 <= i < |order|
      ensures order[i] in Categories(guild) && order[i].id == cats[i].id
      ensures ByPosition()(order[i]) == PositionIn(Positions(guild))(cats[i])
    {
      CategoryWithSpec(guild, cats[i].id);
    }
    FieldsSpec(guild, |guild|);
    forall g | g in Categories(guild) ensures g in order {
      var k :| 0 <= k < |guild| && guild[k] == g;
      var i :| 0 <= i < |cats| && cats[i].id == g.id;
      assert order[i].id == g.id;
    }
  }

  lemma {:induction false} RenumberedIsSidebar(guild: seq<GuildChannel>, unsorted: seq<Category>,
                                               sorted: seq<Category>, cats: seq<Category>)
    requires UniqueChannels(guild) && Entries(guild, NamesOf(guild, |guild|).Keys, unsorted)
    requires SortedFrom(PositionIn(Positions(guild)), unsorted, sorted)
    requires |cats| == |sorted| && forall j | 0 <= j < |cats| :: cats[j] == sorted[j].(position := j)
    ensures IsSidebarOf(guild, cats)
  {
    SortKeepsUnique(unsorted, sorted);
    assert forall i | 0 <= i < |sorted| :: sorted[i] in sorted;
    forall id | id in NamesOf(guild, |guild|) ensures exists i :: 0 <= i < |sorted| && sorted[i].id == id {
      assert id in (set c | c in unsorted :: c.id);
      var c :| c in unsorted && c.id == id;
      var i :| 0 <= i < |sorted| && sorted[i] == c;
    }
    BehindArranges(guild, sorted);
    var order := Behind(guild, sorted);
    forall i | 0 <= i < |cats| ensures Derived(guild, order[i], cats[i]) && cats[i].position == i {
      CategoryWithSpec(guild, sorted[i].id);
      SameListing(guild, sorted[i], cats[i]);
    }
    assert SidebarFrom(guild, order, cats);
  }

  lemma {:induction false} SameListing(guild: seq<GuildChannel>, a: Category, b: Category)
    requires ListsMembers(guild, a) && a.id == b.id && a.channelIDs == b.channelIDs
    ensures ListsMembers(guild, b)
  {}

  // The loop over names, in any order.
  method BuildEntries(guild: seq<GuildChannel>, names: map<Id, string>, members: map<Id, seq<GuildChannel>>)
    returns (cats: seq<Category>)
    requires UniqueChannels(guild) && names == NamesOf(guild, |guild|)
    requires forall id :: (if id in members then members[id] else []) == Members(guild, id, |guild|)
    ensures Entries(guild, names.Keys, cats)
  {
    cats := [];
    var todo := names.Keys;
    while todo != {}
      invariant todo <= names.Keys && Entries(guild, names.Keys - todo, cats)
      decreases |todo|
    {
      var id :| id in todo;
      var cat := ListMembers(guild, id, names[id], members);
      EntryAdded(guild, names.Keys - todo, cats, cat);
      cats := cats + [cat];
      todo := todo - {id};
      assert names.Keys - todo == (names.Keys - (todo + {id})) + {id};
    }
    assert names.Keys - todo == names.Keys;
  }

  method CategoriesFromState(guild: seq<GuildChannel>) returns (cats: seq<Category>)
    requires UniqueChannels(guild)
    ensures IsSidebarOf(guild, cats)
  {
    var names: map<Id, string>, positions: map<Id, int> := map[], map[];
    for i := 0 to |guild|
      invariant names == NamesOf(guild, i) && positions == PositionsOf(guild, i)
    {
      if IsCategory(guild[i]) {
        names, positions := names[guild[i].id := guild[i].name], positions[guild[i].id := guild[i].position];
      }
    }
    FieldsSpec(guild, |guild|);
    var members := CollectMembers(guild, names);
    cats := BuildEntries(guild, names, members);
    ghost var unsorted := cats;
    cats := SortFunc(PositionIn(positions), cats);
    ghost var sorted := cats;
    for i := 0 to |cats|
      invariant |cats| == |sorted|
      invariant forall j | 0 <= j < |cats| :: cats[j] == sorted[j].(position := if j < i then j else sorted[j].position)
    {
      cats := cats[i := cats[i].(position := i)];
    }
    RenumberedIsSidebar(guild, unsorted, sorted, cats);
  }

  lemma {:induction false} EntryAdded(guild: seq<GuildChannel>, ids: set<Id>, cats: seq<Category>, cat: Category)
    requires Entries(guild, ids, cats) && cat.id !in ids && ListsMembers(guild, cat)
    requires cat.id in NamesOf(guild, |guild|) && cat.name == NamesOf(guild, |guild|)[cat.id]
    ensures Entries(guild, ids + {cat.id}, cats + [cat])
  {
    var cats' := cats + [cat];
    assert forall i | 0 <= i < |cats| :: cats[i] in cats;
    assert forall c :: c in cats' <==> c in cats || c == cat;
    assert (set c | c in cats' :: c.id) == (set c | c in cats :: c.id) + {cat.id};
  }

  /* What the list is worth */

  /** Every modelled channel with a category parent is listed exactly once, under that parent; nothing
      else is listed. */
  lemma {:induction false} MembershipIsExact(guild: seq<GuildChannel>, cats: seq<Category>, i: nat)
    requires UniqueChannels(guild) && IsSidebarOf(guild, cats) && i < |cats|
    ensures forall id :: id in cats[i].channelIDs <==> exists c :: c in MembersOf(guild, cats[i].id) && c.id == id
    ensures Distinct(cats[i].channelIDs)
  {
    var order :| SidebarFrom(guild, order, cats);
    assert Derived(guild, order[i], cats[i]);
    var members :| Arranges(members, MembersOf(guild, cats[i].id)) && cats[i].channelIDs == IDs(members);
    ListedIDs(guild, members, MembersOf(guild, cats[i].id));
  }

  lemma {:induction false} ListedIDs(guild: seq<GuildChannel>, members: seq<GuildChannel>, s: set<GuildChannel>)
    requires UniqueChannels(guild) && Arranges(members, s) && forall c | c in s :: c in guild
    ensures forall id :: id in IDs(members) <==> exists c :: c in s && c.id == id
    ensures Distinct(IDs(members))
  {
    forall id | id in IDs(members) ensures exists c :: c in s && c.id == id {
      var j :| 0 <= j < |members| && IDs(members)[j] == id;
      assert members[j] in s;
    }
    forall c | c in s ensures c.id in IDs(members) {
      var j :| 0 <= j < |members| && members[j] == c;
      assert IDs(members)[j] == c.id;
    }
    forall i, j | 0 <= i < j < |members| ensures IDs(members)[i] != IDs(members)[j] {
      assert members[i] in guild && members[j] in guild;
    }
  }

  // What may be listed under a category: text, news, forum, voice and stage channels that name it as parent.
  ghost predicate Listable(c: GuildChannel, cat: Id) {
    c.parentID == cat && c.dtype in {GuildText, GuildNews, GuildForum, GuildVoice, GuildStageVoice}
  }

  /** The list in the guild's own fields: entry i is a category channel with its id and name, numbered i, in
      ascending position; every category channel is there; its members are the channels listable under it, in
      ascending position. */
  lemma {:induction false} SidebarByFields(guild: seq<GuildChannel>, cats: seq<Category>)
    returns (order: seq<GuildChannel>)
    requires UniqueChannels(guild) && IsSidebarOf(guild, cats)
    ensures |order| == |cats| && forall g :: g in order <==> g in guild && g.dtype == GuildCategory
    ensures forall i | 0 <= i < |cats| ::
      cats[i].id == order[i].id && cats[i].name == order[i].name && cats[i].position == i
    ensures forall i, j | 0 <= i < j < |order| :: order[i].position <= order[j].position
  {
    order :| SidebarFrom(guild, order, cats);
    forall i, j | 0 <= i < j < |order| ensures order[i].position <= order[j].position {
      assert ByPosition()(order[i]) <= ByPosition()(order[j]);
    }
    forall i | 0 <= i < |cats|
      ensures cats[i].id == order[i].id && cats[i].name == order[i].name && cats[i].position == i
    {
      assert Derived(guild, order[i], cats[i]);
    }
  }

  /** The members of one entry. */
  lemma {:induction false} MembersByFields(guild: seq<GuildChannel>, cats: seq<Category>, i: nat)
    returns (members: seq<GuildChannel>)
    requires UniqueChannels(guild) && IsSidebarOf(guild, cats) && i < |cats| && cats[i].id != NO_ID
    ensures |members| == |cats[i].channelIDs| && forall c :: c in members <==> c in guild && Listable(c, cats[i].id)
    ensures forall j | 0 <= j < |members| :: cats[i].channelIDs[j] == members[j].id
    ensures forall j, k | 0 <= j < k < |members| :: members[j].position <= members[k].position
  {
    var order: seq<GuildChannel> :| SidebarFrom(guild, order, cats);
    assert Derived(guild, order[i], cats[i]) && order[i] in order;
    members :| Arranges(members, MembersOf(guild, cats[i].id)) && cats[i].channelIDs == IDs(members);
    assert order[i] in guild && IsCategory(order[i]) && order[i].id == cats[i].id;
    forall j, k | 0 <= j < k < |members| ensures members[j].position <= members[k].position {
      assert ByPosition()(members[j]) <= ByPosition()(members[k]);
    }
    forall c ensures c in members <==> c in guild && Listable(c, cats[i].id) {}
  }

  // Positions tell categories, and channels of one parent, apart.
  ghost predicate DistinctPositions(guild: seq<GuildChannel>) {
    forall g, h | g in guild && h in guild && (g.parentID == h.parentID || (IsCategory(g) && IsCategory(h))) ::
      g.position == h.position ==> g == h
  }

  lemma {:induction false} SameMembers(guild: seq<GuildChannel>, c: Category, d: Category)
    requires DistinctPositions(guild) && ListsMembers(guild, c) && ListsMembers(guild, d) && c.id == d.id
    ensures c.channelIDs == d.channelIDs
  {
    var a :| Arranges(a, MembersOf(guild, c.id)) && c.channelIDs == IDs(a);
    var b :| Arranges(b, MembersOf(guild, c.id)) && d.channelIDs == IDs(b);
    ArrangementUnique(a, b, MembersOf(guild, c.id));
  }

  /** Where positions tell categories, and siblings, apart, the list does not depend on any map order or
      sorting choice. */
  lemma {:induction false} SidebarIsUnique(guild: seq<GuildChannel>, a: seq<Category>, b: seq<Category>)
    requires DistinctPositions(guild) && IsSidebarOf(guild, a) && IsSidebarOf(guild, b)
    ensures a == b
  {
    var order :| SidebarFrom(guild, order, a);
    var order' :| SidebarFrom(guild, order', b);
    ArrangementUnique(order, order', Categories(guild));
    forall i | 0 <= i < |a| ensures a[i] == b[i] {
      assert Derived(guild, order[i], a[i]) && Derived(guild, order[i], b[i]);
      SameMembers(guild, a[i], b[i]);
    }
  }

  /* Discord to Stoat and back */

  // The channels StructureFromState hands to the start-up passes.
  function ModelledIDs(guild: seq<GuildChannel>): seq<Id> {
    if guild == [] then []
    else
      var last, rest := guild[|guild| - 1], ModelledIDs(guild[..|guild| - 1]);
      if ChannelTypeFromDiscord(last.dtype).Some? then rest + [last.id] else rest
  }

  lemma {:induction false} ModelledSpec(guild: seq<GuildChannel>, c: GuildChannel)
    requires c in guild && ChannelTypeFromDiscord(c.dtype).Some?
    ensures c.id in ModelledIDs(guild)
  {
    var n := |guild| - 1;
    if c != guild[n] {
      assert guild == guild[..n] + [guild[n]];
      ModelledSpec(guild[..n], c);
    }
  }

  lemma {:induction false} SidebarIsNumbered(guild: seq<GuildChannel>, cats: seq<Category>)
    requires UniqueChannels(guild) && IsSidebarOf(guild, cats)
    ensures Numbered(cats)
  {
    var order :| SidebarFrom(guild, order, cats);
    forall i, j | 0 <= i < |cats| && 0 <= j < |cats| && cats[i].id == cats[j].id ensures i == j {
      assert Derived(guild, order[i], cats[i]) && Derived(guild, order[j], cats[j]);
      assert order[i] in order && order[j] in order;
      assert order[i] in Categories(guild) && order[j] in Categories(guild);
    }
  }

  /** The sidebar survives the trip: derive the list from the guild, push it once, read it back. A category
      whose row carries its own id matches, in name, channel order and position, exactly if every channel
      in it is bound to its own Stoat channel. */
  lemma {:induction false} SidebarRoundTrip(guild: seq<GuildChannel>, t: Tables, cats: seq<Category>, i: nat)
    requires UniqueChannels(guild) && IsSidebarOf(guild, cats) && i < |cats|
    requires UniqueTargets(t, ChannelEntity, ModelledIDs(guild))
    requires var m := Lookup(t, Key(CategoryEntity, cats[i].id)); IsActive(m) && m.stoatID == cats[i].id
    ensures CategoryVerdict(t, cats[i], Sidebar(t, cats), Reverse(t, ChannelEntity, ModelledIDs(guild))) ==
            Some(forall c | c in cats[i].channelIDs :: IsActive(Lookup(t, Key(ChannelEntity, c))))
  {
    MembershipIsExact(guild, cats, i);
    SidebarIsNumbered(guild, cats);
    forall id | id in cats[i].channelIDs ensures id in ModelledIDs(guild) {
      var c :| c in MembersOf(guild, cats[i].id) && c.id == id;
      ModelledSpec(guild, c);
    }
    CategoryReadsBackIff(t, cats, ModelledIDs(guild), i);
  }
}
