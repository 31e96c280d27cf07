/** What a bind pass guarantees, and exactly when two of its promises fail. */
module BindTheorems {
  import opened Types
  import opened Canonical
  import opened Store
  import opened Bind

  // The setting of one pass: ids are unique, and what Stoat lists exists.
  ghost predicate Listing(items: seq<Identity>, exist: set<Id>, listed: set<Identity>) {
    && UniqueIDs(items) && IDsOf(listed) <= exist
    && forall a, b | a in listed && b in listed :: a.id == b.id ==> a == b
  }

  ghost predicate ActiveInjective(t: Tables, kind: EntityType, items: seq<Identity>) {
    forall d, e | d in items && e in items && ActiveID(t, kind, d) == ActiveID(t, kind, e) ::
      ActiveID(t, kind, d).Some? ==> d == e
  }

  function ActiveID(t: Tables, kind: EntityType, d: Identity): Option<Id> {
    var m := Lookup(t, Key(kind, d.id));
    if IsActive(m) then Some(m.stoatID) else None
  }

  /** The row of every Discord entity after the pass: kept if alive, the partner's id if it has one,
      otherwise nothing of a dead row and everything of a pending one. */
  lemma {:induction false} RowAfter(t: Tables, kind: EntityType, exist: set<Id>, items: seq<Identity>,
                                    listed: set<Identity>, d: Identity)
    requires Bindable(kind) && UniqueIDs(items) && d in items
    ensures var t', pairs := Bound(t, kind, exist, items, listed), Pairs(t, kind, exist, items, listed);
      Lookup(t', Key(kind, d.id)) ==
        if Mapped(t, kind, exist, d) then Lookup(t, Key(kind, d.id))
        else if d.id in pairs then Found(pairs[d.id].id, Active, EmptyObject)
        else if IsActive(Lookup(t, Key(kind, d.id))) then Absent
        else Lookup(t, Key(kind, d.id))
    ensures Alive(t, kind, exist, d) ==> d.id !in Pairs(t, kind, exist, items, listed)
  {
    var open := Unmapped(t, kind, exist, items);
    UnmappedAre(t, kind, exist, items);
    BindingsAreThePartners(open, Unclaimed(t, kind, exist, items, listed));
    assert Alive(t, kind, exist, d) ==> forall e | e in open :: e.id != d.id;
    assert Key(kind, d.id) in DeadKeys(t, kind, exist, items) <==> Dead(t, kind, exist, d);
  }

  // d's row is active and names an entity that exists.
  ghost predicate Mapped(t: Tables, kind: EntityType, exist: set<Id>, d: Identity) {
    var m := Lookup(t, Key(kind, d.id));
    m.Found? && m.status == Active && m.stoatID in exist
  }

  // No row of the pass's entities claims s.
  ghost predicate Free(t: Tables, kind: EntityType, exist: set<Id>, items: seq<Identity>, listed: set<Identity>,
                       s: Identity) {
    s in listed && forall d | d in items && Mapped(t, kind, exist, d) :: Lookup(t, Key(kind, d.id)).stoatID != s.id
  }

  lemma {:induction false} LeaderByIndex(t: Tables, kind: EntityType, exist: set<Id>, items: seq<Identity>, n: nat,
                                         d: Identity)
    requires n <= |items|
    ensures Leader(Unmapped(t, kind, exist, items[..n]), d).None? <==>
      forall j | 0 <= j < n && !Mapped(t, kind, exist, items[j]) ::
        !(items[j].name == d.name && items[j].kind == d.kind)
  {
    if n > 0 {
      LeaderByIndex(t, kind, exist, items, n - 1, d);
      assert items[..n][..n - 1] == items[..n - 1];
      OneMoreOpen(Unmapped(t, kind, exist, items[..n - 1]), items[n - 1], d);
    }
  }

  lemma {:induction false} OneMoreOpen(open: seq<Identity>, last: Identity, d: Identity)
    ensures Leader(open + [last], d).None? <==> Leader(open, d).None? && !(last.name == d.name && last.kind == d.kind)
  {
    assert (open + [last])[..|open|] == open;
  }

  lemma {:induction false} LeaderOfConcat(a: seq<Identity>, b: seq<Identity>, d: Identity)
    ensures Leader(a + b, d) == if Leader(a, d).Some? then Leader(a, d) else Leader(b, d)
  {
    if b == [] {
      assert a + b == a;
    } else {
      var n := |b| - 1;
      LeaderOfConcat(a, b[..n], d);
      assert (a + b)[..|a + b| - 1] == a + b[..n];
    }
  }

  lemma {:induction false} UnmappedOfConcat(t: Tables, kind: EntityType, exist: set<Id>, a: seq<Identity>,
                                            b: seq<Identity>)
    ensures Unmapped(t, kind, exist, a + b) == Unmapped(t, kind, exist, a) + Unmapped(t, kind, exist, b)
  {
    if b == [] {
      assert a + b == a;
    } else {
      var n := |b| - 1;
      UnmappedOfConcat(t, kind, exist, a, b[..n]);
      assert (a + b)[..|a + b| - 1] == a + b[..n];
    }
  }

  lemma {:induction false} FirstAfter(pre: seq<Identity>, d: Identity, post: seq<Identity>)
    requires d !in pre
    ensures FirstOf(pre + ([d] + post), d) <==> Leader(pre, d).None?
  {
    LeaderSpec(pre, d);
    LeaderOfConcat(pre, [d] + post, d);
    LeaderOfConcat([d], post, d);
    assert [d][..0] == [];
  }

  lemma {:induction false} FirstByIndex(t: Tables, kind: EntityType, exist: set<Id>, items: seq<Identity>, i: nat)
    requires UniqueIDs(items) && i < |items| && !Mapped(t, kind, exist, items[i])
    ensures FirstOf(Unmapped(t, kind, exist, items), items[i]) <==>
      Leader(Unmapped(t, kind, exist, items[..i]), items[i]).None?
  {
    var d, pre, post := items[i], items[..i], items[i + 1..];
    UnmappedAround(t, kind, exist, pre, d, post);
    assert items == pre + ([d] + post);
    UnmappedAre(t, kind, exist, pre);
    assert d !in pre;
    FirstAfter(Unmapped(t, kind, exist, pre), d, Unmapped(t, kind, exist, post));
  }

  lemma {:induction false} UnmappedAround(t: Tables, kind: EntityType, exist: set<Id>, pre: seq<Identity>, d: Identity,
                                          post: seq<Identity>)
    requires !Mapped(t, kind, exist, d)
    ensures Unmapped(t, kind, exist, pre + ([d] + post)) ==
            Unmapped(t, kind, exist, pre) + ([d] + Unmapped(t, kind, exist, post))
  {
    UnmappedOfConcat(t, kind, exist, pre, [d] + post);
    UnmappedOfConcat(t, kind, exist, [d], post);
    assert [d][..0] == [] && Unmapped(t, kind, exist, [d]) == [] + [d] == [d];
  }

  /** Who adopts whom, in the entities' own fields: a Discord entity without a living row adopts s exactly
      if s is free, has its name and its kind, is the only free one that has both, and no earlier open
      Discord entity has both. */
  lemma {:induction false} AdoptsIff(t: Tables, kind: EntityType, exist: set<Id>, items: seq<Identity>,
                                     listed: set<Identity>, i: nat, s: Identity)
    requires UniqueIDs(items) && i < |items| && !Mapped(t, kind, exist, items[i])
    ensures var d, pairs := items[i], Pairs(t, kind, exist, items, listed);
      d.id in pairs && pairs[d.id] == s <==>
      && Free(t, kind, exist, items, listed, s) && d.name == s.name && d.kind == s.kind
      && (forall r | Free(t, kind, exist, items, listed, r) && d.name == r.name && d.kind == r.kind :: r == s)
      && (forall j | 0 <= j < i && !Mapped(t, kind, exist, items[j]) ::
            !(items[j].name == d.name && items[j].kind == d.kind))
  {
    var d, open, free := items[i], Unmapped(t, kind, exist, items), Unclaimed(t, kind, exist, items, listed);
    UnmappedAre(t, kind, exist, items);
    BindingsAreThePartners(open, free);
    forall r ensures r in free <==> Free(t, kind, exist, items, listed, r) {}
    FirstByIndex(t, kind, exist, items, i);
    LeaderByIndex(t, kind, exist, items, i, d);
    assert Partner(open, free, d, s) <==> FirstOf(open, d) && Lone(free, d, s);
  }

  /** Every pair agrees in name and kind, and belongs to an entity without a living row. */
  lemma {:induction false} PairsAgree(t: Tables, kind: EntityType, exist: set<Id>, items: seq<Identity>,
                                      listed: set<Identity>, id: Id)
    returns (d: Identity)
    requires UniqueIDs(items) && id in Pairs(t, kind, exist, items, listed)
    ensures d in items && d.id == id && !Mapped(t, kind, exist, d)
    ensures var s := Pairs(t, kind, exist, items, listed)[id];
      s in listed && d.name == s.name && d.kind == s.kind
  {
    var open, free := Unmapped(t, kind, exist, items), Unclaimed(t, kind, exist, items, listed);
    UnmappedAre(t, kind, exist, items);
    BindingsAreThePartners(open, free);
    d :| d in open && d.id == id && Partner(open, free, d, Bindings(open, free)[id]);
  }

  lemma {:induction false} PairsAreUnclaimed(t: Tables, kind: EntityType, exist: set<Id>, items: seq<Identity>,
                                             listed: set<Identity>)
    requires UniqueIDs(items)
    ensures Pairs(t, kind, exist, items, listed).Values <= Unclaimed(t, kind, exist, items, listed)
  {
    UnmappedAre(t, kind, exist, items);
    BindingsAreThePartners(Unmapped(t, kind, exist, items), Unclaimed(t, kind, exist, items, listed));
  }

  /** Every listed Stoat entity ends as exactly one of claimed, newly matched, protected or foreign. */
  lemma {:induction false} Partition(t: Tables, kind: EntityType, exist: set<Id>, items: seq<Identity>,
                                     listed: set<Identity>, protected: Id, s: Identity)
    requires Listing(items, exist, listed) && s in listed
    ensures var claimed := s.id in ClaimedIDs(t, kind, exist, items);
      var matched := s in Pairs(t, kind, exist, items, listed).Values;
      var foreign := s in Foreign(t, kind, exist, items, listed, protected);
      var spared := !claimed && !matched && s.id == protected;
      && (claimed || matched || foreign || spared)
      && !(claimed && matched) && !(claimed && foreign) && !(matched && foreign) && !(spared && foreign)
  {
    PairsAreUnclaimed(t, kind, exist, items, listed);
  }

  lemma {:induction false} BindingsInjective(open: seq<Identity>, available: set<Identity>, x: Id, y: Id)
    requires UniqueIDs(open) && x in Bindings(open, available) && y in Bindings(open, available)
    requires Bindings(open, available)[x] == Bindings(open, available)[y]
    ensures x == y
  {
    BindingsAreThePartners(open, available);
    var s := Bindings(open, available)[x];
    var d :| d in open && d.id == x && Partner(open, available, d, s);
    var e :| e in open && e.id == y && Partner(open, available, e, s);
    LeaderSpec(open, d);
    assert SameName(e, d);
  }

  /** Active ids stay injective, all exist, and neither they nor the protected id are ever deleted; a
      live channel that could not be fetched is in exist without being listed, so it is covered. */
  lemma {:induction false} BindIsSafe(t: Tables, kind: EntityType, exist: set<Id>, items: seq<Identity>,
                                      listed: set<Identity>, protected: Id)
    requires Bindable(kind) && Listing(items, exist, listed) && ActiveInjective(t, kind, items)
    ensures var t', doomed := Bound(t, kind, exist, items, listed),
      IDsOf(Foreign(t, kind, exist, items, listed, protected));
      && ActiveInjective(t', kind, items)
      && (forall d | d in items && ActiveID(t', kind, d).Some? ::
            ActiveID(t', kind, d).value in exist && ActiveID(t', kind, d).value !in doomed)
      && protected !in doomed
  {
    var t', open, free := Bound(t, kind, exist, items, listed), Unmapped(t, kind, exist, items),
      Unclaimed(t, kind, exist, items, listed);
    var pairs := Pairs(t, kind, exist, items, listed);
    UnmappedAre(t, kind, exist, items);
    PairsAreUnclaimed(t, kind, exist, items, listed);
    forall d | d in items
      ensures ActiveID(t', kind, d) ==
        if Alive(t, kind, exist, d) then ActiveID(t, kind, d) else if d.id in pairs then Some(pairs[d.id].id) else None
      ensures d.id in pairs ==> pairs[d.id] in free
      ensures Alive(t, kind, exist, d) ==>
        d.id !in pairs && ActiveID(t, kind, d).value in ClaimedIDs(t, kind, exist, items)
    {
      RowAfter(t, kind, exist, items, listed, d);
      assert d.id in pairs ==> pairs[d.id] in pairs.Values;
    }
    forall d, e | d in items && e in items && ActiveID(t', kind, d) == ActiveID(t', kind, e)
      && ActiveID(t', kind, d).Some?
      ensures d == e
    {
      if d.id in pairs && e.id in pairs {
        BindingsInjective(open, free, d.id, e.id);
      }
    }
  }

  // What the first pass leaves free, protected entity included.
  ghost function LeftOver(t: Tables, kind: EntityType, exist: set<Id>, items: seq<Identity>,
                          listed: set<Identity>): set<Identity> {
    Unclaimed(t, kind, exist, items, listed) - Pairs(t, kind, exist, items, listed).Values
  }

  // The deletes that arrived make no bound entity disappear.
  ghost predicate StillThere(t: Tables, kind: EntityType, exist: set<Id>, items: seq<Identity>, listed: set<Identity>,
                             protected: Id, exist': set<Id>) {
    exist - IDsOf(Foreign(t, kind, exist, items, listed, protected)) <= exist'
  }

  // A Discord entity without a partner, and the protected entity left over under its name.
  ghost predicate Tempting(t: Tables, kind: EntityType, exist: set<Id>, items: seq<Identity>, listed: set<Identity>,
                           protected: Id) {
    exists d, s :: d in Unmapped(t, kind, exist, items) && s in LeftOver(t, kind, exist, items, listed)
                && s.id == protected && SameName(d, s)
  }

  /** A second pass that sees the same list (a dry run) writes no row and finds the same entities
      foreign; one that sees the list without them (every delete arrived) writes no row and finds none,
      except exactly when the protected entity is left over under the name of an open Discord entity:
      its rivals gone, it is adopted now. */
  lemma {:induction false} SecondPass(t: Tables, kind: EntityType, exist: set<Id>, items: seq<Identity>,
                                      listed: set<Identity>, protected: Id, exist': set<Id>)
    requires Bindable(kind) && Listing(items, exist, listed) && ActiveInjective(t, kind, items)
    requires StillThere(t, kind, exist, items, listed, protected, exist')
    ensures var t', foreign := Bound(t, kind, exist, items, listed), Foreign(t, kind, exist, items, listed, protected);
      && Bound(t', kind, exist', items, listed) == t'
      && Foreign(t', kind, exist', items, listed, protected) == foreign
      && (Bound(t', kind, exist', items, listed - foreign) == t' <==>
          !Tempting(t, kind, exist, items, listed, protected))
      && Foreign(t', kind, exist', items, listed - foreign, protected) == {}
      && forall d | d in items :: !Blocked(t', kind, exist', d)
  {
    var t', foreign := Bound(t, kind, exist, items, listed), Foreign(t, kind, exist, items, listed, protected);
    BindIsSafe(t, kind, exist, items, listed, protected);
    forall d | d in items ensures !Dead(t', kind, exist', d) {
      assert ActiveID(t', kind, d).Some? ==> ActiveID(t', kind, d).value in exist - IDsOf(foreign);
    }
    FreeAfter(t, kind, exist, items, listed, protected, exist', listed);
    FreeAfter(t, kind, exist, items, listed, protected, exist', listed - foreign);
    SecondMatch(t, kind, exist, items, listed, protected, exist');
    PairsChange(t', kind, exist', items, listed);
    PairsChange(t', kind, exist', items, listed - foreign);
  }

  // Without dead rows a pass changes the tables exactly when it finds a pair.
  lemma {:induction false} PairsChange(t: Tables, kind: EntityType, exist: set<Id>, items: seq<Identity>,
                                       listed: set<Identity>)
    requires Bindable(kind) && UniqueIDs(items) && forall d | d in items :: !Dead(t, kind, exist, d)
    ensures Bound(t, kind, exist, items, listed) == t <==> Pairs(t, kind, exist, items, listed) == map[]
  {
    var pairs := Pairs(t, kind, exist, items, listed);
    if pairs == map[] {
      assert DeadKeys(t, kind, exist, items) == {} && AdoptedKeys(kind, map[]) == {};
      assert Bound(t, kind, exist, items, listed).rows == t.rows;
    } else {
      var id :| id in pairs;
      UnmappedAre(t, kind, exist, items);
      BindingsAreThePartners(Unmapped(t, kind, exist, items), Unclaimed(t, kind, exist, items, listed));
      var d :| d in items && d.id == id && !Alive(t, kind, exist, d);
      RowAfter(t, kind, exist, items, listed, d);
      assert !IsActive(Lookup(t, Key(kind, d.id)));
    }
  }

  // After the pass alive means alive before or newly bound.
  lemma {:induction false} AliveAfter(t: Tables, kind: EntityType, exist: set<Id>, items: seq<Identity>,
                                      listed: set<Identity>, protected: Id, exist': set<Id>, d: Identity)
    requires Bindable(kind) && Listing(items, exist, listed) && ActiveInjective(t, kind, items) && d in items
    requires StillThere(t, kind, exist, items, listed, protected, exist')
    ensures var t', pairs := Bound(t, kind, exist, items, listed), Pairs(t, kind, exist, items, listed);
      && (Alive(t', kind, exist', d) <==> Alive(t, kind, exist, d) || d.id in pairs)
      && (Alive(t', kind, exist', d) ==>
            Lookup(t', Key(kind, d.id)).stoatID == if d.id in pairs then pairs[d.id].id
              else Lookup(t, Key(kind, d.id)).stoatID)
      && (Alive(t, kind, exist, d) ==> d.id !in pairs)
  {
    var t' := Bound(t, kind, exist, items, listed);
    BindIsSafe(t, kind, exist, items, listed, protected);
    RowAfter(t, kind, exist, items, listed, d);
    assert ActiveID(t', kind, d).Some? ==>
      ActiveID(t', kind, d).value in exist - IDsOf(Foreign(t, kind, exist, items, listed, protected));
  }

  // An id is claimed after the pass iff it was before or is a new partner's.
  lemma {:induction false} ClaimedAfter(t: Tables, kind: EntityType, exist: set<Id>, items: seq<Identity>,
                                        listed: set<Identity>, protected: Id, exist': set<Id>, x: Id)
    requires Bindable(kind) && Listing(items, exist, listed) && ActiveInjective(t, kind, items)
    requires StillThere(t, kind, exist, items, listed, protected, exist')
    ensures x in ClaimedIDs(Bound(t, kind, exist, items, listed), kind, exist', items) <==>
      x in ClaimedIDs(t, kind, exist, items) || x in IDsOf(Pairs(t, kind, exist, items, listed).Values)
  {
    var t', pairs := Bound(t, kind, exist, items, listed), Pairs(t, kind, exist, items, listed);
    forall d | d in items
      ensures (Alive(t', kind, exist', d) <==> Alive(t, kind, exist, d) || d.id in pairs)
      ensures Alive(t, kind, exist, d) ==>
        d.id !in pairs && Lookup(t', Key(kind, d.id)).stoatID == Lookup(t, Key(kind, d.id)).stoatID
      ensures d.id in pairs ==> Lookup(t', Key(kind, d.id)).stoatID == pairs[d.id].id && pairs[d.id] in pairs.Values
    {
      AliveAfter(t, kind, exist, items, listed, protected, exist', d);
    }
    if x in IDsOf(pairs.Values) {
      var id :| id in pairs && pairs[id].id == x;
      UnmappedAre(t, kind, exist, items);
      BindingsAreThePartners(Unmapped(t, kind, exist, items), Unclaimed(t, kind, exist, items, listed));
      var d :| d in items && d.id == id;
    }
  }

  lemma {:induction false} FreeAfter(t: Tables, kind: EntityType, exist: set<Id>, items: seq<Identity>,
                                     listed: set<Identity>, protected: Id, exist': set<Id>, listed': set<Identity>)
    requires Bindable(kind) && Listing(items, exist, listed) && ActiveInjective(t, kind, items) && listed' <= listed
    requires StillThere(t, kind, exist, items, listed, protected, exist')
    ensures Unclaimed(Bound(t, kind, exist, items, listed), kind, exist', items, listed') ==
            LeftOver(t, kind, exist, items, listed) * listed'
  {
    var pairs := Pairs(t, kind, exist, items, listed);
    PairsAreUnclaimed(t, kind, exist, items, listed);
    forall s | s in listed'
      ensures s.id in ClaimedIDs(Bound(t, kind, exist, items, listed), kind, exist', items) <==>
              s.id in ClaimedIDs(t, kind, exist, items) || s in pairs.Values
    {
      ClaimedAfter(t, kind, exist, items, listed, protected, exist', s.id);
      assert s.id in IDsOf(pairs.Values) <==> s in pairs.Values;
    }
  }

  // Whoever matches alone among all the leftovers would have matched in the first pass.
  lemma {:induction false} StillUnmatched(open: seq<Identity>, free: set<Identity>, d: Identity, s: Identity)
    requires UniqueIDs(open) && d in open
    ensures !Lone(free - Bindings(open, free).Values, d, s)
  {
    if !Lone(free - Bindings(open, free).Values, d, s) {
      return;
    }
    BindingsAreThePartners(open, free);
    LeaderSpec(open, d);
    forall r | r in free && SameName(d, r) ensures r == s {
      if r in Bindings(open, free).Values {
        var id :| id in Bindings(open, free) && Bindings(open, free)[id] == r;
        var e :| e in open && e.id == id && Partner(open, free, e, r);
        assert SameName(e, s);
      }
    }
    assert Partner(open, free, Leader(open, d).value, s);
  }

  lemma {:induction false} OpenAfter(t: Tables, kind: EntityType, exist: set<Id>, items: seq<Identity>,
                                     listed: set<Identity>, protected: Id, exist': set<Id>, d: Identity)
    requires Bindable(kind) && Listing(items, exist, listed) && ActiveInjective(t, kind, items)
    requires StillThere(t, kind, exist, items, listed, protected, exist')
    ensures d in Unmapped(Bound(t, kind, exist, items, listed), kind, exist', items) <==>
      d in Unmapped(t, kind, exist, items) && d.id !in Pairs(t, kind, exist, items, listed)
  {
    UnmappedAre(t, kind, exist, items);
    UnmappedAre(Bound(t, kind, exist, items, listed), kind, exist', items);
    if d in items {
      AliveAfter(t, kind, exist, items, listed, protected, exist', d);
    }
  }

  lemma {:induction false} SecondMatch(t: Tables, kind: EntityType, exist: set<Id>, items: seq<Identity>,
                                       listed: set<Identity>, protected: Id, exist': set<Id>)
    requires Bindable(kind) && Listing(items, exist, listed) && ActiveInjective(t, kind, items)
    requires StillThere(t, kind, exist, items, listed, protected, exist')
    ensures var t', foreign := Bound(t, kind, exist, items, listed), Foreign(t, kind, exist, items, listed, protected);
      && Pairs(t', kind, exist', items, listed) == map[]
      && (Pairs(t', kind, exist', items, listed - foreign) == map[] <==>
          !Tempting(t, kind, exist, items, listed, protected))
  {
    var t', foreign := Bound(t, kind, exist, items, listed), Foreign(t, kind, exist, items, listed, protected);
    var open, open' := Unmapped(t, kind, exist, items), Unmapped(t', kind, exist', items);
    FreeTwice(t, kind, exist, items, listed, protected, exist');
    UnmappedAre(t, kind, exist, items);
    UnmappedAre(t', kind, exist', items);
    forall d ensures d in open' <==> d in open && d.id !in Pairs(t, kind, exist, items, listed) {
      OpenAfter(t, kind, exist, items, listed, protected, exist', d);
    }
    MatchAmong(open, Unclaimed(t, kind, exist, items, listed), open');
    MatchProtected(open, Unclaimed(t, kind, exist, items, listed), open', protected);
  }

  // What the second pass finds free, with and without the foreign entities in its list.
  lemma {:induction false} FreeTwice(t: Tables, kind: EntityType, exist: set<Id>, items: seq<Identity>,
                                     listed: set<Identity>, protected: Id, exist': set<Id>)
    requires Bindable(kind) && Listing(items, exist, listed) && ActiveInjective(t, kind, items)
    requires StillThere(t, kind, exist, items, listed, protected, exist')
    ensures var t', left := Bound(t, kind, exist, items, listed), LeftOver(t, kind, exist, items, listed);
      && Unclaimed(t', kind, exist', items, listed) == left
      && Unclaimed(t', kind, exist', items, listed - Foreign(t, kind, exist, items, listed, protected)) ==
           set s | s in left && s.id == protected
  {
    var left, foreign := LeftOver(t, kind, exist, items, listed), Foreign(t, kind, exist, items, listed, protected);
    FreeAfter(t, kind, exist, items, listed, protected, exist', listed);
    FreeAfter(t, kind, exist, items, listed, protected, exist', listed - foreign);
    assert left * listed == left;
    assert left * (listed - foreign) == set s | s in left && s.id == protected;
  }

  lemma {:induction false} MatchAmong(open: seq<Identity>, free: set<Identity>, open': seq<Identity>)
    requires UniqueIDs(open) && UniqueIDs(open')
    requires forall d :: d in open' <==> d in open && d.id !in Bindings(open, free)
    ensures Bindings(open', free - Bindings(open, free).Values) == map[]
  {
    var left := free - Bindings(open, free).Values;
    BindingsAreThePartners(open', left);
    if id :| id in Bindings(open', left) {
      var s := Bindings(open', left)[id];
      var d :| d in open' && d.id == id && Partner(open', left, d, s);
      StillUnmatched(open, free, d, s);
    }
  }

  lemma {:induction false} MatchProtected(open: seq<Identity>, free: set<Identity>, open': seq<Identity>, protected: Id)
    requires UniqueIDs(open) && UniqueIDs(open')
    requires forall a, b | a in free && b in free :: a.id == b.id ==> a == b
    requires forall d :: d in open' <==> d in open && d.id !in Bindings(open, free)
    ensures var left := free - Bindings(open, free).Values;
      Bindings(open', set s | s in left && s.id == protected) != map[] <==>
      exists d, s :: d in open && s in left && s.id == protected && SameName(d, s)
  {
    var left := free - Bindings(open, free).Values;
    var only := set s | s in left && s.id == protected;
    BindingsAreThePartners(open, free);
    BindingsAreThePartners(open', only);
    if d, s :| d in open && s in left && s.id == protected && SameName(d, s) {
      LeaderSpec(open', d);
      assert Partner(open', only, Leader(open', d).value, s);
    }
    if Bindings(open', only) != map[] {
      var id :| id in Bindings(open', only);
      var d :| d in open' && d.id == id && Partner(open', only, d, Bindings(open', only)[id]);
    }
  }

  /* Where the promises end */

  /** "Never guess" does not mean "leave alone": two free Stoat entities under the name of an open
      Discord entity are matched by nobody, and both are foreign. */
  lemma {:induction false} AmbiguousIsForeign(t: Tables, kind: EntityType, exist: set<Id>, items: seq<Identity>,
                                              listed: set<Identity>, protected: Id, d: Identity, r: Identity,
                                              s: Identity)
    requires Listing(items, exist, listed) && d in Unmapped(t, kind, exist, items)
    requires {r, s} <= Unclaimed(t, kind, exist, items, listed) && r != s && SameName(d, r) && SameName(d, s)
    ensures d.id !in Pairs(t, kind, exist, items, listed)
    ensures s.id != protected ==> s in Foreign(t, kind, exist, items, listed, protected)
  {
    var open, free := Unmapped(t, kind, exist, items), Unclaimed(t, kind, exist, items, listed);
    UnmappedAre(t, kind, exist, items);
    BindingsAreThePartners(open, free);
    forall e, q | Partner(open, free, e, q) ensures !SameName(e, d) {}
  }

  /** After a pass a row points to a deleted entity exactly when it was pending with that id, found no
      partner, and its entity was matched by nobody: only an active row protects its entity. */
  lemma {:induction false} DanglingIff(t: Tables, kind: EntityType, exist: set<Id>, items: seq<Identity>,
                                       listed: set<Identity>, protected: Id, d: Identity)
    requires Bindable(kind) && Listing(items, exist, listed) && ActiveInjective(t, kind, items) && d in items
    ensures var after, row := Lookup(Bound(t, kind, exist, items, listed), Key(kind, d.id)), Lookup(t, Key(kind, d.id));
      var doomed := IDsOf(Foreign(t, kind, exist, items, listed, protected));
      after.Found? && after.stoatID in doomed <==>
      row.Found? && row.status.Pending? && d.id !in Pairs(t, kind, exist, items, listed) && row.stoatID in doomed
  {
    BindIsSafe(t, kind, exist, items, listed, protected);
    RowAfter(t, kind, exist, items, listed, d);
    assert ActiveID(Bound(t, kind, exist, items, listed), kind, d).Some? ==>
      ActiveID(Bound(t, kind, exist, items, listed), kind, d).value !in
        IDsOf(Foreign(t, kind, exist, items, listed, protected));
  }

  /** The elevation role is exempt from reaping but not from matching: it is adopted exactly when it is
      free and alone among the free roles with the name of some open Discord role. Every later start
      then refuses to run. */
  lemma {:induction false} ElevationAdoptedIff(t: Tables, exist: set<Id>, roles: seq<Identity>,
                                               listed: set<Identity>, elevation: Identity)
    requires Listing(roles, exist, listed) && ElevationUnmapped(t, roles, elevation.id) && elevation in listed
    ensures !ElevationUnmapped(Bound(t, RoleEntity, exist, roles, listed), roles, elevation.id) <==>
      exists d :: d in Unmapped(t, RoleEntity, exist, roles)
        && Lone(Unclaimed(t, RoleEntity, exist, roles, listed), d, elevation)
  {
    var open, free := Unmapped(t, RoleEntity, exist, roles), Unclaimed(t, RoleEntity, exist, roles, listed);
    var t', pairs := Bound(t, RoleEntity, exist, roles, listed), Pairs(t, RoleEntity, exist, roles, listed);
    UnmappedAre(t, RoleEntity, exist, roles);
    PairsAreUnclaimed(t, RoleEntity, exist, roles, listed);
    BindingsAreThePartners(open, free);
    forall d | d in roles
      ensures ActiveID(t', RoleEntity, d) == Some(elevation.id) <==> d.id in pairs && pairs[d.id] == elevation
    {
      RowAfter(t, RoleEntity, exist, roles, listed, d);
      assert d.id in pairs ==> pairs[d.id] in pairs.Values;
      assert !(IsActive(Lookup(t, Key(RoleEntity, d.id))) && Lookup(t, Key(RoleEntity, d.id)).stoatID == elevation.id);
    }
    if d :| d in open && Lone(free, d, elevation) {
      LeaderSpec(open, d);
      assert Partner(open, free, Leader(open, d).value, elevation);
      assert ActiveID(t', RoleEntity, Leader(open, d).value) == Some(elevation.id);
    }
    if !ElevationUnmapped(t', roles, elevation.id) {
      var d :| d in roles && ActiveID(t', RoleEntity, d) == Some(elevation.id);
      assert pairs[d.id] == elevation;
    }
  }

  /* The whole start-up pass */

  lemma {:induction false} SameRowsSamePairs(t: Tables, u: Tables, kind: EntityType, exist: set<Id>,
                                             items: seq<Identity>, listed: set<Identity>)
    requires forall d | d in items :: Lookup(t, Key(kind, d.id)) == Lookup(u, Key(kind, d.id))
    ensures Unmapped(t, kind, exist, items) == Unmapped(u, kind, exist, items)
    ensures ClaimedIDs(t, kind, exist, items) == ClaimedIDs(u, kind, exist, items)
    ensures Pairs(t, kind, exist, items, listed) == Pairs(u, kind, exist, items, listed)
  {
    if items != [] {
      SameRowsSamePairs(t, u, kind, exist, items[..|items| - 1], listed);
    }
    assert ClaimedIDs(t, kind, exist, items) == ClaimedIDs(u, kind, exist, items);
  }

  lemma {:induction false} OtherKindsUntouched(t: Tables, kind: EntityType, exist: set<Id>, items: seq<Identity>,
                                               listed: set<Identity>)
    ensures forall k: Key | k.kind != kind :: Lookup(Bound(t, kind, exist, items, listed), k) == Lookup(t, k)
    ensures Bound(t, kind, exist, items, listed).messages == t.messages
  {}

  // A pass is idle on every table that agrees with its own outcome on its kind.
  lemma {:induction false} IdleOnAgreement(t: Tables, kind: EntityType, exist: set<Id>, items: seq<Identity>,
                                           listed: set<Identity>, u: Tables)
    requires Bindable(kind) && Listing(items, exist, listed) && ActiveInjective(t, kind, items)
    requires forall k: Key | k.kind == kind :: Lookup(u, k) == Lookup(Bound(t, kind, exist, items, listed), k)
    ensures Bound(u, kind, exist, items, listed) == u && forall d | d in items :: !Dead(u, kind, exist, d)
  {
    var t' := Bound(t, kind, exist, items, listed);
    BindIsSafe(t, kind, exist, items, listed, NO_ID);
    SecondPass(t, kind, exist, items, listed, NO_ID, exist);
    SameRowsSamePairs(u, t', kind, exist, items, listed);
    forall d | d in items ensures !Dead(u, kind, exist, d) && !Dead(t', kind, exist, d) {
      assert ActiveID(t', kind, d).Some? ==> ActiveID(t', kind, d).value in exist;
    }
    PairsChange(t', kind, exist, items, listed);
    PairsChange(u, kind, exist, items, listed);
  }

  lemma {:induction false} SameRowsSameInjectivity(t: Tables, u: Tables, kind: EntityType, items: seq<Identity>)
    requires ActiveInjective(t, kind, items) && forall k: Key | k.kind == kind :: Lookup(t, k) == Lookup(u, k)
    ensures ActiveInjective(u, kind, items)
  {
    assert forall d: Identity :: ActiveID(t, kind, d) == ActiveID(u, kind, d);
  }

  lemma {:induction false} ServerListings(p: Params, server: Server)
    requires WellListed(p, server)
    ensures Listing(p.categories, IDsOf(Elements(server.categories)), Elements(server.categories))
    ensures Listing(p.channels, IDSet(server.channelIDs), Fetched(server))
    ensures Listing(p.roles, IDsOf(Elements(server.roles)), Elements(server.roles))
  {}

  ghost predicate InjectiveAtStart(t: Tables, p: Params) {
    && ActiveInjective(t, CategoryEntity, p.categories) && ActiveInjective(t, ChannelEntity, p.channels)
    && ActiveInjective(t, RoleEntity, p.roles)
  }

  ghost function StartOutcome(t: Tables, p: Params, server: Server): Tables {
    RolesBound(ChannelsBound(CategoriesBound(t, p, server), p, server), p, server)
  }

  // Each pass leaves the rows of its kind as they end up.
  lemma {:induction false} PassesAreIndependent(t: Tables, p: Params, server: Server)
    ensures var t1 := CategoriesBound(t, p, server); var t2 := ChannelsBound(t1, p, server);
      var t3 := RolesBound(t2, p, server);
      && (forall k: Key | !k.kind.CategoryEntity? :: Lookup(t1, k) == Lookup(t, k))
      && (forall k: Key | !k.kind.ChannelEntity? :: Lookup(t2, k) == Lookup(t1, k))
      && (forall k: Key | !k.kind.RoleEntity? :: Lookup(t3, k) == Lookup(t2, k))
  {
    var t1 := CategoriesBound(t, p, server);
    var t2 := ChannelsBound(t1, p, server);
    OtherKindsUntouched(t, CategoryEntity, IDsOf(Elements(server.categories)), p.categories,
                        Elements(server.categories));
    OtherKindsUntouched(t1, ChannelEntity, IDSet(server.channelIDs), p.channels, Fetched(server));
    OtherKindsUntouched(t2, RoleEntity, IDsOf(Elements(server.roles)), p.roles, Elements(server.roles));
  }

  lemma {:induction false} CategoriesIdle(t: Tables, p: Params, server: Server)
    requires WellListed(p, server) && InjectiveAtStart(t, p)
    ensures CategoriesBound(StartOutcome(t, p, server), p, server) == StartOutcome(t, p, server)
  {
    PassesAreIndependent(t, p, server);
    ServerListings(p, server);
    IdleOnAgreement(t, CategoryEntity, IDsOf(Elements(server.categories)), p.categories, Elements(server.categories),
                    StartOutcome(t, p, server));
  }

  lemma {:induction false} ChannelsIdle(t: Tables, p: Params, server: Server)
    requires WellListed(p, server) && InjectiveAtStart(t, p)
    ensures ChannelsBound(StartOutcome(t, p, server), p, server) == StartOutcome(t, p, server)
    ensures !ChannelBlocked(StartOutcome(t, p, server), p, server)
  {
    var t1 := CategoriesBound(t, p, server);
    PassesAreIndependent(t, p, server);
    ServerListings(p, server);
    SameRowsSameInjectivity(t, t1, ChannelEntity, p.channels);
    IdleOnAgreement(t1, ChannelEntity, IDSet(server.channelIDs), p.channels, Fetched(server),
                    StartOutcome(t, p, server));
  }

  lemma {:induction false} RolesIdle(t: Tables, p: Params, server: Server)
    requires WellListed(p, server) && InjectiveAtStart(t, p)
    ensures RolesBound(StartOutcome(t, p, server), p, server) == StartOutcome(t, p, server)
  {
    var t2 := ChannelsBound(CategoriesBound(t, p, server), p, server);
    PassesAreIndependent(t, p, server);
    ServerListings(p, server);
    SameRowsSameInjectivity(t, t2, RoleEntity, p.roles);
    IdleOnAgreement(t2, RoleEntity, IDsOf(Elements(server.roles)), p.roles, Elements(server.roles),
                    StartOutcome(t, p, server));
  }

  // After a start stopped at the elevation role.
  lemma {:induction false} RefusedStartIdle(t: Tables, p: Params, server: Server)
    requires WellListed(p, server) && InjectiveAtStart(t, p)
    ensures var t2 := ChannelsBound(CategoriesBound(t, p, server), p, server);
      CategoriesBound(t2, p, server) == t2 && ChannelsBound(t2, p, server) == t2 && !ChannelBlocked(t2, p, server)
  {
    var t1 := CategoriesBound(t, p, server);
    PassesAreIndependent(t, p, server);
    ServerListings(p, server);
    SameRowsSameInjectivity(t, t1, ChannelEntity, p.channels);
    IdleOnAgreement(t, CategoryEntity, IDsOf(Elements(server.categories)), p.categories, Elements(server.categories),
                    ChannelsBound(t1, p, server));
    IdleOnAgreement(t1, ChannelEntity, IDSet(server.channelIDs), p.channels, Fetched(server),
                    ChannelsBound(t1, p, server));
  }

  // After a pass stopped at item n: its predecessors are no longer dead, it still is, and held.
  lemma {:induction false} StoppedRows(t: Tables, kind: EntityType, exist: set<Id>, items: seq<Identity>, n: int,
                                       t': Tables)
    requires UniqueIDs(items) && StoppedAt(t, kind, exist, items, n, t')
    ensures Blocked(t', kind, exist, items[n]) && forall j | 0 <= j < n :: !Dead(t', kind, exist, items[j])
  {
    assert t'.messages == t.messages;
    forall j | 0 <= j <= n
      ensures Key(kind, items[j].id) in DeadKeys(t, kind, exist, items[..n]) <==>
        j < n && Dead(t, kind, exist, items[j])
    {
      if j < n && Dead(t, kind, exist, items[j]) {
        assert items[j] in items[..n];
      }
    }
  }

  lemma {:induction false} StoppedAgain(t: Tables, kind: EntityType, exist: set<Id>, items: seq<Identity>, n: int,
                                        t': Tables, m: int, t'': Tables)
    requires UniqueIDs(items) && StoppedAt(t, kind, exist, items, n, t') && StoppedAt(t', kind, exist, items, m, t'')
    ensures m == n && t'' == t'
  {
    StoppedRows(t, kind, exist, items, n, t');
    assert m == n;
    assert DeadKeys(t', kind, exist, items[..n]) == {};
    assert t''.rows == t'.rows;
  }

  // After a start stopped at a held channel row: the categories are idle, and it stops there again.
  lemma {:induction false} StoppedStartIdle(t: Tables, p: Params, server: Server, n: int, t': Tables)
    requires WellListed(p, server) && InjectiveAtStart(t, p)
    requires StoppedAt(CategoriesBound(t, p, server), ChannelEntity, IDSet(server.channelIDs), p.channels, n, t')
    ensures CategoriesBound(t', p, server) == t' && ChannelBlocked(t', p, server)
  {
    ServerListings(p, server);
    IdleOnAgreement(t, CategoryEntity, IDsOf(Elements(server.categories)), p.categories,
                    Elements(server.categories), t');
    StoppedRows(CategoriesBound(t, p, server), ChannelEntity, IDSet(server.channelIDs), p.channels, n, t');
  }

  /** A second dry-run start against the same server changes no row, however the first one ended. It
      completes exactly if the first did and that one has not adopted the elevation role. */
  lemma {:induction false} BindIsIdempotent(t: Tables, p: Params, server: Server, ok: bool, t': Tables, ok': bool,
                                            t'': Tables)
    requires WellListed(p, server) && InjectiveAtStart(t, p)
    requires Ends(t, p, server, ok, t') && Ends(t', p, server, ok', t'')
    ensures t'' == t'
    ensures ok' <==> ok && (p.elevation == NO_ID || ElevationUnmapped(t', p.roles, p.elevation))
  {
    var t1 := CategoriesBound(t, p, server);
    var exist := IDSet(server.channelIDs);
    if ChannelBlocked(t1, p, server) {
      var n :| StoppedAt(t1, ChannelEntity, exist, p.channels, n, t');
      StoppedStartIdle(t, p, server, n, t');
      var m :| StoppedAt(t', ChannelEntity, exist, p.channels, m, t'');
      StoppedAgain(t1, ChannelEntity, exist, p.channels, n, t', m, t'');
    } else if ok {
      CategoriesIdle(t, p, server);
      ChannelsIdle(t, p, server);
      RolesIdle(t, p, server);
    } else {
      RefusedStartIdle(t, p, server);
    }
  }

  /** A living row survives the start, however it ends: that of a channel the server lists, also one the bot may not
      see, of a listed role, and of a listed category. */
  lemma {:induction false} StartKeepsLiving(t: Tables, p: Params, server: Server, ok: bool, t': Tables, d: Identity)
    requires WellListed(p, server) && Ends(t, p, server, ok, t')
    ensures var k := Key(ChannelEntity, d.id);
      d in p.channels && IsActive(Lookup(t, k)) && Lookup(t, k).stoatID in server.channelIDs ==>
        Lookup(t', k) == Lookup(t, k)
    ensures var k := Key(RoleEntity, d.id);
      d in p.roles && IsActive(Lookup(t, k)) && (exists s :: s in server.roles && s.id == Lookup(t, k).stoatID) ==>
        Lookup(t', k) == Lookup(t, k)
    ensures var k := Key(CategoryEntity, d.id);
      d in p.categories && IsActive(Lookup(t, k))
        && (exists s :: s in server.categories && s.id == Lookup(t, k).stoatID) ==>
        Lookup(t', k) == Lookup(t, k)
  {
    var t1 := CategoriesBound(t, p, server);
    var t2 := ChannelsBound(t1, p, server);
    var exist := IDSet(server.channelIDs);
    PassesAreIndependent(t, p, server);
    if d in p.channels {
      RowAfter(t1, ChannelEntity, exist, p.channels, Fetched(server), d);
    }
    if d in p.roles {
      RowAfter(t2, RoleEntity, IDsOf(Elements(server.roles)), p.roles, Elements(server.roles), d);
    }
    if d in p.categories {
      RowAfter(t, CategoryEntity, IDsOf(Elements(server.categories)), p.categories, Elements(server.categories), d);
    }
    if ChannelBlocked(t1, p, server) {
      var n :| StoppedAt(t1, ChannelEntity, exist, p.channels, n, t');
      StoppedKeepsLiving(t1, ChannelEntity, exist, p.channels, n, t', d);
    }
  }

  /** A start that finds the elevation role mapped to a Discord role does not complete and changes no role's row. */
  lemma {:induction false} MappedElevationRefused(t: Tables, p: Params, server: Server, ok: bool, t': Tables,
                                                  d: Identity)
    requires WellListed(p, server) && Ends(t, p, server, ok, t')
    requires p.elevation != NO_ID && d in p.roles && Names(t, Key(RoleEntity, d.id), p.elevation)
    ensures !ok && forall k: Key | k.kind.RoleEntity? :: Lookup(t', k) == Lookup(t, k)
  {
    var t1 := CategoriesBound(t, p, server);
    PassesAreIndependent(t, p, server);
    if ChannelBlocked(t1, p, server) {
      var n :| StoppedAt(t1, ChannelEntity, IDSet(server.channelIDs), p.channels, n, t');
      StoppedKeepsLiving(t1, ChannelEntity, IDSet(server.channelIDs), p.channels, n, t', d);
    } else {
      assert Names(ChannelsBound(t1, p, server), Key(RoleEntity, d.id), p.elevation);
    }
  }

  lemma {:induction false} StoppedKeepsLiving(t: Tables, kind: EntityType, exist: set<Id>, items: seq<Identity>,
                                              n: int, t': Tables, d: Identity)
    requires UniqueIDs(items) && StoppedAt(t, kind, exist, items, n, t')
    ensures forall k: Key | k.kind != kind :: Lookup(t', k) == Lookup(t, k)
    ensures d in items && Mapped(t, kind, exist, d) ==> Lookup(t', Key(kind, d.id)) == Lookup(t, Key(kind, d.id))
  {
    if d in items && Mapped(t, kind, exist, d) {
      forall e | e in items[..n] && Dead(t, kind, exist, e) ensures e.id != d.id {}
    }
  }
}
