/** Start-up binding: which Discord entity adopts which Stoat entity, and what is reaped. The greedy
    loops are proved against a closed form over sets, so nothing depends on the order of Stoat's list. */
module Bind {
  import opened Types
  import opened Canonical
  import opened Store

  // The (name, kind) slice of an entity; kind is the channel type, empty for categories and roles.
  datatype Identity = Identity(id: Id, name: string, kind: string)

  predicate SameName(a: Identity, b: Identity) {
    a.name == b.name && a.kind == b.kind
  }

  ghost predicate UniqueIDs(items: seq<Identity>) {
    forall i, j | 0 <= i < |items| && 0 <= j < |items| :: items[i].id == items[j].id ==> i == j
  }

  predicate Bindable(kind: EntityType) {
    kind.CategoryEntity? || kind.ChannelEntity? || kind.RoleEntity?
  }

  function Elements(items: seq<Identity>): set<Identity> {
    set s | s in items
  }

  function IDSet(ids: seq<Id>): set<Id> {
    set id | id in ids
  }

  function IDsOf(items: set<Identity>): set<Id> {
    set s | s in items :: s.id
  }

  /* Which rows hold, die or stay open */

  predicate Alive(t: Tables, kind: EntityType, exist: set<Id>, d: Identity) {
    var m := Lookup(t, Key(kind, d.id));
    IsActive(m) && m.stoatID in exist
  }

  // An active row whose Stoat entity is gone.
  predicate Dead(t: Tables, kind: EntityType, exist: set<Id>, d: Identity) {
    var m := Lookup(t, Key(kind, d.id));
    IsActive(m) && m.stoatID !in exist
  }

  // A dead channel row that its message rows keep from being removed.
  predicate Blocked(t: Tables, kind: EntityType, exist: set<Id>, d: Identity) {
    Dead(t, kind, exist, d) && kind.ChannelEntity? && ReferencedByMessage(t, d.id)
  }

  function ClaimedIDs(t: Tables, kind: EntityType, exist: set<Id>, items: seq<Identity>): set<Id> {
    set d | d in items && Alive(t, kind, exist, d) :: Lookup(t, Key(kind, d.id)).stoatID
  }

  function Unmapped(t: Tables, kind: EntityType, exist: set<Id>, items: seq<Identity>): seq<Identity> {
    if items == [] then []
    else
      var last, rest := items[|items| - 1], Unmapped(t, kind, exist, items[..|items| - 1]);
      if Alive(t, kind, exist, last) then rest else rest + [last]
  }

  function DeadKeys(t: Tables, kind: EntityType, exist: set<Id>, items: seq<Identity>): set<Key> {
    set d | d in items && Dead(t, kind, exist, d) :: Key(kind, d.id)
  }

  function Cleared(t: Tables, kind: EntityType, exist: set<Id>, items: seq<Identity>): Tables {
    t.(rows := t.rows - DeadKeys(t, kind, exist, items))
  }

  /* The closed form of the match loop */

  // The first open entity with d's name and kind.
  function Leader(open: seq<Identity>, d: Identity): Option<Identity> {
    if open == [] then None
    else
      var n := |open| - 1;
      var before := Leader(open[..n], d);
      if before.Some? then before else if SameName(open[n], d) then Some(open[n]) else None
  }

  predicate FirstOf(open: seq<Identity>, d: Identity) {
    Leader(open, d) == Some(d)
  }

  // s is the only available entity with d's name and kind.
  ghost predicate Lone(available: set<Identity>, d: Identity, s: Identity) {
    && s in available && SameName(d, s)
    && forall r | r in available && SameName(d, r) :: r == s
  }

  /** The closed form: d adopts s. */
  ghost predicate Partner(open: seq<Identity>, available: set<Identity>, d: Identity, s: Identity) {
    FirstOf(open, d) && Lone(available, d, s)
  }

  // All pairs at once, by Discord id.
  ghost function Bindings(open: seq<Identity>, available: set<Identity>): map<Id, Identity> {
    if open == [] then map[]
    else
      var last, rest := open[|open| - 1], Bindings(open[..|open| - 1], available);
      if Leader(open[..|open| - 1], last).None? && exists s :: Lone(available, last, s) then
        var s :| Lone(available, last, s);
        rest[last.id := s]
      else rest
  }

  function AdoptedKeys(kind: EntityType, b: map<Id, Identity>): (keys: set<Key>)
    ensures forall k: Key :: k in keys <==> k.kind == kind && k.id in b
  {
    set id | id in b :: Key(kind, id)
  }

  function AdoptedRow(t: Tables, kind: EntityType, b: map<Id, Identity>, k: Key): Row
    requires k in t.rows || k in AdoptedKeys(kind, b)
  {
    if k in AdoptedKeys(kind, b) then Row(b[k.id].id, Active, EmptyObject) else t.rows[k]
  }

  function Adopted(t: Tables, kind: EntityType, b: map<Id, Identity>): Tables {
    t.(rows := map k | k in t.rows.Keys + AdoptedKeys(kind, b) :: AdoptedRow(t, kind, b, k))
  }

  /* One bind pass as a function of the tables */

  function Unclaimed(t: Tables, kind: EntityType, exist: set<Id>, items: seq<Identity>,
                     listed: set<Identity>): set<Identity> {
    set s | s in listed && s.id !in ClaimedIDs(t, kind, exist, items)
  }

  ghost function Pairs(t: Tables, kind: EntityType, exist: set<Id>, items: seq<Identity>,
                       listed: set<Identity>): map<Id, Identity> {
    Bindings(Unmapped(t, kind, exist, items), Unclaimed(t, kind, exist, items, listed))
  }

  ghost function Bound(t: Tables, kind: EntityType, exist: set<Id>, items: seq<Identity>,
                       listed: set<Identity>): Tables {
    Adopted(Cleared(t, kind, exist, items), kind, Pairs(t, kind, exist, items, listed))
  }

  ghost function Foreign(t: Tables, kind: EntityType, exist: set<Id>, items: seq<Identity>, listed: set<Identity>,
                         protected: Id): set<Identity> {
    set s | s in Unclaimed(t, kind, exist, items, listed) - Pairs(t, kind, exist, items, listed).Values
      && s.id != protected
  }

  /* The loops */

  lemma {:induction false} ClearOneMore(t: Tables, kind: EntityType, exist: set<Id>, items: seq<Identity>, n: nat)
    requires n < |items|
    ensures DeadKeys(t, kind, exist, items[..n + 1]) ==
            DeadKeys(t, kind, exist, items[..n]) +
            (if Dead(t, kind, exist, items[n]) then {Key(kind, items[n].id)} else {})
    ensures ClaimedIDs(t, kind, exist, items[..n + 1]) == ClaimedIDs(t, kind, exist, items[..n]) +
            (if Alive(t, kind, exist, items[n]) then {Lookup(t, Key(kind, items[n].id)).stoatID} else {})
    ensures Unmapped(t, kind, exist, items[..n + 1]) ==
            Unmapped(t, kind, exist, items[..n]) + (if Alive(t, kind, exist, items[n]) then [] else [items[n]])
  {
    assert items[..n + 1] == items[..n] + [items[n]];
    assert items[..n + 1][..n] == items[..n];
  }

  // What the claim loop sees and does at item n, after its predecessors.
  lemma {:induction false} ClearStep(t: Tables, kind: EntityType, exist: set<Id>, items: seq<Identity>, n: nat)
    requires n < |items| && UniqueIDs(items) && Bindable(kind)
    ensures var k, t1 := Key(kind, items[n].id), Cleared(t, kind, exist, items[..n]);
      && Lookup(t1, k) == Lookup(t, k)
      && (!Dead(t, kind, exist, items[n]) ==> Cleared(t, kind, exist, items[..n + 1]) == t1)
      && (Dead(t, kind, exist, items[n]) ==>
            WithRemoval(t1, k) == if Blocked(t, kind, exist, items[n]) then Err
              else Ok(Cleared(t, kind, exist, items[..n + 1])))
  {
    var k, t1 := Key(kind, items[n].id), Cleared(t, kind, exist, items[..n]);
    ClearOneMore(t, kind, exist, items, n);
    assert k !in DeadKeys(t, kind, exist, items[..n]);
    if Dead(t, kind, exist, items[n]) {
      assert ReferencedByMessage(t1, k.id) <==> ReferencedByMessage(t, k.id);
      assert Cleared(t, kind, exist, items[..n + 1]).rows == t1.rows - {k};
    }
  }

  method ClaimMapped(kind: EntityType, items: seq<Identity>, exist: set<Id>, db: Database)
    returns (ok: bool, claimed: set<Id>, unmapped: seq<Identity>)
    requires Bindable(kind) && UniqueIDs(items)
    modifies db`rows, db`messages
    ensures ok ==>
      && (forall i | 0 <= i < |items| :: !Blocked(old(db.Contents()), kind, exist, items[i]))
      && db.Contents() == Cleared(old(db.Contents()), kind, exist, items)
      && claimed == ClaimedIDs(old(db.Contents()), kind, exist, items)
      && unmapped == Unmapped(old(db.Contents()), kind, exist, items)
    ensures !ok ==> exists n :: StoppedAt(old(db.Contents()), kind, exist, items, n, db.Contents())
  {
    ghost var t := db.Contents();
    claimed, unmapped := {}, [];
    for i := 0 to |items|
      invariant db.Contents() == Cleared(t, kind, exist, items[..i])
      invariant claimed == ClaimedIDs(t, kind, exist, items[..i]) && unmapped == Unmapped(t, kind, exist, items[..i])
      invariant forall j | 0 <= j < i :: !Blocked(t, kind, exist, items[j])
    {
      var d := items[i];
      ClearOneMore(t, kind, exist, items, i);
      ClearStep(t, kind, exist, items, i);
      var m := db.Get(Key(kind, d.id));
      if IsActive(m) && m.stoatID in exist {
        claimed := claimed + {m.stoatID};
      } else {
        if IsActive(m) {
          var removed := db.Remove(Key(kind, d.id));
          if !removed {
            assert StoppedAt(t, kind, exist, items, i, db.Contents());
            return false, claimed, unmapped;
          }
        }
        unmapped := unmapped + [d];
      }
    }
    assert items[..|items|] == items;
    ok := true;
  }

  // The pass gave up at item n, whose removal the store refused; the dead rows before it are gone.
  ghost predicate StoppedAt(t: Tables, kind: EntityType, exist: set<Id>, items: seq<Identity>, n: int, t': Tables) {
    && 0 <= n < |items| && Blocked(t, kind, exist, items[n])
    && (forall j | 0 <= j < n :: !Blocked(t, kind, exist, items[j]))
    && t' == Cleared(t, kind, exist, items[..n])
  }

  // The inner loop: the index of the one match, -1 for none; ambiguous for two or more. A match has the
  // same name and the same kind.
  method FindMatch(d: Identity, available: seq<Identity>) returns (matchIdx: int, ambiguous: bool)
    ensures ambiguous ==> exists i, j ::
      && 0 <= i < j < |available|
      && d.name == available[i].name == available[j].name && d.kind == available[i].kind == available[j].kind
    ensures !ambiguous && matchIdx == -1 ==>
      forall i | 0 <= i < |available| :: !(d.name == available[i].name && d.kind == available[i].kind)
    ensures !ambiguous && matchIdx != -1 ==>
      && 0 <= matchIdx < |available| && d.name == available[matchIdx].name && d.kind == available[matchIdx].kind
      && forall i | 0 <= i < |available| :: d.name == available[i].name && d.kind == available[i].kind ==> i == matchIdx
  {
    matchIdx, ambiguous := -1, false;
    for i := 0 to |available|
      invariant !ambiguous
      invariant -1 <= matchIdx < i
      invariant matchIdx != -1 ==> SameName(d, available[matchIdx])
      invariant forall j | 0 <= j < i :: SameName(d, available[j]) ==> j == matchIdx
    {
      if !SameName(d, available[i]) {
        continue;
      }
      if matchIdx != -1 {
        ambiguous := true;
        break;
      }
      matchIdx := i;
    }
  }

  lemma {:induction false} LeaderSpec(open: seq<Identity>, d: Identity)
    ensures Leader(open, d).Some? ==> Leader(open, d).value in open && SameName(Leader(open, d).value, d)
    ensures forall e | e in open && SameName(e, d) :: Leader(open, d).Some?
    ensures forall e | SameName(e, d) :: Leader(open, e) == Leader(open, d)
  {
    if open != [] {
      var n := |open| - 1;
      LeaderSpec(open[..n], d);
      assert open == open[..n] + [open[n]];
    }
  }

  /** Bindings holds exactly the pairs of the closed form. */
  lemma {:induction false} BindingsAreThePartners(open: seq<Identity>, available: set<Identity>)
    requires UniqueIDs(open)
    ensures forall d, s | Partner(open, available, d, s) ::
      d in open && d.id in Bindings(open, available) && Bindings(open, available)[d.id] == s
    ensures forall id | id in Bindings(open, available) ::
      exists d :: d in open && d.id == id && Partner(open, available, d, Bindings(open, available)[id])
  {
    if open != [] {
      var n := |open| - 1;
      var pre, last := open[..n], open[n];
      BindingsAreThePartners(pre, available);
      assert open == pre + [last];
      forall d, s ensures Partner(open, available, d, s) <==>
        Partner(pre, available, d, s) || (d == last && Leader(pre, last).None? && Lone(available, last, s))
      {}
      forall id | id in Bindings(open, available)
        ensures exists d :: d in open && d.id == id && Partner(open, available, d, Bindings(open, available)[id])
      {
        BoundHasPartner(pre, last, available, id);
      }
    }
  }

  // The pair of id is the last entity's own or one of the predecessors'.
  lemma {:induction false} BoundHasPartner(pre: seq<Identity>, last: Identity, available: set<Identity>, id: Id)
    requires id in Bindings(pre + [last], available)
    requires forall i | i in Bindings(pre, available) ::
      exists d :: d in pre && d.id == i && Partner(pre, available, d, Bindings(pre, available)[i])
    ensures exists d ::
      d in pre + [last] && d.id == id && Partner(pre + [last], available, d, Bindings(pre + [last], available)[id])
  {
    var open := pre + [last];
    assert open[..|open| - 1] == pre;
    if id == last.id && Leader(pre, last).None? && exists s :: Lone(available, last, s) {
      assert last in open && Partner(open, available, last, Bindings(open, available)[id]);
    } else {
      var d :| d in pre && d.id == id && Partner(pre, available, d, Bindings(pre, available)[id]);
      assert d in open && Partner(open, available, d, Bindings(open, available)[id]);
    }
  }

  /** The greedy step: what the predecessors of open[n] leave contains one match exactly when open[n]
      has a partner. */
  lemma {:induction false} LoneLeft(open: seq<Identity>, n: nat, available: set<Identity>, s: Identity)
    requires n < |open| && UniqueIDs(open[..n])
    ensures Lone(available - Bindings(open[..n], available).Values, open[n], s)
       <==> Leader(open[..n], open[n]).None? && Lone(available, open[n], s)
  {
    var d, pre := open[n], open[..n];
    var left := available - Bindings(pre, available).Values;
    LeaderSpec(pre, d);
    BindingsAreThePartners(pre, available);
    if Lone(left, d, s) {
      forall r | r in available && SameName(d, r) ensures r == s {
        if r !in left {
          var id :| id in Bindings(pre, available) && Bindings(pre, available)[id] == r;
          assert Lone(available, d, r);
        }
      }
      assert Lone(available, d, s);
      if Leader(pre, d).Some? {
        assert Partner(pre, available, Leader(pre, d).value, s);
      }
    }
  }

  // One round of the match loop, by what it finds among the entities still available.
  lemma {:induction false} GreedyStep(open: seq<Identity>, n: nat, all: set<Identity>, left: set<Identity>)
    requires n < |open| && UniqueIDs(open) && left == all - Bindings(open[..n], all).Values
    ensures (forall s :: !Lone(left, open[n], s)) ==> Bindings(open[..n + 1], all) == Bindings(open[..n], all)
    ensures forall s | Lone(left, open[n], s) ::
      Bindings(open[..n + 1], all) == Bindings(open[..n], all)[open[n].id := s]
        && open[n].id !in Bindings(open[..n], all)
  {
    assert open[..n + 1][..n] == open[..n];
    BindingsAreThePartners(open[..n], all);
    forall s ensures Lone(left, open[n], s) <==> Leader(open[..n], open[n]).None? && Lone(all, open[n], s) {
      LoneLeft(open, n, all, s);
    }
  }

  lemma {:induction false} OneMoreValue(b: map<Id, Identity>, id: Id, s: Identity)
    requires id !in b
    ensures b[id := s].Values == b.Values + {s}
  {
    forall v ensures v in b[id := s].Values <==> v in b.Values + {s} {
      if v in b.Values {
        var j :| j in b && b[j] == v;
        assert b[id := s][j] == v;
      }
      assert b[id := s][id] == s;
    }
  }

  lemma {:induction false} AdoptOneMore(t: Tables, kind: EntityType, b: map<Id, Identity>, id: Id, s: Identity)
    requires id !in b
    ensures Adopted(t, kind, b[id := s]).rows ==
      Adopted(t, kind, b).rows[Key(kind, id) := Row(s.id, Active, EmptyObject)]
  {
    assert AdoptedKeys(kind, b[id := s]) == AdoptedKeys(kind, b) + {Key(kind, id)};
    forall k: Key | k in t.rows || k in AdoptedKeys(kind, b)
      ensures AdoptedRow(t, kind, b[id := s], k) ==
              if k == Key(kind, id) then Row(s.id, Active, EmptyObject) else AdoptedRow(t, kind, b, k)
    {}
  }

  // Removing index i from a list of distinct elements.
  lemma {:induction false} RemoveAt(s: seq<Identity>, i: nat)
    requires i < |s| && UniqueIDs(s)
    ensures UniqueIDs(s[..i] + s[i + 1..]) && Elements(s[..i] + s[i + 1..]) == Elements(s) - {s[i]}
  {
    var r := s[..i] + s[i + 1..];
    assert forall j | 0 <= j < |r| :: r[j] == s[if j < i then j else j + 1];
    forall e | e in Elements(s) - {s[i]} ensures e in r {
      var j :| 0 <= j < |s| && s[j] == e;
      assert r[if j < i then j else j - 1] == e;
    }
  }

  lemma {:induction false} LoneMatch(available: seq<Identity>, d: Identity, n: int)
    requires 0 <= n < |available| && SameName(d, available[n])
    requires forall i | 0 <= i < |available| :: SameName(d, available[i]) ==> i == n
    ensures Lone(Elements(available), d, available[n])
  {}

  // WritePending then Confirm.
  method BindOne(kind: EntityType, id: Id, stoatID: Id, db: Database)
    requires Bindable(kind)
    modifies db`rows, db`messages
    ensures db.Contents() ==
      old(db.Contents()).(rows := old(db.rows)[Key(kind, id) := Row(stoatID, Active, EmptyObject)])
  {
    var written := db.WritePending(Key(kind, id), EmptyObject);
    db.Confirm(Key(kind, id), stoatID);
  }

  method MatchByName(kind: EntityType, unmapped: seq<Identity>, unclaimed: seq<Identity>, db: Database)
    returns (available: seq<Identity>)
    requires Bindable(kind) && UniqueIDs(unmapped) && UniqueIDs(unclaimed)
    modifies db`rows, db`messages
    ensures db.Contents() == Adopted(old(db.Contents()), kind, Bindings(unmapped, Elements(unclaimed)))
    ensures UniqueIDs(available)
    ensures Elements(available) == Elements(unclaimed) - Bindings(unmapped, Elements(unclaimed)).Values
  {
    ghost var t, all := db.Contents(), Elements(unclaimed);
    available := unclaimed;
    for n := 0 to |unmapped|
      invariant db.Contents() == Adopted(t, kind, Bindings(unmapped[..n], all))
      invariant UniqueIDs(available) && Elements(available) == all - Bindings(unmapped[..n], all).Values
    {
      var d := unmapped[n];
      GreedyStep(unmapped, n, all, Elements(available));
      var matchIdx, ambiguous := FindMatch(d, available);
      NoLoneMatch(available, d);
      if ambiguous || matchIdx == -1 {
        continue;
      }
      var matched := available[matchIdx];
      LoneMatch(available, d, matchIdx);
      AdoptOneMore(t, kind, Bindings(unmapped[..n], all), d.id, matched);
      OneMoreValue(Bindings(unmapped[..n], all), d.id, matched);
      RemoveAt(available, matchIdx);
      BindOne(kind, d.id, matched.id, db);
      available := available[..matchIdx] + available[matchIdx + 1..];
    }
    assert unmapped[..|unmapped|] == unmapped;
  }

  // Two matches, or none, leave no lone one.
  lemma {:induction false} NoLoneMatch(available: seq<Identity>, d: Identity)
    requires UniqueIDs(available)
    ensures (exists i, j :: 0 <= i < j < |available| && SameName(d, available[i]) && SameName(d, available[j]))
        ==> forall s :: !Lone(Elements(available), d, s)
    ensures (forall i | 0 <= i < |available| :: !SameName(d, available[i])) ==> forall s ::
      !Lone(Elements(available), d, s)
  {
    if i, j :| 0 <= i < j < |available| && SameName(d, available[i]) && SameName(d, available[j]) {
      assert available[i] in Elements(available) && available[j] in Elements(available);
    }
  }

  function Reapable(available: seq<Identity>, protected: Id): set<Id> {
    set s | s in available && s.id != protected :: s.id
  }

  method Reap(kind: EntityType, available: seq<Identity>, protected: Id, dryRun: bool) returns (deleted: seq<Id>)
    ensures IDSet(deleted) == if dryRun || kind.CategoryEntity? then {} else Reapable(available, protected)
    ensures dryRun || kind.CategoryEntity? ==> deleted == []
    ensures protected !in deleted
    ensures forall id | id in deleted :: exists s :: s in available && s.id == id
  {
    deleted := [];
    for i := 0 to |available|
      invariant (dryRun || kind.CategoryEntity? ==> deleted == []) && protected !in deleted
      invariant forall id | id in deleted :: exists s :: s in available && s.id == id
      invariant IDSet(deleted) ==
                if dryRun || kind.CategoryEntity? then {} else Reapable(available[..i], protected)
    {
      assert available[..i + 1] == available[..i] + [available[i]];
      assert Reapable(available[..i + 1], protected) ==
        Reapable(available[..i], protected) + (if available[i].id == protected then {} else {available[i].id});
      if available[i].id == protected {
        continue;
      }
      if dryRun || kind.CategoryEntity? {
        continue;
      }
      ghost var before := deleted;
      deleted := deleted + [available[i].id];
      assert IDSet(deleted) == IDSet(before) + {available[i].id};
    }
    assert available[..|available|] == available;
  }

  lemma {:induction false} UnmappedAre(t: Tables, kind: EntityType, exist: set<Id>, items: seq<Identity>)
    requires UniqueIDs(items)
    ensures UniqueIDs(Unmapped(t, kind, exist, items))
    ensures forall d :: d in Unmapped(t, kind, exist, items) <==> d in items && !Alive(t, kind, exist, d)
  {
    if items != [] {
      var n := |items| - 1;
      UnmappedAre(t, kind, exist, items[..n]);
      assert items == items[..n] + [items[n]];
      assert forall d | d in items[..n] :: d.id != items[n].id;
    }
  }

  method Available(listed: seq<Identity>, claimed: set<Id>) returns (available: seq<Identity>)
    requires UniqueIDs(listed)
    ensures UniqueIDs(available) && Elements(available) == set s | s in Elements(listed) && s.id !in claimed
  {
    available := [];
    for i := 0 to |listed|
      invariant UniqueIDs(available)
      invariant forall s :: s in available <==> s in listed[..i] && s.id !in claimed
    {
      assert listed[..i + 1] == listed[..i] + [listed[i]];
      assert forall s | s in listed[..i] :: s.id != listed[i].id;
      assert forall j | 0 <= j < |available| :: available[j] in listed[..i];
      if listed[i].id !in claimed {
        available := available + [listed[i]];
      }
    }
    assert listed[..|listed|] == listed;
  }

  /** One pass. deleted are the ids a delete was sent for; a failed delete is only logged. */
  method BindEntities(kind: EntityType, items: seq<Identity>, listed: seq<Identity>, exist: set<Id>, protected: Id,
                      dryRun: bool, db: Database)
    returns (ok: bool, deleted: seq<Id>)
    requires Bindable(kind) && UniqueIDs(items) && UniqueIDs(listed)
    modifies db`rows, db`messages
    ensures ok <==> forall i | 0 <= i < |items| :: !Blocked(old(db.Contents()), kind, exist, items[i])
    ensures ok ==> db.Contents() == Bound(old(db.Contents()), kind, exist, items, Elements(listed))
    ensures ok ==>
      IDSet(deleted) == if dryRun || kind.CategoryEntity? then {}
                                  else IDsOf(Foreign(old(db.Contents()), kind, exist, items, Elements(listed),
                                                     protected))
    ensures dryRun || kind.CategoryEntity? ==> deleted == []
    ensures protected !in deleted
    ensures !ok ==> deleted == [] && exists n :: StoppedAt(old(db.Contents()), kind, exist, items, n, db.Contents())
  {
    ghost var t := db.Contents();
    var claimed, unmapped;
    ok, claimed, unmapped := ClaimMapped(kind, items, exist, db);
    if !ok {
      return false, [];
    }
    var available := Available(listed, claimed);
    UnmappedAre(t, kind, exist, items);
    available := MatchByName(kind, unmapped, available, db);
    deleted := Reap(kind, available, protected, dryRun);
    assert Reapable(available, protected) == IDsOf(Foreign(t, kind, exist, items, Elements(listed), protected));
  }

  /* Bind: categories, channels, roles */

  // FetchServer's answer, and FetchChannel's for the channels the bot may see.
  datatype Server = Server(categories: seq<Identity>, channelIDs: seq<Id>, visible: map<Id, Identity>,
                           roles: seq<Identity>)

  // elevation is the id of the bot's own role, empty if it could not be resolved.
  datatype Params = Params(categories: seq<Identity>, channels: seq<Identity>, roles: seq<Identity>, elevation: Id,
                           dryRun: bool)

  ghost predicate WellListed(p: Params, server: Server) {
    && UniqueIDs(p.categories) && UniqueIDs(p.channels) && UniqueIDs(p.roles)
    && UniqueIDs(server.categories) && UniqueIDs(server.roles) && Distinct(server.channelIDs)
    && forall id | id in server.visible :: server.visible[id].id == id
  }

  function Fetched(server: Server): set<Identity> {
    set id | id in server.channelIDs && id in server.visible :: server.visible[id]
  }

  // k's row is active and names e.
  ghost predicate Names(t: Tables, k: Key, e: Id) {
    var m := Lookup(t, k);
    m.Found? && m.status == Active && m.stoatID == e
  }

  predicate ElevationUnmapped(t: Tables, roles: seq<Identity>, elevation: Id) {
    forall d | d in roles ::
      var m := Lookup(t, Key(RoleEntity, d.id));
      !(IsActive(m) && m.stoatID == elevation)
  }

  method VerifyElevationRoleUnmapped(roles: seq<Identity>, elevation: Id, db: Database) returns (ok: bool)
    ensures ok == ElevationUnmapped(db.Contents(), roles, elevation)
    ensures !ok <==> exists d :: d in roles && Names(db.Contents(), Key(RoleEntity, d.id), elevation)
  {
    for i := 0 to |roles|
      invariant forall j | 0 <= j < i ::
        var m := Lookup(db.Contents(), Key(RoleEntity, roles[j].id));
        !(IsActive(m) && m.stoatID == elevation)
    {
      var m := db.Get(Key(RoleEntity, roles[i].id));
      if IsActive(m) && m.stoatID == elevation {
        assert roles[i] in roles && Names(db.Contents(), Key(RoleEntity, roles[i].id), elevation);
        return false;
      }
    }
    ok := true;
  }

  method FetchChannels(server: Server) returns (fetched: seq<Identity>)
    requires Distinct(server.channelIDs) && forall id | id in server.visible :: server.visible[id].id == id
    ensures UniqueIDs(fetched) && Elements(fetched) == Fetched(server)
    ensures forall s ::
      s in fetched <==> s.id in server.channelIDs && s.id in server.visible && server.visible[s.id] == s
  {
    fetched := [];
    var ids := server.channelIDs;
    for i := 0 to |ids|
      invariant UniqueIDs(fetched)
      invariant forall s :: s in fetched <==> s.id in ids[..i] && s.id in server.visible && s == server.visible[s.id]
    {
      assert forall j | 0 <= j < |fetched| :: fetched[j] in fetched;
      if ids[i] in server.visible {
        fetched := fetched + [server.visible[ids[i]]];
      }
    }
    assert forall s :: s in fetched ==> s in Fetched(server);
  }

  ghost function CategoriesBound(t: Tables, p: Params, server: Server): Tables {
    Bound(t, CategoryEntity, IDsOf(Elements(server.categories)), p.categories, Elements(server.categories))
  }

  ghost function ChannelsBound(t: Tables, p: Params, server: Server): Tables {
    Bound(t, ChannelEntity, IDSet(server.channelIDs), p.channels, Fetched(server))
  }

  ghost function RolesBound(t: Tables, p: Params, server: Server): Tables {
    Bound(t, RoleEntity, IDsOf(Elements(server.roles)), p.roles, Elements(server.roles))
  }

  ghost predicate ChannelBlocked(t: Tables, p: Params, server: Server) {
    exists i :: 0 <= i < |p.channels| && Blocked(t, ChannelEntity, IDSet(server.channelIDs), p.channels[i])
  }

  ghost function Doomed(p: Params, foreign: set<Identity>): set<Id> {
    if p.dryRun then {} else IDsOf(foreign)
  }

  /** How a start can end: a channel row held by its messages stops it after the categories, with the dead
      rows before it gone; a mapped elevation role stops it after the channels. */
  ghost predicate Ends(t: Tables, p: Params, server: Server, ok: bool, t': Tables) {
    var t1 := CategoriesBound(t, p, server);
    var t2 := ChannelsBound(t1, p, server);
    if ChannelBlocked(t1, p, server) then
      !ok && exists n :: StoppedAt(t1, ChannelEntity, IDSet(server.channelIDs), p.channels, n, t')
    else if p.elevation != NO_ID && !ElevationUnmapped(t2, p.roles, p.elevation) then
      !ok && t' == t2
    else
      ok && t' == RolesBound(t2, p, server)
  }

  /** The run that stops at the elevation role has had its foreign channels deleted by then. */
  method Bind(p: Params, server: Option<Server>, db: Database)
    returns (ok: bool, channelsGone: seq<Id>, rolesGone: seq<Id>)
    requires server.Some? ==> WellListed(p, server.value)
    modifies db`rows, db`messages
    ensures server.None? ==> !ok && db.Contents() == old(db.Contents()) && channelsGone == rolesGone == []
    ensures server.Some? ==> Ends(old(db.Contents()), p, server.value, ok, db.Contents())
    ensures p.dryRun ==> channelsGone == rolesGone == []
    ensures p.elevation !in rolesGone
    ensures server.Some? ==>
      var t1 := CategoriesBound(old(db.Contents()), p, server.value);
      var t2 := ChannelsBound(t1, p, server.value);
      var exist := IDSet(server.value.channelIDs);
      if ChannelBlocked(t1, p, server.value) then
        channelsGone == rolesGone == []
      else
        && IDSet(channelsGone) == Doomed(p, Foreign(t1, ChannelEntity, exist, p.channels, Fetched(server.value), NO_ID))
        && (if !ok then rolesGone == []
            else IDSet(rolesGone) == Doomed(p, Foreign(t2, RoleEntity, IDsOf(Elements(server.value.roles)), p.roles,
                                                       Elements(server.value.roles), p.elevation)))
  {
    channelsGone, rolesGone := [], [];
    if server.None? {
      return false, [], [];
    }
    var listing := server.value;
    var none;
    ok, none := BindEntities(CategoryEntity, p.categories, listing.categories,
                             set c | c in listing.categories :: c.id, NO_ID, p.dryRun, db);
    assert (set c | c in listing.categories :: c.id) == IDsOf(Elements(listing.categories));
    var fetched := FetchChannels(listing);
    ok, channelsGone :=
      BindEntities(ChannelEntity, p.channels, fetched, IDSet(listing.channelIDs), NO_ID, p.dryRun, db);
    if !ok {
      return;
    }
    if p.elevation != NO_ID {
      ok := VerifyElevationRoleUnmapped(p.roles, p.elevation, db);
      if !ok {
        return;
      }
    }
    ok, rolesGone := BindEntities(RoleEntity, p.roles, listing.roles, set r | r in listing.roles :: r.id,
                                  p.elevation, p.dryRun, db);
    assert (set r | r in listing.roles :: r.id) == IDsOf(Elements(listing.roles));
  }
}
