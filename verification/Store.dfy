/** The mapping store: five common-shape tables, the message table with its derived status and
    foreign key, and the durable op queue. Tables is the contents as a value; Database is the store. */
module Store {
  import opened Types
  import opened Canonical

  // One row of a common-shape table. A NULL stoat_id reads as the empty id.
  datatype Row = Row(stoatID: Id, status: Status, state: State)

  datatype MessageRow = MessageRow(stoatID: Id, channelID: Id, state: State)

  datatype Tables = Tables(rows: map<Key, Row>, messages: map<Id, MessageRow>)

  // What Get returns; Absent is the zero Mapping.
  datatype Mapping = Absent | Found(stoatID: Id, status: Status, state: State)

  datatype QueuedOp = QueuedOp(kind: EntityType, op: OpKind, payload: State)

  /** The one create-or-edit test of the code base: an id, not a status. */
  predicate HasStoatEntity(m: Mapping) {
    m.Found? && m.stoatID != NO_ID
  }

  predicate IsActive(m: Mapping) {
    m.Found? && m.status == Active
  }

  function Lookup(t: Tables, k: Key): Mapping {
    if k.kind == MessageEntity then
      if k.id in t.messages then
        var r := t.messages[k.id];
        Found(r.stoatID, if r.stoatID == NO_ID then Pending else Active, r.state)
      else Absent
    else if k in t.rows then Found(t.rows[k].stoatID, t.rows[k].status, t.rows[k].state)
    else Absent
  }

  // The channel_id field a message's canonical_state decodes to.
  function PayloadChannel(s: State): Id {
    if s.MessageState? then s.channelID else NO_ID
  }

  predicate ReferencedByMessage(t: Tables, channel: Id) {
    exists m :: m in t.messages && t.messages[m].channelID == channel
  }

  function WithIntent(t: Tables, k: Key, s: State): Result<Tables> {
    if k.kind == MessageEntity then
      if k.id in t.messages then
        Ok(t.(messages := t.messages[k.id := t.messages[k.id].(state := s)]))
      else if Key(ChannelEntity, PayloadChannel(s)) in t.rows then
        Ok(t.(messages := t.messages[k.id := MessageRow(NO_ID, PayloadChannel(s), s)]))
      else Err
    else
      Ok(t.(rows := t.rows[k := Row(if k in t.rows then t.rows[k].stoatID else NO_ID, Pending, s)]))
  }

  // Both UPDATE statements change nothing when the row is missing.
  function WithConfirm(t: Tables, k: Key, id: Id): Tables {
    if k.kind == MessageEntity then
      if k.id in t.messages then t.(messages := t.messages[k.id := t.messages[k.id].(stoatID := id)]) else t
    else if k in t.rows then t.(rows := t.rows[k := t.rows[k].(stoatID := id, status := Active)])
    else t
  }

  // A channel row with message rows is held by the foreign key.
  function WithRemoval(t: Tables, k: Key): Result<Tables> {
    if k.kind == MessageEntity then Ok(t.(messages := t.messages - {k.id}))
    else if k.kind == ChannelEntity && k in t.rows && ReferencedByMessage(t, k.id) then Err
    else Ok(t.(rows := t.rows - {k}))
  }

  class Database {
    var rows: map<Key, Row>
    var messages: map<Id, MessageRow>
    var queue: seq<QueuedOp>

    function Contents(): Tables
      reads this
    {
      Tables(rows, messages)
    }

    constructor ()
      ensures Contents() == Tables(map[], map[]) && queue == []
    {
      rows, messages, queue := map[], map[], [];
    }

    method Get(k: Key) returns (m: Mapping)
      ensures m == Lookup(Contents(), k)
    {
      if k.kind == MessageEntity {
        if k.id !in messages {
          return Absent;
        }
        var status := Pending;
        if messages[k.id].stoatID != NO_ID {
          status := Active;
        }
        m := Found(messages[k.id].stoatID, status, messages[k.id].state);
      } else if k in rows {
        m := Found(rows[k].stoatID, rows[k].status, rows[k].state);
      } else {
        m := Absent;
      }
    }

    method WritePending(k: Key, s: State) returns (ok: bool)
      modifies this`rows, this`messages
      ensures ok == WithIntent(old(Contents()), k, s).Ok?
      ensures Contents() == if ok then WithIntent(old(Contents()), k, s).value else old(Contents())
    {
      ok := true;
      if k.kind == MessageEntity {
        if k.id in messages {
          messages := messages[k.id := messages[k.id].(state := s)];
        } else if Key(ChannelEntity, PayloadChannel(s)) in rows {
          messages := messages[k.id := MessageRow(NO_ID, PayloadChannel(s), s)];
        } else {
          ok := false;
        }
      } else if k in rows {
        rows := rows[k := rows[k].(status := Pending, state := s)];
      } else {
        rows := rows[k := Row(NO_ID, Pending, s)];
      }
    }

    method Confirm(k: Key, id: Id)
      modifies this`rows, this`messages
      ensures Contents() == WithConfirm(old(Contents()), k, id)
    {
      if k.kind == MessageEntity {
        if k.id in messages {
          messages := messages[k.id := messages[k.id].(stoatID := id)];
        }
      } else if k in rows {
        rows := rows[k := rows[k].(stoatID := id, status := Active)];
      }
    }

    method Remove(k: Key) returns (ok: bool)
      modifies this`rows, this`messages
      ensures ok == WithRemoval(old(Contents()), k).Ok?
      ensures Contents() == if ok then WithRemoval(old(Contents()), k).value else old(Contents())
    {
      ok := true;
      if k.kind == MessageEntity {
        messages := messages - {k.id};
      } else if k.kind == ChannelEntity && k in rows && ReferencedByMessage(Contents(), k.id) {
        ok := false;
      } else {
        rows := rows - {k};
      }
    }

    method Enqueue(q: QueuedOp)
      modifies this`queue
      ensures queue == old(queue) + [q]
    {
      queue := queue + [q];
    }
  }

  /* Laws of the pending-row pattern */

  ghost predicate ForeignKeysHold(t: Tables) {
    forall m :: m in t.messages ==> Key(ChannelEntity, t.messages[m].channelID) in t.rows
  }

  /** Every statement keeps the message table's foreign key. */
  lemma {:induction false} ForeignKeysKept(t: Tables, k: Key, s: State, id: Id)
    requires ForeignKeysHold(t)
    ensures WithIntent(t, k, s).Ok? ==> ForeignKeysHold(WithIntent(t, k, s).value)
    ensures ForeignKeysHold(WithConfirm(t, k, id))
    ensures WithRemoval(t, k).Ok? ==> ForeignKeysHold(WithRemoval(t, k).value)
  {
    if WithRemoval(t, k).Ok? {
      var t' := WithRemoval(t, k).value;
      forall m | m in t'.messages ensures Key(ChannelEntity, t'.messages[m].channelID) in t'.rows {
        assert m in t.messages;
        assert k.kind == ChannelEntity && k in t.rows ==> t.messages[m].channelID != k.id;
      }
    }
  }

  /** A pending window keeps the entity's identity, and only this row moves; a message row with an
      id never even reads as pending. */
  lemma {:induction false} IntentKeepsIdentity(t: Tables, k: Key, s: State)
    requires WithIntent(t, k, s).Ok?
    ensures var t' := WithIntent(t, k, s).value;
      && Lookup(t', k).Found? && Lookup(t', k).state == s
      && Lookup(t', k).stoatID == (if Lookup(t, k).Found? then Lookup(t, k).stoatID else NO_ID)
      && (IsActive(Lookup(t', k)) <==> k.kind == MessageEntity && HasStoatEntity(Lookup(t, k)))
      && forall j :: j != k ==> Lookup(t', j) == Lookup(t, j)
  {}
}
