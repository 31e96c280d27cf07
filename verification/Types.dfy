/** Vocabulary shared by every component: ids, entity types, dependency keys and row status. */
module Types {
  type Id = string

  const NO_ID: Id := ""

  datatype EntityType =
    | ServerEntity
    | CategoryEntity
    | ChannelEntity
    | RoleEntity
    | EmojiEntity
    | MessageEntity

  // One row of one mapping table; also what an op can wait for.
  datatype Key = Key(kind: EntityType, id: Id)

  // 'deleting' is a legal column value that no code path writes.
  datatype Status = Pending | Active

  datatype OpKind = OpCreate | OpUpdate | OpDelete

  datatype Option<+T> = None | Some(value: T)

  datatype Result<+T> = Ok(value: T) | Err

  ghost predicate Distinct<T>(s: seq<T>) {
    forall i, j :: 0 <= i < j < |s| ==> s[i] != s[j]
  }

  ghost predicate InjectiveMap<K, V>(m: map<K, V>) {
    forall a, b :: a in m && b in m && m[a] == m[b] ==> a == b
  }
}
