/** The canonical permission vocabulary and its two bit encodings. A 64-bit word is the set of
    positions of its one bits: `|=` is union and `bits & (1 << k) != 0` is membership. */
module Permissions {
  import opened Types

  type BitPos = b: nat | b < 64
  type Bits64 = set<BitPos>

  datatype Permission =
    | ManageChannel | ManageServer | ManageRoles | ManageEmoji
    | KickMembers | BanMembers | TimeoutMembers | ManageNicks
    | ViewChannel | ReadHistory | SendMessages | ManageMessages
    | ManageWebhooks | CreateInvite | EmbedLinks | AttachFiles
    | AddReactions | Connect | Speak | Video
    | MuteMembers | DeafenMembers | MoveMembers | MentionEveryone
    | ViewAuditLog | UseAppCommands | PrioritySpeaker | SendTTS

  // Place of the permission's wire name in byte-wise string order, the order slices.Sort uses.
  function Rank(p: Permission): nat {
    match p
    case AddReactions => 0
    case AttachFiles => 1
    case BanMembers => 2
    case Connect => 3
    case CreateInvite => 4
    case DeafenMembers => 5
    case EmbedLinks => 6
    case KickMembers => 7
    case ManageChannel => 8
    case ManageEmoji => 9
    case ManageMessages => 10
    case ManageNicks => 11
    case ManageRoles => 12
    case ManageServer => 13
    case ManageWebhooks => 14
    case MentionEveryone => 15
    case MoveMembers => 16
    case MuteMembers => 17
    case PrioritySpeaker => 18
    case ReadHistory => 19
    case SendMessages => 20
    case SendTTS => 21
    case Speak => 22
    case TimeoutMembers => 23
    case UseAppCommands => 24
    case Video => 25
    case ViewAuditLog => 26
    case ViewChannel => 27
  }

  // The stoatBits table; None for the explicit drops.
  function StoatBit(p: Permission): Option<BitPos> {
    match p
    case ManageChannel => Some(0)
    case ManageServer => Some(1)
    case ManageRoles => Some(2)
    case ManageEmoji => Some(4)
    case KickMembers => Some(6)
    case BanMembers => Some(7)
    case TimeoutMembers => Some(8)
    case ManageNicks => Some(11)
    case ViewChannel => Some(20)
    case ReadHistory => Some(21)
    case SendMessages => Some(22)
    case ManageMessages => Some(23)
    case ManageWebhooks => Some(24)
    case CreateInvite => Some(25)
    case EmbedLinks => Some(26)
    case AttachFiles => Some(27)
    case AddReactions => Some(29)
    case Connect => Some(30)
    case Speak => Some(31)
    case Video => Some(32)
    case MuteMembers => Some(33)
    case DeafenMembers => Some(34)
    case MoveMembers => Some(35)
    case MentionEveryone => Some(37)
    case ViewAuditLog => None
    case UseAppCommands => None
    case PrioritySpeaker => None
    case SendTTS => None
  }

  /* StoatBits: OR-fold over a permission list */

  function StoatMask(perms: seq<Permission>): Bits64 {
    set p | p in perms && StoatBit(p).Some? :: StoatBit(p).value
  }

  // bits holds the Stoat bits of the listed permissions and no others.
  ghost predicate BitsOf(perms: seq<Permission>, bits: Bits64) {
    forall k: BitPos :: k in bits <==> exists p :: p in perms && StoatBit(p) == Some(k)
  }

  lemma {:induction false} MaskBits(perms: seq<Permission>)
    ensures BitsOf(perms, StoatMask(perms))
  {
    forall k: BitPos ensures k in StoatMask(perms) <==> exists p :: p in perms && StoatBit(p) == Some(k) {}
  }

  lemma {:induction false} BitsUnique(perms: seq<Permission>, a: Bits64, b: Bits64)
    requires BitsOf(perms, a) && BitsOf(perms, b)
    ensures a == b
  {}

  method StoatBits(perms: seq<Permission>) returns (bits: Bits64)
    ensures bits == StoatMask(perms)
  {
    bits := {};
    for i := 0 to |perms|
      invariant bits == StoatMask(perms[..i])
    {
      assert perms[..i + 1] == perms[..i] + [perms[i]];
      match StoatBit(perms[i])
      case Some(bit) => bits := bits + {bit};
      case None =>
    }
    assert perms[..|perms|] == perms;
  }

  /* PermissionsFromBits: decode a Discord mask through the bitsToCanonical table */

  function Decoded(bits: Bits64, table: map<BitPos, Permission>, width: nat): seq<Permission>
    requires width <= 64
  {
    if width == 0 then []
    else
      var rest := Decoded(bits, table, width - 1);
      if width - 1 in bits && width - 1 in table then rest + [table[width - 1]] else rest
  }

  method PermissionsFromBits(bits: Bits64, table: map<BitPos, Permission>) returns (perms: seq<Permission>)
    ensures perms == Decoded(bits, table, 64)
  {
    perms := [];
    for pos := 0 to 64
      invariant perms == Decoded(bits, table, pos)
    {
      if pos in bits && pos in table {
        perms := perms + [table[pos]];
      }
    }
  }

  lemma {:induction false} DecodedMembers(bits: Bits64, table: map<BitPos, Permission>, width: nat, p: Permission)
    requires width <= 64
    ensures p in Decoded(bits, table, width) <==> exists b :: b in bits && b < width && b in table && table[b] == p
  {
    if width > 0 {
      DecodedMembers(bits, table, width - 1, p);
    }
  }

  ghost predicate Rising(s: seq<BitPos>) {
    forall i, j | 0 <= i < j < |s| :: s[i] < s[j]
  }

  /** Each set bit that is in the table contributes exactly one entry, and the entries come in ascending
      bit position. */
  lemma {:induction false} DecodedInOrder(bits: Bits64, table: map<BitPos, Permission>, width: nat)
    returns (positions: seq<BitPos>)
    requires width <= 64
    ensures |positions| == |Decoded(bits, table, width)| && Rising(positions)
    ensures forall b: BitPos :: b in positions <==> b in bits && b in table && b < width
    ensures forall i | 0 <= i < |positions| ::
      positions[i] in table && Decoded(bits, table, width)[i] == table[positions[i]]
  {
    positions := [];
    if width > 0 {
      positions := DecodedInOrder(bits, table, width - 1);
      assert forall i | 0 <= i < |positions| :: positions[i] in positions;
      if width - 1 in bits && width - 1 in table {
        positions := positions + [width - 1];
      }
    }
  }

  /* The composed translation Discord mask -> canonical -> Stoat mask */

  function Remap(bits: Bits64, table: map<BitPos, Permission>): Bits64 {
    StoatMask(Decoded(bits, table, 64))
  }

  // What the source's bitsToCanonical literal guarantees: no two Discord bits share a permission,
  // and its values are exactly the permissions with a Stoat bit.
  ghost predicate DiscordTable(table: map<BitPos, Permission>) {
    && InjectiveMap(table)
    && forall p :: StoatBit(p).Some? <==> p in table.Values
  }

  lemma {:induction false} StoatBitInjective(p: Permission, q: Permission)
    requires StoatBit(p).Some? && StoatBit(p) == StoatBit(q)
    ensures p == q
  {}

  // Position b of the Discord mask carries position k of the Stoat mask.
  ghost predicate Carries(table: map<BitPos, Permission>, b: BitPos, k: BitPos) {
    b in table && StoatBit(table[b]) == Some(k)
  }

  lemma {:induction false} RemapMember(bits: Bits64, table: map<BitPos, Permission>, k: BitPos)
    ensures k in Remap(bits, table) <==> exists b :: b in bits && Carries(table, b, k)
  {
    forall p: Permission
      ensures p in Decoded(bits, table, 64) <==> exists b :: b in bits && b < 64 && b in table && table[b] == p
    {
      DecodedMembers(bits, table, 64, p);
    }
  }

  /** Exact re-mapping: every Stoat bit in use has one Discord bit, and is set in the result
      exactly when that Discord bit is set in the input. */
  lemma {:induction false} RemapIsBitwise(bits: Bits64, table: map<BitPos, Permission>, p: Permission)
    returns (b: BitPos)
    requires DiscordTable(table) && StoatBit(p).Some?
    ensures forall c: BitPos :: Carries(table, c, StoatBit(p).value) <==> c == b
    ensures StoatBit(p).value in Remap(bits, table) <==> b in bits
  {
    assert p in table.Values;
    b :| b in table && table[b] == p;
    forall c: BitPos | Carries(table, c, StoatBit(p).value) ensures c == b {
      StoatBitInjective(table[c], p);
    }
    assert Carries(table, b, StoatBit(p).value);
    RemapMember(bits, table, StoatBit(p).value);
  }

  lemma {:induction false} RemapDistributesOverOr(x: Bits64, y: Bits64, table: map<BitPos, Permission>)
    ensures Remap(x + y, table) == Remap(x, table) + Remap(y, table)
  {
    forall k: BitPos ensures k in Remap(x + y, table) <==> k in Remap(x, table) + Remap(y, table) {
      RemapMember(x, table, k);
      RemapMember(y, table, k);
      RemapMember(x + y, table, k);
    }
  }

  /** A tri-state overwrite never becomes contradictory on the way to Stoat. */
  lemma {:induction false} RemapKeepsDisjoint(allow: Bits64, deny: Bits64, table: map<BitPos, Permission>)
    requires DiscordTable(table) && allow !! deny
    ensures Remap(allow, table) !! Remap(deny, table)
  {
    forall k: BitPos | k in Remap(allow, table) && k in Remap(deny, table) ensures false {
      RemapMember(allow, table, k);
      RemapMember(deny, table, k);
      var b :| b in allow && Carries(table, b, k);
      var c :| c in deny && Carries(table, c, k);
      StoatBitInjective(table[b], table[c]);
    }
  }
}
