/** Decoding of the key byte of a uDraw remote report (get_key in hid-udraw.c). */
module KeyDecode {

  /** The four key-index bits, once shifted down by one. */
  const KEY_MASK: bv8 := 0x0F
  /** Set when the byte is the first half of a two-packet command. */
  const TWO_PACKETS_MASK: bv8 := 0x40

  /** Largest magnitude a key index can have (a 4-bit field). */
  const MAX_KEY_INDEX: int := 15

  /** Reference reading of the key field, in plain arithmetic: bits 1..4 of the byte. */
  function KeyField(data: bv8): (k: int)
  {
    (data as int / 2) % 16
  }

  /** Reference reading of the two-packet flag, in plain arithmetic: bit 6 of the byte. */
  predicate IsTwoPacket(data: bv8)
  {
    (data as int / 64) % 2 == 1
  }

  /**
   * The key index carried by a data byte, negated when the byte announces
   * the first half of a two-packet command.
   */
  function GetKey(data: bv8): (key: int)
    ensures -MAX_KEY_INDEX <= key <= MAX_KEY_INDEX
    ensures key == if IsTwoPacket(data) then -KeyField(data) else KeyField(data)
  {
    MaskIsRemainder(data >> 1);
    ShiftIsHalving(data);
    TwoPacketBit(data);
    var key := ((data >> 1) & KEY_MASK) as int;
    if data & TWO_PACKETS_MASK != 0 then -key else key
  }

  /** Masking with KEY_MASK keeps the value modulo 16. */
  lemma MaskIsRemainder(b: bv8)
    ensures (b & KEY_MASK) as int == b as int % 16
  {
  }

  /** Shifting right by one halves the value. */
  lemma ShiftIsHalving(b: bv8)
    ensures (b >> 1) as int == b as int / 2
  {
  }

  /** TWO_PACKETS_MASK tests bit 6. */
  lemma TwoPacketBit(b: bv8)
    ensures (b & TWO_PACKETS_MASK != 0) == IsTwoPacket(b)
  {
  }

  /** Bit 0 never takes part: 0xNN and 0xNN+1 decode alike. */
  lemma GetKeyIgnoresBit0(data: bv8)
    ensures GetKey(data ^ 1) == GetKey(data)
  {
  }

  /** The sign of the result tells a two-packet first half apart, unless its index is 0. */
  lemma GetKeySign(data: bv8)
    ensures GetKey(data) < 0 <==> IsTwoPacket(data) && KeyField(data) != 0
    ensures !IsTwoPacket(data) ==> GetKey(data) == KeyField(data) >= 0
    ensures IsTwoPacket(data) ==> GetKey(data) == -KeyField(data) <= 0
  {
  }

  /** Both halves of the comment table: bytes 0x00..0x0f and 0x50..0x5f. */
  lemma GetKeyMatchesTable(data: bv8)
    ensures data < 0x10 ==> GetKey(data) == data as int / 2
    ensures 0x50 <= data < 0x60 ==> GetKey(data) == -((data as int - 0x40) / 2)
  {
  }

  /** The concrete rows of the comment table. */
  lemma GetKeyTableRows()
    ensures GetKey(0x00) == 0 && GetKey(0x01) == 0
    ensures GetKey(0x02) == 1 && GetKey(0x04) == 2 && GetKey(0x06) == 3 && GetKey(0x08) == 4
    ensures GetKey(0x0a) == 5 && GetKey(0x0c) == 6 && GetKey(0x0e) == 7
    ensures GetKey(0x50) == -8 && GetKey(0x5c) == -14 && GetKey(0x5e) == -15 && GetKey(0x5f) == -15
  {
  }

  /**
   * A two-packet flag over a zero key field decodes to 0, which the caller
   * cannot tell apart from the one-packet key 0.
   */
  lemma GetKeyZeroTwoPacket()
    ensures GetKey(0x40) == 0 && GetKey(0x41) == 0 && IsTwoPacket(0x40)
  {
  }
}
