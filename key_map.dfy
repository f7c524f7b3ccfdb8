/** The remote's key table and the key bitmap built from it. */
module KeyMap {

  /** A key code, stored as an `unsigned short`. */
  type KeyCode = x: int | 0 <= x < 0x1_0000

  // Key codes of the Linux input layer.
  const KEY_RESERVED: KeyCode := 0
  const KEY_ENTER: KeyCode := 28
  const KEY_VOLUMEDOWN: KeyCode := 114
  const KEY_VOLUMEUP: KeyCode := 115
  const KEY_MENU: KeyCode := 139
  const KEY_BACK: KeyCode := 158
  const KEY_FORWARD: KeyCode := 159
  const KEY_PLAYPAUSE: KeyCode := 164

  /** Number of bits in a device's key bitmap. */
  const KEY_CNT: nat := 0x300

  /** udraw_key_table: the key code for each key index. */
  const KEY_TABLE: seq<KeyCode> := [
    KEY_RESERVED, KEY_MENU, KEY_PLAYPAUSE, KEY_FORWARD,
    KEY_BACK, KEY_VOLUMEUP, KEY_VOLUMEDOWN, KEY_RESERVED,
    KEY_RESERVED, KEY_RESERVED, KEY_RESERVED, KEY_RESERVED,
    KEY_RESERVED, KEY_RESERVED, KEY_ENTER, KEY_PLAYPAUSE,
    KEY_RESERVED
  ]

  /** ARRAY_SIZE(udraw_key_table), the length of every keymap. */
  const KEYMAP_SIZE: nat := 17

  /** Every code of a table fits in a bitmap of `n` bits. */
  predicate CodesBelow(codes: seq<KeyCode>, n: nat)
  {
    forall i :: 0 <= i < |codes| ==> codes[i] < n
  }

  /** The table has KEYMAP_SIZE entries, each a valid bitmap position. */
  lemma KeyTableShape()
    ensures |KEY_TABLE| == KEYMAP_SIZE
    ensures CodesBelow(KEY_TABLE, KEY_CNT)
  {
  }

  /**
   * The bitmap after set_bit of each code in turn. Bits are only ever set,
   * so bits that were already set stay set.
   */
  function SetBits(bits: seq<bool>, codes: seq<KeyCode>): (r: seq<bool>)
    requires CodesBelow(codes, |bits|)
    ensures |r| == |bits|
    decreases |codes|
  {
    if codes == [] then bits
    else SetBits(bits, codes[..|codes| - 1])[codes[|codes| - 1] := true]
  }

  /** A bit is set afterwards exactly when it was set before or its code is in the table. */
  lemma {:induction false} SetBitsAt(bits: seq<bool>, codes: seq<KeyCode>, c: nat)
    requires CodesBelow(codes, |bits|)
    requires c < |bits|
    ensures SetBits(bits, codes)[c] <==> bits[c] || c in codes
    decreases |codes|
  {
    if codes != [] {
      var front := codes[..|codes| - 1];
      SetBitsAt(bits, front, c);
      assert codes == front + [codes[|codes| - 1]];
    }
  }

  /** The key bitmap after configuration: every table code set, then KEY_RESERVED cleared. */
  function ConfiguredKeyBits(bits: seq<bool>): (r: seq<bool>)
    requires |bits| == KEY_CNT
    ensures |r| == KEY_CNT
    ensures !r[KEY_RESERVED]
  {
    KeyTableShape();
    SetBits(bits, KEY_TABLE)[KEY_RESERVED := false]
  }

  /**
   * After configuration the bitmap holds every earlier bit and every code of
   * the table, except KEY_RESERVED, which is never held.
   */
  lemma ConfiguredKeyBitsAt(bits: seq<bool>, c: nat)
    requires |bits| == KEY_CNT
    requires c < KEY_CNT
    ensures ConfiguredKeyBits(bits)[c] <==> c != KEY_RESERVED && (bits[c] || c in KEY_TABLE)
  {
    KeyTableShape();
    SetBitsAt(bits, KEY_TABLE, c);
  }

  /** Starting from an empty bitmap, exactly the seven distinct remote keys are enabled. */
  lemma ConfiguredFromEmpty(bits: seq<bool>, c: nat)
    requires |bits| == KEY_CNT
    requires forall i :: 0 <= i < KEY_CNT ==> !bits[i]
    requires c < KEY_CNT
    ensures ConfiguredKeyBits(bits)[c] <==>
      c in {KEY_MENU, KEY_PLAYPAUSE, KEY_FORWARD, KEY_BACK, KEY_VOLUMEUP, KEY_VOLUMEDOWN, KEY_ENTER}
  {
    ConfiguredKeyBitsAt(bits, c);
  }
}
