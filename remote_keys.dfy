/**
 * The remote-key handling of the uDraw report handler and its key-up timer,
 * as a state machine over (current_key, prev_key_idx). In hid-udraw.c this
 * handling sits under `#if 0` and is not compiled.
 */
module RemoteKeys {
  import opened KeyDecode
  import opened KeyMap

  /** Only reports of this length carry remote keys. */
  const REPORT_LEN: nat := 5
  /** Prefix of a key-down report; byte 4 holds the key. */
  const KEYDOWN: seq<bv8> := [0x25, 0x87, 0xee]
  /** Prefix of a key-repeat report. */
  const KEYREPEAT: seq<bv8> := [0x26]
  /** Prefix of a flat-battery report. */
  const FLATBATTERY: seq<bv8> := [0x25, 0x87, 0xe0]

  /** What the handler emits: input_report_key, input_sync and the kernel-log warning. */
  datatype Output = KeyReport(code: int, value: int) | Sync | FlatBatteryWarning

  /** The driver's key state: the key held down and the pending first half of a two-packet command. */
  datatype KeyState = KeyState(currentKey: int, prevKeyIdx: int)

  /** A new state with what was emitted on the way to it. */
  datatype Step = Step(state: KeyState, out: seq<Output>)

  /** memcmp(data, p, sizeof(p)) == 0. */
  predicate HasPrefix(data: seq<bv8>, p: seq<bv8>)
  {
    |p| <= |data| && data[..|p|] == p
  }

  /** key_up: the key is reported released, then the batch is flushed. */
  function KeyUp(key: int): (out: seq<Output>)
  {
    [KeyReport(key, 0), Sync]
  }

  /** key_down: the key is reported pressed, then the batch is flushed. */
  function KeyDown(key: int): (out: seq<Output>)
  {
    [KeyReport(key, 1), Sync]
  }

  /**
   * The state the handler keeps: a pending index is 0 or a key index taken
   * from a two-packet first half, and the held key is a key code.
   */
  predicate ValidState(s: KeyState)
  {
    0 <= s.prevKeyIdx <= MAX_KEY_INDEX && 0 <= s.currentKey < 0x1_0000
  }

  /** The zero state of a freshly allocated driver. */
  const INITIAL: KeyState := KeyState(0, 0)

  /** Every index the handler looks up in the keymap is in bounds. */
  lemma KeyIndexInBounds(data: bv8)
    ensures 0 <= GetKey(data) ==> GetKey(data) < KEYMAP_SIZE
    ensures GetKey(data) < 0 ==> 1 <= -GetKey(data) <= MAX_KEY_INDEX < KEYMAP_SIZE
  {
  }

  /**
   * The key codes the comment table gives for each remote button, for both
   * bytes of every row.
   */
  lemma DocumentedKeyCodes()
    ensures forall d: bv8 :: d < 0x02 ==> KEY_TABLE[GetKey(d)] == KEY_RESERVED
    ensures forall d: bv8 :: 0x02 <= d < 0x04 ==> KEY_TABLE[GetKey(d)] == KEY_MENU
    ensures forall d: bv8 :: 0x04 <= d < 0x06 ==> KEY_TABLE[GetKey(d)] == KEY_PLAYPAUSE
    ensures forall d: bv8 :: 0x06 <= d < 0x08 ==> KEY_TABLE[GetKey(d)] == KEY_FORWARD
    ensures forall d: bv8 :: 0x08 <= d < 0x0a ==> KEY_TABLE[GetKey(d)] == KEY_BACK
    ensures forall d: bv8 :: 0x0a <= d < 0x0c ==> KEY_TABLE[GetKey(d)] == KEY_VOLUMEUP
    ensures forall d: bv8 :: 0x0c <= d < 0x0e ==> KEY_TABLE[GetKey(d)] == KEY_VOLUMEDOWN
    ensures forall d: bv8 :: 0x0e <= d < 0x10 ==> KEY_TABLE[GetKey(d)] == KEY_RESERVED
    ensures forall d: bv8 :: 0x50 <= d < 0x5c ==> KEY_TABLE[-GetKey(d)] == KEY_RESERVED
    ensures forall d: bv8 :: 0x5c <= d < 0x5e ==> KEY_TABLE[-GetKey(d)] == KEY_ENTER
    ensures forall d: bv8 :: 0x5e <= d < 0x60 ==> KEY_TABLE[-GetKey(d)] == KEY_PLAYPAUSE
  {
    forall d: bv8 | d < 0x10 || 0x50 <= d < 0x60
      ensures d < 0x10 ==> GetKey(d) == d as int / 2
      ensures 0x50 <= d < 0x60 ==> GetKey(d) == -((d as int - 0x40) / 2)
    {
      GetKeyMatchesTable(d);
    }
  }

  /** The remote-key part of udraw_raw_event on one report. */
  function HandleReport(s: KeyState, data: seq<bv8>, keymap: seq<KeyCode>): (r: Step)
    requires |keymap| == KEYMAP_SIZE && ValidState(s)
    ensures ValidState(r.state)
    ensures |data| != REPORT_LEN ==> r == Step(s, [])
  {
    if |data| != REPORT_LEN then Step(s, [])
    else if HasPrefix(data, KEYDOWN) then
      var released := if s.currentKey != 0 then KeyUp(s.currentKey) else [];
      var index := if s.prevKeyIdx > 0 then s.prevKeyIdx else GetKey(data[4]);
      if index >= 0 then
        Step(KeyState(keymap[index], 0), released + KeyDown(keymap[index]))
      else
        Step(KeyState(s.currentKey, -index), released)
    else if HasPrefix(data, KEYREPEAT) then
      Step(KeyState(s.currentKey, 0), KeyDown(s.currentKey))
    else
      Step(KeyState(s.currentKey, 0), if HasPrefix(data, FLATBATTERY) then [FlatBatteryWarning] else [])
  }

  /** key_up_tick: a held key is released and forgotten; with no key held nothing happens. */
  function KeyUpTick(s: KeyState): (r: Step)
    ensures r.state.currentKey == 0 && r.state.prevKeyIdx == s.prevKeyIdx
    ensures r.out == (if s.currentKey != 0 then KeyUp(s.currentKey) else [])
    ensures ValidState(s) ==> ValidState(r.state)
  {
    if s.currentKey != 0 then Step(KeyState(0, s.prevKeyIdx), KeyUp(s.currentKey)) else Step(s, [])
  }

  /** A key-down report that opens a two-packet command remembers its index and holds no new key. */
  lemma FirstHalfRemembered(s: KeyState, data: seq<bv8>, keymap: seq<KeyCode>)
    requires |keymap| == KEYMAP_SIZE && ValidState(s)
    requires |data| == REPORT_LEN && HasPrefix(data, KEYDOWN)
    requires s.prevKeyIdx == 0 && IsTwoPacket(data[4]) && KeyField(data[4]) != 0
    ensures HandleReport(s, data, keymap).state == KeyState(s.currentKey, KeyField(data[4]))
    ensures 1 <= KeyField(data[4]) <= MAX_KEY_INDEX
    ensures HandleReport(s, data, keymap).out == if s.currentKey != 0 then KeyUp(s.currentKey) else []
  {
  }

  /** A key-down report with a pending index presses that key, whatever its own key byte says. */
  lemma SecondHalfPresses(s: KeyState, data: seq<bv8>, keymap: seq<KeyCode>)
    requires |keymap| == KEYMAP_SIZE && ValidState(s)
    requires |data| == REPORT_LEN && HasPrefix(data, KEYDOWN)
    requires s.prevKeyIdx > 0
    ensures HandleReport(s, data, keymap).state == KeyState(keymap[s.prevKeyIdx], 0)
    ensures HandleReport(s, data, keymap).out ==
      (if s.currentKey != 0 then KeyUp(s.currentKey) else []) + KeyDown(keymap[s.prevKeyIdx])
  {
  }

  /** A one-packet key-down report presses keymap[GetKey(byte 4)], releasing any held key first. */
  lemma SinglePacketPresses(s: KeyState, data: seq<bv8>, keymap: seq<KeyCode>)
    requires |keymap| == KEYMAP_SIZE && ValidState(s)
    requires |data| == REPORT_LEN && HasPrefix(data, KEYDOWN)
    requires s.prevKeyIdx == 0 && GetKey(data[4]) >= 0
    ensures HandleReport(s, data, keymap).state == KeyState(keymap[KeyField(data[4])], 0)
    ensures HandleReport(s, data, keymap).out ==
      (if s.currentKey != 0 then KeyUp(s.currentKey) else []) + KeyDown(keymap[KeyField(data[4])])
  {
  }

  /** Any other report of the right length cancels a pending two-packet command and keeps the held key. */
  lemma OtherReportResetsPending(s: KeyState, data: seq<bv8>, keymap: seq<KeyCode>)
    requires |keymap| == KEYMAP_SIZE && ValidState(s)
    requires |data| == REPORT_LEN && !HasPrefix(data, KEYDOWN)
    ensures HandleReport(s, data, keymap).state == KeyState(s.currentKey, 0)
    ensures HandleReport(s, data, keymap).out ==
      if HasPrefix(data, KEYREPEAT) then KeyDown(s.currentKey)
      else if HasPrefix(data, FLATBATTERY) then [FlatBatteryWarning]
      else []
  {
  }

  /**
   * A two-packet command: the first half announces index k, and the next
   * key-down report presses keymap[k] and clears the pending index.
   */
  lemma TwoPacketCommand(s: KeyState, first: seq<bv8>, second: seq<bv8>, keymap: seq<KeyCode>)
    requires |keymap| == KEYMAP_SIZE && ValidState(s) && s.prevKeyIdx == 0
    requires |first| == REPORT_LEN && HasPrefix(first, KEYDOWN)
    requires IsTwoPacket(first[4]) && KeyField(first[4]) != 0
    requires |second| == REPORT_LEN && HasPrefix(second, KEYDOWN)
    ensures var mid := HandleReport(s, first, keymap).state;
            HandleReport(mid, second, keymap).state == KeyState(keymap[KeyField(first[4])], 0)
  {
    FirstHalfRemembered(s, first, keymap);
    SecondHalfPresses(HandleReport(s, first, keymap).state, second, keymap);
  }

  /** What reaches the driver: a report, or the key-up timer firing. */
  datatype Input = Report(data: seq<bv8>) | Tick

  /** One input applied to a state. */
  function Apply(s: KeyState, input: Input, keymap: seq<KeyCode>): (r: Step)
    requires |keymap| == KEYMAP_SIZE && ValidState(s)
    ensures ValidState(r.state)
  {
    match input
    case Report(data) => HandleReport(s, data, keymap)
    case Tick => KeyUpTick(s)
  }

  /**
   * A stream of inputs applied in order, with everything emitted along the
   * way. The handler's state stays valid along any stream, so every keymap
   * lookup it makes is in bounds.
   */
  function Run(s: KeyState, inputs: seq<Input>, keymap: seq<KeyCode>): (r: Step)
    requires |keymap| == KEYMAP_SIZE && ValidState(s)
    ensures ValidState(r.state)
    decreases |inputs|
  {
    if inputs == [] then Step(s, [])
    else
      var first := Apply(s, inputs[0], keymap);
      var rest := Run(first.state, inputs[1..], keymap);
      Step(rest.state, first.out + rest.out)
  }

  /** Running two streams one after the other is running their concatenation. */
  lemma {:induction false} RunAppend(s: KeyState, a: seq<Input>, b: seq<Input>, keymap: seq<KeyCode>)
    requires |keymap| == KEYMAP_SIZE && ValidState(s)
    ensures var ra := Run(s, a, keymap);
            var rb := Run(ra.state, b, keymap);
            Run(s, a + b, keymap) == Step(rb.state, ra.out + rb.out)
    decreases |a|
  {
    if a == [] {
      assert a + b == b;
    } else {
      var first := Apply(s, a[0], keymap);
      assert (a + b)[0] == a[0];
      assert (a + b)[1..] == a[1..] + b;
      RunAppend(first.state, a[1..], b, keymap);
      var tail := Run(first.state, a[1..], keymap);
      var rb := Run(tail.state, b, keymap);
      assert Run(s, a, keymap) == Step(tail.state, first.out + tail.out);
      assert first.out + (tail.out + rb.out) == (first.out + tail.out) + rb.out;
    }
  }

  /** Reports of any length other than REPORT_LEN, however many, change nothing and emit nothing. */
  lemma {:induction false} MalformedReportsIgnored(s: KeyState, inputs: seq<Input>, keymap: seq<KeyCode>)
    requires |keymap| == KEYMAP_SIZE && ValidState(s)
    requires forall i :: 0 <= i < |inputs| ==> inputs[i].Report? && |inputs[i].data| != REPORT_LEN
    ensures Run(s, inputs, keymap) == Step(s, [])
    decreases |inputs|
  {
    if inputs != [] {
      MalformedReportsIgnored(s, inputs[1..], keymap);
    }
  }

  /** After a timer tick no key is held, whatever came before. */
  lemma {:induction false} TickLeavesNoKeyHeld(s: KeyState, inputs: seq<Input>, keymap: seq<KeyCode>)
    requires |keymap| == KEYMAP_SIZE && ValidState(s)
    ensures Run(s, inputs + [Tick], keymap).state.currentKey == 0
  {
    RunAppend(s, inputs, [Tick], keymap);
  }
}
