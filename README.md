# uDraw remote-key decoding, modelled in Dafny

`hid-udraw.c` is the Linux HID driver for the THQ PS3 uDraw tablet. Most of this revision of the driver is glue to
the HID and input layers. What it actually contains is:

- `get_key`, which decodes the key byte of a remote report into a key index. The index is negated when the byte is
  the first half of a two-packet command.
- `udraw_key_table`, the 17-entry table from key index to input key code.
- `udraw_input_configured`, which copies that table into the driver's `keymap`, publishes it to the input device,
  enables key and repeat events, and sets one key bit per table entry. It then clears `KEY_RESERVED`.
- `udraw_raw_event`. As compiled, it returns 0 and leaves the report to hidraw and hiddev.
- The remote-key state machine and its key-up timer `key_up_tick`. Its body sits under `#if 0`, so it is **not
  compiled**. It uses a `key_up_timer` field that `struct udraw` does not declare. It is modelled anyway, as the
  driver's intended behaviour.

The project has four modules:

- `KeyDecode` (`key_decode.dfy`) models `get_key` over bytes (`bv8`). Its partner is the same decoding written in
  plain arithmetic: `KeyField` for bits 1..4 and `IsTwoPacket` for bit 6.
- `KeyMap` (`key_map.dfy`) holds the key table and `SetBits`, a specification of repeated `set_bit` on a bitmap.
- `RemoteKeys` (`remote_keys.dfy`) specifies the compiled-out handler and the tick as pure functions over the state
  `(current_key, prev_key_idx)`. `Run` applies a whole stream of reports and timer ticks.
- `UdrawDriver` (`udraw_driver.dfy`) has the classes `Udraw` and `InputDev`. Their methods update fields and arrays as
  the C code does, and each method is proved against the specification functions above.

Key codes are naturals with the Linux input layer's values (`KEY_RESERVED` = 0, `KEY_ENTER` = 28, `KEY_VOLUMEDOWN` =
114, `KEY_VOLUMEUP` = 115, `KEY_MENU` = 139, `KEY_BACK` = 158, `KEY_FORWARD` = 159, `KEY_PLAYPAUSE` = 164, `KEY_CNT`
= 0x300, `EV_KEY` = 1, `EV_REP` = 0x14). The header that defines them, `input-event-codes.h`, is not part of this
model. Most proofs depend only on `KEY_RESERVED` being 0 and on every code being below `KEY_CNT`.
`KeyMap.ConfiguredFromEmpty` also needs the seven remote codes to be nonzero, and `RemoteKeys.DocumentedKeyCodes`
names the concrete codes of each table row.

Calls into the input layer become an ordered log, `InputDev.events`:

- `input_report_key` becomes `KeyReport(code, value)`.
- `input_sync` becomes `Sync`.
- The `dev_err` of `battery_flat` becomes `FlatBatteryWarning`.

The key bitmap `keybit` is an `array<bool>` of `KEY_CNT` bits. `evbit` is the set of enabled event types.

Behaviour of the source that the model reproduces:

- `get_key` of 0x40 or 0x41 is 0. The two-packet flag is then lost, so the byte decodes as the one-packet key 0
  (`KEY_RESERVED`).
- While a first half is pending (`prev_key_idx > 0`), the next key-down report presses the remembered key and ignores
  its own key byte.
- A first-half key-down packet reports a held key released but does not clear `current_key`. A later tick therefore
  reports the same release a second time.
- A key-repeat report presses `current_key` even when it is 0.
- The comment over `get_key` says the key sits in "bits 2..9". The code reads bits 1..4 (counting from 0), and the
  model follows the code.

## Model

| member | source | states |
|---|---|---|
| KeyDecode.GetKey | hid-udraw.c:62-94 | The result is in [-15, 15]. It equals bits 1..4 of the byte, negated exactly when bit 6 (the two-packet flag) is set. |
| KeyDecode.GetKeyIgnoresBit0 | hid-udraw.c:67-87 | Flipping bit 0 never changes the decoded key ("0xNN or 0xNN+1"). |
| KeyDecode.GetKeySign | hid-udraw.c:84-93 | The result is negative iff the two-packet flag is set and the key field is nonzero. Otherwise it is the key field, which is non-negative. With the flag set it is the negated field. |
| KeyDecode.GetKeyMatchesTable | hid-udraw.c:67-85 | Bytes 0x00..0x0f decode to byte/2. Bytes 0x50..0x5f decode to -((byte-0x40)/2), that is keys 8..15 flagged as two-packet. |
| KeyDecode.GetKeyTableRows | hid-udraw.c:67-82 | Concrete rows of the comment table: 0x02→1, 0x04→2, …, 0x0e→7, 0x50→-8, 0x5c→-14, 0x5e and 0x5f→-15. |
| KeyDecode.GetKeyZeroTwoPacket | hid-udraw.c:87-93 | A flagged byte with key field 0 (0x40, 0x41) decodes to 0, the same value as the one-packet key 0. |
| KeyMap.KeyTableShape | hid-udraw.c:33-51 | The key table has 17 entries, and each is a valid key-bitmap position. |
| KeyMap.SetBits | hid-udraw.c:213-214 | Setting bits for a list of codes keeps the bitmap's length. |
| KeyMap.SetBitsAt | hid-udraw.c:213-214 | After the codes are set, a bit is set iff it was set before or its code is in the list. |
| KeyMap.ConfiguredKeyBits | hid-udraw.c:213-215 | The key bitmap after configuration keeps its KEY_CNT bits, and KEY_RESERVED is never set in it. |
| KeyMap.ConfiguredKeyBitsAt | hid-udraw.c:213-215 | After set_bit of every table code and then clear_bit(KEY_RESERVED), bit c is set iff c is not KEY_RESERVED and c was set before or is a table code. |
| KeyMap.ConfiguredFromEmpty | hid-udraw.c:213-215 | From an empty bitmap, configuration enables exactly the seven remote keys: MENU, PLAYPAUSE, FORWARD, BACK, VOLUMEUP, VOLUMEDOWN, ENTER. |
| RemoteKeys.KeyIndexInBounds | hid-udraw.c:153-170 | A non-negative decoded key is a valid keymap index. The negation of a negative one is in 1..15, so a remembered index is valid too. |
| RemoteKeys.DocumentedKeyCodes | hid-udraw.c:67-82 | Both bytes of every comment row ("0xNN or 0xNN+1") map through the key table to the key code that row names. For the 0x5_ rows the negated result is used. Rows 0x50..0x5b map to KEY_RESERVED. |
| RemoteKeys.HandleReport | hid-udraw.c:138-190 | Handling a report keeps prev_key_idx in 0..15 and current_key a key code. A report whose length is not 5 changes nothing and emits nothing. |
| RemoteKeys.KeyUpTick | hid-udraw.c:113-125 | After a tick no key is held and prev_key_idx is unchanged. A key-up is emitted iff a key was held. |
| RemoteKeys.FirstHalfRemembered | hid-udraw.c:152-171 | A key-down first half, with no key already pending, records its key index, which is in 1..15. It keeps current_key and emits only the release of a held key. |
| RemoteKeys.SecondHalfPresses | hid-udraw.c:149-167 | A key-down report with a pending index releases any held key, presses keymap[prev_key_idx] and clears the pending index. It ignores its own key byte. |
| RemoteKeys.SinglePacketPresses | hid-udraw.c:149-167 | A one-packet key-down releases any held key and then presses keymap[key field]. |
| RemoteKeys.OtherReportResetsPending | hid-udraw.c:175-190 | Any other 5-byte report clears prev_key_idx and keeps current_key. It emits a key-down of current_key for a repeat report, a warning for a flat-battery report, and nothing otherwise. |
| RemoteKeys.TwoPacketCommand | hid-udraw.c:152-170 | A first half announcing index k, followed by any key-down report, leaves keymap[k] held and nothing pending. |
| RemoteKeys.Apply | hid-udraw.c:113-194 | One input, either a report for udraw_raw_event or a tick of key_up_tick, keeps the key state valid. |
| RemoteKeys.Run | hid-udraw.c:127-194 | Over any stream of reports and timer ticks, the state stays valid, so every keymap lookup stays in bounds. |
| RemoteKeys.RunAppend | hid-udraw.c:127-194 | Running two streams one after the other gives the same state and log as running their concatenation. |
| RemoteKeys.MalformedReportsIgnored | hid-udraw.c:138-139 | Any number of reports whose length is not 5 leaves the state unchanged and emits nothing. |
| RemoteKeys.TickLeavesNoKeyHeld | hid-udraw.c:120-123 | Whatever came before, no key is held after a timer tick. |
| UdrawDriver.InputDev.ReportKeyUp | hid-udraw.c:96-100 | Appends a release of the key, then a sync. |
| UdrawDriver.InputDev.ReportKeyDown | hid-udraw.c:102-106 | Appends a press of the key, then a sync. |
| UdrawDriver.InputDev.BatteryFlat | hid-udraw.c:108-111 | Appends the flat-battery warning. |
| UdrawDriver.Udraw.constructor | hid-udraw.c:232-238 | The zero-filled driver object: empty keymap, no key held, nothing pending, no input device yet. |
| UdrawDriver.Udraw.InputConfigured | hid-udraw.c:197-218 | Returns 0. Sets input_dev and publishes the keymap with keycodesize 2 and keycodemax 17. Enables EV_KEY and EV_REP. Leaves keymap equal to the key table entry by entry. Leaves keybit equal to the earlier bits plus every table code, with KEY_RESERVED clear. The key state is unchanged. |
| UdrawDriver.Udraw.RawEvent | hid-udraw.c:192-194 | The compiled handler returns 0 and changes nothing. |
| UdrawDriver.Udraw.RemoteRawEvent | hid-udraw.c:132-191 | The compiled-out handler returns 0. Its new key state and the events it appends are exactly those given by HandleReport. |
| UdrawDriver.Udraw.KeyUpTick | hid-udraw.c:113-125 | The new key state and the appended events are exactly those of the pure KeyUpTick. |

## Left out

- `udraw_probe` and `udraw_remove`: allocation, `hid_parse` and `hid_hw_start`/`hid_hw_stop` are calls into the HID
  core and device lifecycle. Only the zeroed state from `kzalloc` is kept, as the `Udraw` constructor.
- `udraw_input_mapping`: it always returns -1.
- The device ID table, the driver structure and the module macros: these are registration only.
- The spinlock around `current_key`, because it is concurrency. Each method is modelled as running atomically.
- `setup_timer` and `mod_timer` with `jiffies + HZ/8`, because they are timing. The tick is an input that any caller
  may supply at any point, so the model does not require a tick to follow a repeat report.
- The `hid` and `report` arguments of `udraw_raw_event` are not modelled. Its `len` argument is the length of the
  byte sequence.
- Remapping of the keymap by user space through the input layer's keycode interface: it is outside this driver. The
  model only writes the keymap in `InputConfigured`.
- Tablet reports (buttons, d-pad, pen, touch, pressure, accelerometer) are not decoded anywhere in this revision of
  `hid-udraw.c`, so there is nothing to model.
