/**
 * The driver object of hid-udraw.c: its keymap, the input-device setup done
 * once the input device is configured, the live report handler, and the
 * compiled-out remote-key handler with its key-up tick.
 */
module UdrawDriver {
  import opened KeyDecode
  import opened KeyMap
  import opened RemoteKeys

  /** Event types of the Linux input layer. */
  const EV_KEY: nat := 0x01
  const EV_REP: nat := 0x14

  /** sizeof(unsigned short), the size of one keymap entry. */
  const KEYCODE_SIZE: nat := 2

  /** The part of the input device this driver touches. */
  class InputDev {
    /** The keymap the input layer reads key codes from; unset until configured. */
    var keycode: array?<KeyCode>
    var keycodesize: nat
    var keycodemax: nat
    /** The event types the device reports. */
    var evbit: set<nat>
    /** The key bitmap: keybit[c] holds when the device can report key c. */
    const keybit: array<bool>
    /** Everything reported through this device, in order. */
    var events: seq<Output>

    constructor ()
      ensures keycode == null && keycodesize == 0 && keycodemax == 0 && evbit == {} && events == []
      ensures fresh(keybit) && keybit.Length == KEY_CNT
      ensures forall c :: 0 <= c < KEY_CNT ==> !keybit[c]
    {
      keycode := null;
      keycodesize := 0;
      keycodemax := 0;
      evbit := {};
      keybit := new bool[KEY_CNT](_ => false);
      events := [];
    }

    /** key_up: report `key` released and flush. */
    method ReportKeyUp(key: int)
      modifies this`events
      ensures events == old(events) + KeyUp(key)
    {
      events := events + [KeyReport(key, 0)];
      events := events + [Sync];
    }

    /** key_down: report `key` pressed and flush. */
    method ReportKeyDown(key: int)
      modifies this`events
      ensures events == old(events) + KeyDown(key)
    {
      events := events + [KeyReport(key, 1)];
      events := events + [Sync];
    }

    /** battery_flat: log the flat-battery warning against the device. */
    method BatteryFlat()
      modifies this`events
      ensures events == old(events) + [FlatBatteryWarning]
    {
      events := events + [FlatBatteryWarning];
    }
  }

  /** struct udraw, without its lock and its back pointer to the HID device. */
  class Udraw {
    var inputDev: InputDev?
    const keymap: array<KeyCode>
    /** The key currently held down, 0 for none. */
    var currentKey: int
    /** Key index of the first half of a two-packet command, 0 for none. */
    var prevKeyIdx: int

    ghost predicate Valid()
      reads this
    {
      keymap.Length == KEYMAP_SIZE && ValidState(KeyState(currentKey, prevKeyIdx))
    }

    /** The key state the report handler works on. */
    function State(): (s: KeyState)
      reads this
    {
      KeyState(currentKey, prevKeyIdx)
    }

    /** The zero-filled object allocated at probe time. */
    constructor ()
      ensures Valid() && fresh(keymap)
      ensures inputDev == null && State() == INITIAL
      ensures forall i :: 0 <= i < KEYMAP_SIZE ==> keymap[i] == KEY_RESERVED
    {
      inputDev := null;
      keymap := new KeyCode[KEYMAP_SIZE](_ => KEY_RESERVED);
      currentKey := 0;
      prevKeyIdx := 0;
    }

    /**
     * udraw_input_configured: hook the input device up, publish the keymap,
     * enable key and repeat events, copy the key table in and enable every
     * key it names except KEY_RESERVED.
     */
    method InputConfigured(dev: InputDev) returns (r: int)
      requires Valid() && dev.keybit.Length == KEY_CNT
      modifies this`inputDev, dev`keycode, dev`keycodesize, dev`keycodemax, dev`evbit, keymap, dev.keybit
      ensures Valid() && r == 0
      ensures inputDev == dev && State() == old(State())
      ensures dev.keycode == keymap && dev.keycodesize == KEYCODE_SIZE && dev.keycodemax == KEYMAP_SIZE
      ensures dev.evbit == {EV_KEY, EV_REP}
      ensures keymap[..] == KEY_TABLE
      ensures dev.keybit[..] == ConfiguredKeyBits(old(dev.keybit[..]))
      ensures forall c :: 0 <= c < KEY_CNT ==>
        (dev.keybit[c] <==> c != KEY_RESERVED && (old(dev.keybit[c]) || c in KEY_TABLE))
    {
      inputDev := dev;
      dev.keycode := keymap;
      dev.keycodesize := KEYCODE_SIZE;
      dev.keycodemax := keymap.Length;
      dev.evbit := {EV_KEY, EV_REP};

      forall i | 0 <= i < KEYMAP_SIZE {
        keymap[i] := KEY_TABLE[i];
      }
      assert keymap[..] == KEY_TABLE;
      KeyTableShape();

      ghost var before := dev.keybit[..];
      var i := 0;
      while i < |KEY_TABLE|
        invariant 0 <= i <= |KEY_TABLE|
        invariant keymap[..] == KEY_TABLE
        modifies dev.keybit
        invariant dev.keybit[..] == SetBits(before, keymap[..i])
      {
        assert keymap[..i + 1][..i] == keymap[..i];
        dev.keybit[keymap[i]] := true;
        i := i + 1;
      }
      assert keymap[..i] == KEY_TABLE;
      dev.keybit[KEY_RESERVED] := false;
      assert before == old(dev.keybit[..]);

      forall c | 0 <= c < KEY_CNT
        ensures dev.keybit[c] <==> c != KEY_RESERVED && (before[c] || c in KEY_TABLE)
      {
        ConfiguredKeyBitsAt(before, c);
      }
      r := 0;
    }

    /**
     * udraw_raw_event as compiled: the report is left to hidraw and hiddev,
     * nothing changes and 0 is returned.
     */
    method RawEvent(data: seq<bv8>) returns (r: int)
      ensures r == 0
    {
      r := 0;
    }

    /** The compiled-out body of udraw_raw_event: remote-key handling of one report. */
    method RemoteRawEvent(data: seq<bv8>) returns (r: int)
      requires Valid() && inputDev != null
      modifies this`currentKey, this`prevKeyIdx, inputDev`events
      ensures Valid() && r == 0
      ensures State() == HandleReport(old(State()), data, keymap[..]).state
      ensures inputDev.events == old(inputDev.events) + HandleReport(old(State()), data, keymap[..]).out
    {
      if |data| != REPORT_LEN {
        return 0;
      }
      if HasPrefix(data, KEYDOWN) {
        if currentKey != 0 {
          inputDev.ReportKeyUp(currentKey);
        }
        var index;
        if prevKeyIdx > 0 {
          index := prevKeyIdx;
        } else {
          index := GetKey(data[4]);
        }
        if index >= 0 {
          currentKey := keymap[index];
          inputDev.ReportKeyDown(currentKey);
          prevKeyIdx := 0;
        } else {
          prevKeyIdx := -index;
        }
        return 0;
      }
      prevKeyIdx := 0;
      if HasPrefix(data, KEYREPEAT) {
        inputDev.ReportKeyDown(currentKey);
        return 0;
      }
      if HasPrefix(data, FLATBATTERY) {
        inputDev.BatteryFlat();
      }
      return 0;
    }

    /** key_up_tick: release the held key, if any. */
    method KeyUpTick()
      requires Valid() && inputDev != null
      modifies this`currentKey, inputDev`events
      ensures Valid()
      ensures State() == RemoteKeys.KeyUpTick(old(State())).state
      ensures inputDev.events == old(inputDev.events) + RemoteKeys.KeyUpTick(old(State())).out
    {
      if currentKey != 0 {
        inputDev.ReportKeyUp(currentKey);
        currentKey := 0;
      }
    }
  }
}
