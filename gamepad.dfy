/** The Xbox One gamepad state and the handler that runs on every HID report
    notification: it decodes sticks, buttons and triggers from the report,
    resets the battery reading, and flips the debug flag whenever the report
    shows the Xbox (Guide) button. */
module XboxOneGamepad {
  import opened Bytes
  import opened XboxOneDraft
  import opened XboxOneButtons

  /** A copy of the gamepad state, as `GamepadXboxOne` derives `Clone`. */
  datatype Snapshot = Snapshot(
    debug: bool,
    buttons: Buttons,
    sticks: StickPair,
    trigger: (byte, byte),
    battery: byte)

  /** `GamepadXboxOne::default()`. */
  const DefaultSnapshot := Snapshot(false, NoButtons, NoSticks, (0, 0), 0)

  /** Smallest report the notification handler reads without going out of
      bounds: the misc-button byte is at offset 14. */
  const MinReport := ButtonBytes

  /** The state after one report notification, as the handler computes it:
      sticks, buttons, trigger magnitudes (bytes 8 and 10) and battery in that
      order, then the debug flag flipped if the misc button is the Guide button. */
  function Notify(s: Snapshot, raw: seq<byte>): (t: Snapshot)
    requires |raw| >= MinReport
  {
    var buttons := ButtonsOf(raw);
    var debug := if buttons.misc == Some(MainXboxButton) then !s.debug else s.debug;
    Snapshot(debug, buttons, Sticks(raw), (raw[8], raw[10]), 0)
  }

  /** The debug flag flips exactly when the misc byte is 16, the Guide code. */
  lemma NotifyDebugToggle(s: Snapshot, raw: seq<byte>)
    requires |raw| >= MinReport
    ensures Notify(s, raw).debug == (s.debug != (raw[14] == 16))
  {
    MiscIsGuideIff(raw[14]);
  }

  /** Everything but the debug flag is a function of the report alone: the
      previous sticks, buttons, triggers and battery leave no trace. */
  lemma NotifyForgetsPrevious(s: Snapshot, s': Snapshot, raw: seq<byte>)
    requires |raw| >= MinReport
    ensures Notify(s, raw).(debug := false) == Notify(s', raw).(debug := false)
  {
  }

  /** Delivering the same report twice gives the same readings as delivering
      it once and restores the debug flag to its value before both. */
  lemma NotifyTwice(s: Snapshot, raw: seq<byte>)
    requires |raw| >= MinReport
    ensures Notify(Notify(s, raw), raw) == Notify(s, raw).(debug := s.debug)
  {
  }

  /** The handler reads report bytes 0 to 14 only. */
  lemma NotifyReportPrefixOnly(s: Snapshot, a: seq<byte>, b: seq<byte>)
    requires |a| >= MinReport && |b| >= MinReport
    requires a[..MinReport] == b[..MinReport]
    ensures Notify(s, a) == Notify(s, b)
  {
    assert a[..StickBytes] == a[..MinReport][..StickBytes];
    assert b[..StickBytes] == b[..MinReport][..StickBytes];
    SticksPrefixOnly(a, b);
    assert a[8..ButtonBytes] == a[..MinReport][8..];
    assert b[8..ButtonBytes] == b[..MinReport][8..];
    ButtonsWindowOnly(a, b);
    assert a[8] == a[..MinReport][8] && a[10] == a[..MinReport][10];
  }

  /** `GamepadXboxOne`: the decoded state, updated in place by the setters. */
  class GamepadXboxOne {
    var debug: bool
    var buttons: Buttons
    /** (left, right), each (x, y). */
    var sticks: StickPair
    /** Brake and throttle magnitudes. */
    var trigger: (byte, byte)
    var battery: byte

    /** The current state as a value. */
    function State(): Snapshot
      reads this
    {
      Snapshot(debug, buttons, sticks, trigger, battery)
    }

    /** `GamepadXboxOne::default()`. */
    constructor ()
      ensures State() == DefaultSnapshot
    {
      debug := false;
      buttons := NoButtons;
      sticks := NoSticks;
      trigger := (0, 0);
      battery := 0;
    }

    /** `set_sticks`: the four little-endian axes of a report of eight bytes
        or more, left stick first; both sticks at the origin for a shorter
        report. Nothing else changes. */
    method SetSticks(raw: seq<byte>)
      modifies this
      ensures State() == old(State()).(sticks := Sticks(raw))
    {
      if |raw| >= 8 {
        var rx := FromLeBytes(raw[0], raw[1]);
        var ry := FromLeBytes(raw[2], raw[3]);
        var lx := FromLeBytes(raw[4], raw[5]);
        var ly := FromLeBytes(raw[6], raw[7]);
        sticks := [(lx, ly), (rx, ry)];
      } else {
        sticks := [(0, 0), (0, 0)];
      }
    }

    /** `set_buttons`: the buttons the report describes. Nothing else changes. */
    method SetButtons(raw: seq<byte>)
      requires |raw| >= ButtonBytes
      modifies this
      ensures State() == old(State()).(buttons := ButtonsOf(raw))
    {
      buttons := ParseBytes(raw);
    }

    /** `set_trigger`: brake from byte 8, throttle from byte 10. Nothing
        else changes. */
    method SetTrigger(raw: seq<byte>)
      requires |raw| >= 11
      modifies this
      ensures State() == old(State()).(trigger := (raw[8], raw[10]))
    {
      trigger := (raw[8], trigger.1);
      trigger := (trigger.0, raw[10]);
    }

    /** `set_battery`: the battery reading is reset to 0 whatever the report
        holds. Nothing else changes. */
    method SetBattery(raw: seq<byte>)
      modifies this
      ensures State() == old(State()).(battery := 0)
    {
      battery := 0;
    }

    /** The body of the report notification callback. */
    method HandleReport(raw: seq<byte>)
      requires |raw| >= MinReport
      modifies this
      ensures State() == Notify(old(State()), raw)
      ensures debug == (old(debug) != (raw[14] == 16))
    {
      SetSticks(raw);
      SetButtons(raw);
      SetTrigger(raw);
      SetBattery(raw);
      if buttons.misc.Some? {
        match buttons.misc.value {
          case MainXboxButton => debug := !debug;
          case Start =>
          case View =>
          case RightStick =>
          case LeftStick =>
        }
      }
      NotifyDebugToggle(old(State()), raw);
    }
  }
}
