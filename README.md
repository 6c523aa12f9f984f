# Xbox One BLE gamepad: report decoding and compatibility filter

This project models, in Dafny, the sequential core of an ESP32 driver for an
Xbox One (model 1708) controller connected over Bluetooth Low Energy. It has
three parts:

- **The HID report decoder.** Each notification on the HID Report
  characteristic (0x2A4D) carries an input report. `GamepadXboxOne` reads its
  state from fixed byte offsets:
  - right-stick x and y at offsets 0 and 2, left-stick x and y at 4 and 6,
    each a little-endian `u16`;
  - brake and throttle magnitudes at 8 and 10;
  - the "trigger fully pressed" sentinel (255, 3) at 8–9 or at 10–11;
  - the D-pad code at 12, the common-button code at 13 and the misc-button
    code at 14.

  The notification callback applies the setters in order (sticks, buttons,
  trigger, battery). It then flips the `debug` flag when the misc button is
  the Xbox (Guide) button.
- **The draft stick decoder** (`sticks` of the earlier `GamepadPacketXboxOne`).
  It returns the two stick positions as a value and shares the
  little-endian decoding with the setter.
- **The compatibility filter** (`check_gamepad_compatibility`). It tests
  whether an advertised device name contains, ignoring case, an entry of the
  allow-list `["XBOX WIRELESS CONTROLLER"]`.

Files:

- `bytes.dfy` (`Bytes`): the `u8`/`u16` types, `u16::from_le_bytes` and its
  inverse.
- `draft_sticks.dfy` (`XboxOneDraft`): the stick decoder `Sticks` and the
  encoder `EncodeSticks` that is its partner.
- `buttons.dfy` (`XboxOneButtons`): the three code-table enums with their
  discriminants (`Code()`, Rust's `as u8`), the trigger enum, and the exact-value `from_u8`
  tables. Also the trigger-sentinel decoder, the `ButtonsXboxOne` record,
  `parse_bytes` as a method proved against the function `ButtonsOf`, and the
  encoder `EncodeButtons` that is its partner.
- `gamepad.dfy` (`XboxOneGamepad`): the class `GamepadXboxOne` with the
  fields of the Rust struct. Its setters and the notification handler update
  those fields in place. Each method's postcondition gives the new state in
  terms of the old one. `Notify` is the handler's effect on a `Snapshot`
  value, and the lemmas about it relate several notifications.
- `compatibility.dfy` (`Gamepads`): the allow-list, ASCII lower-casing,
  `str::contains`, the `iter().any` search, and the filter.

Two behaviours of the code are worth stating plainly:

- The `from_u8` tables match exact values, so a byte with several bits set,
  such as 153, decodes to no button (`UnlistedCodesDecodeToNone`).
- `set_sticks` sets both sticks to (0, 0) on a report shorter than 8 bytes;
  it does not keep the previous values (`SticksShortReport`,
  `GamepadXboxOne.SetSticks`).

## Model

| member | source | states |
|---|---|---|
| `Bytes.FromLeBytes` | src/gamepad/gamepads/xboxone/xboxone.rs:53-56 | The decoded axis is a valid `u16` whose low byte is the first report byte and whose high byte is the second. |
| `Bytes.ToLeBytesFromLeBytes` | src/gamepad/gamepads/xboxone.rs:35-38 | Splitting a decoded axis back into bytes gives the original two bytes. |
| `XboxOneDraft.Sticks` | src/gamepad/gamepads/xboxone.rs:32-44 | For a report of 8 bytes or more, the two decoded sticks re-encode to exactly the report's first 8 bytes (right x, right y, left x, left y). For a shorter report, both sticks are at (0, 0). `SticksRoundTrip` gives the inverse direction. |
| `XboxOneDraft.SticksRoundTrip` | src/gamepad/gamepads/xboxone.rs:34-39 | For any two stick positions and any trailing bytes, decoding the report that encodes them (right x, right y, left x, left y) gives exactly `[left, right]`. |
| `XboxOneDraft.SticksEncodeDecode` | src/gamepad/gamepads/xboxone.rs:34-39 | For a report of 8 bytes or more, re-encoding the decoded sticks reproduces the report's first 8 bytes. |
| `XboxOneDraft.SticksShortReport` | src/gamepad/gamepads/xboxone.rs:40-43 | A report shorter than 8 bytes yields both sticks at (0, 0), with no failure. |
| `XboxOneDraft.SticksPrefixOnly` | src/gamepad/gamepads/xboxone.rs:35-38 | Two reports of 8 bytes or more that agree on their first 8 bytes decode to the same sticks. |
| `XboxOneDraft.SticksExample` | src/gamepad/gamepads/xboxone.rs:34-39 | Axes 1, 2, 3, 4 in report order give right stick (1, 2) and left stick (3, 4). |
| `XboxOneButtons.CommonFromU8` | src/gamepad/gamepads/xboxone/xboxone.rs:172-184 | Returns a button exactly when the byte is that button's discriminant, and `None` for every other byte. |
| `XboxOneButtons.DpadFromU8` | src/gamepad/gamepads/xboxone/xboxone.rs:151-161 | Returns a direction exactly when the byte is that direction's discriminant, and `None` otherwise. |
| `XboxOneButtons.MiscFromU8` | src/gamepad/gamepads/xboxone/xboxone.rs:130-141 | Returns a misc button exactly when the byte is that button's discriminant, and `None` otherwise. |
| `XboxOneButtons.CommonRoundTrip` | src/gamepad/gamepads/xboxone/xboxone.rs:164-184 | `from_u8(e as u8) == Some(e)` for every common button. |
| `XboxOneButtons.DpadRoundTrip` | src/gamepad/gamepads/xboxone/xboxone.rs:144-161 | `from_u8(e as u8) == Some(e)` for every D-pad direction. |
| `XboxOneButtons.MiscRoundTrip` | src/gamepad/gamepads/xboxone/xboxone.rs:122-141 | `from_u8(e as u8) == Some(e)` for every misc button. |
| `XboxOneButtons.UnlistedCodesDecodeToNone` | src/gamepad/gamepads/xboxone/xboxone.rs:131-183 | The tables are exact-value rather than bit masks: common 153, D-pad 6 and misc 24 all decode to `None`. |
| `XboxOneButtons.MiscIsGuideIff` | src/gamepad/gamepads/xboxone/xboxone.rs:130-141 | The misc byte decodes to the Xbox button exactly when it is 16. |
| `XboxOneButtons.TriggerFromBytes` | src/gamepad/gamepads/xboxone/xboxone.rs:192-201 | Gives LT exactly when bytes 8–9 are (255, 3). Otherwise it gives RT exactly when bytes 10–11 are (255, 3), and otherwise `None`. LT wins when both sentinels are present. |
| `XboxOneButtons.ParseBytes` | src/gamepad/gamepads/xboxone/xboxone.rs:214-228 | Starting from nothing pressed, it fills common from byte 13, D-pad from 12, trigger from 8–11 and misc from 14. Each category is present exactly when its byte is one of the table's codes. |
| `XboxOneButtons.ButtonsWindowOnly` | src/gamepad/gamepads/xboxone/xboxone.rs:214-228 | The decoded buttons depend on report bytes 8 to 14 only. |
| `XboxOneButtons.ButtonsRoundTrip` | src/gamepad/gamepads/xboxone/xboxone.rs:205-228 | Every combination of the four optional categories is carried by some report and decoded back exactly, so the categories are independent. |
| `XboxOneButtons.Common.Code` | src/gamepad/gamepads/xboxone/xboxone.rs:163-171 | Each common button's discriminant (A=1, B=2, X=8, Y=16, LB=64, RB=128) is a single bit. `CommonFromU8` maps exactly these values back, so they are distinct. |
| `XboxOneButtons.Dpad.Code` | src/gamepad/gamepads/xboxone/xboxone.rs:143-149 | Each direction's discriminant (Up=1, Right=3, Down=5, Left=7) is an odd hat position of at most 7. `DpadFromU8` maps exactly these values back. |
| `XboxOneButtons.Misc.Code` | src/gamepad/gamepads/xboxone/xboxone.rs:121-128 | Each misc button's discriminant (Guide=16, Start=8, View=4, RightStick=64, LeftStick=32) is a single bit. `MiscFromU8` maps exactly these values back. |
| `XboxOneGamepad.GamepadXboxOne.constructor` | src/gamepad/gamepads/xboxone/xboxone.rs:34-44 | The derived default: debug off, no buttons, both sticks at (0, 0), triggers (0, 0), battery 0. |
| `XboxOneGamepad.GamepadXboxOne.SetSticks` | src/gamepad/gamepads/xboxone/xboxone.rs:51-63 | The sticks become the decoded positions, or (0, 0) twice for a report under 8 bytes. No other field changes. |
| `XboxOneGamepad.GamepadXboxOne.SetButtons` | src/gamepad/gamepads/xboxone/xboxone.rs:47-49 | The buttons become the parsed buttons of the report. No other field changes. |
| `XboxOneGamepad.GamepadXboxOne.SetTrigger` | src/gamepad/gamepads/xboxone/xboxone.rs:65-70 | Requires 11 bytes. The trigger pair becomes (byte 8, byte 10). No other field changes. |
| `XboxOneGamepad.GamepadXboxOne.SetBattery` | src/gamepad/gamepads/xboxone/xboxone.rs:72-74 | The battery becomes 0 whatever the report. No other field changes. |
| `XboxOneGamepad.GamepadXboxOne.HandleReport` | src/gamepad/gamepads/xboxone/xboxone.rs:94-111 | The new state is `Notify` of the old state: the setters' results, with debug flipped exactly when byte 14 is 16. |
| `XboxOneGamepad.NotifyDebugToggle` | src/gamepad/gamepads/xboxone/xboxone.rs:103-111 | After a notification, debug equals the old debug flipped exactly when byte 14 is 16 (the Guide button). |
| `XboxOneGamepad.NotifyForgetsPrevious` | src/gamepad/gamepads/xboxone/xboxone.rs:99-102 | Apart from debug, the state after a notification depends on the report alone, not on the earlier state. |
| `XboxOneGamepad.NotifyTwice` | src/gamepad/gamepads/xboxone/xboxone.rs:94-111 | Delivering the same report twice gives the readings of a single delivery and restores debug to its earlier value. |
| `XboxOneGamepad.NotifyReportPrefixOnly` | src/gamepad/gamepads/xboxone/xboxone.rs:94-111 | The handler's effect depends on report bytes 0 to 14 only. |
| `Gamepads.ToLower` | src/gamepad/gamepads/gamepads.rs:12 | Lower-casing keeps the length and maps each character through ASCII lower-casing. |
| `Gamepads.Contains` | src/gamepad/gamepads/gamepads.rs:12 | `contains` is true when the needle is a prefix of the haystack, the empty needle included, and never true for a needle longer than the haystack. `ContainsIff` gives the exact condition. |
| `Gamepads.ContainsIff` | src/gamepad/gamepads/gamepads.rs:12 | `contains` holds exactly when the needle occurs at some index of the haystack. |
| `Gamepads.AnyMatch` | src/gamepad/gamepads/gamepads.rs:11-12 | When the `any` search succeeds, some list entry, lower-cased, is contained in the lower-cased name. `AnyMatchIff` gives the converse. |
| `Gamepads.AnyMatchIff` | src/gamepad/gamepads/gamepads.rs:11-12 | The `any` search holds exactly when some lower-cased entry is contained in the lower-cased name. |
| `Gamepads.CheckGamepadCompatibility` | src/gamepad/gamepads/gamepads.rs:8-13 | True exactly when some allow-list entry, lower-cased, is a substring of the lower-cased device name. |
| `Gamepads.AllowListShape` | src/gamepad/gamepads/gamepads.rs:8 | `GAMEPAD_COMPATIBLE` holds exactly one entry, of 24 characters. |
| `Gamepads.LowerListedName` | src/gamepad/gamepads/gamepads.rs:8 | The one allow-list entry lower-cases to "xbox wireless controller". |
| `Gamepads.CompatibleExamples` | src/gamepad/gamepads/gamepads.rs:8-12 | "XBOX WIRELESS CONTROLLER" and "xbox wireless controller" are both accepted. |
| `Gamepads.CompatibilityIgnoresCase` | src/gamepad/gamepads/gamepads.rs:12 | Two names that differ only in ASCII letter case are accepted or rejected alike. |
| `Gamepads.CompatibleSubstring` | src/gamepad/gamepads/gamepads.rs:12 | For any prefix and suffix, prefix + "Xbox Wireless Controller" + suffix is accepted. |
| `Gamepads.ShortNameRejected` | src/gamepad/gamepads/gamepads.rs:8-12 | A name shorter than the 24-character entry, the empty name included, is rejected. |
| `Gamepads.AnyMatchMonotone` | src/gamepad/gamepads/gamepads.rs:5-12 | Adding allow-list entries, before or after the existing ones, never turns an accepted name into a rejected one. |
| `Gamepads.AddedNameAccepted` | src/gamepad/gamepads/gamepads.rs:5-12 | Adding a name to the list makes it compatible: every device name that contains the added entry, written in any letter case and with any prefix and suffix, is accepted. |

## Left out

- BLE service discovery and notification subscription (`setup`, `set_svcs`, `parse_packet`) are not modelled. They are calls into the BLE stack and async executor, plus UUID string comparisons on foreign objects. The model starts at the notification callback's body.
- The `Arc<Mutex<…>>` around the gamepad state and the lock taken in the callback are not modelled. `HandleReport` is the callback body run sequentially.
- Scanning and connecting (`src/gamepad/gamepad.rs`), the firmware entry point and the example program are not modelled. They are BLE I/O and polling glue.
- The BLE service and appearance constants (`src/gamepad/ble.rs`), the `GamepadType`/`GamepadPacket` enums and the `GamepadPacketHandler` trait are not modelled. They carry no logic.
- `HID_DESCRIPTOR` is not modelled. Nothing reads this report-descriptor table.
- The unimplemented draft stubs `buttons`, `trigger` and `battery` of `GamepadPacketXboxOne` are not modelled. Each one only panics.
- Logging (`info!`, `warn!`, `error!`) is not modelled, including the debug-mode dump of each report.
- `Gamepads.ToLower`: ASCII letters only; Rust's `to_lowercase` also folds non-ASCII characters.
- `XboxOneGamepad.GamepadXboxOne.HandleReport`, `XboxOneGamepad.GamepadXboxOne.SetButtons`, `XboxOneGamepad.GamepadXboxOne.SetTrigger` and `XboxOneButtons.ParseBytes`: the source indexes the report without a length check, so a report of fewer than 15 bytes (fewer than 11 for `set_trigger`) panics. The model requires 15, 15, 11 and 15 bytes instead, and the panic is not modelled.
- `XboxOneButtons.TriggerFromBytes`: the Rust `from_u8` tests with short-circuit `&&`, so some short reports decode without a panic. A 10- or 11-byte report decodes to LT when bytes 8–9 are (255, 3). An 11-byte report without that sentinel decodes to `None` when byte 10 is not 255. Every other 10- or 11-byte report panics. The model requires 12 bytes. Its only caller, `parse_bytes`, has already read byte 13 by then, so no report shorter than 12 bytes reaches it.
