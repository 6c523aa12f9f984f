/** Button decoding for the Xbox One (model 1708) Bluetooth HID input report:
    four independent categories, each read from fixed report bytes through an
    exact-value code table. A byte that is not exactly one table entry (for
    instance one with several bits set) decodes to "no button". */
module XboxOneButtons {
  import opened Bytes

  datatype Option<+T> = None | Some(value: T)

  /** A byte with exactly one bit set: one input-report button bit. */
  predicate SingleBit(b: byte) {
    b in {1, 2, 4, 8, 16, 32, 64, 128}
  }

  /** Face and shoulder buttons, report byte 13. */
  datatype Common = A | B | X | Y | LB | RB {
    /** The enum's discriminant, `self as u8`: one button bit of byte 13. */
    function Code(): (r: byte)
      ensures SingleBit(r)
    {
      match this
      case A => 1
      case B => 2
      case X => 8
      case Y => 16
      case LB => 64
      case RB => 128
    }
  }

  /** D-pad directions, report byte 12. */
  datatype Dpad = Up | Down | Left | Right {
    /** The hat-switch value, `self as u8`. The four directions are the odd
        positions of the eight-way hat (1 up, then clockwise); the even
        positions are diagonals. */
    function Code(): (r: byte)
      ensures r % 2 == 1 && r <= 7
    {
      match this
      case Up => 1
      case Down => 5
      case Left => 7
      case Right => 3
    }
  }

  /** Guide, menu and stick-click buttons, report byte 14. */
  datatype Misc = MainXboxButton | Start | View | RightStick | LeftStick {
    /** The enum's discriminant, `self as u8`: one button bit of byte 14. */
    function Code(): (r: byte)
      ensures SingleBit(r)
    {
      match this
      case MainXboxButton => 16
      case Start => 8
      case View => 4
      case RightStick => 64
      case LeftStick => 32
    }
  }

  /** A trigger pulled all the way. */
  datatype Trigger = LT | RT

  /** `ButtonCommonXboxOne::from_u8`: a button exactly when the byte is its code. */
  function CommonFromU8(b: byte): (r: Option<Common>)
    ensures r.Some? ==> r.value.Code() == b
    ensures forall e: Common :: e.Code() == b ==> r == Some(e)
  {
    match b
    case 1 => Some(A)
    case 2 => Some(B)
    case 8 => Some(X)
    case 16 => Some(Y)
    case 64 => Some(LB)
    case 128 => Some(RB)
    case _ => None
  }

  /** `ButtonDpadXboxOne::from_u8`. */
  function DpadFromU8(b: byte): (r: Option<Dpad>)
    ensures r.Some? ==> r.value.Code() == b
    ensures forall e: Dpad :: e.Code() == b ==> r == Some(e)
  {
    match b
    case 1 => Some(Up)
    case 5 => Some(Down)
    case 7 => Some(Left)
    case 3 => Some(Right)
    case _ => None
  }

  /** `ButtonMiscXboxOne::from_u8`. */
  function MiscFromU8(b: byte): (r: Option<Misc>)
    ensures r.Some? ==> r.value.Code() == b
    ensures forall e: Misc :: e.Code() == b ==> r == Some(e)
  {
    match b
    case 16 => Some(MainXboxButton)
    case 8 => Some(Start)
    case 4 => Some(View)
    case 64 => Some(RightStick)
    case 32 => Some(LeftStick)
    case _ => None
  }

  /** Every common button survives a trip through its code. */
  lemma CommonRoundTrip(e: Common)
    ensures CommonFromU8(e.Code()) == Some(e)
  {
  }

  /** Every D-pad direction survives a trip through its code. */
  lemma DpadRoundTrip(e: Dpad)
    ensures DpadFromU8(e.Code()) == Some(e)
  {
  }

  /** Every misc button survives a trip through its code. */
  lemma MiscRoundTrip(e: Misc)
    ensures MiscFromU8(e.Code()) == Some(e)
  {
  }

  /** The tables are exact-value, not bit masks: 153 has the bits of A, Y
      and RB set but is no single code, so it decodes to no button; the
      D-pad byte 6 is no direction. */
  lemma UnlistedCodesDecodeToNone()
    ensures CommonFromU8(153) == None
    ensures DpadFromU8(6) == None
    ensures MiscFromU8(16 + 8) == None
  {
  }

  /** The misc byte reads as the Xbox (Guide) button exactly when it is 16. */
  lemma MiscIsGuideIff(b: byte)
    ensures MiscFromU8(b) == Some(MainXboxButton) <==> b == 16
  {
  }

  /** The second byte of a trigger pair that, after 255 in the first, marks
      the trigger as fully pressed. */
  const TriggerFullHigh: byte := 3

  /** The two report bytes from `at` hold the fully-pressed sentinel (255, 3). */
  predicate FullyPressed(raw: seq<byte>, at: nat)
    requires at + 1 < |raw|
  {
    raw[at] == 255 && raw[at + 1] == TriggerFullHigh
  }

  /** `ButtonTriggerXboxOne::from_u8`: LT when bytes 8 and 9 hold the
      sentinel, otherwise RT when bytes 10 and 11 hold it, otherwise none.
      LT wins when both are present. */
  function TriggerFromBytes(raw: seq<byte>): (r: Option<Trigger>)
    requires |raw| >= 12
    ensures r == Some(LT) <==> FullyPressed(raw, 8)
    ensures r == Some(RT) <==> !FullyPressed(raw, 8) && FullyPressed(raw, 10)
    ensures r == None <==> !FullyPressed(raw, 8) && !FullyPressed(raw, 10)
  {
    if raw[8] == 255 && raw[9] == 3 then Some(LT)
    else if raw[10] == 255 && raw[11] == 3 then Some(RT)
    else None
  }

  /** `ButtonsXboxOne`: one optional reading per category. */
  datatype Buttons = Buttons(
    common: Option<Common>,
    trigger: Option<Trigger>,
    misc: Option<Misc>,
    dpad: Option<Dpad>)

  /** `ButtonsXboxOne::default()`: nothing pressed. */
  const NoButtons := Buttons(None, None, None, None)

  /** Number of report bytes the button decoder reads (offsets 8 to 14). */
  const ButtonBytes := 15

  /** The buttons a report of at least fifteen bytes describes. */
  function ButtonsOf(raw: seq<byte>): (r: Buttons)
    requires |raw| >= ButtonBytes
  {
    Buttons(CommonFromU8(raw[13]), TriggerFromBytes(raw), MiscFromU8(raw[14]), DpadFromU8(raw[12]))
  }

  /** `ButtonsXboxOne::parse_bytes`: starts from a record with nothing set
      and fills in the categories one at a time, in the source's order. */
  method ParseBytes(raw: seq<byte>) returns (buttons: Buttons)
    requires |raw| >= ButtonBytes
    ensures buttons == ButtonsOf(raw)
    ensures buttons.common.Some? <==> raw[13] in {1, 2, 8, 16, 64, 128}
    ensures buttons.dpad.Some? <==> raw[12] in {1, 3, 5, 7}
    ensures buttons.misc.Some? <==> raw[14] in {4, 8, 16, 32, 64}
  {
    buttons := Buttons(None, None, None, None);
    buttons := buttons.(common := CommonFromU8(raw[13]));
    buttons := buttons.(dpad := DpadFromU8(raw[12]));
    buttons := buttons.(trigger := TriggerFromBytes(raw));
    buttons := buttons.(misc := MiscFromU8(raw[14]));
  }

  /** The buttons depend on report bytes 8 to 14 only. */
  lemma ButtonsWindowOnly(a: seq<byte>, b: seq<byte>)
    requires |a| >= ButtonBytes && |b| >= ButtonBytes
    requires a[8..ButtonBytes] == b[8..ButtonBytes]
    ensures ButtonsOf(a) == ButtonsOf(b)
  {
    assert forall i :: 8 <= i < ButtonBytes ==> a[i] == a[8..ButtonBytes][i - 8] == b[8..ButtonBytes][i - 8] == b[i];
  }

  /** The code byte that stands for an optional reading; 0 is in no table. */
  function CodeOr0<T>(o: Option<T>, code: T -> byte): byte {
    match o
    case None => 0
    case Some(e) => code(e)
  }

  /** A fifteen-byte report that carries the given buttons: the stick bytes
      zero, the trigger sentinel at 8 or 10 for LT or RT, then the D-pad,
      common and misc codes. */
  function EncodeButtons(bs: Buttons): (raw: seq<byte>)
    ensures |raw| == ButtonBytes
  {
    var lt: seq<byte> := if bs.trigger == Some(LT) then [255, TriggerFullHigh] else [0, 0];
    var rt: seq<byte> := if bs.trigger == Some(RT) then [255, TriggerFullHigh] else [0, 0];
    [0, 0, 0, 0, 0, 0, 0, 0] + lt + rt
      + [CodeOr0(bs.dpad, (e: Dpad) => e.Code()),
         CodeOr0(bs.common, (e: Common) => e.Code()),
         CodeOr0(bs.misc, (e: Misc) => e.Code())]
  }

  /** Every combination of button readings can be carried by a report and is
      decoded back exactly: the categories are independent. */
  lemma ButtonsRoundTrip(bs: Buttons)
    ensures ButtonsOf(EncodeButtons(bs)) == bs
  {
    var raw := EncodeButtons(bs);
    if bs.dpad.Some? { DpadRoundTrip(bs.dpad.value); }
    if bs.common.Some? { CommonRoundTrip(bs.common.value); }
    if bs.misc.Some? { MiscRoundTrip(bs.misc.value); }
    match bs.trigger {
      case Some(LT) =>
        assert FullyPressed(raw, 8);
      case Some(RT) =>
        assert !FullyPressed(raw, 8) && FullyPressed(raw, 10);
      case None =>
        assert !FullyPressed(raw, 8) && !FullyPressed(raw, 10);
    }
    assert ButtonsOf(raw).dpad == bs.dpad;
    assert ButtonsOf(raw).common == bs.common;
    assert ButtonsOf(raw).misc == bs.misc;
    assert ButtonsOf(raw).trigger == bs.trigger;
  }
}
