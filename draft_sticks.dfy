/** The draft packet handler's stick decoder: it reads the four stick axes of
    an Xbox One controller's HID input report and returns them as a fresh
    value, without touching any state. */
module XboxOneDraft {
  import opened Bytes

  /** One stick position, (x, y), in the device's raw 16-bit scale. */
  type Stick = (u16, u16)

  /** `[(u16, u16); 2]`: the left stick first, then the right stick. */
  type StickPair = s: seq<Stick> | |s| == 2 witness [(0, 0), (0, 0)]

  /** Both sticks at the origin: what a report too short to hold them gives. */
  const NoSticks: StickPair := [(0, 0), (0, 0)]

  /** Number of report bytes holding the stick axes. */
  const StickBytes := 8

  /** The stick decoder. The report carries the right stick's x and y at
      offsets 0 and 2 and the left stick's at offsets 4 and 6, each as a
      little-endian `u16`; the result lists the left stick first. A report
      shorter than eight bytes yields both sticks at (0, 0). */
  function Sticks(raw: seq<byte>): (r: StickPair)
    ensures |raw| >= StickBytes ==> EncodeSticks(r[0], r[1]) == raw[..StickBytes]
    ensures |raw| < StickBytes ==> r == NoSticks
  {
    if |raw| >= StickBytes then
      [(FromLeBytes(raw[4], raw[5]), FromLeBytes(raw[6], raw[7])),
       (FromLeBytes(raw[0], raw[1]), FromLeBytes(raw[2], raw[3]))]
    else
      NoSticks
  }

  /** The eight report bytes that describe the given stick positions, in the
      report's order: right x, right y, left x, left y. */
  function EncodeSticks(left: Stick, right: Stick): (raw: seq<byte>)
    ensures |raw| == StickBytes
  {
    var rx, ry := ToLeBytes(right.0), ToLeBytes(right.1);
    var lx, ly := ToLeBytes(left.0), ToLeBytes(left.1);
    [rx.0, rx.1, ry.0, ry.1, lx.0, lx.1, ly.0, ly.1]
  }

  /** Decoding the bytes of any two stick positions, followed by anything
      else, gives back exactly those positions. */
  lemma SticksRoundTrip(left: Stick, right: Stick, rest: seq<byte>)
    ensures Sticks(EncodeSticks(left, right) + rest) == [left, right]
  {
    var raw := EncodeSticks(left, right) + rest;
    assert raw[..StickBytes] == EncodeSticks(left, right);
  }

  /** Conversely, re-encoding the decoded sticks reproduces the first eight
      bytes of the report: no axis bit is lost. */
  lemma SticksEncodeDecode(raw: seq<byte>)
    requires |raw| >= StickBytes
    ensures EncodeSticks(Sticks(raw)[0], Sticks(raw)[1]) == raw[..StickBytes]
  {
    var s := Sticks(raw);
    ToLeBytesFromLeBytes(raw[0], raw[1]);
    ToLeBytesFromLeBytes(raw[2], raw[3]);
    ToLeBytesFromLeBytes(raw[4], raw[5]);
    ToLeBytesFromLeBytes(raw[6], raw[7]);
  }

  /** A report shorter than eight bytes gives both sticks at the origin
      instead of failing. */
  lemma SticksShortReport(raw: seq<byte>)
    requires |raw| < StickBytes
    ensures Sticks(raw) == NoSticks
  {
  }

  /** The sticks depend on the first eight bytes of a report only. */
  lemma SticksPrefixOnly(a: seq<byte>, b: seq<byte>)
    requires |a| >= StickBytes && |b| >= StickBytes
    requires a[..StickBytes] == b[..StickBytes]
    ensures Sticks(a) == Sticks(b)
  {
    assert forall i :: 0 <= i < StickBytes ==> a[i] == a[..StickBytes][i] == b[..StickBytes][i] == b[i];
  }

  /** Axes 1, 2, 3, 4 in report order put the right stick at (1, 2) and the
      left stick at (3, 4). */
  lemma SticksExample()
    ensures Sticks([1, 0, 2, 0, 3, 0, 4, 0]) == [(3, 4), (1, 2)]
  {
  }
}
