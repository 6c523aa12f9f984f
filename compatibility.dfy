/** The compatibility filter: an advertised device name is accepted when it
    contains, ignoring letter case, the name of one of the supported
    controllers. */
module Gamepads {

  /** `GAMEPAD_COMPATIBLE`: advertised names of the supported controllers. */
  const GamepadCompatible: seq<string> := ["XBOX WIRELESS CONTROLLER"]

  /** ASCII lower-casing of one character. */
  function LowerChar(c: char): (d: char)
    ensures 'A' <= c <= 'Z' ==> d as int == c as int + 32
    ensures !('A' <= c <= 'Z') ==> d == c
  {
    if 'A' <= c <= 'Z' then (c as int + 32) as char else c
  }

  /** `str::to_lowercase`, restricted to ASCII letters. */
  function ToLower(s: string): (r: string)
    ensures |r| == |s|
    ensures forall i :: 0 <= i < |s| ==> r[i] == LowerChar(s[i])
  {
    if s == [] then [] else [LowerChar(s[0])] + ToLower(s[1..])
  }

  /** `needle` sits in `hay` starting at index `i`. */
  predicate OccursAt(hay: string, needle: string, i: int) {
    0 <= i && i + |needle| <= |hay| && hay[i..i + |needle|] == needle
  }

  /** `str::contains`: the needle is a prefix of the haystack or of one of its
      suffixes; the empty needle is found everywhere. */
  function Contains(hay: string, needle: string): (r: bool)
    ensures needle <= hay ==> r
    ensures r ==> |needle| <= |hay|
    decreases |hay|
  {
    if needle <= hay then true
    else if hay == [] then false
    else Contains(hay[1..], needle)
  }

  /** Contains finds exactly the needles that occur somewhere in the haystack. */
  lemma {:induction false} ContainsIff(hay: string, needle: string)
    ensures Contains(hay, needle) <==> exists i :: OccursAt(hay, needle, i)
    decreases |hay|
  {
    if needle <= hay {
      assert OccursAt(hay, needle, 0);
    } else if hay != [] {
      ContainsIff(hay[1..], needle);
      assert !OccursAt(hay, needle, 0);
      forall i | OccursAt(hay[1..], needle, i)
        ensures OccursAt(hay, needle, i + 1)
      {
        assert hay[1..][i..i + |needle|] == hay[i + 1..i + 1 + |needle|];
      }
      forall i | 1 <= i && OccursAt(hay, needle, i)
        ensures OccursAt(hay[1..], needle, i - 1)
      {
        assert hay[1..][i - 1..i - 1 + |needle|] == hay[i..i + |needle|];
      }
    }
  }

  /** `list.iter().any(|&name| device_name.to_lowercase().contains(&name.to_lowercase()))`,
      tried left to right. */
  function AnyMatch(list: seq<string>, deviceName: string): (r: bool)
    ensures r ==> exists k :: 0 <= k < |list| && Contains(ToLower(deviceName), ToLower(list[k]))
  {
    if list == [] then false
    else Contains(ToLower(deviceName), ToLower(list[0])) || AnyMatch(list[1..], deviceName)
  }

  /** AnyMatch holds exactly when some entry, lower-cased, is contained in
      the lower-cased device name. */
  lemma {:induction false} AnyMatchIff(list: seq<string>, deviceName: string)
    ensures AnyMatch(list, deviceName)
      <==> exists k :: 0 <= k < |list| && Contains(ToLower(deviceName), ToLower(list[k]))
  {
    if list != [] {
      AnyMatchIff(list[1..], deviceName);
      if AnyMatch(list[1..], deviceName) {
        var k :| 0 <= k < |list[1..]| && Contains(ToLower(deviceName), ToLower(list[1..][k]));
        assert list[1..][k] == list[k + 1];
      }
      forall k | 1 <= k < |list| && Contains(ToLower(deviceName), ToLower(list[k]))
        ensures AnyMatch(list[1..], deviceName)
      {
        assert list[1..][k - 1] == list[k];
      }
    }
  }

  /** `check_gamepad_compatibility`: true exactly when some supported name,
      lower-cased, is a substring of the lower-cased device name. */
  function CheckGamepadCompatibility(deviceName: string): (r: bool)
    ensures r <==> (exists k :: 0 <= k < |GamepadCompatible|
                      && Contains(ToLower(deviceName), ToLower(GamepadCompatible[k])))
  {
    AnyMatchIff(GamepadCompatible, deviceName);
    AnyMatch(GamepadCompatible, deviceName)
  }

  /** Adding supported names, before or after the existing ones, never
      turns an accepted device into a rejected one. */
  lemma AnyMatchMonotone(list: seq<string>, extra: seq<string>, deviceName: string)
    requires AnyMatch(list, deviceName)
    ensures AnyMatch(list + extra, deviceName)
    ensures AnyMatch(extra + list, deviceName)
  {
    AnyMatchIff(list, deviceName);
    AnyMatchIff(list + extra, deviceName);
    AnyMatchIff(extra + list, deviceName);
    var k :| 0 <= k < |list| && Contains(ToLower(deviceName), ToLower(list[k]));
    assert (list + extra)[k] == list[k];
    assert (extra + list)[|extra| + k] == list[k];
  }

  /** Adding a name to the list makes every device whose name contains it,
      written in any letter case, compatible. */
  lemma AddedNameAccepted(list: seq<string>, entry: string, prefix: string, mid: string, suffix: string)
    requires EqualIgnoringCase(mid, entry)
    ensures AnyMatch(list + [entry], prefix + mid + suffix)
  {
    var name := prefix + mid + suffix;
    assert ToLower(mid) == ToLower(entry);
    ToLowerAppend(prefix + mid, suffix);
    ToLowerAppend(prefix, mid);
    assert ToLower(name)[|prefix|..|prefix| + |mid|] == ToLower(entry);
    assert OccursAt(ToLower(name), ToLower(entry), |prefix|);
    ContainsIff(ToLower(name), ToLower(entry));
    AnyMatchIff(list + [entry], name);
    assert (list + [entry])[|list|] == entry;
  }

  /** Lower-casing distributes over concatenation. */
  lemma ToLowerAppend(a: string, b: string)
    ensures ToLower(a + b) == ToLower(a) + ToLower(b)
  {
  }

  /** Two names equal up to ASCII letter case. */
  predicate EqualIgnoringCase(a: string, b: string) {
    |a| == |b| && forall i :: 0 <= i < |a| ==> LowerChar(a[i]) == LowerChar(b[i])
  }

  /** Names that differ only in letter case are accepted or rejected alike. */
  lemma CompatibilityIgnoresCase(a: string, b: string)
    requires EqualIgnoringCase(a, b)
    ensures CheckGamepadCompatibility(a) == CheckGamepadCompatibility(b)
  {
    assert ToLower(a) == ToLower(b);
  }

  /** The supported name in lower case. */
  const SupportedLower: string := "xbox wireless controller"

  /** A string whose characters each lower-case to those of `t` lower-cases to `t`. */
  lemma ToLowerPointwise(s: string, t: string)
    requires |s| == |t|
    requires forall i :: 0 <= i < |s| ==> LowerChar(s[i]) == t[i]
    ensures ToLower(s) == t
  {
  }

  /** The allow-list holds one entry, of 24 characters. */
  lemma AllowListShape()
    ensures |GamepadCompatible| == 1 && |GamepadCompatible[0]| == 24
  {
  }

  /** The allow-list entry lower-cases to the supported name. */
  lemma LowerListedName()
    ensures ToLower(GamepadCompatible[0]) == SupportedLower
  {
    ToLowerPointwise(GamepadCompatible[0], SupportedLower);
  }

  /** The title-case spelling lower-cases to the supported name. */
  lemma LowerTitleName()
    ensures ToLower("Xbox Wireless Controller") == SupportedLower
  {
    ToLowerPointwise("Xbox Wireless Controller", SupportedLower);
  }

  /** The lower-case spelling is left as it is. */
  lemma LowerLowerName()
    ensures ToLower(SupportedLower) == SupportedLower
  {
    ToLowerPointwise(SupportedLower, SupportedLower);
  }

  /** The supported name, written in upper or lower case, is accepted. */
  lemma CompatibleExamples()
    ensures CheckGamepadCompatibility("XBOX WIRELESS CONTROLLER")
    ensures CheckGamepadCompatibility("xbox wireless controller")
  {
    LowerListedName();
    LowerLowerName();
    assert Contains(SupportedLower, SupportedLower);
  }

  /** Any name with the supported name inside it, in any case, is accepted. */
  lemma CompatibleSubstring(prefix: string, suffix: string)
    ensures CheckGamepadCompatibility(prefix + "Xbox Wireless Controller" + suffix)
  {
    var name := prefix + "Xbox Wireless Controller" + suffix;
    LowerListedName();
    LowerTitleName();
    ToLowerAppend(prefix + "Xbox Wireless Controller", suffix);
    ToLowerAppend(prefix, "Xbox Wireless Controller");
    assert ToLower(name) == ToLower(prefix) + SupportedLower + ToLower(suffix);
    assert ToLower(name)[|prefix|..|prefix| + |SupportedLower|] == SupportedLower;
    assert OccursAt(ToLower(name), SupportedLower, |prefix|);
    ContainsIff(ToLower(name), SupportedLower);
  }

  /** A name shorter than every supported name, the empty name among them,
      is rejected. */
  lemma ShortNameRejected(deviceName: string)
    requires |deviceName| < |GamepadCompatible[0]|
    ensures !CheckGamepadCompatibility(deviceName)
  {
    ContainsIff(ToLower(deviceName), ToLower(GamepadCompatible[0]));
  }
}
