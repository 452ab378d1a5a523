/** The parser for the output of `bluetoothctl devices`: each line that mentions
    "Muse" and carries a MAC address yields one device. The two regular
    expressions of the parser are written out as string scans, next to
    predicates that state what Python's `re.search` returns for them. */
module Bluetoothctl {
  import opened Devices

  /** Python's `\s` in a str pattern: exactly the characters `str.isspace()` accepts. */
  predicate IsSpace(c: char)
  {
    || '\U{9}' <= c <= '\U{D}'
    || '\U{1C}' <= c <= '\U{20}'
    || c == '\U{85}' || c == '\U{A0}' || c == '\U{1680}'
    || '\U{2000}' <= c <= '\U{200A}'
    || c == '\U{2028}' || c == '\U{2029}' || c == '\U{202F}' || c == '\U{205F}' || c == '\U{3000}'
  }

  /** `[0-9A-F]` matched with re.IGNORECASE. */
  predicate IsHexDigit(c: char)
  {
    '0' <= c <= '9' || 'A' <= c <= 'F' || 'a' <= c <= 'f'
  }

  predicate IsSeparator(c: char)
  {
    c == ':' || c == '-'
  }

  /** `m` matches `([0-9A-F]{2}[:-]){5}[0-9A-F]{2}` (re.IGNORECASE): six hex pairs,
      each of the five gaps a colon or a hyphen, mixed freely. */
  predicate IsMac(m: string)
  {
    |m| == 17 && forall k | 0 <= k < 17 :: if k % 3 == 2 then IsSeparator(m[k]) else IsHexDigit(m[k])
  }

  predicate MacAt(s: string, i: nat)
  {
    i + 17 <= |s| && IsMac(s[i..i + 17])
  }

  predicate HasMac(s: string)
  {
    exists i | 0 <= i <= |s| :: MacAt(s, i)
  }

  /** Whether `n` is the match of `Muse[^\s]*` found by `re.search` at index `i`:
      `i` is the leftmost occurrence of "Muse" and `n` the longest run of
      non-whitespace characters that starts there. */
  predicate IsNameMatchAt(line: string, n: string, i: nat)
  {
    && OccursAt(line, n, i)
    && |n| >= 4 && n[..4] == "Muse"
    && (forall k | 0 <= k < |n| :: !IsSpace(n[k]))
    && (i + |n| == |line| || IsSpace(line[i + |n|]))
    && (forall k | 0 <= k < i :: !OccursAt(line, "Muse", k))
  }

  ghost predicate IsNameMatch(line: string, n: string)
  {
    exists i: nat :: IsNameMatchAt(line, n, i)
  }

  /** Whether `a` is the match of the address pattern found by `re.search` at `i`. */
  predicate IsAddressMatchAt(line: string, a: string, i: nat)
  {
    OccursAt(line, a, i) && IsMac(a) && forall k | 0 <= k < i :: !MacAt(line, k)
  }

  ghost predicate IsAddressMatch(line: string, a: string)
  {
    exists i: nat :: IsAddressMatchAt(line, a, i)
  }

  /** The end of the run of non-whitespace characters that starts at `from`. */
  function SpanEnd(s: string, from: nat): (j: nat)
    requires from <= |s|
    decreases |s| - from
    ensures from <= j <= |s|
    ensures forall k :: from <= k < j ==> !IsSpace(s[k])
    ensures j == |s| || IsSpace(s[j])
  {
    if from == |s| || IsSpace(s[from]) then from else SpanEnd(s, from + 1)
  }

  /** The leftmost index at or after `from` where a MAC address starts. */
  function FirstMacFrom(s: string, from: nat): (r: Option<nat>)
    decreases |s| - from
    ensures r.Some? ==> from <= r.value && MacAt(s, r.value)
    ensures r.Some? ==> forall k :: from <= k < r.value ==> !MacAt(s, k)
    ensures r.None? ==> forall k :: from <= k ==> !MacAt(s, k)
  {
    if from + 17 > |s| then None
    else if IsMac(s[from..from + 17]) then Some(from)
    else FirstMacFrom(s, from + 1)
  }

  /** `re.search(r'Muse[^\s]*', line)`. */
  function NameMatch(line: string): (r: Option<string>)
    ensures r.Some? <==> Contains(line, "Muse")
    ensures r.Some? ==> IsNameMatch(line, r.value)
  {
    ContainsIffFound(line, "Muse");
    match FindFrom(line, "Muse", 0)
    case None => None
    case Some(i) =>
      var n := line[i..SpanEnd(line, i + 4)];
      assert n[..4] == line[i..i + 4];
      assert IsNameMatchAt(line, n, i);
      Some(n)
  }

  /** `re.search(r'([0-9A-F]{2}[:-]){5}[0-9A-F]{2}', line, re.IGNORECASE)`. */
  function AddressMatch(line: string): (r: Option<string>)
    ensures r.Some? <==> HasMac(line)
    ensures r.Some? ==> IsAddressMatch(line, r.value)
  {
    match FirstMacFrom(line, 0)
    case None => None
    case Some(i) =>
      assert IsAddressMatchAt(line, line[i..i + 17], i);
      Some(line[i..i + 17])
  }

  /** The device one line of `bluetoothctl devices` contributes, if any. */
  function ParseLine(line: string): (r: Option<Device>)
    ensures r.Some? ==> Contains(line, "Muse")
    ensures r.Some? ==> r.value.name == NameMatch(line) && AddressMatch(line) == Some(r.value.address)
    ensures r.None? ==> NameMatch(line).None? || AddressMatch(line).None?
  {
    if Contains(line, "Muse") then
      match (NameMatch(line), AddressMatch(line))
      case (Some(n), Some(a)) => Some(Device(Some(n), a))
      case _ => None
    else None
  }

  /** A line yields a device exactly when it mentions "Muse" and carries a MAC
      address; the device holds the two leftmost matches. */
  lemma ParseLineSpec(line: string)
    ensures ParseLine(line).Some? <==> Contains(line, "Muse") && HasMac(line)
    ensures ParseLine(line).Some? ==>
      && ParseLine(line).value.name.Some?
      && IsNameMatch(line, ParseLine(line).value.name.value)
      && IsAddressMatch(line, ParseLine(line).value.address)
  {
  }

  /** The leftmost-longest name match is unique. */
  lemma NameMatchUnique(line: string, n1: string, n2: string)
    requires IsNameMatch(line, n1) && IsNameMatch(line, n2)
    ensures n1 == n2
  {
    var i1: nat :| IsNameMatchAt(line, n1, i1);
    var i2: nat :| IsNameMatchAt(line, n2, i2);
    assert OccursAt(line, "Muse", i1) by { assert line[i1..i1 + 4] == n1[..4]; }
    assert OccursAt(line, "Muse", i2) by { assert line[i2..i2 + 4] == n2[..4]; }
    assert i1 == i2;
    NameMatchEndsRun(line, n1, i1);
    NameMatchEndsRun(line, n2, i2);
  }

  /** A name match at `i` ends where the non-whitespace run from `i` ends. */
  lemma NameMatchEndsRun(line: string, n: string, i: nat)
    requires IsNameMatchAt(line, n, i)
    ensures SpanEnd(line, i) == i + |n|
  {
  }

  /** A device the parser can produce: a "Muse"-prefixed name without whitespace
      and a MAC-shaped address. */
  ghost predicate WellFormed(d: Device)
  {
    && d.name.Some?
    && |d.name.value| >= 4 && d.name.value[..4] == "Muse"
    && (forall k | 0 <= k < |d.name.value| :: !IsSpace(d.name.value[k]))
    && IsMac(d.address)
  }

  lemma ParsedLineWellFormed(line: string)
    requires ParseLine(line).Some?
    ensures WellFormed(ParseLine(line).value)
    ensures Contains(line, "Muse")
  {
  }

  function Emitted(line: string): seq<Device>
  {
    match ParseLine(line)
    case Some(d) => [d]
    case None => []
  }

  /** The devices the parser produces from the listed lines, in line order. */
  function ParsedDevices(lines: seq<string>): seq<Device>
  {
    if lines == [] then [] else ParsedDevices(lines[..|lines| - 1]) + Emitted(lines[|lines| - 1])
  }

  /** The loop over the lines of `bluetoothctl devices`. */
  method ParseDeviceLines(lines: seq<string>) returns (muses: seq<Device>)
    ensures muses == ParsedDevices(lines)
  {
    muses := [];
    for i := 0 to |lines|
      invariant muses == ParsedDevices(lines[..i])
    {
      var line := lines[i];
      assert lines[..i + 1][..i] == lines[..i];
      if Contains(line, "Muse") {
        var nameMatch := NameMatch(line);
        var addrMatch := AddressMatch(line);
        if nameMatch.Some? && addrMatch.Some? {
          muses := muses + [Device(Some(nameMatch.value), addrMatch.value)];
        }
      }
    }
    assert lines[..|lines|] == lines;
  }

  /** Parsing two blocks of lines is parsing their concatenation: output order
      follows line order. */
  lemma {:induction false} ParsedDevicesAppend(a: seq<string>, b: seq<string>)
    ensures ParsedDevices(a + b) == ParsedDevices(a) + ParsedDevices(b)
    decreases |b|
  {
    if b == [] {
      assert a + b == a;
    } else {
      var b' := b[..|b| - 1];
      assert (a + b)[..|a + b| - 1] == a + b';
      ParsedDevicesAppend(a, b');
    }
  }

  /** Every produced device comes from a line that mentions "Muse" and parses to it,
      and every line that parses contributes its device. */
  lemma {:induction false} ParsedDevicesOrigin(lines: seq<string>)
    ensures forall d :: d in ParsedDevices(lines) ==>
      exists l :: l in lines && Contains(l, "Muse") && ParseLine(l) == Some(d)
    ensures forall l :: l in lines && ParseLine(l).Some? ==> ParseLine(l).value in ParsedDevices(lines)
  {
    if lines != [] {
      var init, last := lines[..|lines| - 1], lines[|lines| - 1];
      ParsedDevicesOrigin(init);
      assert lines == init + [last];
      forall d | d in ParsedDevices(lines)
        ensures exists l :: l in lines && Contains(l, "Muse") && ParseLine(l) == Some(d)
      {
        if d in ParsedDevices(init) {
          var l :| l in init && Contains(l, "Muse") && ParseLine(l) == Some(d);
          assert l in lines;
        } else {
          assert d in Emitted(last);
          ParsedLineWellFormed(last);
        }
      }
    }
  }

  /** Every produced device is well formed. */
  lemma ParsedDevicesWellFormed(lines: seq<string>)
    ensures forall d :: d in ParsedDevices(lines) ==> WellFormed(d)
  {
  }

  /** A parsed name is a Muse name in the sense of the adapter filter. */
  lemma WellFormedIsMuseName(d: Device)
    requires WellFormed(d)
    ensures IsMuseName(d.name)
  {
    assert OccursAt(d.name.value, "Muse", 0);
  }
}
