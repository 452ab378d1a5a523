/** Device descriptors as discovery produces them, substring search on strings,
    and the Muse-name filter applied to adapter scan results. */
module Devices {

  datatype Option<T> = None | Some(value: T)

  /** A discovered BLE peripheral. An adapter scan may report a device without a
      name, so the name is optional; the address is kept as the text reported. */
  datatype Device = Device(name: Option<string>, address: string)

  /** `t` occurs in `s` at index `i`. */
  predicate OccursAt(s: string, t: string, i: nat)
  {
    i + |t| <= |s| && s[i..i + |t|] == t
  }

  /** Python's `t in s` on strings. */
  predicate Contains(s: string, t: string)
  {
    exists i | 0 <= i <= |s| :: OccursAt(s, t, i)
  }

  /** The leftmost occurrence of `t` in `s` at or after `from`, if any. */
  function FindFrom(s: string, t: string, from: nat): (r: Option<nat>)
    decreases |s| - from
    ensures r.Some? ==> from <= r.value && OccursAt(s, t, r.value)
    ensures r.Some? ==> forall k :: from <= k < r.value ==> !OccursAt(s, t, k)
    ensures r.None? ==> forall k :: from <= k ==> !OccursAt(s, t, k)
  {
    if from + |t| > |s| then None
    else if s[from..from + |t|] == t then Some(from)
    else FindFrom(s, t, from + 1)
  }

  /** The substring test agrees with the leftmost search from the start. */
  lemma ContainsIffFound(s: string, t: string)
    ensures Contains(s, t) <==> FindFrom(s, t, 0).Some?
  {
  }

  /** A name that passes `d['name'] and 'Muse' in d['name']`. */
  predicate IsMuseName(name: Option<string>)
  {
    name.Some? && name.value != [] && Contains(name.value, "Muse")
  }

  /** The list comprehension that keeps the Muse devices of an adapter scan. */
  function MuseFilter(devices: seq<Device>): (muses: seq<Device>)
    ensures forall d :: d in muses <==> d in devices && IsMuseName(d.name)
    ensures |muses| <= |devices|
  {
    if devices == [] then []
    else if IsMuseName(devices[0].name) then [devices[0]] + MuseFilter(devices[1..])
    else MuseFilter(devices[1..])
  }

  /** Filtering scan results in two parts is filtering the whole scan: the
      filter keeps the scan's order. */
  lemma {:induction false} MuseFilterAppend(a: seq<Device>, b: seq<Device>)
    ensures MuseFilter(a + b) == MuseFilter(a) + MuseFilter(b)
  {
    if a == [] {
      assert a + b == b;
    } else {
      assert (a + b)[1..] == a[1..] + b;
      MuseFilterAppend(a[1..], b);
    }
  }

  /** A list without non-Muse devices passes the filter unchanged. */
  lemma {:induction false} MuseFilterKeepsMuses(devices: seq<Device>)
    requires forall d :: d in devices ==> IsMuseName(d.name)
    ensures MuseFilter(devices) == devices
  {
    if devices != [] {
      MuseFilterKeepsMuses(devices[1..]);
    }
  }

  /** Filtering twice is filtering once. */
  lemma MuseFilterIdempotent(devices: seq<Device>)
    ensures MuseFilter(MuseFilter(devices)) == MuseFilter(devices)
  {
  }
}
