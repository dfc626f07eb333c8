/**
 * The BlackHole device search of src/audio/blackhole.py and the two
 * functions that make the device the default input or output.  The
 * device list is what `sd.query_devices()` returns; the default device
 * pair `sd.default.device` is an array of two device ids, input first.
 */
module Blackhole {
  import opened Wrappers
  import opened Text

  /** One entry of the device list.  `name` is `None` when the entry's name
      is not a string (calling `.lower()` on it raises). */
  datatype Device = Device(name: Option<string>, maxInputChannels: int, maxOutputChannels: int)

  /** The lower-cased name contains "blackhole". */
  predicate NameMatches(name: string) {
    Contains(Lower(name), "blackhole")
  }

  /** The device has channels in the requested direction; a device type
      other than "input" and "output" is served by no device. */
  predicate Serves(d: Device, deviceType: string) {
    (deviceType == "input" && d.maxInputChannels > 0) ||
    (deviceType == "output" && d.maxOutputChannels > 0)
  }

  predicate Qualifies(d: Device, deviceType: string) {
    d.name.Some? && NameMatches(d.name.value) && Serves(d, deviceType)
  }

  /**
   * The scan of `find_blackhole_device` from index `i` on: the first
   * qualifying device, unless an entry without a string name comes first
   * (the exception ends the scan with `None`).  So `None` means that no
   * qualifying device comes before the first entry without a string name.
   */
  function FirstServing(devices: seq<Device>, deviceType: string, i: nat): (r: Option<nat>)
    requires i <= |devices|
    ensures r.Some? ==>
      && i <= r.value < |devices| && Qualifies(devices[r.value], deviceType)
      && forall j :: i <= j < r.value ==> devices[j].name.Some? && !Qualifies(devices[j], deviceType)
    ensures (forall j :: i <= j < |devices| ==> devices[j].name.Some?) ==>
      (r.None? <==> forall j :: i <= j < |devices| ==> !Qualifies(devices[j], deviceType))
    ensures forall k ::
      (i <= k < |devices| && Qualifies(devices[k], deviceType) &&
       forall j :: i <= j < k ==> devices[j].name.Some?) ==> r.Some?
    decreases |devices| - i
  {
    if i == |devices| then None
    else if devices[i].name.None? then None
    else if Qualifies(devices[i], deviceType) then Some(i)
    else FirstServing(devices, deviceType, i + 1)
  }

  /** `find_blackhole_device` on the result of `sd.query_devices()`
      (`None` when the query raises). */
  function FindSpec(devices: Option<seq<Device>>, deviceType: string): Option<nat> {
    if devices.None? then None else FirstServing(devices.value, deviceType, 0)
  }

  /** `find_blackhole_device`: returns the id of the first BlackHole device
      with channels of the requested kind. */
  method FindBlackholeDevice(devices: Option<seq<Device>>, deviceType: string) returns (id: Option<nat>)
    ensures id == FindSpec(devices, deviceType)
  {
    if devices.None? {
      return None;
    }
    var list := devices.value;
    for i := 0 to |list|
      invariant FirstServing(list, deviceType, 0) == FirstServing(list, deviceType, i)
    {
      var device := list[i];
      if device.name.None? {
        // `.lower()` raises; the handler logs and falls through to `return None`
        return None;
      }
      if NameMatches(device.name.value) {
        if deviceType == "input" && device.maxInputChannels > 0 {
          return Some(i);
        } else if deviceType == "output" && device.maxOutputChannels > 0 {
          return Some(i);
        }
      }
    }
    id := None;
  }

  /** A found id indexes the device list, names a BlackHole device with
      channels of the requested kind, and no earlier device qualifies. */
  lemma FoundIsFirstQualifying(devices: Option<seq<Device>>, deviceType: string)
    requires FindSpec(devices, deviceType).Some?
    ensures var k := FindSpec(devices, deviceType).value;
      && devices.Some? && k < |devices.value|
      && Qualifies(devices.value[k], deviceType)
      && forall j :: 0 <= j < k ==> !Qualifies(devices.value[j], deviceType)
  {
  }

  /** Only "input" and "output" can find anything. */
  lemma UnknownTypeFindsNothing(devices: Option<seq<Device>>, deviceType: string)
    requires deviceType != "input" && deviceType != "output"
    ensures FindSpec(devices, deviceType) == None
  {
  }

  /** Matching ignores case: two names that lower-case alike both match or
      both do not. */
  lemma MatchIgnoresCase(a: string, b: string)
    requires Lower(a) == Lower(b)
    ensures NameMatches(a) <==> NameMatches(b)
    ensures NameMatches(a) <==> NameMatches(Lower(a))
  {
    LowerIdempotent(a);
  }

  /** `set_mic_to_blackhole` / `set_speaker_to_blackhole`: the id they set
      and return.  The found device is queried again (`requery`, `None`
      when that raises) and must still show channels of the kind. */
  function Confirmed(devices: Option<seq<Device>>, deviceType: string, requery: Option<Device>): Option<nat> {
    var found := FindSpec(devices, deviceType);
    if found.Some? && requery.Some? && Serves(requery.value, deviceType) then found else None
  }

  /** `set_mic_to_blackhole`: only the input slot of the default pair is
      set, and only when the device is confirmed. */
  method SetMicToBlackhole(devices: Option<seq<Device>>, requery: Option<Device>, defaults: array<int>)
    returns (id: Option<nat>)
    requires defaults.Length == 2
    modifies defaults
    ensures id == Confirmed(devices, "input", requery)
    ensures id.Some? ==> defaults[..] == [id.value, old(defaults[1])]
    ensures id.None? ==> defaults[..] == old(defaults[..])
  {
    var found := FindBlackholeDevice(devices, "input");
    if found.None? {
      return None;
    }
    if requery.Some? && requery.value.maxInputChannels > 0 {
      defaults[0] := found.value;
      return found;
    }
    id := None;
  }

  /** `set_speaker_to_blackhole`: only the output slot of the default pair
      is set, and only when the device is confirmed. */
  method SetSpeakerToBlackhole(devices: Option<seq<Device>>, requery: Option<Device>, defaults: array<int>)
    returns (id: Option<nat>)
    requires defaults.Length == 2
    modifies defaults
    ensures id == Confirmed(devices, "output", requery)
    ensures id.Some? ==> defaults[..] == [old(defaults[0]), id.value]
    ensures id.None? ==> defaults[..] == old(defaults[..])
  {
    var found := FindBlackholeDevice(devices, "output");
    if found.None? {
      return None;
    }
    if requery.Some? && requery.value.maxOutputChannels > 0 {
      defaults[1] := found.value;
      return found;
    }
    id := None;
  }

  /** A confirmed id is the first qualifying device of its kind; with no
      BlackHole device listed (and string names only) nothing is
      confirmed. */
  lemma ConfirmedIsFound(devices: seq<Device>, deviceType: string, requery: Option<Device>)
    ensures var c := Confirmed(Some(devices), deviceType, requery);
      c.Some? ==> c.value < |devices| && Qualifies(devices[c.value], deviceType)
    ensures (forall j :: 0 <= j < |devices| ==> devices[j].name.Some? && !NameMatches(devices[j].name.value)) ==>
      Confirmed(Some(devices), deviceType, requery) == None
  {
  }
}
