/**
 * `AudioManager` (src/audio/audio_manager.py): the voice agent's own scan
 * for the BlackHole device, over the PyAudio device list.  Unlike
 * `find_blackhole_device` it skips entries whose name is not a string and
 * does not look at channel counts.
 */
module AudioManager {
  import opened Wrappers
  import opened Text
  import Blackhole

  const BlackholeDeviceName := "BlackHole"

  /** `BLACKHOLE_DEVICE_NAME.lower() in device_name.lower()` for a string name. */
  predicate Named(d: Blackhole.Device) {
    d.name.Some? && Contains(Lower(d.name.value), Lower(BlackholeDeviceName))
  }

  /** The first device from `i` on with a matching string name. */
  function FirstNamed(devices: seq<Blackhole.Device>, i: nat): (r: Option<nat>)
    requires i <= |devices|
    ensures r.Some? ==>
      && i <= r.value < |devices| && Named(devices[r.value])
      && forall j :: i <= j < r.value ==> !Named(devices[j])
    ensures r.None? <==> forall j :: i <= j < |devices| ==> !Named(devices[j])
    decreases |devices| - i
  {
    if i == |devices| then None
    else if Named(devices[i]) then Some(i)
    else FirstNamed(devices, i + 1)
  }

  class AudioManager {
    var blackholeDeviceId: Option<nat>

    /** `__init__`: no device until the scan has run, then the scan. */
    constructor (devices: seq<Blackhole.Device>)
      ensures blackholeDeviceId == FirstNamed(devices, 0)
    {
      blackholeDeviceId := None;
      new;
      FindBlackholeDevice(devices);
    }

    /** `_find_blackhole_device`: the first matching device is recorded and
        the scan stops; without one the field is left as it was. */
    method FindBlackholeDevice(devices: seq<Blackhole.Device>)
      modifies this
      ensures blackholeDeviceId ==
        if FirstNamed(devices, 0).Some? then FirstNamed(devices, 0) else old(blackholeDeviceId)
    {
      for i := 0 to |devices|
        invariant FirstNamed(devices, 0) == FirstNamed(devices, i)
        invariant blackholeDeviceId == old(blackholeDeviceId)
      {
        var name := devices[i].name;
        if name.Some? && Contains(Lower(name.value), Lower(BlackholeDeviceName)) {
          blackholeDeviceId := Some(i);
          return;
        }
      }
    }

    /** `is_blackhole_available` */
    predicate IsBlackholeAvailable()
      reads this
    {
      blackholeDeviceId.Some?
    }
  }

  /** The manager's test is the same case-insensitive "blackhole" test as
      the device search's. */
  lemma NamedIsNameMatches(d: Blackhole.Device)
    ensures Named(d) <==> d.name.Some? && Blackhole.NameMatches(d.name.value)
  {
    assert Lower(BlackholeDeviceName) == "blackhole";
  }

  /** A freshly built manager reports BlackHole available exactly when some
      device has a string name containing "blackhole" in any case. */
  lemma AvailableIffSomeDeviceNamed(m: AudioManager, devices: seq<Blackhole.Device>)
    requires m.blackholeDeviceId == FirstNamed(devices, 0)
    ensures m.IsBlackholeAvailable() <==>
      exists i :: 0 <= i < |devices| && devices[i].name.Some? && Blackhole.NameMatches(devices[i].name.value)
  {
    var found := FirstNamed(devices, 0);
    if found.Some? {
      NamedIsNameMatches(devices[found.value]);
    } else {
      forall i | 0 <= i < |devices|
        ensures !(devices[i].name.Some? && Blackhole.NameMatches(devices[i].name.value))
      {
        NamedIsNameMatches(devices[i]);
      }
    }
  }

  /** Where every name is a string and every device has input channels,
      the manager and `find_blackhole_device("input")` pick the same
      device. */
  lemma {:induction false} ScansAgreeOnInputs(devices: seq<Blackhole.Device>, i: nat)
    requires i <= |devices|
    requires forall j :: i <= j < |devices| ==> devices[j].name.Some? && devices[j].maxInputChannels > 0
    ensures FirstNamed(devices, i) == Blackhole.FirstServing(devices, "input", i)
    decreases |devices| - i
  {
    if i < |devices| {
      NamedIsNameMatches(devices[i]);
      ScansAgreeOnInputs(devices, i + 1);
    }
  }
}
