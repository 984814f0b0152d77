/**
 * The Android Bluetooth helper: how a connected A2DP device is described to
 * the app (its AVRCP version and what that version supports), the list of
 * connected devices it keeps in step with the A2DP profile proxy, the A2DP
 * connection flag, and the events it sends. The platform's answers (the
 * devices the proxy reports, a device's class, name and address, the SDK
 * level, the broadcast's state code) are inputs to the model.
 */
module BluetoothMedia {
  import opened Channel

  const Avrcp13: int := 13
  const Avrcp14: int := 14
  const Avrcp16: int := 16

  /** `BluetoothClass.Device.Major.AUDIO_VIDEO` */
  const AudioVideoMajor: int := 0x0400
  /** `Build.VERSION_CODES.O` */
  const SdkO: int := 26
  /** `BluetoothProfile.STATE_CONNECTED` */
  const StateConnected: int := 2
  /** `BluetoothProfile.A2DP` */
  const ProfileA2dp: int := 2

  /** What reading `device.bluetoothClass` gives: an exception, null, or a
      class with its major device class. */
  datatype ClassReading = ClassThrows | NoClass | ClassOf(major: int)

  /** A device as the proxy reports it. `name` is None when the name is null
      or reading it is refused by a SecurityException. */
  datatype Device = Device(address: string, name: Option<string>, cls: ClassReading)

  /** `BluetoothDeviceInfo` */
  datatype DeviceInfo = DeviceInfo(
    address: string,
    name: string,
    isConnected: bool,
    supportsAvrcp: bool,
    avrcpVersion: int,
    supportsAlbumArt: bool,
    supportsBrowsing: bool)

  /** `getAvrcpVersion`: an audio/video device speaks AVRCP 1.6 from Android O
      on and 1.4 before; anything else, including a missing class or a failed
      read, is taken to speak 1.3. */
  function AvrcpVersion(cls: ClassReading, sdk: int): (v: int)
    ensures v == Avrcp13 || v == Avrcp14 || v == Avrcp16
    ensures v >= Avrcp14 <==> cls.ClassOf? && cls.major == AudioVideoMajor
    ensures v == Avrcp16 <==> cls.ClassOf? && cls.major == AudioVideoMajor && sdk >= SdkO
  {
    match cls
    case ClassThrows => Avrcp13
    case NoClass => Avrcp13
    case ClassOf(major) =>
      if major == AudioVideoMajor then (if sdk >= SdkO then Avrcp16 else Avrcp14) else Avrcp13
  }

  /** `getDeviceInfo` */
  function InfoOf(d: Device, sdk: int): (info: DeviceInfo)
    ensures info.address == d.address
    ensures info.name == (if d.name.Some? then d.name.value else "Unknown Device")
    ensures info.isConnected && info.supportsAvrcp
    ensures info.avrcpVersion == AvrcpVersion(d.cls, sdk)
    ensures info.supportsAlbumArt == info.supportsBrowsing == (info.avrcpVersion >= Avrcp14)
  {
    var version := AvrcpVersion(d.cls, sdk);
    DeviceInfo(d.address, if d.name.Some? then d.name.value else "Unknown Device", true, true,
               version, version >= Avrcp14, version >= Avrcp14)
  }

  /** `BluetoothDeviceInfo.toMap()` */
  function ToMap(info: DeviceInfo): (m: Payload)
    ensures m.Keys == {"address", "name", "isConnected", "supportsAvrcp", "avrcpVersion", "supportsAlbumArt", "supportsBrowsing"}
    ensures m["address"] == Str(info.address) && m["name"] == Str(info.name) && m["avrcpVersion"] == Int(info.avrcpVersion)
    ensures m["isConnected"] == Bool(info.isConnected) && m["supportsAvrcp"] == Bool(info.supportsAvrcp)
    ensures m["supportsAlbumArt"] == Bool(info.supportsAlbumArt) && m["supportsBrowsing"] == Bool(info.supportsBrowsing)
  {
    map["address" := Str(info.address), "name" := Str(info.name),
        "isConnected" := Bool(info.isConnected), "supportsAvrcp" := Bool(info.supportsAvrcp),
        "avrcpVersion" := Int(info.avrcpVersion),
        "supportsAlbumArt" := Bool(info.supportsAlbumArt), "supportsBrowsing" := Bool(info.supportsBrowsing)]
  }

  /** The descriptions of the reported devices, one per device, in order. */
  function Infos(ds: seq<Device>, sdk: int): (r: seq<DeviceInfo>)
    ensures |r| == |ds|
    ensures forall i :: 0 <= i < |ds| ==> r[i] == InfoOf(ds[i], sdk)
  {
    seq(|ds|, i requires 0 <= i < |ds| => InfoOf(ds[i], sdk))
  }

  /** The devices a refresh lists: those the proxy reports, or none when there
      is no proxy or asking it throws. */
  function Reported(proxyConnected: bool, report: Option<seq<Device>>): seq<Device>
  {
    if proxyConnected && report.Some? then report.value else []
  }

  /** `connectedDevices.find { it.address == address }` */
  function Find(list: seq<DeviceInfo>, address: string): (r: Option<DeviceInfo>)
    ensures r.Some? ==> r.value in list && r.value.address == address
  {
    if list == [] then None
    else if list[0].address == address then Some(list[0])
    else Find(list[1..], address)
  }

  /** Find yields an entry exactly when some entry has the address, and then
      the first such entry. */
  lemma {:induction false} FindFirst(list: seq<DeviceInfo>, address: string)
    ensures Find(list, address).Some? <==> exists i :: 0 <= i < |list| && list[i].address == address
    ensures Find(list, address).Some? ==>
      exists i :: 0 <= i < |list| && list[i] == Find(list, address).value && list[i].address == address &&
        forall j :: 0 <= j < i ==> list[j].address != address
  {
    if list != [] && list[0].address != address {
      var tail := list[1..];
      FindFirst(tail, address);
      assert forall i :: 0 < i < |list| ==> list[i] == tail[i - 1];
      if Find(tail, address).Some? {
        var i :| 0 <= i < |tail| && tail[i] == Find(tail, address).value && tail[i].address == address &&
                 forall j :: 0 <= j < i ==> tail[j].address != address;
        assert list[i + 1] == tail[i];
      } else {
        forall i | 0 <= i < |list| ensures list[i].address != address {
          if i > 0 { assert list[i] == tail[i - 1]; }
        }
      }
    }
  }

  /** `removeIf { it.address == address }`: the entries with another address,
      in their order. */
  function Without(list: seq<DeviceInfo>, address: string): (r: seq<DeviceInfo>)
    ensures |r| <= |list|
    ensures forall i :: 0 <= i < |r| ==> r[i].address != address && r[i] in list
  {
    if list == [] then []
    else Without(list[..|list| - 1], address) + (if list[|list| - 1].address != address then [list[|list| - 1]] else [])
  }

  /** Exactly the entries with another address survive a removal, and the
      list shrinks when some entry has the address. */
  lemma {:induction false} WithoutMembers(list: seq<DeviceInfo>, address: string)
    ensures forall x :: x in Without(list, address) <==> x in list && x.address != address
    ensures (exists i :: 0 <= i < |list| && list[i].address == address) ==> |Without(list, address)| < |list|
    ensures |Without(list, address)| <= |list|
  {
    if list != [] {
      var init := list[..|list| - 1];
      var last := list[|list| - 1];
      assert list == init + [last];
      WithoutMembers(init, address);
      if exists i :: 0 <= i < |list| && list[i].address == address {
        var i :| 0 <= i < |list| && list[i].address == address;
        if i < |list| - 1 { assert init[i] == list[i]; }
      }
    }
  }

  /** Removing an address no entry has leaves the list as it was. */
  lemma {:induction false} WithoutAbsentIsIdentity(list: seq<DeviceInfo>, address: string)
    ensures (forall i :: 0 <= i < |list| ==> list[i].address != address) ==> Without(list, address) == list
  {
    if list != [] {
      var init := list[..|list| - 1];
      WithoutAbsentIsIdentity(init, address);
      assert list == init + [list[|list| - 1]];
    }
  }

  /** Removal works entry by entry: the survivors of a list split in two are
      the survivors of each part, in order. */
  lemma {:induction false} WithoutKeepsOrder(a: seq<DeviceInfo>, b: seq<DeviceInfo>, address: string)
    ensures Without(a + b, address) == Without(a, address) + Without(b, address)
  {
    if b == [] {
      assert a + b == a;
    } else {
      var init := b[..|b| - 1];
      var last := b[|b| - 1];
      var tail := if last.address != address then [last] else [];
      WithoutKeepsOrder(a, init, address);
      assert (a + b)[..|a + b| - 1] == a + init;
      assert (a + b)[|a + b| - 1] == last;
      assert Without(a + b, address) == Without(a + init, address) + tail;
      assert Without(b, address) == Without(init, address) + tail;
    }
  }

  class BluetoothMedia {
    /** `Build.VERSION.SDK_INT` */
    const sdk: int
    /** Whether the A2DP profile proxy is held (`a2dpProxy != null`). */
    var proxyConnected: bool
    /** The `isA2dpConnected` field, set from connection-state broadcasts. */
    var a2dpFlag: bool
    var connectedDevices: seq<DeviceInfo>
    /** Whether an event sink is set. */
    var sinkAttached: bool
    /** Every event map handed to the sink, oldest first. */
    var events: seq<Payload>

    constructor (sdk: int)
      ensures this.sdk == sdk
      ensures !proxyConnected && !a2dpFlag && connectedDevices == [] && !sinkAttached && events == []
    {
      this.sdk := sdk;
      proxyConnected, a2dpFlag, connectedDevices := false, false, [];
      sinkAttached, events := false, [];
    }

    /** `isA2dpConnected()`: the flag is set and some device is listed. */
    function IsA2dpConnected(): (r: bool)
      reads this`a2dpFlag, this`connectedDevices
      ensures r <==> a2dpFlag && |connectedDevices| > 0
    {
      a2dpFlag && connectedDevices != []
    }

    /** `getConnectedDevices()` */
    function ConnectedDeviceMaps(): (r: seq<Payload>)
      reads this`connectedDevices
      ensures |r| == |connectedDevices|
      ensures forall i :: 0 <= i < |r| ==> r[i] == ToMap(connectedDevices[i])
    {
      var list := connectedDevices;
      seq(|list|, i requires 0 <= i < |list| => ToMap(list[i]))
    }

    method SetEventSink(attached: bool)
      modifies this`sinkAttached
      ensures sinkAttached == attached
    {
      sinkAttached := attached;
    }

    /** `sendEvent(event, data)`: `{"event" -> event}` with every data entry
        copied over it, posted to the sink if one is set. */
    method SendEvent(event: string, data: Option<Payload>)
      modifies this`events
      ensures events == old(events) + (if sinkAttached then [Envelope("event", event, data)] else [])
    {
      if sinkAttached {
        events := events + [Envelope("event", event, data)];
      }
    }

    /** `refreshConnectedDevices()`: the list is cleared, then one description
        is added per reported device, in the order reported. */
    method Refresh(report: Option<seq<Device>>)
      modifies this`connectedDevices
      ensures connectedDevices == Infos(Reported(proxyConnected, report), sdk)
    {
      connectedDevices := [];
      var devices := Reported(proxyConnected, report);
      var i := 0;
      while i < |devices|
        invariant 0 <= i <= |devices|
        invariant connectedDevices == Infos(devices[..i], sdk)
      {
        connectedDevices := connectedDevices + [InfoOf(devices[i], sdk)];
        i := i + 1;
      }
      assert devices[..i] == devices;
    }

    /** The profile listener's `onServiceConnected`: for the A2DP profile the
        proxy is kept (if it is an A2DP proxy) and the list refreshed. */
    method OnServiceConnected(profile: int, isA2dpProxy: bool, report: Option<seq<Device>>)
      modifies this`proxyConnected, this`connectedDevices
      ensures profile == ProfileA2dp ==>
        proxyConnected == isA2dpProxy && connectedDevices == Infos(Reported(isA2dpProxy, report), sdk)
      ensures profile != ProfileA2dp ==> proxyConnected == old(proxyConnected) && connectedDevices == old(connectedDevices)
    {
      if profile == ProfileA2dp {
        proxyConnected := isA2dpProxy;
        Refresh(report);
      }
    }

    /** The profile listener's `onServiceDisconnected`. */
    method OnServiceDisconnected(profile: int)
      modifies this`proxyConnected
      ensures proxyConnected == (old(proxyConnected) && profile != ProfileA2dp)
    {
      if profile == ProfileA2dp {
        proxyConnected := false;
      }
    }

    /** An A2DP connection-state broadcast: the flag becomes whether the state
        is "connected", then the list is refreshed. */
    method OnConnectionStateChanged(state: int, report: Option<seq<Device>>)
      modifies this`a2dpFlag, this`connectedDevices
      ensures a2dpFlag == (state == StateConnected)
      ensures connectedDevices == Infos(Reported(proxyConnected, report), sdk)
      ensures IsA2dpConnected() <==> state == StateConnected && |Reported(proxyConnected, report)| > 0
    {
      a2dpFlag := state == StateConnected;
      Refresh(report);
    }

    /** The becoming-noisy broadcast. */
    method OnBecomingNoisy()
      modifies this`events
      ensures events == old(events) + (if sinkAttached then [map["event" := Str("becomingNoisy")]] else [])
    {
      SendEvent("becomingNoisy", None);
    }

    /** The delayed part of `handleDeviceConnected`: a refresh, then a
        `deviceConnected` event for the listed entry with the address, if any. */
    method HandleDeviceConnected(address: string, report: Option<seq<Device>>)
      modifies this`connectedDevices, this`events
      ensures connectedDevices == Infos(Reported(proxyConnected, report), sdk)
      ensures var found := Find(connectedDevices, address);
        events == old(events) +
          (if found.Some? && sinkAttached then [Envelope("event", "deviceConnected", Some(map["device" := Dict(ToMap(found.value))]))] else [])
    {
      Refresh(report);
      var found := Find(connectedDevices, address);
      if found.Some? {
        SendEvent("deviceConnected", Some(map["device" := Dict(ToMap(found.value))]));
      }
    }

    /** `handleDeviceDisconnected`: when some entry has the address, every entry
        with it is removed and one `deviceDisconnected` event carries the first;
        otherwise nothing changes. */
    method HandleDeviceDisconnected(address: string)
      modifies this`connectedDevices, this`events
      ensures var found := Find(old(connectedDevices), address);
        && connectedDevices == (if found.Some? then Without(old(connectedDevices), address) else old(connectedDevices))
        && events == old(events) +
             (if found.Some? && sinkAttached then [Envelope("event", "deviceDisconnected", Some(map["device" := Dict(ToMap(found.value))]))] else [])
    {
      var found := Find(connectedDevices, address);
      if found.Some? {
        RemoveAddress(address);
        SendEvent("deviceDisconnected", Some(map["device" := Dict(ToMap(found.value))]));
      }
    }

    /** The `removeIf` pass over the list. */
    method RemoveAddress(address: string)
      modifies this`connectedDevices
      ensures connectedDevices == Without(old(connectedDevices), address)
    {
      var list := connectedDevices;
      var kept := [];
      var i := 0;
      while i < |list|
        invariant 0 <= i <= |list|
        invariant kept == Without(list[..i], address)
      {
        assert list[..i + 1][..i] == list[..i];
        if list[i].address != address {
          kept := kept + [list[i]];
        }
        i := i + 1;
      }
      assert list[..i] == list;
      connectedDevices := kept;
    }

    /** `dispose()`: the proxy is released and the list emptied. */
    method Dispose()
      modifies this`proxyConnected, this`connectedDevices
      ensures !proxyConnected && connectedDevices == []
      ensures !IsA2dpConnected()
    {
      proxyConnected := false;
      connectedDevices := [];
    }
  }

  /** After a disconnect for a listed address no entry has it any more, every
      entry with another address stays, and the list shrinks. */
  lemma DisconnectRemovesAddress(list: seq<DeviceInfo>, address: string)
    requires Find(list, address).Some?
    ensures forall x :: x in Without(list, address) ==> x.address != address
    ensures forall x :: x in list && x.address != address ==> x in Without(list, address)
    ensures |Without(list, address)| < |list|
    ensures Find(Without(list, address), address).None?
  {
    FindFirst(list, address);
    WithoutMembers(list, address);
    FindFirst(Without(list, address), address);
  }
}
