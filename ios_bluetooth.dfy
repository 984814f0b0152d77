/**
 * The iOS Bluetooth plugin: the connected devices it derives from the audio
 * session's current route, the connected query over the same route, the
 * route-change handler that is meant to report connects and disconnects, and
 * the events it sends. The current route is an input: the handler and the
 * queries all read the route the audio session reports at that moment.
 */
module IosBluetooth {
  import opened Channel

  /** The port types the plugin tells apart, and any other one. */
  datatype PortKind = BluetoothA2DP | BluetoothHFP | BluetoothLE | CarAudio | OtherPort(portType: string)

  /** One output of the current route. */
  datatype Output = Output(kind: PortKind, uid: string, portName: string)

  /** Why the route changed, or Unreadable when the notification carries no
      reason the handler can read. */
  datatype Reason = NewDeviceAvailable | OldDeviceUnavailable | OtherReason | Unreadable

  predicate IsBluetoothPort(k: PortKind)
  {
    k.BluetoothA2DP? || k.BluetoothHFP? || k.BluetoothLE?
  }

  /** The ports `isBluetoothConnected` looks for. */
  predicate CountsAsConnected(k: PortKind)
  {
    IsBluetoothPort(k) || k.CarAudio?
  }

  /** The device dictionary `refreshConnectedDevices` builds for an output,
      if it builds one: Bluetooth ports are AVRCP 1.4 with album art and
      browsing only over A2DP; CarPlay is 1.6 with both; other ports are
      skipped. */
  function Entry(o: Output): (r: Option<Payload>)
    ensures r.Some? <==> CountsAsConnected(o.kind)
    ensures r.Some? ==> Get(r.value, "address") == Str(o.uid) && Get(r.value, "isConnected") == Bool(true) &&
                        Get(r.value, "supportsAvrcp") == Bool(true) && Get(r.value, "supportsAlbumArt") == Bool(true)
    ensures IsBluetoothPort(o.kind) ==> Get(r.value, "name") == Str(o.portName) && Get(r.value, "avrcpVersion") == Int(14) &&
                                        Get(r.value, "supportsBrowsing") == Bool(o.kind.BluetoothA2DP?)
    ensures o.kind.CarAudio? ==> Get(r.value, "name") == Str("CarPlay") && Get(r.value, "avrcpVersion") == Int(16) &&
                                 Get(r.value, "supportsBrowsing") == Bool(true)
  {
    if IsBluetoothPort(o.kind) then
      Some(map["address" := Str(o.uid), "name" := Str(o.portName), "isConnected" := Bool(true),
               "supportsAvrcp" := Bool(true), "avrcpVersion" := Int(14), "supportsAlbumArt" := Bool(true),
               "supportsBrowsing" := Bool(o.kind.BluetoothA2DP?)])
    else if o.kind.CarAudio? then
      Some(map["address" := Str(o.uid), "name" := Str("CarPlay"), "isConnected" := Bool(true),
               "supportsAvrcp" := Bool(true), "avrcpVersion" := Int(16), "supportsAlbumArt" := Bool(true),
               "supportsBrowsing" := Bool(true)])
    else None
  }

  /** The device list for a route: one dictionary per counted output, in route
      order. */
  function Entries(route: seq<Output>): (r: seq<Payload>)
    ensures |r| <= |route|
    ensures forall i :: 0 <= i < |r| ==> Get(r[i], "isConnected") == Bool(true) && Get(r[i], "supportsAvrcp") == Bool(true)
  {
    if route == [] then []
    else
      var last := route[|route| - 1];
      Entries(route[..|route| - 1]) + (if Entry(last).Some? then [Entry(last).value] else [])
  }

  /** Some output of the route is one the connected query looks for. */
  ghost predicate AnyConnected(route: seq<Output>)
  {
    exists i :: 0 <= i < |route| && CountsAsConnected(route[i].kind)
  }

  /** The refreshed list is non-empty exactly when the connected query holds
      for the same route. */
  lemma {:induction false} EntriesNonEmptyIffConnected(route: seq<Output>)
    ensures |Entries(route)| > 0 <==> AnyConnected(route)
  {
    if route != [] {
      var init := route[..|route| - 1];
      EntriesNonEmptyIffConnected(init);
      if AnyConnected(init) {
        var i :| 0 <= i < |init| && CountsAsConnected(init[i].kind);
        assert route[i] == init[i];
      }
      if AnyConnected(route) && !CountsAsConnected(route[|route| - 1].kind) {
        var i :| 0 <= i < |route| && CountsAsConnected(route[i].kind);
        assert init[i] == route[i];
      }
    }
  }

  /** Every entry comes from a counted output, and the number of entries is the
      number of counted outputs: nothing else is listed and nothing is lost. */
  function CountConnected(route: seq<Output>): nat
  {
    if route == [] then 0
    else CountConnected(route[..|route| - 1]) + (if CountsAsConnected(route[|route| - 1].kind) then 1 else 0)
  }

  lemma {:induction false} EntriesCount(route: seq<Output>)
    ensures |Entries(route)| == CountConnected(route)
    ensures forall j :: 0 <= j < |Entries(route)| ==> exists i :: 0 <= i < |route| && Entry(route[i]) == Some(Entries(route)[j])
  {
    if route != [] {
      var init := route[..|route| - 1];
      EntriesCount(init);
      forall j | 0 <= j < |Entries(route)| ensures exists i :: 0 <= i < |route| && Entry(route[i]) == Some(Entries(route)[j]) {
        if j < |Entries(init)| {
          var i :| 0 <= i < |init| && Entry(init[i]) == Some(Entries(init)[j]);
          assert route[i] == init[i];
        } else {
          assert Entry(route[|route| - 1]) == Some(Entries(route)[j]);
        }
      }
    }
  }

  /** The first entry of the list, as `connectedDevices.first`. */
  function First(devices: seq<Payload>): Option<Payload>
  {
    if devices == [] then None else Some(devices[0])
  }

  /** The events a route change sends, given the connected query before and
      after the refresh and the first listed device each time the handler
      reads one. Connect is reported on false-to-true, disconnect on
      true-to-false, each only when a device is there to carry. */
  function RouteEvents(reason: Reason, was: bool, now: bool, connectedDevice: Option<Payload>, lostDevice: Option<Payload>): (r: seq<Payload>)
    ensures |r| <= 1
    ensures |r| == 1 <==>
      (reason == NewDeviceAvailable && now && !was && connectedDevice.Some?) ||
      (reason == OldDeviceUnavailable && !now && was && lostDevice.Some?)
  {
    match reason
    case NewDeviceAvailable =>
      if now && !was && connectedDevice.Some?
      then [Envelope("event", "deviceConnected", Some(map["device" := Dict(connectedDevice.value)]))] else []
    case OldDeviceUnavailable =>
      if !now && was && lostDevice.Some?
      then [Envelope("event", "deviceDisconnected", Some(map["device" := Dict(lostDevice.value)]))] else []
    case _ => []
  }

  /** As written, both connected queries read the same current route, so no
      route change ever sends an event. */
  lemma AsWrittenSendsNothing(reason: Reason, route: seq<Output>, connected: bool)
    ensures RouteEvents(reason, connected, connected, First(Entries(route)), First(Entries(route))) == []
  {
  }

  /** The concrete case: a Bluetooth headset appears on a route that had no
      device. The as-written handler sends nothing; the corrected one reports
      the headset. */
  lemma HeadsetConnectCounterexample()
    ensures var route := [Output(BluetoothA2DP, "uid", "Headset")];
      && Entries(route) == [Entry(route[0]).value]
      && RouteEvents(NewDeviceAvailable, true, true, First(Entries(route)), First(Entries(route))) == []
      && |RouteEvents(NewDeviceAvailable, |Entries([])| > 0, true, First(Entries(route)), First([]))| == 1
  {
    var route := [Output(BluetoothA2DP, "uid", "Headset")];
    assert route[..0] == [];
  }

  /** The concrete case for a disconnect: the headset goes away. Even with the
      previous list as the "before" state, the list after the refresh is
      empty, so only the device remembered from before can be reported. */
  lemma HeadsetDisconnectCounterexample()
    ensures var before := [Output(BluetoothA2DP, "uid", "Headset")];
      && RouteEvents(OldDeviceUnavailable, true, false, First(Entries([])), First(Entries([]))) == []
      && |RouteEvents(OldDeviceUnavailable, true, false, First(Entries([])), First(Entries(before)))| == 1
  {
    var before := [Output(BluetoothA2DP, "uid", "Headset")];
    assert before[..0] == [];
  }

  class IosBluetooth {
    var connectedDevices: seq<Payload>
    var isMonitoring: bool
    var sinkAttached: bool
    /** Every event map handed to the sink, oldest first. */
    var events: seq<Payload>

    constructor ()
      ensures connectedDevices == [] && !isMonitoring && !sinkAttached && events == []
    {
      connectedDevices, isMonitoring, sinkAttached, events := [], false, false, [];
    }

    /** `onListen` and `onCancel` */
    method SetEventSink(attached: bool)
      modifies this`sinkAttached
      ensures sinkAttached == attached
    {
      sinkAttached := attached;
    }

    /** `sendEvent(event, data)`: `["event": event]` merged with the data, the
        data winning on a clash, delivered if a sink is set. */
    method SendEvent(event: string, data: Option<Payload>)
      modifies this`events
      ensures events == old(events) + (if sinkAttached then [Envelope("event", event, data)] else [])
    {
      if sinkAttached {
        events := events + [Envelope("event", event, data)];
      }
    }

    /** `refreshConnectedDevices()`: the list is emptied, then one dictionary
        is appended per counted output, in route order. */
    method Refresh(route: seq<Output>)
      modifies this`connectedDevices
      ensures connectedDevices == Entries(route)
    {
      connectedDevices := [];
      var i := 0;
      while i < |route|
        invariant 0 <= i <= |route|
        invariant connectedDevices == Entries(route[..i])
      {
        assert route[..i + 1][..i] == route[..i];
        var entry := Entry(route[i]);
        if entry.Some? {
          connectedDevices := connectedDevices + [entry.value];
        }
        i := i + 1;
      }
      assert route[..i] == route;
    }

    /** `isBluetoothConnected()`: the first counted output ends the search. */
    method IsBluetoothConnected(route: seq<Output>) returns (r: bool)
      ensures r <==> AnyConnected(route)
    {
      var i := 0;
      while i < |route|
        invariant 0 <= i <= |route|
        invariant forall j :: 0 <= j < i ==> !CountsAsConnected(route[j].kind)
      {
        if CountsAsConnected(route[i].kind) {
          return true;
        }
        i := i + 1;
      }
      return false;
    }

    /** `initialize()`: a refresh, then monitoring is on. */
    method Initialize(route: seq<Output>)
      modifies this`connectedDevices, this`isMonitoring
      ensures connectedDevices == Entries(route) && isMonitoring
    {
      Refresh(route);
      isMonitoring := true;
    }

    /** `handleRouteChange` as written: the connected query is asked before and
        after the refresh, and both times it reads the current route. */
    method HandleRouteChange(reason: Reason, route: seq<Output>)
      modifies this`connectedDevices, this`events
      ensures reason == Unreadable ==> connectedDevices == old(connectedDevices)
      ensures reason != Unreadable ==> connectedDevices == Entries(route)
      ensures events == old(events)
    {
      if reason == Unreadable {
        return;
      }
      var was := IsBluetoothConnected(route);
      Refresh(route);
      var now := IsBluetoothConnected(route);
      var sent := RouteEvents(reason, was, now, First(connectedDevices), First(connectedDevices));
      events := events + (if sinkAttached then sent else []);
    }

    /** The corrected handler: "before" is the list the previous refresh
        left, and a disconnect carries the first device from that list. */
    method HandleRouteChangeCorrected(reason: Reason, route: seq<Output>)
      modifies this`connectedDevices, this`events
      ensures reason == Unreadable ==> connectedDevices == old(connectedDevices) && events == old(events)
      ensures reason != Unreadable ==> connectedDevices == Entries(route)
      ensures reason != Unreadable ==>
        events == old(events) +
          (if sinkAttached then RouteEvents(reason, |old(connectedDevices)| > 0, AnyConnected(route), First(Entries(route)), First(old(connectedDevices))) else [])
      ensures reason == NewDeviceAvailable && sinkAttached && |old(connectedDevices)| == 0 && |Entries(route)| > 0 ==>
        events == old(events) + [Envelope("event", "deviceConnected", Some(map["device" := Dict(Entries(route)[0])]))]
      ensures reason == OldDeviceUnavailable && sinkAttached && |old(connectedDevices)| > 0 && !AnyConnected(route) ==>
        events == old(events) + [Envelope("event", "deviceDisconnected", Some(map["device" := Dict(old(connectedDevices)[0])]))]
    {
      if reason == Unreadable {
        return;
      }
      var was := |connectedDevices| > 0;
      var lost := First(connectedDevices);
      Refresh(route);
      var now := IsBluetoothConnected(route);
      EntriesNonEmptyIffConnected(route);
      var sent := RouteEvents(reason, was, now, First(connectedDevices), lost);
      if sinkAttached {
        events := events + sent;
      }
    }

    /** `handleMediaServerReset` */
    method HandleMediaServerReset(route: seq<Output>)
      modifies this`connectedDevices
      ensures connectedDevices == Entries(route)
    {
      Refresh(route);
    }

    /** `getBluetoothDeviceInfo()` */
    function DeviceInfo(): (r: Option<Payload>)
      reads this`connectedDevices
      ensures r.Some? <==> |connectedDevices| > 0
      ensures r.Some? ==> r.value == connectedDevices[0]
    {
      First(connectedDevices)
    }

    /** `dispose()`: the list is emptied and monitoring stops. */
    method Dispose()
      modifies this`connectedDevices, this`isMonitoring
      ensures connectedDevices == [] && !isMonitoring
    {
      connectedDevices := [];
      isMonitoring := false;
    }
  }
}
