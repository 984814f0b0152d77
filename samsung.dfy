/**
 * The Samsung helper: the One UI version string, the features it detects,
 * DeX mode detection and its change events, the current audio output and the
 * small queries the app asks. Every platform probe (package lookups, system
 * features, the reflective system property read, configuration and settings
 * reads) is an input.
 */
module Samsung {
  import opened Channel

  const SdkM: int := 23
  const SdkO: int := 26
  const UiModeTypeMask: bv32 := 0x0f
  const UiModeTypeDesk: bv32 := 0x02
  const DexModeEnabled: string := "1"

  // ---------------------------------------------------------------------------
  // One UI version

  /** What reading "ro.build.version.oneui" through reflection gives: an
      exception, a value that is not a string, or a string. */
  datatype PropertyReading = ReadThrows | NotAString | PropValue(text: string)

  /** The fallback table by SDK level. */
  function SdkVersionName(sdk: int): (r: string)
    ensures r == "" <==> sdk < 28
    ensures sdk >= 34 ==> r == "6.0"
  {
    if sdk >= 34 then "6.0"
    else if sdk >= 33 then "5.0"
    else if sdk >= 32 then "4.1"
    else if sdk >= 31 then "4.0"
    else if sdk >= 30 then "3.0"
    else if sdk >= 29 then "2.0"
    else if sdk >= 28 then "1.0"
    else ""
  }

  /** `"$major.$minor"` for a positive property value. */
  function VersionName(v: int): string
    requires v > 0
  {
    Decimal(v / 10000) + "." + Decimal((v % 10000) / 100)
  }

  /** The property text read as a positive Int (`toIntOrNull() ?: 0`, then `> 0`). */
  predicate ParsesPositive(text: string)
  {
    ParseInt(text).Some? && ParseInt(text).value > 0
  }

  /** `getOneUIVersion()` */
  function OneUIVersion(samsung: bool, prop: PropertyReading, sdk: int): (r: string)
    ensures !samsung || prop.ReadThrows? ==> r == ""
    ensures samsung && prop.PropValue? && ParsesPositive(prop.text) ==> r == VersionName(ParseInt(prop.text).value)
    ensures samsung && !prop.ReadThrows? && !(prop.PropValue? && ParsesPositive(prop.text)) ==> r == SdkVersionName(sdk)
  {
    if !samsung then ""
    else
      match prop
      case ReadThrows => ""
      case NotAString => SdkVersionName(sdk)
      case PropValue(text) =>
        if text != "" && ParsesPositive(text) then VersionName(ParseInt(text).value)
        else SdkVersionName(sdk)
  }

  /** A property holding the decimal text of a positive Int decodes to that
      Int's major and minor parts. */
  lemma OneUIDecode(v: int, sdk: int)
    requires 0 < v <= IntMax
    ensures OneUIVersion(true, PropValue(Decimal(v)), sdk) == Decimal(v / 10000) + "." + Decimal((v % 10000) / 100)
  {
    DecimalRoundTrip(v);
  }

  /** The integer M·10000 + m·100 + p (m and p below 100) reads as "M.m": the
      patch digits are dropped. */
  lemma VersionParts(major: nat, minor: nat, patch: nat)
    requires minor < 100 && patch < 100 && major * 10000 + minor * 100 + patch > 0
    ensures VersionName(major * 10000 + minor * 100 + patch) == Decimal(major) + "." + Decimal(minor)
  {
    var v := major * 10000 + minor * 100 + patch;
    var low := minor * 100 + patch;
    assert low < 10000;
    assert v / 10000 == major && v % 10000 == low by {
      assert v == major * 10000 + low;
    }
    assert low / 100 == minor by {
      assert low == minor * 100 + patch;
    }
  }

  /** The version string is empty exactly when the device is not a Samsung,
      the read throws, or neither the property nor the SDK table gives one:
      `isOneUIVersion` then says false. */
  lemma OneUIVersionEmpty(samsung: bool, prop: PropertyReading, sdk: int)
    ensures OneUIVersion(samsung, prop, sdk) == "" <==>
      !samsung || prop.ReadThrows? || (!(prop.PropValue? && ParsesPositive(prop.text)) && sdk < 28)
  {
    if samsung && prop.PropValue? && ParsesPositive(prop.text) {
      var s := VersionName(ParseInt(prop.text).value);
      assert s[|Decimal(ParseInt(prop.text).value / 10000)|] == '.';
    }
  }

  // ---------------------------------------------------------------------------
  // Features

  /** The probe results `detectFeatures` combines. */
  datatype Probes = Probes(
    edgePackage: bool, cocktailBarFeature: bool, aodLedFeature: bool, goodLockPackage: bool,
    dexFeature: bool, desktopModeFeature: bool, musicPackage: bool, routinesPackage: bool,
    sdk: int, oneUIProperty: PropertyReading)

  datatype Features = Features(
    isEdgePanelSupported: bool, isEdgeLightingSupported: bool, isGoodLockSupported: bool,
    isDexSupported: bool, isDexMode: bool, isSamsungMusicInstalled: bool,
    isOneUIVersion: bool, oneUIVersion: string, isRoutinesSupported: bool)

  /** `detectFeatures()`, with `isDexMode` copied from the helper's field. */
  function DetectFeatures(p: Probes, samsung: bool, dexMode: bool): (f: Features)
    ensures f.isOneUIVersion <==> f.oneUIVersion != ""
    ensures f.oneUIVersion == OneUIVersion(samsung, p.oneUIProperty, p.sdk)
    ensures f.isEdgePanelSupported <==> p.edgePackage || p.cocktailBarFeature
    ensures f.isEdgeLightingSupported <==> p.sdk >= SdkO && p.aodLedFeature
    ensures f.isDexSupported <==> p.dexFeature || p.desktopModeFeature
    ensures f.isDexMode == dexMode
    ensures f.isGoodLockSupported == p.goodLockPackage
    ensures f.isSamsungMusicInstalled == p.musicPackage
    ensures f.isRoutinesSupported == p.routinesPackage
  {
    var version := OneUIVersion(samsung, p.oneUIProperty, p.sdk);
    Features(p.edgePackage || p.cocktailBarFeature, p.sdk >= SdkO && p.aodLedFeature, p.goodLockPackage,
             p.dexFeature || p.desktopModeFeature, dexMode, p.musicPackage,
             version != "", version, p.routinesPackage)
  }

  const FeatureKeys: set<string> := {
    "isEdgePanelSupported", "isEdgeLightingSupported", "isGoodLockSupported", "isDexSupported",
    "isDexMode", "isSamsungMusicInstalled", "isOneUIVersion", "oneUIVersion", "isRoutinesSupported"
  }

  /** `SamsungFeatures.toMap()` */
  function FeaturesMap(f: Features): (m: Payload)
    ensures forall k :: k in FeatureKeys ==> k in m
    ensures Get(m, "isDexMode") == Bool(f.isDexMode) && Get(m, "oneUIVersion") == Str(f.oneUIVersion)
    ensures Get(m, "isOneUIVersion") == Bool(f.isOneUIVersion) && Get(m, "isRoutinesSupported") == Bool(f.isRoutinesSupported)
    ensures Get(m, "isEdgePanelSupported") == Bool(f.isEdgePanelSupported)
    ensures Get(m, "isEdgeLightingSupported") == Bool(f.isEdgeLightingSupported)
    ensures Get(m, "isGoodLockSupported") == Bool(f.isGoodLockSupported)
    ensures Get(m, "isDexSupported") == Bool(f.isDexSupported)
    ensures Get(m, "isSamsungMusicInstalled") == Bool(f.isSamsungMusicInstalled)
    ensures forall k :: k in m ==> k in FeatureKeys
    ensures "isSamsungDevice" !in m
  {
    map["isEdgePanelSupported" := Bool(f.isEdgePanelSupported),
        "isEdgeLightingSupported" := Bool(f.isEdgeLightingSupported),
        "isGoodLockSupported" := Bool(f.isGoodLockSupported),
        "isDexSupported" := Bool(f.isDexSupported),
        "isDexMode" := Bool(f.isDexMode),
        "isSamsungMusicInstalled" := Bool(f.isSamsungMusicInstalled),
        "isOneUIVersion" := Bool(f.isOneUIVersion),
        "oneUIVersion" := Str(f.oneUIVersion),
        "isRoutinesSupported" := Bool(f.isRoutinesSupported)]
  }

  /** Distinct feature sets give distinct maps: the map loses nothing. */
  lemma FeaturesMapInjective(f: Features, g: Features)
    requires FeaturesMap(f) == FeaturesMap(g)
    ensures f == g
  {
    var m := FeaturesMap(f);
    assert m["isEdgePanelSupported"] == Bool(g.isEdgePanelSupported);
    assert m["isEdgeLightingSupported"] == Bool(g.isEdgeLightingSupported);
    assert m["isGoodLockSupported"] == Bool(g.isGoodLockSupported);
    assert m["isDexSupported"] == Bool(g.isDexSupported);
    assert m["isSamsungMusicInstalled"] == Bool(g.isSamsungMusicInstalled);
  }

  // ---------------------------------------------------------------------------
  // DeX mode

  /** `Settings.Global.getString(..., "desktop_mode_enabled")`: an exception or
      a nullable string. */
  datatype SettingReading = SettingThrows | Setting(value: Option<string>)

  /** The configuration read (throwing, or the `uiMode` bits) and, after it,
      the settings read. */
  datatype DexReading = ConfigThrows | Config(uiMode: bv32, setting: SettingReading)

  /** `checkDexModeInitial()`: the desk UI mode type, else the setting equal to
      "1"; any exception gives false. */
  function DexModeNow(r: DexReading): (d: bool)
    ensures d <==> (r.Config? && ((r.uiMode & UiModeTypeMask) == UiModeTypeDesk || r.setting == Setting(Some(DexModeEnabled))))
  {
    match r
    case ConfigThrows => false
    case Config(uiMode, setting) =>
      if uiMode & UiModeTypeMask == UiModeTypeDesk then true
      else
        match setting
        case SettingThrows => false
        case Setting(value) => value == Some(DexModeEnabled)
  }

  /** The broadcasts the DeX receiver tells apart. */
  datatype Action = ConfigurationChanged | EnterDex | ExitDex | OtherAction

  /** The event a DeX change sends. */
  function DexEvent(isDex: bool): string
  {
    if isDex then "dexModeEnter" else "dexModeExit"
  }

  /** The cached features once the DeX flag is `isDex`: the flag is copied into
      features already detected. */
  function WithDexMode(f: Option<Features>, isDex: bool): Option<Features>
  {
    if f.Some? then Some(f.value.(isDexMode := isDex)) else None
  }

  /** What a DeX change sends: its event, when a listener is attached. */
  function DexNotice(attached: bool, isDex: bool): seq<Payload>
  {
    if attached then [map["event" := Str(DexEvent(isDex))]] else []
  }

  // ---------------------------------------------------------------------------
  // Audio output

  const TypeWiredHeadset: int := 3
  const TypeWiredHeadphones: int := 4
  const TypeBluetoothA2dp: int := 8
  const TypeUsbDevice: int := 11
  const TypeUsbHeadset: int := 22

  /** `getCurrentAudioOutput`: on SDK M and later the output device types
      decide, bluetooth before wired before usb; earlier, the two legacy flags. */
  function CurrentAudioOutput(sdk: int, devices: seq<int>, a2dpOn: bool, wiredOn: bool): (r: string)
    ensures r == "bluetooth" || r == "wired" || r == "usb" || r == "speaker"
    ensures sdk >= SdkM ==> (r == "bluetooth" <==> TypeBluetoothA2dp in devices)
    ensures sdk >= SdkM ==> (r == "speaker" <==>
      forall t :: t in devices ==> t !in {TypeBluetoothA2dp, TypeWiredHeadphones, TypeWiredHeadset, TypeUsbHeadset, TypeUsbDevice})
    ensures sdk < SdkM ==> r != "usb" && (r == "bluetooth" <==> a2dpOn) && (r == "speaker" <==> !a2dpOn && !wiredOn)
  {
    if sdk >= SdkM then
      if TypeBluetoothA2dp in devices then "bluetooth"
      else if TypeWiredHeadphones in devices || TypeWiredHeadset in devices then "wired"
      else if TypeUsbHeadset in devices || TypeUsbDevice in devices then "usb"
      else "speaker"
    else if a2dpOn then "bluetooth"
    else if wiredOn then "wired"
    else "speaker"
  }

  /** The priority of one device type: 3 bluetooth, 2 wired, 1 usb, 0 other. */
  function Rank(t: int): nat
  {
    if t == TypeBluetoothA2dp then 3
    else if t == TypeWiredHeadphones || t == TypeWiredHeadset then 2
    else if t == TypeUsbHeadset || t == TypeUsbDevice then 1
    else 0
  }

  /** The highest priority among the devices. */
  function TopRank(devices: seq<int>): (r: nat)
    ensures forall i :: 0 <= i < |devices| ==> Rank(devices[i]) <= r
    ensures r > 0 ==> exists i :: 0 <= i < |devices| && Rank(devices[i]) == r
  {
    if devices == [] then 0
    else
      var rest := TopRank(devices[1..]);
      if Rank(devices[0]) >= rest then Rank(devices[0]) else rest
  }

  function RankName(r: nat): string
  {
    if r == 3 then "bluetooth" else if r == 2 then "wired" else if r == 1 then "usb" else "speaker"
  }

  /** On SDK M and later the output is named by the highest-priority device
      present: whatever else is connected, a higher class always wins. */
  lemma {:induction false} OutputIsTopRank(sdk: int, devices: seq<int>, a2dpOn: bool, wiredOn: bool)
    requires sdk >= SdkM
    ensures CurrentAudioOutput(sdk, devices, a2dpOn, wiredOn) == RankName(TopRank(devices))
  {
    var top := TopRank(devices);
    if top > 0 {
      var i :| 0 <= i < |devices| && Rank(devices[i]) == top;
    }
    if TypeBluetoothA2dp in devices {
      var i :| 0 <= i < |devices| && devices[i] == TypeBluetoothA2dp;
      assert Rank(devices[i]) == 3;
    } else if TypeWiredHeadphones in devices || TypeWiredHeadset in devices {
      var i :| 0 <= i < |devices| && (devices[i] == TypeWiredHeadphones || devices[i] == TypeWiredHeadset);
      assert Rank(devices[i]) == 2;
    } else if TypeUsbHeadset in devices || TypeUsbDevice in devices {
      var i :| 0 <= i < |devices| && (devices[i] == TypeUsbHeadset || devices[i] == TypeUsbDevice);
      assert Rank(devices[i]) == 1;
    }
  }

  /** Adding a device never lowers the reported output's priority. */
  lemma AddingDeviceNeverDemotes(sdk: int, devices: seq<int>, t: int, a2dpOn: bool, wiredOn: bool)
    requires sdk >= SdkM
    ensures TopRank(devices) <= TopRank(devices + [t])
    ensures CurrentAudioOutput(sdk, devices + [t], a2dpOn, wiredOn) == RankName(TopRank(devices + [t]))
  {
    OutputIsTopRank(sdk, devices + [t], a2dpOn, wiredOn);
    var top := TopRank(devices);
    if top > 0 {
      var i :| 0 <= i < |devices| && Rank(devices[i]) == top;
      assert (devices + [t])[i] == devices[i];
    }
  }

  /** `Settings.Global.getInt` / `Settings.System.getInt` with default 0. */
  datatype IntSetting = IntThrows | IntValue(n: int)

  function Enabled(s: IntSetting): bool
  {
    s == IntValue(1)
  }

  /** `getSamsungAudioSettings()`; the probes that could throw here are caught
      inside their own helpers, so the outer catch is never reached. */
  function AudioSettings(output: string, dolby: IntSetting, adapt: IntSetting): (m: Payload)
    ensures m.Keys == {"currentOutput", "isDolbyAtmosEnabled", "isAdaptSoundEnabled"}
    ensures m["currentOutput"] == Str(output)
    ensures m["isDolbyAtmosEnabled"] == Bool(dolby == IntValue(1)) && m["isAdaptSoundEnabled"] == Bool(adapt == IntValue(1))
  {
    map["currentOutput" := Str(output), "isDolbyAtmosEnabled" := Bool(Enabled(dolby)),
        "isAdaptSoundEnabled" := Bool(Enabled(adapt))]
  }

  // ---------------------------------------------------------------------------
  // The helper

  class SamsungHelper {
    /** `Build.MANUFACTURER.equals("samsung", ignoreCase = true)`, read once. */
    const samsung: bool
    var isDexMode: bool
    var features: Option<Features>
    var receiverRegistered: bool
    var sinkAttached: bool
    var events: seq<Payload>

    constructor (manufacturer: string)
      ensures samsung == IsSamsungManufacturer(manufacturer) && !isDexMode && features == None
      ensures !receiverRegistered && !sinkAttached && events == []
    {
      samsung := IsSamsungManufacturer(manufacturer);
      isDexMode, features, receiverRegistered, sinkAttached, events := false, None, false, false, [];
    }

    /** The stored features, when there are any, agree with the helper's own
        DeX flag. */
    predicate FeaturesAgree()
      reads this`features, this`isDexMode
    {
      features.Some? ==> features.value.isDexMode == isDexMode
    }

    method SetEventSink(attached: bool)
      modifies this`sinkAttached
      ensures sinkAttached == attached
    {
      sinkAttached := attached;
    }

    /** `sendEvent(event, data)`: `{"event": event}` plus the data entries,
        posted to the sink if one is set. */
    method SendEvent(event: string, data: Option<Payload>)
      modifies this`events
      ensures events == old(events) + (if sinkAttached then [Envelope("event", event, data)] else [])
    {
      if sinkAttached {
        events := events + [Envelope("event", event, data)];
      }
    }

    /** `initialize()` as written: on a Samsung the receiver is registered,
        then the features are detected, copying the DeX flag as it was before
        it is read, and only then is the DeX flag read. A failing
        registration ends in the catch. */
    method Initialize(p: Probes, dex: DexReading, registerThrows: bool) returns (r: Payload)
      modifies this`features, this`isDexMode, this`receiverRegistered
      ensures !samsung ==> r == map["isSamsungDevice" := Bool(false)]
      ensures !samsung ==> features == old(features) && isDexMode == old(isDexMode) && receiverRegistered == old(receiverRegistered)
      ensures samsung && registerThrows ==> r == map["isSamsungDevice" := Bool(true)]
      ensures samsung && registerThrows ==> features == old(features) && isDexMode == old(isDexMode) && receiverRegistered == old(receiverRegistered)
      ensures samsung && !registerThrows ==>
        && receiverRegistered
        && features == Some(DetectFeatures(p, true, old(isDexMode)))
        && isDexMode == DexModeNow(dex)
        && r == FeaturesMap(features.value)
    {
      if !samsung {
        return map["isSamsungDevice" := Bool(false)];
      }
      if registerThrows {
        return map["isSamsungDevice" := Bool(true)];
      }
      receiverRegistered := true;
      features := Some(DetectFeatures(p, samsung, isDexMode));
      isDexMode := DexModeNow(dex);
      r := FeaturesMap(features.value);
    }

    /** The corrected order: the DeX flag is read first, so the features and
        the map they are reported as agree with it. */
    method InitializeCorrected(p: Probes, dex: DexReading, registerThrows: bool) returns (r: Payload)
      modifies this`features, this`isDexMode, this`receiverRegistered
      ensures !samsung ==> r == map["isSamsungDevice" := Bool(false)]
      ensures !samsung ==> features == old(features) && isDexMode == old(isDexMode) && receiverRegistered == old(receiverRegistered)
      ensures samsung && registerThrows ==> r == map["isSamsungDevice" := Bool(true)]
      ensures samsung && registerThrows ==> features == old(features) && isDexMode == old(isDexMode) && receiverRegistered == old(receiverRegistered)
      ensures samsung && !registerThrows ==>
        && receiverRegistered
        && isDexMode == DexModeNow(dex)
        && features == Some(DetectFeatures(p, true, DexModeNow(dex)))
        && FeaturesAgree()
        && Get(r, "isDexMode") == Bool(isDexMode)
    {
      if !samsung {
        return map["isSamsungDevice" := Bool(false)];
      }
      if registerThrows {
        return map["isSamsungDevice" := Bool(true)];
      }
      receiverRegistered := true;
      isDexMode := DexModeNow(dex);
      features := Some(DetectFeatures(p, samsung, isDexMode));
      r := FeaturesMap(features.value);
    }

    /** `handleDexModeChange(isDex)` */
    method HandleDexModeChange(isDex: bool)
      modifies this`isDexMode, this`features, this`events
      ensures isDexMode == isDex
      ensures features == WithDexMode(old(features), isDex)
      ensures FeaturesAgree()
      ensures events == old(events) + DexNotice(sinkAttached, isDex)
    {
      isDexMode := isDex;
      if features.Some? {
        features := Some(features.value.(isDexMode := isDex));
      }
      SendEvent(DexEvent(isDex), None);
    }

    /** `checkDexMode()`: a change is handled only when the mode read differs
        from the flag. */
    method CheckDexMode(dex: DexReading)
      modifies this`isDexMode, this`features, this`events
      ensures isDexMode == DexModeNow(dex)
      ensures DexModeNow(dex) == old(isDexMode) ==> features == old(features) && events == old(events)
      ensures DexModeNow(dex) != old(isDexMode) ==>
        && features == WithDexMode(old(features), DexModeNow(dex))
        && events == old(events) + DexNotice(sinkAttached, DexModeNow(dex))
      ensures old(FeaturesAgree()) ==> FeaturesAgree()
    {
      var newDexMode := DexModeNow(dex);
      if newDexMode != isDexMode {
        HandleDexModeChange(newDexMode);
      }
    }

    /** The DeX receiver's `onReceive`. */
    method OnReceive(action: Action, dex: DexReading)
      modifies this`isDexMode, this`features, this`events
      ensures action.ConfigurationChanged? ==> isDexMode == DexModeNow(dex)
      ensures action.ConfigurationChanged? && DexModeNow(dex) == old(isDexMode) ==>
        features == old(features) && events == old(events)
      ensures action.ConfigurationChanged? && DexModeNow(dex) != old(isDexMode) ==>
        features == WithDexMode(old(features), DexModeNow(dex)) && events == old(events) + DexNotice(sinkAttached, DexModeNow(dex))
      ensures action.EnterDex? ==> isDexMode
      ensures action.EnterDex? ==> features == WithDexMode(old(features), true) && events == old(events) + DexNotice(sinkAttached, true)
      ensures action.ExitDex? ==> !isDexMode
      ensures action.ExitDex? ==> features == WithDexMode(old(features), false) && events == old(events) + DexNotice(sinkAttached, false)
      ensures action.OtherAction? ==> isDexMode == old(isDexMode) && features == old(features) && events == old(events)
      ensures old(FeaturesAgree()) ==> FeaturesAgree()
    {
      match action {
        case ConfigurationChanged => CheckDexMode(dex);
        case EnterDex => HandleDexModeChange(true);
        case ExitDex => HandleDexModeChange(false);
        case OtherAction =>
      }
    }

    /** `registerWithRoutines()` */
    method RegisterWithRoutines() returns (ok: bool)
      ensures ok <==> features.Some? && features.value.isRoutinesSupported
    {
      ok := features.Some? && features.value.isRoutinesSupported;
    }

    /** `getSamsungMusicCompatibility()` */
    function MusicCompatibility(): (m: Payload)
      reads this`features
      ensures m.Keys == {"installed", "canShare", "canImportPlaylists"}
      ensures m["canShare"] == Bool(true) && m["canImportPlaylists"] == Bool(false)
      ensures features.None? ==> m["installed"] == Bool(false)
      ensures features.Some? ==> m["installed"] == Bool(features.value.isSamsungMusicInstalled)
    {
      var installed := if features.Some? then features.value.isSamsungMusicInstalled else false;
      map["installed" := Bool(installed), "canShare" := Bool(true), "canImportPlaylists" := Bool(false)]
    }

    /** `dispose()`: the receiver is unregistered; a failure to unregister is
        caught. */
    method Dispose()
      modifies this`receiverRegistered
      ensures !receiverRegistered
    {
      receiverRegistered := false;
    }
  }

  /** As written, a helper that starts in DeX mode reports `isDexMode` false
      in its features while its own flag is true. */
  lemma StaleDexCounterexample(p: Probes)
    ensures var dex := Config(UiModeTypeDesk, Setting(None));
      && DexModeNow(dex)
      && !DetectFeatures(p, true, false).isDexMode
      && Get(FeaturesMap(DetectFeatures(p, true, false)), "isDexMode") == Bool(false)
  {
  }
}
