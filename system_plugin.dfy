/**
 * The Android system plugin: the five notification and focus settings, audio
 * focus requests and the focus listener, the noisy-output receiver, system
 * information and the events it sends. The audio manager's answers and the
 * build properties are inputs.
 */
module SystemPlugin {
  import opened Channel

  const AudioFocusGain: int := 1
  const AudioFocusLoss: int := -1
  const AudioFocusLossTransient: int := -2
  const AudioFocusLossTransientCanDuck: int := -3
  const AudioFocusRequestGranted: int := 1

  datatype Settings = Settings(
    showOnLockScreen: bool, handleAudioFocus: bool, handleMediaButtons: bool,
    showInQuickSettings: bool, colorizeNotification: bool)

  /** The setting keys, in the order the calls read them. */
  const SettingKeys: seq<string> := [
    "showOnLockScreen", "handleAudioFocus", "handleMediaButtons", "showInQuickSettings", "colorizeNotification"
  ]

  const AllOn: Settings := Settings(true, true, true, true, true)

  /** The i-th setting, in `SettingKeys` order. */
  function Field(s: Settings, i: nat): bool
    requires i < 5
  {
    match i
    case 0 => s.showOnLockScreen
    case 1 => s.handleAudioFocus
    case 2 => s.handleMediaButtons
    case 3 => s.showInQuickSettings
    case _ => s.colorizeNotification
  }

  /** The five setting arguments as `call.argument<Boolean>` reads them, in
      `SettingKeys` order. */
  function SettingArgs(args: Payload): (r: seq<Arg<bool>>)
    ensures |r| == 5 && forall i :: 0 <= i < 5 ==> r[i] == BoolArg(args, SettingKeys[i])
  {
    seq(5, i requires 0 <= i < 5 => BoolArg(args, SettingKeys[i]))
  }

  /** `call.argument<Boolean>(key) ?: fallback` for an argument that reads. */
  function Setting(a: Arg<bool>, fallback: bool): bool
  {
    a.Or(fallback)
  }

  /** The index of the first setting whose argument has the wrong type, or 5
      when every one reads: the cast of that one throws, so it and the
      settings after it are left as they were. */
  function FirstMistyped(given: seq<Arg<bool>>): (n: nat)
    requires |given| == 5
    ensures n <= 5
    ensures n < 5 ==> given[n].Mistyped?
    ensures forall i :: 0 <= i < n ==> !given[i].Mistyped?
  {
    if given[0].Mistyped? then 0
    else if given[1].Mistyped? then 1
    else if given[2].Mistyped? then 2
    else if given[3].Mistyped? then 3
    else if given[4].Mistyped? then 4
    else 5
  }

  /** The five sequential assignments of `initialize` (fallback all true) and
      `updateSettings` (fallback the current settings). */
  function Assigned(current: Settings, given: seq<Arg<bool>>, fallback: Settings): (r: Settings)
    requires |given| == 5
    ensures given[0].Mistyped? ==> r == current
    ensures (forall i :: 0 <= i < 5 ==> given[i].Absent?) ==> r == fallback
  {
    if given[0].Mistyped? then current else
    var s1 := current.(showOnLockScreen := Setting(given[0], fallback.showOnLockScreen));
    if given[1].Mistyped? then s1 else
    var s2 := s1.(handleAudioFocus := Setting(given[1], fallback.handleAudioFocus));
    if given[2].Mistyped? then s2 else
    var s3 := s2.(handleMediaButtons := Setting(given[2], fallback.handleMediaButtons));
    if given[3].Mistyped? then s3 else
    var s4 := s3.(showInQuickSettings := Setting(given[3], fallback.showInQuickSettings));
    if given[4].Mistyped? then s4 else
    s4.(colorizeNotification := Setting(given[4], fallback.colorizeNotification))
  }

  /** The settings before the first failing cast take their argument, or the
      fallback when it is missing. */
  lemma AssignedReached(current: Settings, given: seq<Arg<bool>>, fallback: Settings, i: nat)
    requires |given| == 5 && i < FirstMistyped(given)
    ensures Field(Assigned(current, given, fallback), i) == Setting(given[i], Field(fallback, i))
  {
    if i == 0 {
    } else if i == 1 {
    } else if i == 2 {
    } else if i == 3 {
    } else {
    }
  }

  /** The setting whose cast fails and every later one keep their current value. */
  lemma AssignedNotReached(current: Settings, given: seq<Arg<bool>>, fallback: Settings, i: nat)
    requires |given| == 5 && FirstMistyped(given) <= i < 5
    ensures Field(Assigned(current, given, fallback), i) == Field(current, i)
  {
    if i == 0 {
    } else if i == 1 {
    } else if i == 2 {
    } else if i == 3 {
    } else {
    }
  }

  /** Two settings agreeing on every field are the same. */
  lemma FieldsDetermine(s: Settings, t: Settings)
    requires forall i :: 0 <= i < 5 ==> Field(s, i) == Field(t, i)
    ensures s == t
  {
    assert Field(s, 0) == Field(t, 0) && Field(s, 1) == Field(t, 1) && Field(s, 2) == Field(t, 2);
    assert Field(s, 3) == Field(t, 3) && Field(s, 4) == Field(t, 4);
  }

  /** `initialize` with none of the keys turns every setting on, whatever was
      there. */
  lemma InitializeDefaultsOn(current: Settings, args: Payload)
    requires forall i :: 0 <= i < 5 ==> SettingKeys[i] !in args
    ensures Assigned(current, SettingArgs(args), AllOn) == AllOn
  {
    var given := SettingArgs(args);
    forall i | 0 <= i < 5 ensures given[i] == Absent {
      assert Get(args, SettingKeys[i]) == Null;
    }
  }

  /** `updateSettings` keeps each setting whose key is missing and sets each
      given one. */
  lemma UpdateKeepsMissing(current: Settings, args: Payload, i: nat)
    requires i < 5 && FirstMistyped(SettingArgs(args)) == 5
    ensures SettingKeys[i] !in args ==> Field(Assigned(current, SettingArgs(args), current), i) == Field(current, i)
    ensures BoolArg(args, SettingKeys[i]).Given? ==>
      Field(Assigned(current, SettingArgs(args), current), i) == BoolArg(args, SettingKeys[i]).v
  {
    AssignedReached(current, SettingArgs(args), current, i);
  }

  /** A failing cast leaves that setting and every later one as it was. */
  lemma FailingCastStops(current: Settings, args: Payload, fallback: Settings, i: nat)
    requires i < 5 && BoolArg(args, SettingKeys[i]).Mistyped?
    ensures forall j :: i <= j < 5 ==> Field(Assigned(current, SettingArgs(args), fallback), j) == Field(current, j)
  {
    var given := SettingArgs(args);
    assert FirstMistyped(given) <= i;
    forall j | i <= j < 5 ensures Field(Assigned(current, given, fallback), j) == Field(current, j) {
      AssignedNotReached(current, given, fallback, j);
    }
  }

  /** `updateSettings` without arguments changes nothing. */
  lemma UpdateWithNothing(current: Settings)
    ensures Assigned(current, SettingArgs(map[]), current) == current
  {
    var given := SettingArgs(map[]);
    forall i | 0 <= i < 5 ensures given[i] == Absent {
      assert Get(map[], SettingKeys[i]) == Null;
    }
  }

  /** Applying the same `updateSettings` arguments twice is applying them
      once, even when a cast fails part-way. */
  lemma UpdateIdempotent(current: Settings, given: seq<Arg<bool>>)
    requires |given| == 5
    ensures var once := Assigned(current, given, current); Assigned(once, given, once) == once
  {
    var once := Assigned(current, given, current);
    forall i | 0 <= i < 5 ensures Field(Assigned(once, given, once), i) == Field(once, i) {
      if i < FirstMistyped(given) {
        AssignedReached(current, given, current, i);
        AssignedReached(once, given, once, i);
      } else {
        AssignedNotReached(current, given, current, i);
        AssignedNotReached(once, given, once, i);
      }
    }
    FieldsDetermine(Assigned(once, given, once), once);
  }

  /** The event name a focus change sends, if it sends one. */
  function FocusEvent(change: int): (e: Option<string>)
    ensures e.Some? <==> change in {AudioFocusGain, AudioFocusLoss, AudioFocusLossTransient, AudioFocusLossTransientCanDuck}
  {
    if change == AudioFocusGain then Some("audioFocusGain")
    else if change == AudioFocusLoss then Some("audioFocusLoss")
    else if change == AudioFocusLossTransient then Some("audioFocusLossTransient")
    else if change == AudioFocusLossTransientCanDuck then Some("audioFocusLossTransientCanDuck")
    else None
  }

  /** The build properties `getSystemInfo` reports. */
  datatype Build = Build(manufacturer: string, model: string, brand: string, sdk: int, release: string)

  class SystemPlugin {
    /** Whether an audio manager was obtained when the plugin attached. */
    const hasAudioManager: bool
    /** Whether the plugin has a context to register receivers with. */
    const hasContext: bool
    var hasAudioFocus: bool
    /** The five settings fields, as one record. */
    var settings: Settings
    var noisyRegistered: bool
    var sinkAttached: bool
    /** Every event map handed to the sink, oldest first. */
    var events: seq<Payload>

    constructor (hasAudioManager: bool, hasContext: bool)
      ensures this.hasAudioManager == hasAudioManager && this.hasContext == hasContext
      ensures !hasAudioFocus && settings == AllOn && !noisyRegistered && !sinkAttached && events == []
    {
      this.hasAudioManager, this.hasContext := hasAudioManager, hasContext;
      hasAudioFocus := false;
      settings := AllOn;
      noisyRegistered, sinkAttached, events := false, false, [];
    }

    method SetEventSink(attached: bool)
      modifies this`sinkAttached
      ensures sinkAttached == attached
    {
      sinkAttached := attached;
    }

    /** `sendEvent(event, data)`: the event is named under "command". */
    method SendEvent(event: string, data: Option<Payload>)
      modifies this`events
      ensures events == old(events) + (if sinkAttached then [Envelope("command", event, data)] else [])
    {
      if sinkAttached {
        events := events + [Envelope("command", event, data)];
      }
    }

    /** The five assignments, each ending the call if its cast throws. */
    method AssignSettings(given: seq<Arg<bool>>, fallback: Settings) returns (ok: bool)
      requires |given| == 5
      modifies this`settings
      ensures settings == Assigned(old(settings), given, fallback)
      ensures ok <==> FirstMistyped(given) == 5
    {
      if given[0].Mistyped? { return false; }
      settings := settings.(showOnLockScreen := Setting(given[0], fallback.showOnLockScreen));
      if given[1].Mistyped? { return false; }
      settings := settings.(handleAudioFocus := Setting(given[1], fallback.handleAudioFocus));
      if given[2].Mistyped? { return false; }
      settings := settings.(handleMediaButtons := Setting(given[2], fallback.handleMediaButtons));
      if given[3].Mistyped? { return false; }
      settings := settings.(showInQuickSettings := Setting(given[3], fallback.showInQuickSettings));
      if given[4].Mistyped? { return false; }
      settings := settings.(colorizeNotification := Setting(given[4], fallback.colorizeNotification));
      ok := true;
    }

    /** The "initialize" call: missing settings default to true, then the
        noisy receiver is registered when there is a context. A failing cast
        answers with an error before the registration. */
    method Initialize(args: Payload) returns (ok: bool)
      modifies this`settings, this`noisyRegistered
      ensures settings == Assigned(old(settings), SettingArgs(args), AllOn)
      ensures ok <==> FirstMistyped(SettingArgs(args)) == 5
      ensures noisyRegistered == (if ok && hasContext then true else old(noisyRegistered))
    {
      ok := AssignSettings(SettingArgs(args), AllOn);
      if ok && hasContext {
        noisyRegistered := true;
      }
    }

    /** The "updateSettings" call: missing settings keep their value. */
    method UpdateSettings(args: Payload) returns (ok: bool)
      modifies this`settings
      ensures settings == Assigned(old(settings), SettingArgs(args), old(settings))
      ensures ok <==> FirstMistyped(SettingArgs(args)) == 5
    {
      ok := AssignSettings(SettingArgs(args), settings);
    }

    /** The focus listener: a gain sets the flag and a loss clears it; the two
        transient losses only send their events. */
    method OnFocusChange(change: int)
      modifies this`hasAudioFocus, this`events
      ensures change == AudioFocusGain ==> hasAudioFocus
      ensures change == AudioFocusLoss ==> !hasAudioFocus
      ensures change != AudioFocusGain && change != AudioFocusLoss ==> hasAudioFocus == old(hasAudioFocus)
      ensures events == old(events) +
        (if sinkAttached && FocusEvent(change).Some? then [map["command" := Str(FocusEvent(change).value)]] else [])
    {
      if change == AudioFocusGain {
        hasAudioFocus := true;
      } else if change == AudioFocusLoss {
        hasAudioFocus := false;
      }
      var e := FocusEvent(change);
      if e.Some? {
        SendEvent(e.value, None);
      }
    }

    /** `requestAudioFocus()`, with the audio manager's answer as `answer`. */
    method RequestAudioFocus(answer: int) returns (granted: bool)
      modifies this`hasAudioFocus
      ensures !settings.handleAudioFocus ==> granted && hasAudioFocus == old(hasAudioFocus)
      ensures settings.handleAudioFocus && !hasAudioManager ==> !granted && hasAudioFocus == old(hasAudioFocus)
      ensures settings.handleAudioFocus && hasAudioManager ==>
        hasAudioFocus == (answer == AudioFocusRequestGranted) && granted == hasAudioFocus
    {
      if !settings.handleAudioFocus {
        return true;
      }
      if !hasAudioManager {
        return false;
      }
      hasAudioFocus := answer == AudioFocusRequestGranted;
      granted := hasAudioFocus;
    }

    /** `abandonAudioFocus()` */
    method AbandonAudioFocus()
      modifies this`hasAudioFocus
      ensures hasAudioManager ==> !hasAudioFocus
      ensures !hasAudioManager ==> hasAudioFocus == old(hasAudioFocus)
    {
      if !hasAudioManager {
        return;
      }
      hasAudioFocus := false;
    }

    /** The noisy receiver's `onReceive`. */
    method OnNoisy(becomingNoisy: bool)
      modifies this`events
      ensures events == old(events) + (if becomingNoisy && sinkAttached then [map["command" := Str("becomingNoisy")]] else [])
    {
      if becomingNoisy {
        SendEvent("becomingNoisy", None);
      }
    }

    /** `getSystemInfo()` */
    function SystemInfo(b: Build): (m: Payload)
      reads this`hasAudioFocus
      ensures m.Keys == {"manufacturer", "model", "brand", "sdkVersion", "release", "isSamsung", "hasAudioFocus"}
      ensures m["hasAudioFocus"] == Bool(hasAudioFocus)
      ensures m["isSamsung"] == Bool(IsSamsungManufacturer(b.manufacturer))
      ensures m["manufacturer"] == Str(b.manufacturer) && m["model"] == Str(b.model) && m["brand"] == Str(b.brand)
      ensures m["sdkVersion"] == Int(b.sdk) && m["release"] == Str(b.release)
    {
      map["manufacturer" := Str(b.manufacturer), "model" := Str(b.model), "brand" := Str(b.brand),
          "sdkVersion" := Int(b.sdk), "release" := Str(b.release),
          "isSamsung" := Bool(IsSamsungManufacturer(b.manufacturer)), "hasAudioFocus" := Bool(hasAudioFocus)]
    }

    /** `dispose()`: the receiver is unregistered (a failure is caught) and
        focus is abandoned. */
    method Dispose()
      modifies this`noisyRegistered, this`hasAudioFocus
      ensures noisyRegistered == (if hasContext then false else old(noisyRegistered))
      ensures hasAudioManager ==> !hasAudioFocus
      ensures !hasAudioManager ==> hasAudioFocus == old(hasAudioFocus)
    {
      if hasContext {
        noisyRegistered := false;
      }
      AbandonAudioFocus();
    }
  }
}
