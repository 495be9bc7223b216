/** The dynamic-platform accessory of the plugin: the believed state of one
    television (power, mute, Ambilight + Hue, responsiveness), the periodic
    refresh that reconciles it with what the television reports, the HomeKit
    set/get handlers, and the remote-key table.

    Every call into the television's client library is replaced by an
    abstract `Outcome`, and HomeKit's `updateCharacteristic` by an entry
    appended to a notification log. */
module PhilipsTVAccessory {
  import opened Wrappers
  import opened KeyTables

  /** The HomeKit characteristics the refresh pushes updates for. */
  datatype Characteristic = Active | Mute | On

  /** A characteristic value as pushed to HomeKit: `Active` carries a number,
      `Mute` and `On` carry booleans. */
  datatype Value = Num(n: int) | Flag(b: bool)

  /** One `updateCharacteristic(ch, value)` call. */
  datatype Notification = Update(ch: Characteristic, value: Value)

  /** One call made into the television's client library. */
  datatype TVCall =
    | GetPowerState | GetVolume | GetAmbilightPlusHueState
    | WakeOnLan | SetPowerState(value: int) | SetMute(muted: bool)
    | SetAmbilightPlusHueState(on: bool) | SendKey(key: string)

  /** The four cached fields of the accessory. */
  datatype Belief = Belief(power: bool, muted: bool, ambihueState: bool, responsive: bool)

  /** The field values every new accessory starts with. */
  const Initial: Belief := Belief(false, false, false, false)

  /** The effect of one refresh: the new belief, the notifications pushed to
      HomeKit and the television queries performed, each in order. */
  datatype Step = Step(belief: Belief, notes: seq<Notification>, calls: seq<TVCall>)

  /** JavaScript's `Number(b)` on a boolean. */
  function Number(b: bool): (n: int)
    ensures n == 0 || n == 1
    ensures n == 1 <==> b
  {
    if b then 1 else 0
  }

  /** The accessory only ever believes the television is on while it answers. */
  predicate Consistent(b: Belief)
  {
    b.power ==> b.responsive
  }

  /** The value HomeKit should currently show for a characteristic. */
  function Shown(b: Belief, ch: Characteristic): Value
  {
    match ch
    case Active => Num(Number(b.power))
    case Mute => Flag(b.muted)
    case On => Flag(b.ambihueState)
  }

  /** The values pushed for one characteristic, in order. */
  function Updates(ns: seq<Notification>, ch: Characteristic): (vs: seq<Value>)
    ensures vs == [] <==> forall n :: n in ns ==> n.ch != ch
  {
    if ns == [] then []
    else (if ns[0].ch == ch then [ns[0].value] else []) + Updates(ns[1..], ch)
  }

  lemma {:induction false} UpdatesAppend(xs: seq<Notification>, ys: seq<Notification>, ch: Characteristic)
    ensures Updates(xs + ys, ch) == Updates(xs, ch) + Updates(ys, ch)
    decreases |xs|
  {
    if xs == [] {
      assert xs + ys == ys;
    } else {
      var head := if xs[0].ch == ch then [xs[0].value] else [];
      assert (xs + ys)[0] == xs[0];
      assert (xs + ys)[1..] == xs[1..] + ys;
      assert Updates(xs + ys, ch) == head + Updates(xs[1..] + ys, ch);
      UpdatesAppend(xs[1..], ys, ch);
      assert Updates(xs, ch) == head + Updates(xs[1..], ch);
    }
  }

  /** A notification for `ch` carrying `now`, only when it differs from `was`. */
  function NotifyIfChanged(ch: Characteristic, was: Value, now: Value): seq<Notification>
  {
    if was != now then [Update(ch, now)] else []
  }

  /** The effect of one successful-or-failed query on the belief, and the
      notifications it pushes. */
  datatype Sync = Sync(belief: Belief, notes: seq<Notification>)

  /** The television answered the power query with `powerstate`. */
  function SyncPower(b: Belief, powerstate: string): (s: Sync)
    ensures s.belief.responsive && s.belief.power == (powerstate == "On")
    ensures s.belief.muted == b.muted && s.belief.ambihueState == b.ambihueState
    ensures s.notes == [] <==> s.belief.power == b.power
    ensures s.notes != [] ==> s.notes == [Update(Active, Num(Number(s.belief.power)))]
  {
    var b' := b.(responsive := true, power := powerstate == "On");
    Sync(b', NotifyIfChanged(Active, Shown(b, Active), Shown(b', Active)))
  }

  /** The volume query; only its `muted` field is used. */
  function SyncMute(b: Belief, volume: Outcome<bool>): (s: Sync)
    ensures s.belief == b.(muted := s.belief.muted)
    ensures s.belief.muted == if volume.Ok? then volume.value else b.muted
    ensures s.notes == [] <==> s.belief.muted == b.muted
    ensures s.notes != [] ==> s.notes == [Update(Mute, Flag(s.belief.muted))]
  {
    var b' := if volume.Ok? then b.(muted := volume.value) else b;
    Sync(b', NotifyIfChanged(Mute, Shown(b, Mute), Shown(b', Mute)))
  }

  /** The Ambilight + Hue query. */
  function SyncAmbihue(b: Belief, ambihue: Outcome<bool>): (s: Sync)
    ensures s.belief == b.(ambihueState := s.belief.ambihueState)
    ensures s.belief.ambihueState == if ambihue.Ok? then ambihue.value else b.ambihueState
    ensures s.notes == [] <==> s.belief.ambihueState == b.ambihueState
    ensures s.notes != [] ==> s.notes == [Update(On, Flag(s.belief.ambihueState))]
  {
    var b' := if ambihue.Ok? then b.(ambihueState := ambihue.value) else b;
    Sync(b', NotifyIfChanged(On, Shown(b, On), Shown(b', On)))
  }

  /** One run of `refreshStatus` given the outcomes of the power, volume and
      Ambilight + Hue queries. A failed power query ends the run before the
      other two queries are made. */
  function Refresh(b: Belief, power: Outcome<string>, volume: Outcome<bool>, ambihue: Outcome<bool>): (r: Step)
    ensures r.calls == if power.Ok? then [GetPowerState, GetVolume, GetAmbilightPlusHueState] else [GetPowerState]
    ensures |r.notes| <= 3
    ensures r.belief.responsive <==> power.Ok?
  {
    match power
    case Err =>
      Step(if b.responsive then b.(responsive := false, power := false) else b, [], [GetPowerState])
    case Ok(powerstate) =>
      var s1 := SyncPower(b, powerstate);
      var s2 := SyncMute(s1.belief, volume);
      var s3 := SyncAmbihue(s2.belief, ambihue);
      Step(s3.belief, s1.notes + s2.notes + s3.notes,
           [GetPowerState, GetVolume, GetAmbilightPlusHueState])
  }

  /** The notifications of a refresh that reached the volume query, split per
      characteristic. */
  lemma UpdatesOfRefresh(b: Belief, powerstate: string, volume: Outcome<bool>, ambihue: Outcome<bool>, ch: Characteristic)
    ensures var s1 := SyncPower(b, powerstate);
      var s2 := SyncMute(s1.belief, volume);
      var s3 := SyncAmbihue(s2.belief, ambihue);
      Updates(Refresh(b, Ok(powerstate), volume, ambihue).notes, ch) ==
        Updates(s1.notes, ch) + Updates(s2.notes, ch) + Updates(s3.notes, ch)
  {
    var s1 := SyncPower(b, powerstate);
    var s2 := SyncMute(s1.belief, volume);
    var s3 := SyncAmbihue(s2.belief, ambihue);
    UpdatesAppend(s1.notes + s2.notes, s3.notes, ch);
    UpdatesAppend(s1.notes, s2.notes, ch);
  }

  /** What each stage pushes, per characteristic. */
  lemma SyncPowerUpdates(b: Belief, powerstate: string)
    ensures var s := SyncPower(b, powerstate);
      && s.belief == b.(responsive := true, power := powerstate == "On")
      && Updates(s.notes, Active) == (if b.power != (powerstate == "On") then [Num(Number(powerstate == "On"))] else [])
      && Updates(s.notes, Mute) == [] && Updates(s.notes, On) == []
  {
  }

  lemma SyncMuteUpdates(b: Belief, volume: Outcome<bool>)
    ensures var s := SyncMute(b, volume);
      && s.belief.(muted := b.muted) == b
      && (volume.Ok? ==> s.belief.muted == volume.value)
      && (volume.Err? ==> s.belief == b)
      && Updates(s.notes, Mute) == (if volume.Ok? && volume.value != b.muted then [Flag(volume.value)] else [])
      && Updates(s.notes, Active) == [] && Updates(s.notes, On) == []
  {
  }

  lemma SyncAmbihueUpdates(b: Belief, ambihue: Outcome<bool>)
    ensures var s := SyncAmbihue(b, ambihue);
      && s.belief.(ambihueState := b.ambihueState) == b
      && (ambihue.Ok? ==> s.belief.ambihueState == ambihue.value)
      && (ambihue.Err? ==> s.belief == b)
      && Updates(s.notes, On) == (if ambihue.Ok? && ambihue.value != b.ambihueState then [Flag(ambihue.value)] else [])
      && Updates(s.notes, Active) == [] && Updates(s.notes, Mute) == []
  {
  }

  /** The three stages of a refresh whose power query succeeded. */
  lemma RefreshStages(b: Belief, powerstate: string, volume: Outcome<bool>, ambihue: Outcome<bool>, ch: Characteristic)
    ensures var s1 := SyncPower(b, powerstate);
      var s2 := SyncMute(s1.belief, volume);
      var s3 := SyncAmbihue(s2.belief, ambihue);
      var r := Refresh(b, Ok(powerstate), volume, ambihue);
      && r.belief == s3.belief
      && r.calls == [GetPowerState, GetVolume, GetAmbilightPlusHueState]
      && Updates(r.notes, ch) == Updates(s1.notes, ch) + Updates(s2.notes, ch) + Updates(s3.notes, ch)
      && s1.belief == b.(responsive := true, power := powerstate == "On")
  {
    var s1 := SyncPower(b, powerstate);
    var s2 := SyncMute(s1.belief, volume);
    UpdatesOfRefresh(b, powerstate, volume, ambihue, ch);
    SyncPowerUpdates(b, powerstate);
    SyncMuteUpdates(s1.belief, volume);
    SyncAmbihueUpdates(s2.belief, ambihue);
  }

  /** A successful power query marks the television responsive, sets `power`
      to whether it reported "On", pushes `Active` exactly when that changed
      `power` (carrying the new `Number(power)`), and goes on to the volume
      and Ambilight + Hue queries. */
  lemma PowerQuerySucceeds(b: Belief, powerstate: string, volume: Outcome<bool>, ambihue: Outcome<bool>)
    ensures var r := Refresh(b, Ok(powerstate), volume, ambihue);
      && r.belief.responsive
      && r.belief.power == (powerstate == "On")
      && Updates(r.notes, Active) ==
           (if b.power != r.belief.power then [Num(Number(r.belief.power))] else [])
      && r.calls == [GetPowerState, GetVolume, GetAmbilightPlusHueState]
  {
    var s1 := SyncPower(b, powerstate);
    var s2 := SyncMute(s1.belief, volume);
    RefreshStages(b, powerstate, volume, ambihue, Active);
    SyncPowerUpdates(b, powerstate);
    SyncMuteUpdates(s1.belief, volume);
    SyncAmbihueUpdates(s2.belief, ambihue);
  }

  /** A failed power query pushes nothing and makes no further query; it
      turns a responsive television unresponsive and off (leaving mute and
      Ambilight + Hue alone) and leaves an unresponsive one as it was. */
  lemma PowerQueryFails(b: Belief, volume: Outcome<bool>, ambihue: Outcome<bool>)
    ensures var r := Refresh(b, Err, volume, ambihue);
      && r.notes == []
      && r.calls == [GetPowerState]
      && GetVolume !in r.calls && GetAmbilightPlusHueState !in r.calls
      && (b.responsive ==>
            !r.belief.responsive && !r.belief.power &&
            r.belief.muted == b.muted && r.belief.ambihueState == b.ambihueState)
      && (!b.responsive ==> r.belief == b)
  {
  }

  /** Once the power query succeeded, a successful volume query sets `muted`
      to the reported value and pushes `Mute` exactly when that changed it; a
      failed one leaves `muted` as it was and pushes nothing for it. Either
      way the volume outcome touches no other field. */
  lemma VolumeQuery(b: Belief, powerstate: string, volume: Outcome<bool>, ambihue: Outcome<bool>)
    ensures var r := Refresh(b, Ok(powerstate), volume, ambihue);
      && (volume.Ok? ==>
            r.belief.muted == volume.value &&
            Updates(r.notes, Mute) == (if volume.value != b.muted then [Flag(volume.value)] else []))
      && (volume.Err? ==> r.belief.muted == b.muted && Updates(r.notes, Mute) == [])
      && r.belief.(muted := b.muted) == Refresh(b, Ok(powerstate), Err, ambihue).belief
  {
    var s1 := SyncPower(b, powerstate);
    var s2 := SyncMute(s1.belief, volume);
    RefreshStages(b, powerstate, volume, ambihue, Mute);
    SyncPowerUpdates(b, powerstate);
    SyncMuteUpdates(s1.belief, volume);
    SyncAmbihueUpdates(s2.belief, ambihue);
    SyncAmbihueUpdates(s1.belief, ambihue);
  }

  /** Once the power query succeeded, a successful Ambilight + Hue query sets
      `ambihueState` to the reported value and pushes `On` exactly when that
      changed it; a failed one leaves it and pushes nothing for it. Either way
      that outcome touches no other field. */
  lemma AmbihueQuery(b: Belief, powerstate: string, volume: Outcome<bool>, ambihue: Outcome<bool>)
    ensures var r := Refresh(b, Ok(powerstate), volume, ambihue);
      && (ambihue.Ok? ==>
            r.belief.ambihueState == ambihue.value &&
            Updates(r.notes, On) == (if ambihue.value != b.ambihueState then [Flag(ambihue.value)] else []))
      && (ambihue.Err? ==> r.belief.ambihueState == b.ambihueState && Updates(r.notes, On) == [])
      && r.belief.(ambihueState := b.ambihueState) == Refresh(b, Ok(powerstate), volume, Err).belief
  {
    var s1 := SyncPower(b, powerstate);
    var s2 := SyncMute(s1.belief, volume);
    RefreshStages(b, powerstate, volume, ambihue, On);
    SyncPowerUpdates(b, powerstate);
    SyncMuteUpdates(s1.belief, volume);
    SyncAmbihueUpdates(s2.belief, ambihue);
    SyncAmbihueUpdates(s2.belief, Err);
  }

  /** Every notification of a refresh carries the new shown value of a
      characteristic whose shown value changed; mute and Ambilight + Hue
      changes are always pushed, power changes whenever the power query
      succeeded (a failed one switches `power` off silently). */
  lemma NotificationsReportChanges(b: Belief, power: Outcome<string>, volume: Outcome<bool>, ambihue: Outcome<bool>)
    ensures var r := Refresh(b, power, volume, ambihue);
      && (forall n :: n in r.notes ==> n.value == Shown(r.belief, n.ch) && n.value != Shown(b, n.ch))
      && (r.belief.muted != b.muted ==> Update(Mute, Flag(r.belief.muted)) in r.notes)
      && (r.belief.ambihueState != b.ambihueState ==> Update(On, Flag(r.belief.ambihueState)) in r.notes)
      && (power.Ok? && r.belief.power != b.power ==> Update(Active, Num(Number(r.belief.power))) in r.notes)
  {
  }

  /** A second refresh fed the same outcomes as the first pushes nothing and
      leaves the belief where the first one put it. */
  lemma RefreshIdempotent(b: Belief, power: Outcome<string>, volume: Outcome<bool>, ambihue: Outcome<bool>)
    ensures var r1 := Refresh(b, power, volume, ambihue);
      var r2 := Refresh(r1.belief, power, volume, ambihue);
      r2.notes == [] && r2.belief == r1.belief
  {
  }

  /** Refresh keeps "on implies responsive". */
  lemma RefreshKeepsConsistent(b: Belief, power: Outcome<string>, volume: Outcome<bool>, ambihue: Outcome<bool>)
    requires Consistent(b)
    ensures Consistent(Refresh(b, power, volume, ambihue).belief)
  {
  }

  /** A television that answers "On", not muted, Ambilight + Hue on, seen by
      a new accessory: one notification per field that differs from the
      initial belief. */
  lemma FirstRefreshExample()
    ensures Refresh(Initial, Ok("On"), Ok(false), Ok(true)) ==
      Step(Belief(true, false, true, true),
           [Update(Active, Num(1)), Update(On, Flag(true))],
           [GetPowerState, GetVolume, GetAmbilightPlusHueState])
  {
  }

  /** The key names of the remote-key entries, in RemoteKeyCodes order. */
  const RemoteKeyNames: seq<string> :=
    ["Rewind", "FastForward", "Next", "Previous", "CursorUp", "CursorDown",
     "CursorLeft", "CursorRight", "Confirm", "Back", "Back", "PlayPause", "Home"]

  /** The entries of the accessory's `keyMap`, in the order they are listed:
      the RemoteKey constants first, then VolumeSelector INCREMENT and
      DECREMENT. */
  function KeyTable(c: KeyCodes): (t: seq<(int, string)>)
    ensures |t| == 15
    ensures forall i :: 0 <= i < 13 ==> t[i] == (RemoteKeyCodes(c)[i], RemoteKeyNames[i])
    ensures t[13] == (c.increment, "VolumeUp") && t[14] == (c.decrement, "VolumeDown")
  {
    Zip(RemoteKeyCodes(c), RemoteKeyNames) + [(c.increment, "VolumeUp"), (c.decrement, "VolumeDown")]
  }

  /** The key `remoteKey` sends for a characteristic value, if any. */
  function KeyMap(c: KeyCodes, value: int): (r: Option<string>)
    ensures r.Some? ==> r.value in RemoteKeyNames + ["VolumeUp", "VolumeDown"]
  {
    MapGet(BuildMap(KeyTable(c)), value)
  }

  /** A value that is the key of some entry is sent as the name of its last
      entry; a value that is the key of no entry is not sent at all. */
  lemma KeyMapLookup(c: KeyCodes, value: int)
    ensures KeyMap(c, value).None? <==> forall i :: 0 <= i < 15 ==> KeyTable(c)[i].0 != value
    ensures KeyMap(c, value).Some? ==>
      exists i :: IsLastEntry(KeyTable(c), value, i) && KeyMap(c, value).value == KeyTable(c)[i].1
  {
  }

  /** EXIT sends "Back" unless a constant listed after it shares its value. */
  lemma ExitSendsBack(c: KeyCodes)
    requires c.exit !in {c.playPause, c.information, c.increment, c.decrement}
    ensures KeyMap(c, c.exit) == Some("Back")
  {
    var t := KeyTable(c);
    assert t[10] == (c.exit, "Back");
    assert t[11].0 == c.playPause && t[12].0 == c.information;
    LastEntryDecides(t, 10);
    assert MapGet(BuildMap(t), c.exit) == Some("Back");
  }

  /** BACK sends "Back" unless a constant listed after it shares its value. */
  lemma BackSendsBack(c: KeyCodes)
    requires c.back !in {c.exit, c.playPause, c.information, c.increment, c.decrement}
    ensures KeyMap(c, c.back) == Some("Back")
  {
    var t := KeyTable(c);
    assert t[9] == (c.back, "Back");
    assert t[10].0 == c.exit && t[11].0 == c.playPause && t[12].0 == c.information;
    LastEntryDecides(t, 9);
    assert MapGet(BuildMap(t), c.back) == Some("Back");
  }

  /** BACK and EXIT both send "Back", as long as neither collides with a
      constant listed after them. */
  lemma BackAndExitSendBack(c: KeyCodes)
    requires c.back !in {c.playPause, c.information, c.increment, c.decrement}
    requires c.exit !in {c.playPause, c.information, c.increment, c.decrement}
    ensures KeyMap(c, c.back) == Some("Back") && KeyMap(c, c.exit) == Some("Back")
  {
    ExitSendsBack(c);
    if c.back != c.exit {
      BackSendsBack(c);
    }
  }

  /** Under HomeKit's constant values the entry codes are 0 to 11 and 15,
      then 0 and 1 again. */
  lemma HapEntryCodes()
    ensures forall i :: 0 <= i < 15 ==>
      KeyTable(Hap)[i].0 == [0, 1, 2, 3, 4, 5, 6, 7, 8, 9, 10, 11, 15, 0, 1][i]
  {
    assert RemoteKeyCodes(Hap) == [0, 1, 2, 3, 4, 5, 6, 7, 8, 9, 10, 11, 15];
  }

  /** Under HomeKit's values, RemoteKey values 2 to 11 and 15 send the name
      of their own entry. */
  lemma HapRemoteEntry(i: int)
    requires 2 <= i <= 12
    ensures KeyMap(Hap, if i == 12 then 15 else i) == Some(RemoteKeyNames[i])
  {
    var t := KeyTable(Hap);
    HapEntryCodes();
    assert t[i] == (RemoteKeyCodes(Hap)[i], RemoteKeyNames[i]);
    LastEntryDecides(t, i);
  }

  /** Under HomeKit's values, 0 and 1 send the volume keys. */
  lemma HapVolumeEntries()
    ensures KeyMap(Hap, 0) == Some("VolumeUp") && KeyMap(Hap, 1) == Some("VolumeDown")
  {
    var t := KeyTable(Hap);
    LastEntryDecides(t, 13);
    LastEntryDecides(t, 14);
  }

  /** The whole table under HomeKit's constant values. Because VolumeSelector
      INCREMENT and DECREMENT share the values 0 and 1 with RemoteKey REWIND
      and FAST_FORWARD, and their entries come last, 0 and 1 send the volume
      keys. */
  lemma HapKeyMap(value: int)
    ensures KeyMap(Hap, value) ==
      if value == 0 then Some("VolumeUp")
      else if value == 1 then Some("VolumeDown")
      else if value == 2 then Some("Next")
      else if value == 3 then Some("Previous")
      else if value == 4 then Some("CursorUp")
      else if value == 5 then Some("CursorDown")
      else if value == 6 then Some("CursorLeft")
      else if value == 7 then Some("CursorRight")
      else if value == 8 then Some("Confirm")
      else if value == 9 || value == 10 then Some("Back")
      else if value == 11 then Some("PlayPause")
      else if value == 15 then Some("Home")
      else None
  {
    match value
    case 0 => HapVolumeEntries();
    case 1 => HapVolumeEntries();
    case 2 => HapRemoteEntry(2);
    case 3 => HapRemoteEntry(3);
    case 4 => HapRemoteEntry(4);
    case 5 => HapRemoteEntry(5);
    case 6 => HapRemoteEntry(6);
    case 7 => HapRemoteEntry(7);
    case 8 => HapRemoteEntry(8);
    case 9 => HapRemoteEntry(9);
    case 10 => HapRemoteEntry(10);
    case 11 => HapRemoteEntry(11);
    case 15 => HapRemoteEntry(12);
    case _ =>
      HapEntryCodes();
      KeyMapLookup(Hap, value);
  }

  /** REWIND and FAST_FORWARD never reach the television as "Rewind" and
      "FastForward": the volume entries that share their values win. */
  lemma RewindSendsVolumeUp()
    ensures KeyMap(Hap, Hap.rewind) == Some("VolumeUp")
    ensures KeyMap(Hap, Hap.fastForward) == Some("VolumeDown")
  {
    HapKeyMap(Hap.rewind);
    HapKeyMap(Hap.fastForward);
  }

  /** The remote-key entries alone, without the volume entries. */
  function RemoteKeyTable(c: KeyCodes): (t: seq<(int, string)>)
    ensures |t| == 13
    ensures forall i :: 0 <= i < 13 ==> t[i].0 == RemoteKeyCodes(c)[i]
  {
    Zip(RemoteKeyCodes(c), RemoteKeyNames)
  }

  /** The table as evidently intended: RemoteKey values looked up among the
      remote-key entries only, VolumeSelector values among the volume
      entries only. */
  function CorrectedRemoteKey(c: KeyCodes, value: int): Option<string>
  {
    MapGet(BuildMap(RemoteKeyTable(c)), value)
  }

  function CorrectedVolumeKey(c: KeyCodes, value: int): Option<string>
  {
    MapGet(BuildMap([(c.increment, "VolumeUp"), (c.decrement, "VolumeDown")]), value)
  }

  /** With distinct RemoteKey constants, every remote key sends its own name
      with the corrected tables, and with distinct VolumeSelector constants
      the two volume buttons send "VolumeUp" and "VolumeDown"; HomeKit's
      constants satisfy both conditions. */
  lemma CorrectedKeyMaps(c: KeyCodes, i: int)
    requires Distinct(RemoteKeyCodes(c)) && c.increment != c.decrement
    requires 0 <= i < 13
    ensures CorrectedRemoteKey(c, RemoteKeyCodes(c)[i]) == Some(RemoteKeyNames[i])
    ensures CorrectedVolumeKey(c, c.increment) == Some("VolumeUp")
    ensures CorrectedVolumeKey(c, c.decrement) == Some("VolumeDown")
  {
    var t := RemoteKeyTable(c);
    assert t[i].1 == RemoteKeyNames[i];
    LastEntryDecides(t, i);
    var v := [(c.increment, "VolumeUp"), (c.decrement, "VolumeDown")];
    LastEntryDecides(v, 0);
    LastEntryDecides(v, 1);
  }

  /** `PhilipsTVPlatformAccessory`: one per registered television. */
  class PhilipsTVPlatformAccessory {
    /** The platform's `Characteristic.RemoteKey` / `VolumeSelector` constants. */
    const codes: KeyCodes

    var power: bool
    var muted: bool
    var ambihueState: bool
    var responsive: bool

    /** Every `updateCharacteristic` call made so far. */
    ghost var notifications: seq<Notification>
    /** Every call made into the television's client library so far. */
    ghost var calls: seq<TVCall>

    function State(): Belief
      reads this
    {
      Belief(power, muted, ambihueState, responsive)
    }

    /** "On implies responsive". No operation needs it to do what it
        promises; it is an invariant that every state-changing operation is
        proved to keep, starting from the constructor. */
    ghost predicate Valid()
      reads this
    {
      Consistent(State())
    }

    constructor (codes: KeyCodes)
      ensures Valid() && State() == Initial && this.codes == codes
      ensures notifications == [] && calls == []
    {
      this.codes := codes;
      power, muted, ambihueState, responsive := false, false, false, false;
      notifications, calls := [], [];
    }

    /** `refreshStatus`, with the three query outcomes as parameters: on a
      failed power query it returns early, otherwise it goes on to the
      volume and Ambilight + Hue queries. */
    method RefreshStatus(powerResponse: Outcome<string>, volumeResponse: Outcome<bool>, ambihueResponse: Outcome<bool>)
      requires Valid()
      modifies this`power, this`muted, this`ambihueState, this`responsive, this`notifications, this`calls
      ensures Valid()
      ensures var r := Refresh(old(State()), powerResponse, volumeResponse, ambihueResponse);
        State() == r.belief &&
        notifications == old(notifications) + r.notes &&
        calls == old(calls) + r.calls
    {
      calls := calls + [GetPowerState];
      if powerResponse.Err? {
        if responsive {
          responsive := false;
          power := false;
        }
        return;
      }
      ApplyPowerState(powerResponse.value);

      calls := calls + [GetVolume];
      ApplyVolume(volumeResponse);

      calls := calls + [GetAmbilightPlusHueState];
      ApplyAmbihue(ambihueResponse);
    }

    /** The first `try` block of `refreshStatus`, after the power query succeeded. */
    method ApplyPowerState(powerstate: string)
      modifies this`power, this`responsive, this`notifications
      ensures var s := SyncPower(old(State()), powerstate);
        State() == s.belief && notifications == old(notifications) + s.notes
    {
      responsive := true;
      if powerstate == "On" {
        if !power {
          power := true;
          notifications := notifications + [Update(Active, Num(Number(power)))];
        }
      } else {
        if power {
          power := false;
          notifications := notifications + [Update(Active, Num(Number(power)))];
        }
      }
    }

    /** The second `try` block: the volume query. */
    method ApplyVolume(volumeResponse: Outcome<bool>)
      modifies this`muted, this`notifications
      ensures var s := SyncMute(old(State()), volumeResponse);
        State() == s.belief && notifications == old(notifications) + s.notes
    {
      if volumeResponse.Ok? && muted != volumeResponse.value {
        muted := volumeResponse.value;
        notifications := notifications + [Update(Mute, Flag(muted))];
      }
    }

    /** The third `try` block: the Ambilight + Hue query. */
    method ApplyAmbihue(ambihueResponse: Outcome<bool>)
      modifies this`ambihueState, this`notifications
      ensures var s := SyncAmbihue(old(State()), ambihueResponse);
        State() == s.belief && notifications == old(notifications) + s.notes
    {
      if ambihueResponse.Ok? && ambihueState != ambihueResponse.value {
        ambihueState := ambihueResponse.value;
        notifications := notifications + [Update(On, Flag(ambihueState))];
      }
    }

    /** `setActive`: a truthy value wakes the television over the LAN, a
      falsy one asks it to go to standby; neither touches the cached fields. */
    method SetActive(value: int)
      modifies this`calls
      ensures calls == old(calls) + [if value != 0 then WakeOnLan else SetPowerState(value)]
      ensures State() == old(State())
    {
      if value != 0 {
        calls := calls + [WakeOnLan];
      } else {
        calls := calls + [SetPowerState(value)];
      }
    }

    /** `getActive`: the cached power as a number. */
    method GetActive() returns (isOn: int)
      ensures isOn == 0 || isOn == 1
      ensures isOn == 1 <==> power
    {
      isOn := Number(power);
    }

    /** `remoteKey`: one `sendKey` with the mapped name when the value is in
      the table, nothing otherwise; it does not look at `power`. */
    method RemoteKey(value: int)
      modifies this`calls
      ensures KeyMap(codes, value).Some? ==> calls == old(calls) + [SendKey(KeyMap(codes, value).value)]
      ensures KeyMap(codes, value).None? ==> calls == old(calls)
      ensures State() == old(State())
    {
      var keyMap := BuildMap(KeyTable(codes));
      if value in keyMap {
        var key := keyMap[value];
        calls := calls + [SendKey(key)];
      }
    }

    /** `volumeButton`: exactly `remoteKey`. */
    method VolumeButton(value: int)
      modifies this`calls
      ensures KeyMap(codes, value).Some? ==> calls == old(calls) + [SendKey(KeyMap(codes, value).value)]
      ensures KeyMap(codes, value).None? ==> calls == old(calls)
      ensures State() == old(State())
    {
      RemoteKey(value);
    }

    /** `getMute`: the cached mute flag. */
    method GetMute() returns (m: bool)
      ensures m == muted
    {
      m := muted;
    }

    /** `setMute`: forwards the value to the television; `muted` is left for
      the next refresh to correct. */
    method SetMute(value: bool)
      modifies this`calls
      ensures calls == old(calls) + [TVCall.SetMute(value)]
      ensures State() == old(State())
    {
      calls := calls + [TVCall.SetMute(value)];
    }

    /** `getAmbihueOn`: the cached Ambilight + Hue flag. */
    method GetAmbihueOn() returns (on: bool)
      ensures on == ambihueState
    {
      on := ambihueState;
    }

    /** `setAmbihueOn`: forwards the value and overwrites `ambihueState`
      whatever `power` is, without notifying HomeKit. */
    method SetAmbihueOn(value: bool)
      requires Valid()
      modifies this`ambihueState, this`calls
      ensures Valid()
      ensures calls == old(calls) + [SetAmbilightPlusHueState(value)]
      ensures State() == old(State()).(ambihueState := value)
    {
      calls := calls + [SetAmbilightPlusHueState(value)];
      ambihueState := value;
    }
  }
}
