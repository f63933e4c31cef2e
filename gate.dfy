/**
 * What each user action on the settings screen does. An action is a value edit
 * of a preference, or a click on "check for updates" or on the changelog. For
 * each action the module gives, as pure functions of the store before it:
 * - the store it leaves;
 * - the calls it makes into the scheduler (PeriodicJob.schedule), the
 *   idle-reboot subsystem (IdleReboot.cancel) and the changelog viewer
 *   (startActivity).
 * The event log records those outgoing calls in order. A run of several
 * actions composes the single steps, as the screen handles one action at a time.
 */
module Gate {
  import opened Wrappers
  import opened Prefs
  import opened Changelog

  /** An outgoing call of the settings screen. */
  datatype Event =
    | Schedule(immediate: bool)      // PeriodicJob.schedule(context, immediate)
    | CancelIdleReboot               // IdleReboot.cancel(context)
    | StartViewer(request: ViewRequest)  // startActivity(intent)

  /**
   * A user action. Each of the four preference edits carries its already-parsed
   * new value. The two clicks carry no value. The changelog click carries the
   * cache's changelog files and the file's URI, which are inputs of the model.
   */
  datatype Edit =
    | ChannelEdit(channel: string)
    | NetworkTypeEdit(networkType: int)
    | BatteryNotLowEdit(batteryNotLow: bool)
    | IdleRebootEdit(idleReboot: bool)
    | CheckForUpdates
    | ChangelogClick(changelogFiles: set<string>, uri: Uri)

  /** The key an edit's handler writes, if any. */
  function WrittenKey(e: Edit): Option<string> {
    match e
    case ChannelEdit(_) => Some(KeyChannel)
    case NetworkTypeEdit(_) => Some(KeyNetworkType)
    case BatteryNotLowEdit(_) => Some(KeyBatteryNotLow)
    case IdleRebootEdit(_) => None
    case CheckForUpdates => None
    case ChangelogClick(_, _) => None
  }

  /** Edits that go through the reboot-pending gate. */
  predicate IsGated(e: Edit) {
    e.ChannelEdit? || e.NetworkTypeEdit? || e.BatteryNotLowEdit? || e.CheckForUpdates?
  }

  /** The store after the handler's write (edit().put*(...).apply()). */
  function Written(m: Store, e: Edit): (r: Store)
    ensures WellTyped(m) ==> WellTyped(r)
    ensures forall k :: Some(k) != WrittenKey(e) ==> SameAt(m, r, k)
    ensures e.ChannelEdit? ==> KeyChannel in r && r[KeyChannel] == StringValue(e.channel)
    ensures e.NetworkTypeEdit? ==> KeyNetworkType in r && r[KeyNetworkType] == IntValue(e.networkType)
    ensures e.BatteryNotLowEdit? ==> KeyBatteryNotLow in r && r[KeyBatteryNotLow] == BoolValue(e.batteryNotLow)
  {
    match e
    case ChannelEdit(v) => m[KeyChannel := StringValue(v)]
    case NetworkTypeEdit(v) => m[KeyNetworkType := IntValue(v)]
    case BatteryNotLowEdit(v) => m[KeyBatteryNotLow := BoolValue(v)]
    case IdleRebootEdit(_) => m
    case CheckForUpdates => m
    case ChangelogClick(_, _) => m
  }

  /**
   * The calls a handler makes. Gated edits re-read the marker from the store
   * after their write and request one schedule (immediate only for "check for
   * updates") when no reboot is pending; turning idle reboot off cancels it;
   * a changelog click starts the viewer when current.html is cached.
   * Stated against the store BEFORE the edit: no handler touches the marker.
   */
  function Effects(m: Store, e: Edit): (r: seq<Event>)
    requires WellTyped(m)
    ensures IsGated(e) ==> r == (if WaitingForReboot(m) then [] else [Schedule(e.CheckForUpdates?)])
    ensures e.IdleRebootEdit? ==> r == (if e.idleReboot then [] else [CancelIdleReboot])
    ensures e.ChangelogClick? ==>
      r == (if CurrentChangelog in e.changelogFiles
            then [StartViewer(ChangelogIntent(e.changelogFiles, CurrentChangelog, e.uri).value)]
            else [])
  {
    match e
    case IdleRebootEdit(v) => if !v then [CancelIdleReboot] else []
    case ChangelogClick(files, uri) =>
      var intent := ChangelogIntent(files, CurrentChangelog, uri);
      if intent.Some? then [StartViewer(intent.value)] else []
    case _ =>
      var after := Written(m, e);
      assert SameAt(m, after, KeyWaitingForReboot);
      if !WaitingForReboot(after) then [Schedule(e.CheckForUpdates?)] else []
  }

  /** The store after a run of edits. */
  function RunStore(m: Store, edits: seq<Edit>): (r: Store)
    requires WellTyped(m)
    ensures WellTyped(r)
    decreases |edits|
  {
    if edits == [] then m else RunStore(Written(m, edits[0]), edits[1..])
  }

  /** The calls made during a run of edits, in order. */
  function RunLog(m: Store, edits: seq<Edit>): seq<Event>
    requires WellTyped(m)
    decreases |edits|
  {
    if edits == [] then [] else Effects(m, edits[0]) + RunLog(Written(m, edits[0]), edits[1..])
  }

  function ScheduleCount(log: seq<Event>): nat {
    if log == [] then 0 else (if log[0].Schedule? then 1 else 0) + ScheduleCount(log[1..])
  }

  function CancelCount(log: seq<Event>): nat {
    if log == [] then 0 else (if log[0].CancelIdleReboot? then 1 else 0) + CancelCount(log[1..])
  }

  function GatedCount(edits: seq<Edit>): nat {
    if edits == [] then 0 else (if IsGated(edits[0]) then 1 else 0) + GatedCount(edits[1..])
  }

  function DisableIdleRebootCount(edits: seq<Edit>): nat {
    if edits == [] then 0 else (if edits[0] == IdleRebootEdit(false) then 1 else 0) + DisableIdleRebootCount(edits[1..])
  }

  lemma {:induction false} CountsOfConcatenation(a: seq<Event>, b: seq<Event>)
    ensures ScheduleCount(a + b) == ScheduleCount(a) + ScheduleCount(b)
    ensures CancelCount(a + b) == CancelCount(a) + CancelCount(b)
  {
    if a != [] {
      assert (a + b)[1..] == a[1..] + b;
      CountsOfConcatenation(a[1..], b);
    } else {
      assert a + b == b;
    }
  }

  /** One gated edit: exactly one schedule when no reboot is pending, none when one is; never a cancel. */
  lemma GatedEditCounts(m: Store, e: Edit)
    requires WellTyped(m) && IsGated(e)
    ensures ScheduleCount(Effects(m, e)) == (if WaitingForReboot(m) then 0 else 1)
    ensures CancelCount(Effects(m, e)) == 0
  {
  }

  /** One idle-reboot edit: never a schedule, one cancel exactly when the new value is false. */
  lemma IdleRebootEditCounts(m: Store, v: bool)
    requires WellTyped(m)
    ensures ScheduleCount(Effects(m, IdleRebootEdit(v))) == 0
    ensures CancelCount(Effects(m, IdleRebootEdit(v))) == (if v then 0 else 1)
  {
  }

  /** A changelog click neither schedules nor cancels. */
  lemma ChangelogClickCounts(m: Store, files: set<string>, uri: Uri)
    requires WellTyped(m)
    ensures ScheduleCount(Effects(m, ChangelogClick(files, uri))) == 0
    ensures CancelCount(Effects(m, ChangelogClick(files, uri))) == 0
  {
  }

  /** No run of edits changes the reboot-pending marker. */
  lemma {:induction false} RunKeepsMarker(m: Store, edits: seq<Edit>)
    requires WellTyped(m)
    ensures SameAt(m, RunStore(m, edits), KeyWaitingForReboot)
    ensures WaitingForReboot(RunStore(m, edits)) == WaitingForReboot(m)
    decreases |edits|
  {
    if edits != [] {
      var m' := Written(m, edits[0]);
      assert SameAt(m, m', KeyWaitingForReboot);
      RunKeepsMarker(m', edits[1..]);
    }
  }

  /**
   * While a reboot is pending the screen requests no schedule at all, however
   * many edits the user makes; otherwise it requests exactly one per gated edit.
   * Either way it cancels idle reboot once per edit that turns it off.
   */
  lemma {:induction false} RunCounts(m: Store, edits: seq<Edit>)
    requires WellTyped(m)
    ensures ScheduleCount(RunLog(m, edits)) == (if WaitingForReboot(m) then 0 else GatedCount(edits))
    ensures CancelCount(RunLog(m, edits)) == DisableIdleRebootCount(edits)
    decreases |edits|
  {
    if edits != [] {
      var e := edits[0];
      var m' := Written(m, e);
      assert SameAt(m, m', KeyWaitingForReboot);
      assert WaitingForReboot(m') == WaitingForReboot(m);
      RunCounts(m', edits[1..]);
      CountsOfConcatenation(Effects(m, e), RunLog(m', edits[1..]));
      if IsGated(e) {
        GatedEditCounts(m, e);
      } else if e.IdleRebootEdit? {
        IdleRebootEditCounts(m, e.idleReboot);
      } else {
        ChangelogClickCounts(m, e.changelogFiles, e.uri);
      }
    }
  }

  /** A schedule logged during a run is immediate only when a "check for updates" click asked for it. */
  lemma {:induction false} RunImmediateOnlyFromCheck(m: Store, edits: seq<Edit>, i: nat)
    requires WellTyped(m)
    requires i < |RunLog(m, edits)| && RunLog(m, edits)[i] == Schedule(true)
    ensures CheckForUpdates in edits
    decreases |edits|
  {
    if edits != [] {
      var e := edits[0];
      var first := Effects(m, e);
      var m' := Written(m, e);
      if i < |first| {
        assert first[i] == Schedule(true);
        assert e == CheckForUpdates;
      } else {
        assert RunLog(m, edits)[i] == RunLog(m', edits[1..])[i - |first|];
        RunImmediateOnlyFromCheck(m', edits[1..], i - |first|);
        assert edits == [e] + edits[1..];
      }
    }
  }

  /** The channel value a run leaves stored: its last channel edit, else what was stored before, else the default. */
  function LastChannel(m: Store, edits: seq<Edit>, def: string): string
    requires WellTyped(m)
  {
    if edits == [] then GetString(m, KeyChannel, def)
    else if edits[|edits| - 1].ChannelEdit? then edits[|edits| - 1].channel
    else LastChannel(m, edits[..|edits| - 1], def)
  }

  /** Splitting a run at its last edit. */
  lemma {:induction false} RunStoreSnoc(m: Store, edits: seq<Edit>, e: Edit)
    requires WellTyped(m)
    ensures RunStore(m, edits + [e]) == Written(RunStore(m, edits), e)
    decreases |edits|
  {
    if edits == [] {
      assert edits + [e] == [e];
    } else {
      assert (edits + [e])[0] == edits[0];
      assert (edits + [e])[1..] == edits[1..] + [e];
      RunStoreSnoc(Written(m, edits[0]), edits[1..], e);
    }
  }

  /** The last channel written wins: after a run, the channel read is that value migrated. */
  lemma {:induction false} RunChannel(m: Store, edits: seq<Edit>, d: BuildDefaults)
    requires WellTyped(m)
    ensures GetChannel(RunStore(m, edits), d) == Channel.MigrateChannel(LastChannel(m, edits, d.channel))
    decreases |edits|
  {
    if edits != [] {
      var init := edits[..|edits| - 1];
      var e := edits[|edits| - 1];
      assert init + [e] == edits;
      RunStoreSnoc(m, init, e);
      var before := RunStore(m, init);
      if !e.ChannelEdit? {
        RunChannel(m, init, d);
        assert SameAt(before, Written(before, e), KeyChannel);
      }
    }
  }
}
