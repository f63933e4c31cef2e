/**
 * The settings screen (class Settings, a PreferenceActivity): a session that
 * refuses to start for any user but the system user, then handles the user's
 * edits one at a time on the shared store, logging the outgoing calls, and
 * re-derives what it displays from the store on every resume.
 */
module Session {
  import opened Wrappers
  import opened Resources
  import opened Channel
  import opened Prefs
  import opened Changelog
  import opened Gate

  /** Where the session is in its lifecycle. */
  datatype Phase = Uninitialized | Active | Refused

  /** How onCreate ends: normally, or with the SecurityException it throws. */
  datatype CreateOutcome = Created | SecurityException(message: string)

  /** The summary label refreshChannelSummary chooses for a channel family. */
  function FamilySummary(f: Family): Text {
    match f
    case SecurityExpress => ChannelSecurityExpress
    case Stable => ChannelStable
    case Beta => ChannelBeta
  }

  class Settings {
    /** The device-protected shared preferences. */
    var prefs: Store
    /** Calls into the scheduler, the idle-reboot subsystem and the viewer, oldest first. */
    var log: seq<Event>
    /** The build's defaults for the settings. */
    const defaults: BuildDefaults
    var phase: Phase
    /** Summary of the channel preference; None while it still shows the one from the layout. */
    var channelSummary: Option<Text>
    /** Summary of the changelog entry; None while it still shows the one from the layout. */
    var changelogSummary: Option<Text>
    /** Value shown by the network-type list; None until the first resume. */
    var shownNetworkType: Option<int>

    ghost predicate Valid()
      reads this
    {
      WellTyped(prefs)
    }

    /** A screen about to be created over the given store. */
    constructor (store: Store, d: BuildDefaults)
      requires WellTyped(store)
      ensures Valid()
      ensures prefs == store && defaults == d && log == [] && phase == Uninitialized
      ensures channelSummary == None && changelogSummary == None && shownNetworkType == None
    {
      prefs := store;
      log := [];
      defaults := d;
      phase := Uninitialized;
      channelSummary := None;
      changelogSummary := None;
      shownNetworkType := None;
    }

    /**
     * onCreate: throws before any set-up unless running as the system user;
     * otherwise the session becomes active and its listeners are wired.
     */
    method OnCreate(isSystemUser: bool) returns (outcome: CreateOutcome)
      requires phase == Uninitialized
      modifies this`phase
      ensures outcome == (if isSystemUser then Created else SecurityException("system user only"))
      ensures phase == (if isSystemUser then Active else Refused)
    {
      if !isSystemUser {
        phase := Refused;
        return SecurityException("system user only");
      }
      phase := Active;
      outcome := Created;
    }

    /**
     * refreshChannelSummary: label the channel preference after the family of
     * the current (migrated) channel; leave it alone for any other name.
     */
    method RefreshChannelSummary()
      requires Valid()
      modifies this`channelSummary
      ensures var f := ChannelFamily(GetChannel(prefs, defaults));
        channelSummary == if f.Some? then Some(FamilySummary(f.value)) else old(channelSummary)
    {
      var current := GetChannel(prefs, defaults);
      if StartsWith(current, SecurityExpressPrefix) {
        channelSummary := Some(ChannelSecurityExpress);
      } else if StartsWith(current, StablePrefix) {
        channelSummary := Some(ChannelStable);
      } else if StartsWith(current, BetaPrefix) {
        channelSummary := Some(ChannelBeta);
      }
    }

    /** The "check for updates" click: one immediate schedule unless a reboot is pending. */
    method OnCheckForUpdatesClick()
      requires Valid() && phase == Active
      modifies this`log
      ensures Valid()
      ensures log == old(log) + (if WaitingForReboot(prefs) then [] else [Schedule(true)])
      ensures log == old(log) + Effects(prefs, CheckForUpdates)
    {
      if !GetBoolean(prefs, KeyWaitingForReboot, false) {
        log := log + [Schedule(true)];
      }
    }

    /** The changelog click: open the cached changelog in the viewer, or say it is unavailable. */
    method OnChangelogClick(changelogFiles: set<string>, uri: Uri)
      requires Valid() && phase == Active
      modifies this`log, this`changelogSummary
      ensures Valid()
      ensures CurrentChangelog in changelogFiles ==>
        log == old(log) + [StartViewer(ChangelogIntent(changelogFiles, CurrentChangelog, uri).value)]
        && changelogSummary == old(changelogSummary)
      ensures CurrentChangelog !in changelogFiles ==>
        log == old(log) && changelogSummary == Some(ChangelogUnavailable)
      ensures log == old(log) + Effects(prefs, ChangelogClick(changelogFiles, uri))
    {
      var intent := ChangelogIntent(changelogFiles, CurrentChangelog, uri);
      if intent.Some? {
        log := log + [StartViewer(intent.value)];
      } else {
        changelogSummary := Some(ChangelogUnavailable);
      }
    }

    /** A new channel: store it, refresh the channel summary, then schedule unless a reboot is pending. */
    method OnChannelChange(newValue: string)
      requires Valid() && phase == Active
      modifies this`prefs, this`log, this`channelSummary
      ensures Valid()
      ensures prefs == old(prefs)[KeyChannel := StringValue(newValue)]
      ensures prefs == Written(old(prefs), ChannelEdit(newValue))
      ensures GetChannel(prefs, defaults) == MigrateChannel(newValue)
      ensures log == old(log) + (if WaitingForReboot(old(prefs)) then [] else [Schedule(false)])
      ensures log == old(log) + Effects(old(prefs), ChannelEdit(newValue))
      ensures var f := ChannelFamily(newValue);
        channelSummary == if f.Some? then Some(FamilySummary(f.value)) else old(channelSummary)
    {
      prefs := prefs[KeyChannel := StringValue(newValue)];
      RefreshChannelSummary();
      MigrationPreservesFamily(newValue);
      if !GetBoolean(prefs, KeyWaitingForReboot, false) {
        log := log + [Schedule(false)];
      }
    }

    /** A new network-type constraint: store it, then schedule unless a reboot is pending. */
    method OnNetworkTypeChange(newValue: int)
      requires Valid() && phase == Active
      modifies this`prefs, this`log
      ensures Valid()
      ensures prefs == old(prefs)[KeyNetworkType := IntValue(newValue)]
      ensures prefs == Written(old(prefs), NetworkTypeEdit(newValue))
      ensures GetNetworkType(prefs, defaults) == newValue
      ensures log == old(log) + (if WaitingForReboot(old(prefs)) then [] else [Schedule(false)])
      ensures log == old(log) + Effects(old(prefs), NetworkTypeEdit(newValue))
    {
      prefs := prefs[KeyNetworkType := IntValue(newValue)];
      if !GetBoolean(prefs, KeyWaitingForReboot, false) {
        log := log + [Schedule(false)];
      }
    }

    /** A new battery-not-low constraint: store it, then schedule unless a reboot is pending. */
    method OnBatteryNotLowChange(newValue: bool)
      requires Valid() && phase == Active
      modifies this`prefs, this`log
      ensures Valid()
      ensures prefs == old(prefs)[KeyBatteryNotLow := BoolValue(newValue)]
      ensures prefs == Written(old(prefs), BatteryNotLowEdit(newValue))
      ensures GetBatteryNotLow(prefs, defaults) == newValue
      ensures log == old(log) + (if WaitingForReboot(old(prefs)) then [] else [Schedule(false)])
      ensures log == old(log) + Effects(old(prefs), BatteryNotLowEdit(newValue))
    {
      prefs := prefs[KeyBatteryNotLow := BoolValue(newValue)];
      if !GetBoolean(prefs, KeyWaitingForReboot, false) {
        log := log + [Schedule(false)];
      }
    }

    /** A new idle-reboot setting: cancel the idle reboot when it is turned off; never schedule. */
    method OnIdleRebootChange(newValue: bool)
      requires Valid() && phase == Active
      modifies this`log
      ensures Valid()
      ensures log == old(log) + (if newValue then [] else [CancelIdleReboot])
      ensures log == old(log) + Effects(prefs, IdleRebootEdit(newValue))
    {
      if !newValue {
        log := log + [CancelIdleReboot];
      }
    }

    /** onResume: re-derive the network type shown, the changelog summary and the channel summary. */
    method OnResume()
      requires Valid() && phase == Active
      modifies this`shownNetworkType, this`changelogSummary, this`channelSummary
      ensures Valid()
      ensures shownNetworkType == Some(GetNetworkType(prefs, defaults))
      ensures changelogSummary == Some(ChangelogSummary)
      ensures var f := ChannelFamily(GetChannel(prefs, defaults));
        channelSummary == if f.Some? then Some(FamilySummary(f.value)) else old(channelSummary)
    {
      shownNetworkType := Some(GetNetworkType(prefs, defaults));
      changelogSummary := Some(ChangelogSummary);
      RefreshChannelSummary();
    }
  }

  /**
   * A system-user session in which the user turns battery-not-low off, opens
   * the changelog, taps "check for updates" and turns idle reboot off: the
   * calls it makes are the pure run of those edits, which schedules nothing
   * while a reboot is pending.
   */
  method EditSession(store: Store, d: BuildDefaults, changelogFiles: set<string>, uri: Uri)
    returns (calls: seq<Event>)
    requires WellTyped(store)
    ensures calls == RunLog(store, [BatteryNotLowEdit(false), ChangelogClick(changelogFiles, uri),
                                    CheckForUpdates, IdleRebootEdit(false)])
    ensures var viewer := if CurrentChangelog in changelogFiles
                          then [StartViewer(ChangelogIntent(changelogFiles, CurrentChangelog, uri).value)]
                          else [];
      calls == if WaitingForReboot(store) then viewer + [CancelIdleReboot]
               else [Schedule(false)] + viewer + [Schedule(true), CancelIdleReboot]
  {
    var s := new Settings(store, d);
    var outcome := s.OnCreate(true);
    s.OnBatteryNotLowChange(false);
    s.OnChangelogClick(changelogFiles, uri);
    s.OnCheckForUpdatesClick();
    s.OnIdleRebootChange(false);
    var edits := [BatteryNotLowEdit(false), ChangelogClick(changelogFiles, uri),
                  CheckForUpdates, IdleRebootEdit(false)];
    assert edits[1..] == [ChangelogClick(changelogFiles, uri), CheckForUpdates, IdleRebootEdit(false)];
    assert edits[1..][1..] == [CheckForUpdates, IdleRebootEdit(false)];
    assert edits[1..][1..][1..] == [IdleRebootEdit(false)];
    var m1 := Written(store, edits[0]);
    assert RunLog(store, edits) == Effects(store, edits[0]) + RunLog(m1, edits[1..]);
    assert RunLog(m1, edits[1..]) == Effects(m1, edits[1]) + RunLog(m1, edits[1..][1..]);
    assert RunLog(m1, edits[1..][1..]) == Effects(m1, CheckForUpdates) + RunLog(m1, edits[1..][1..][1..]);
    assert RunLog(m1, edits[1..][1..][1..]) == Effects(m1, IdleRebootEdit(false)) + RunLog(m1, []);
    assert s.prefs == m1;
    assert s.log == Effects(store, edits[0]) + Effects(m1, edits[1]) + Effects(m1, CheckForUpdates)
                    + Effects(m1, IdleRebootEdit(false));
    calls := s.log;
  }
}
