/**
 * The device-protected settings store (the SharedPreferences the update client
 * shares with its update job) and the typed reads Settings.java performs on it.
 * A read returns the stored value, or the build-time default when the key is
 * absent; the channel read always passes through MigrateChannel.
 */
module Prefs {
  import opened Channel

  const KeyChannel: string := "channel"
  const KeyNetworkType: string := "network_type"
  const KeyBatteryNotLow: string := "battery_not_low"
  const KeyIdleReboot: string := "idle_reboot"
  const KeyWaitingForReboot: string := "waiting_for_reboot"

  /** A stored preference value, tagged with the type it was written as. */
  datatype Value = StringValue(s: string) | IntValue(i: int) | BoolValue(b: bool)

  /** The store: every key written so far and its latest value. Keys the update job owns live here too. */
  type Store = map<string, Value>

  /**
   * The defaults taken from the build's resources (R.string.channel_default and
   * friends), already parsed to their types.
   */
  datatype BuildDefaults = BuildDefaults(
    channel: string,
    networkType: int,
    batteryNotLow: bool,
    idleReboot: bool)

  /**
   * Each known key holds a value of the type its reader asks for;
   * SharedPreferences throws ClassCastException on a mismatch.
   */
  predicate WellTyped(m: Store) {
    && (KeyChannel in m ==> m[KeyChannel].StringValue?)
    && (KeyNetworkType in m ==> m[KeyNetworkType].IntValue?)
    && (KeyBatteryNotLow in m ==> m[KeyBatteryNotLow].BoolValue?)
    && (KeyIdleReboot in m ==> m[KeyIdleReboot].BoolValue?)
    && (KeyWaitingForReboot in m ==> m[KeyWaitingForReboot].BoolValue?)
  }

  /** m and m' agree on key k: both lack it, or both map it to the same value. */
  predicate SameAt(m: Store, m': Store, k: string) {
    (k in m <==> k in m') && (k in m ==> m[k] == m'[k])
  }

  /** SharedPreferences.getString(key, def). */
  function GetString(m: Store, key: string, def: string): string
    requires key in m ==> m[key].StringValue?
  {
    if key in m then m[key].s else def
  }

  /** SharedPreferences.getInt(key, def). */
  function GetInt(m: Store, key: string, def: int): int
    requires key in m ==> m[key].IntValue?
  {
    if key in m then m[key].i else def
  }

  /** SharedPreferences.getBoolean(key, def). */
  function GetBoolean(m: Store, key: string, def: bool): bool
    requires key in m ==> m[key].BoolValue?
  {
    if key in m then m[key].b else def
  }

  /** Settings.getChannel: the stored or default channel, migrated; so the result is already migrated. */
  function GetChannel(m: Store, d: BuildDefaults): (r: string)
    requires WellTyped(m)
    ensures MigrateChannel(r) == r
    ensures IsCanonical(r) || r == GetString(m, KeyChannel, d.channel)
  {
    var raw := GetString(m, KeyChannel, d.channel);
    MigrateChannelIdempotent(raw);
    MigrateChannel(raw)
  }

  /** Settings.getNetworkType. */
  function GetNetworkType(m: Store, d: BuildDefaults): (r: int)
    requires WellTyped(m)
    ensures KeyNetworkType in m ==> r == m[KeyNetworkType].i
    ensures KeyNetworkType !in m ==> r == d.networkType
  {
    GetInt(m, KeyNetworkType, d.networkType)
  }

  /** Settings.getBatteryNotLow. */
  function GetBatteryNotLow(m: Store, d: BuildDefaults): (r: bool)
    requires WellTyped(m)
    ensures KeyBatteryNotLow in m ==> r == m[KeyBatteryNotLow].b
    ensures KeyBatteryNotLow !in m ==> r == d.batteryNotLow
  {
    GetBoolean(m, KeyBatteryNotLow, d.batteryNotLow)
  }

  /** Settings.getIdleReboot. */
  function GetIdleReboot(m: Store, d: BuildDefaults): (r: bool)
    requires WellTyped(m)
    ensures KeyIdleReboot in m ==> r == m[KeyIdleReboot].b
    ensures KeyIdleReboot !in m ==> r == d.idleReboot
  {
    GetBoolean(m, KeyIdleReboot, d.idleReboot)
  }

  /** The reboot-pending marker as the edit handlers read it: absent means false. */
  function WaitingForReboot(m: Store): (r: bool)
    requires WellTyped(m)
    ensures r <==> KeyWaitingForReboot in m && m[KeyWaitingForReboot].b
  {
    GetBoolean(m, KeyWaitingForReboot, false)
  }

  /** With nothing stored, every read yields its build default (the channel one migrated). */
  lemma ReadsOfEmptyStore(d: BuildDefaults)
    ensures GetChannel(map[], d) == MigrateChannel(d.channel)
    ensures GetNetworkType(map[], d) == d.networkType
    ensures GetBatteryNotLow(map[], d) == d.batteryNotLow
    ensures GetIdleReboot(map[], d) == d.idleReboot
    ensures !WaitingForReboot(map[])
  {
  }

  /** Each write is seen by the next read of its own key; the channel read migrates what was written. */
  lemma ReadAfterWrite(m: Store, d: BuildDefaults, channel: string, networkType: int, batteryNotLow: bool, idleReboot: bool)
    requires WellTyped(m)
    ensures WellTyped(m[KeyChannel := StringValue(channel)])
    ensures GetChannel(m[KeyChannel := StringValue(channel)], d) == MigrateChannel(channel)
    ensures WellTyped(m[KeyNetworkType := IntValue(networkType)])
    ensures GetNetworkType(m[KeyNetworkType := IntValue(networkType)], d) == networkType
    ensures WellTyped(m[KeyBatteryNotLow := BoolValue(batteryNotLow)])
    ensures GetBatteryNotLow(m[KeyBatteryNotLow := BoolValue(batteryNotLow)], d) == batteryNotLow
    ensures WellTyped(m[KeyIdleReboot := BoolValue(idleReboot)])
    ensures GetIdleReboot(m[KeyIdleReboot := BoolValue(idleReboot)], d) == idleReboot
  {
  }

  /** A write to one key changes no read of another: reads depend only on their own key. */
  lemma ReadsDependOnOwnKey(m: Store, m': Store, d: BuildDefaults)
    requires WellTyped(m) && WellTyped(m')
    ensures SameAt(m, m', KeyChannel) ==> GetChannel(m, d) == GetChannel(m', d)
    ensures SameAt(m, m', KeyNetworkType) ==> GetNetworkType(m, d) == GetNetworkType(m', d)
    ensures SameAt(m, m', KeyBatteryNotLow) ==> GetBatteryNotLow(m, d) == GetBatteryNotLow(m', d)
    ensures SameAt(m, m', KeyIdleReboot) ==> GetIdleReboot(m, d) == GetIdleReboot(m', d)
    ensures SameAt(m, m', KeyWaitingForReboot) ==> WaitingForReboot(m) == WaitingForReboot(m')
  {
  }
}
