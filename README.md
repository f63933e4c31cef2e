# Settings of the seamless update client, modelled in Dafny

This project models the settings screen of the over-the-air update client
(`app.seamlessupdate.client.Settings`). That screen owns the settings that
decide whether the client checks for updates, when it checks and from which
release channel:

- **Channel migration.** `migrateChannel` maps a legacy channel name to the
  current generation. The prefixes `security-express`, `stable` and `beta` are
  tested in that order, and the first match gives `security-express6`,
  `stable6` or `beta6`. Any other name passes through unchanged.
- **Reads with defaults.** Every read of the store returns the value stored
  under its key, or the build default when the key is absent. The channel
  read always goes through the migration, so a legacy value heals itself
  when it is read.
- **The reboot-pending gate.** A channel, network-type or battery-not-low edit
  writes its value. The handler then re-reads `waiting_for_reboot` (absent
  means false) and asks the update job for a periodic schedule only when that
  flag is false. "Check for updates" asks for an immediate schedule under the
  same gate. Turning idle reboot off cancels the idle reboot and never
  schedules anything.
- **The session.** `onCreate` refuses every user but the system user.
  `refreshChannelSummary` labels the channel by its family. `onResume`
  re-derives what the screen shows from the store.
- **Opening the changelog.** The changelog click builds a view request for
  the cached `current.html`, or marks the changelog as unavailable.

Layout:

- `wrappers.dfy`: `Option`.
- `resources.dfy`: the string resources, as opaque constants.
- `channel.dfy`: migration, channel families, and the lemmas about them.
- `prefs.dfy`: the store (a map from key to tagged value), the typed reads,
  and read-after-write lemmas.
- `changelog.dfy`: the decision of `getChangelogIntent`.
- `gate.dfy`: each edit as a pure function, in two parts. The first is the
  store after the edit. The second is the outgoing calls the edit makes,
  recorded in an event log. Runs of edits, with counting lemmas over them.
- `session.dfy`: `class Settings`. It holds the store, the event log, the
  lifecycle phase and the displayed summaries, and has one method per
  listener and lifecycle callback. The `ensures` of each edit handler and of
  the changelog click gives its new store and log as one pure step of
  `gate.dfy`. The run lemmas are stated over runs of those pure steps. A
  caller that composes the handler contracts gets the store and log of the
  corresponding run. `EditSession` does this for one series of calls. No
  lemma states it for every series.

Inputs and foreign calls:

- The current user's identity is a parameter of `OnCreate`.
- The set of files in the cache's `changelog` directory is a parameter of the
  changelog click.
- The URI that FileProvider returns for the file is also a parameter. Only
  its scheme is inspected.
- The build defaults are a constructor parameter, already parsed.
- `PeriodicJob.schedule`, `IdleReboot.cancel` and `startActivity` are
  appended to the event log. Their effects are not modelled.

## Model

| member | source | states |
|---|---|---|
| Channel.MigrateChannel | src/app/seamlessupdate/client/Settings.java:32-37 | the result is one of the three canonical channel names or the input itself |
| Channel.MigrateChannelIsTableLookup | src/app/seamlessupdate/client/Settings.java:32-37 | migration equals the first-match lookup in the table of (legacy prefix, canonical name) pairs, taken in the source's order |
| Channel.PrefixesExclusive | src/app/seamlessupdate/client/Settings.java:33-35 | no name starts with two of the three legacy prefixes, so the order in which they are tested never changes the result |
| Channel.MigrateChannelLegacy | src/app/seamlessupdate/client/Settings.java:33-35 | for every suffix, security-express+suffix gives security-express6, stable+suffix gives stable6, and beta+suffix gives beta6 |
| Channel.MigrateChannelPassThrough | src/app/seamlessupdate/client/Settings.java:36 | a name with none of the three prefixes is returned unchanged |
| Channel.MigrateChannelIdempotent | src/app/seamlessupdate/client/Settings.java:32-37 | migrating twice gives the same result as migrating once, for every input |
| Channel.MigrateChannelByFamily | src/app/seamlessupdate/client/Settings.java:32-37 | a name in a family migrates to that family's canonical name; a name in no family is returned as is and is not canonical |
| Channel.ChannelFamily | src/app/seamlessupdate/client/Settings.java:62-64 | the family found is one whose prefix the channel starts with; there is no family if and only if the channel has none of the three prefixes |
| Channel.MigrationPreservesFamily | src/app/seamlessupdate/client/Settings.java:59-65 | migration keeps a channel in its family, so the summary of the migrated channel equals the summary of the raw one |
| Channel.MigrateChannelExamples | src/app/seamlessupdate/client/Settings.java:33-35 | "stable-2021" becomes stable6, a default of "beta" becomes beta6, and security-express6 stays as it is |
| Prefs.GetChannel | src/app/seamlessupdate/client/Settings.java:39-42 | the channel read is already migrated: it is canonical, or it is the stored-or-default value |
| Prefs.GetNetworkType | src/app/seamlessupdate/client/Settings.java:44-47 | the stored network type when the key is present, otherwise the build default |
| Prefs.GetBatteryNotLow | src/app/seamlessupdate/client/Settings.java:49-52 | the stored battery-not-low flag when the key is present, otherwise the build default |
| Prefs.GetIdleReboot | src/app/seamlessupdate/client/Settings.java:54-57 | the stored idle-reboot flag when the key is present, otherwise the build default |
| Prefs.WaitingForReboot | src/app/seamlessupdate/client/Settings.java:79 | a reboot is pending exactly when waiting_for_reboot is stored as true; an absent key means false (the same read stands at lines 100, 110 and 119) |
| Prefs.ReadsOfEmptyStore | src/app/seamlessupdate/client/Settings.java:39-57 | with nothing stored, every read yields its build default; the channel default is migrated, and the reboot marker reads false |
| Prefs.ReadAfterWrite | src/app/seamlessupdate/client/Settings.java:39-57 | each write keeps the store well typed, and the next read of its key yields the written value (the channel migrated) |
| Prefs.ReadsDependOnOwnKey | src/app/seamlessupdate/client/Settings.java:39-57 | two stores that agree on a key give the same read of that key, so writing one key changes no other read |
| Changelog.ChangelogIntent | src/app/seamlessupdate/client/Settings.java:145-165 | no request if and only if the file is not cached; otherwise a VIEW request for the file's URI, with type text/html, the changelog title, the default category and the HTML viewer package, and a read grant if and only if the scheme is content |
| Changelog.ChangelogIntentDependsOnUriOnlyForData | src/app/seamlessupdate/client/Settings.java:152-161 | only the cache decides whether a request is made; with the same scheme, two URIs give the same request apart from its data |
| Gate.Written | src/app/seamlessupdate/client/Settings.java:98-118 | a channel, network-type or battery edit stores its value under its own key, leaves every other key as it was, and keeps the store well typed; the other edits write nothing |
| Gate.Effects | src/app/seamlessupdate/client/Settings.java:78-132 | a gated edit logs nothing while a reboot is pending, and otherwise logs one schedule, immediate only for "check for updates"; an idle-reboot edit logs one cancel when the value is false and nothing when it is true; a changelog click logs the viewer start when current.html is cached and nothing otherwise |
| Gate.GatedEditCounts | src/app/seamlessupdate/client/Settings.java:78-123 | a gated edit logs exactly one schedule when no reboot is pending and none when one is, and it never logs a cancel |
| Gate.IdleRebootEditCounts | src/app/seamlessupdate/client/Settings.java:125-132 | an idle-reboot edit never logs a schedule, and logs one cancel exactly when the new value is false |
| Gate.ChangelogClickCounts | src/app/seamlessupdate/client/Settings.java:85-94 | a changelog click logs no schedule and no cancel |
| Gate.RunKeepsMarker | src/app/seamlessupdate/client/Settings.java:77-132 | no run of edits changes the waiting_for_reboot entry |
| Gate.RunCounts | src/app/seamlessupdate/client/Settings.java:77-132 | over any run of edits: zero schedules while a reboot is pending, otherwise one per gated edit; one cancel per edit that turns idle reboot off |
| Gate.RunImmediateOnlyFromCheck | src/app/seamlessupdate/client/Settings.java:78-83 | an immediate schedule in a run's log implies the run contains a "check for updates" click |
| Gate.RunChannel | src/app/seamlessupdate/client/Settings.java:96-104 | after any run, the channel read is the migrated value of the last channel edit; with no channel edit, the value stored before or the default |
| Session.Settings.OnCreate | src/app/seamlessupdate/client/Settings.java:67-76 | a non-system user gets SecurityException("system user only") and a refused session in which no listener runs; the system user gets an active session |
| Session.Settings.RefreshChannelSummary | src/app/seamlessupdate/client/Settings.java:59-65 | the summary becomes the label of the current channel's family, and stays unchanged when the channel has no family |
| Session.Settings.OnCheckForUpdatesClick | src/app/seamlessupdate/client/Settings.java:77-83 | the store is unchanged; one immediate schedule is logged unless a reboot is pending |
| Session.Settings.OnChangelogClick | src/app/seamlessupdate/client/Settings.java:85-94 | with current.html cached, the viewer is started with the changelog request; without it, nothing is logged and the summary says unavailable; the log grows by the pure step of a changelog click |
| Session.Settings.OnChannelChange | src/app/seamlessupdate/client/Settings.java:96-104 | only the channel key is rewritten; the channel read becomes the migrated new value; the summary follows its family; one non-immediate schedule is logged unless a reboot is pending |
| Session.Settings.OnNetworkTypeChange | src/app/seamlessupdate/client/Settings.java:106-114 | only the network-type key is rewritten; the read yields the new value; one non-immediate schedule is logged unless a reboot is pending |
| Session.Settings.OnBatteryNotLowChange | src/app/seamlessupdate/client/Settings.java:116-123 | only the battery-not-low key is rewritten; the read yields the new value; one non-immediate schedule is logged unless a reboot is pending |
| Session.Settings.OnIdleRebootChange | src/app/seamlessupdate/client/Settings.java:125-132 | the store is unchanged; one cancel is logged when the new value is false, nothing when it is true, and never a schedule |
| Session.Settings.OnResume | src/app/seamlessupdate/client/Settings.java:135-143 | the network type shown is re-read from the store, the changelog summary is reset, and the channel summary is re-derived |
| Session.EditSession | src/app/seamlessupdate/client/Settings.java:77-132 | a session that turns battery-not-low off, opens the changelog, checks for updates and turns idle reboot off logs the pure run of those edits: while a reboot is pending, only the viewer start (if the file is cached) and the cancel; otherwise a periodic schedule, the viewer start, an immediate schedule and the cancel |

## Left out

- Storage plumbing is not modelled: creating the device-protected storage context, `getPreferences` and `setStorageDeviceProtected`. The store is an in-memory map, and a write is visible at once. The asynchronous flush of `apply()` is not modelled.
- `PreferenceManager.setDefaultValues` and `addPreferencesFromResource` in `onCreate` are framework calls. The store is not seeded from the layout file.
- The idle-reboot switch also persists its own value after its listener returns true, so the switch itself writes `idle_reboot`. This is framework behaviour outside Settings.java, so `OnIdleRebootChange` models only what its listener body does.
- Parsing is not modelled: `Integer.parseInt`, `Integer.valueOf` and `Boolean.valueOf` on resource strings and list values. Handlers and defaults take values that are already parsed, so the `NumberFormatException` path is not modelled.
- A read of a key stored with another type throws `ClassCastException`, and that path is not modelled. Instead, the store invariant `WellTyped` holds for every store the model builds, and every write keeps it.
- The internals of `PeriodicJob.schedule` and `IdleReboot.cancel` are not modelled, and neither is the viewer that `startActivity` launches. Each call appears only as an event in the log.
- `FileProvider.getUriForFile`, `File.exists` and the cache directory are inputs: a set of file names and a URI.
- Resource texts (`getString(R.string...)`) are opaque distinct constants.
- `ListPreference.setValue(Integer.toString(..))` in `onResume` is modelled as the integer the list shows. Its decimal rendering is not modelled.
- Concurrent writes of `waiting_for_reboot` by the update job are not modelled. The session may start over any well-typed store. After that, the store changes only through the session's own handlers.
- Changelog.ChangelogIntent, like the code, sets the read grant only when the URI scheme is `content`. FileProvider hands out `content:` URIs, so on a device the grant is always set. The model leaves the scheme free.
