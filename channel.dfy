/**
 * Release channel identifiers: the migration of legacy channel names to the
 * current generation (Settings.migrateChannel) and the family a channel name
 * belongs to, which selects the summary shown for the channel preference
 * (Settings.refreshChannelSummary).
 */
module Channel {
  import opened Wrappers

  const SecurityExpressPrefix: string := "security-express"
  const StablePrefix: string := "stable"
  const BetaPrefix: string := "beta"

  const SecurityExpressChannel: string := "security-express6"
  const StableChannel: string := "stable6"
  const BetaChannel: string := "beta6"

  /** The three channel families, in the order their prefixes are tested. */
  datatype Family = SecurityExpress | Stable | Beta

  function Prefix(f: Family): string {
    match f
    case SecurityExpress => SecurityExpressPrefix
    case Stable => StablePrefix
    case Beta => BetaPrefix
  }

  /** The current-generation channel name of a family. */
  function CanonicalName(f: Family): string {
    match f
    case SecurityExpress => SecurityExpressChannel
    case Stable => StableChannel
    case Beta => BetaChannel
  }

  predicate IsCanonical(s: string) {
    s == SecurityExpressChannel || s == StableChannel || s == BetaChannel
  }

  /** Java's String.startsWith is the sequence-prefix relation. */
  predicate StartsWith(s: string, prefix: string) {
    prefix <= s
  }

  /**
   * Settings.migrateChannel: the first legacy family whose prefix the name
   * starts with decides the result; a name with none of the prefixes is
   * returned unchanged.
   */
  function MigrateChannel(raw: string): (r: string)
    ensures IsCanonical(r) || r == raw
  {
    if StartsWith(raw, SecurityExpressPrefix) then SecurityExpressChannel
    else if StartsWith(raw, StablePrefix) then StableChannel
    else if StartsWith(raw, BetaPrefix) then BetaChannel
    else raw
  }

  /**
   * The family whose prefix a channel name starts with, tested in the same
   * order as MigrateChannel; None when the name has none of the prefixes
   * (Settings.refreshChannelSummary then leaves the summary alone).
   */
  function ChannelFamily(channel: string): (r: Option<Family>)
    ensures r.Some? ==> StartsWith(channel, Prefix(r.value))
    ensures r.None? <==>
      !StartsWith(channel, SecurityExpressPrefix) && !StartsWith(channel, StablePrefix) && !StartsWith(channel, BetaPrefix)
  {
    if StartsWith(channel, SecurityExpressPrefix) then Some(SecurityExpress)
    else if StartsWith(channel, StablePrefix) then Some(Stable)
    else if StartsWith(channel, BetaPrefix) then Some(Beta)
    else None
  }

  /** The legacy prefixes paired with their canonical names, in the order the source tests them. */
  const MigrationTable: seq<(string, string)> :=
    [(SecurityExpressPrefix, SecurityExpressChannel),
     (StablePrefix, StableChannel),
     (BetaPrefix, BetaChannel)]

  /** Reference reading of "first matching prefix wins", over any table. */
  function FirstMatch(table: seq<(string, string)>, raw: string): (r: string)
    ensures r == raw || exists i :: 0 <= i < |table| && r == table[i].1
  {
    if table == [] then raw
    else if StartsWith(raw, table[0].0) then table[0].1
    else
      var rest := FirstMatch(table[1..], raw);
      assert rest != raw ==> exists i :: 0 <= i < |table| && rest == table[i].1 by {
        if rest != raw {
          var j :| 0 <= j < |table[1..]| && rest == table[1..][j].1;
          assert rest == table[j + 1].1;
        }
      }
      rest
  }

  /**
   * No name starts with two of the three legacy prefixes: they already differ
   * at their first or second character. So the order in which the source tests
   * them never changes the result.
   */
  lemma PrefixesExclusive(s: string)
    ensures !(StartsWith(s, SecurityExpressPrefix) && StartsWith(s, StablePrefix))
    ensures !(StartsWith(s, SecurityExpressPrefix) && StartsWith(s, BetaPrefix))
    ensures !(StartsWith(s, StablePrefix) && StartsWith(s, BetaPrefix))
  {
    if StartsWith(s, SecurityExpressPrefix) {
      assert s[1] == SecurityExpressPrefix[1] != StablePrefix[1];
      assert s[0] == SecurityExpressPrefix[0] != BetaPrefix[0];
    }
    if StartsWith(s, StablePrefix) {
      assert s[0] == StablePrefix[0] != BetaPrefix[0];
    }
  }

  /** MigrateChannel is the first-match lookup in the migration table. */
  lemma {:induction false} MigrateChannelIsTableLookup(raw: string)
    ensures MigrateChannel(raw) == FirstMatch(MigrationTable, raw)
  {
    var t := MigrationTable;
    assert t[0] == (SecurityExpressPrefix, SecurityExpressChannel);
    assert t[1..] == [(StablePrefix, StableChannel), (BetaPrefix, BetaChannel)];
    assert t[1..][1..] == [(BetaPrefix, BetaChannel)];
    assert t[1..][1..][1..] == [];
    if !StartsWith(raw, SecurityExpressPrefix) {
      assert FirstMatch(t, raw) == FirstMatch(t[1..], raw);
      if !StartsWith(raw, StablePrefix) {
        assert FirstMatch(t[1..], raw) == FirstMatch(t[1..][1..], raw);
        if !StartsWith(raw, BetaPrefix) {
          assert FirstMatch(t[1..][1..], raw) == FirstMatch(t[1..][1..][1..], raw);
        }
      }
    }
  }

  /** Whatever follows a legacy prefix, the prefix alone decides the canonical name. */
  lemma MigrateChannelLegacy(suffix: string)
    ensures MigrateChannel(SecurityExpressPrefix + suffix) == SecurityExpressChannel
    ensures MigrateChannel(StablePrefix + suffix) == StableChannel
    ensures MigrateChannel(BetaPrefix + suffix) == BetaChannel
  {
    assert StartsWith(SecurityExpressPrefix + suffix, SecurityExpressPrefix);
    assert StartsWith(StablePrefix + suffix, StablePrefix);
    assert StartsWith(BetaPrefix + suffix, BetaPrefix);
    // "stable..." and "security-express" part at their second character,
    // "beta..." and both others at their first.
    assert (StablePrefix + suffix)[1] != SecurityExpressPrefix[1];
    assert (BetaPrefix + suffix)[0] != SecurityExpressPrefix[0];
    assert (BetaPrefix + suffix)[0] != StablePrefix[0];
  }

  /** A name with none of the three prefixes passes through unchanged. */
  lemma MigrateChannelPassThrough(raw: string)
    requires !StartsWith(raw, SecurityExpressPrefix)
    requires !StartsWith(raw, StablePrefix)
    requires !StartsWith(raw, BetaPrefix)
    ensures MigrateChannel(raw) == raw
  {
  }

  /** Migrating twice is migrating once. */
  lemma MigrateChannelIdempotent(raw: string)
    ensures MigrateChannel(MigrateChannel(raw)) == MigrateChannel(raw)
  {
  }

  /** The result is a canonical name exactly when the input belongs to a family. */
  lemma MigrateChannelByFamily(raw: string)
    ensures ChannelFamily(raw).Some? ==> MigrateChannel(raw) == CanonicalName(ChannelFamily(raw).value)
    ensures ChannelFamily(raw).None? ==> MigrateChannel(raw) == raw && !IsCanonical(raw)
  {
  }

  /** Migration never moves a channel into another family, nor into or out of one. */
  lemma MigrationPreservesFamily(raw: string)
    ensures ChannelFamily(MigrateChannel(raw)) == ChannelFamily(raw)
  {
  }

  /** The two example migrations: an explicit legacy value, and a default of "beta". */
  lemma MigrateChannelExamples()
    ensures MigrateChannel("stable-2021") == StableChannel
    ensures MigrateChannel("beta") == BetaChannel
    ensures MigrateChannel("security-express6") == SecurityExpressChannel
  {
  }
}
