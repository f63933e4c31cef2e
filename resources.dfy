/**
 * The string resources the settings screen looks up with getString(R.string...).
 * Their localized texts are not part of this model: each resource is an opaque,
 * distinct constant.
 */
module Resources {

  datatype Text =
    | ChannelSecurityExpress  // R.string.channel_security_express
    | ChannelStable           // R.string.channel_stable
    | ChannelBeta             // R.string.channel_beta
    | ChangelogSummary        // R.string.changelog_summary
    | ChangelogUnavailable    // R.string.changelog_unavailable
    | ChangelogTitle          // R.string.changelog_title
}
