/**
 * Settings.getChangelogIntent: the decision whether the cached changelog can be
 * shown, and the view request handed to the HTML viewer when it can. The file
 * system and FileProvider are inputs: the names present in the cache's
 * "changelog" directory, and the URI FileProvider hands out for the file.
 */
module Changelog {
  import opened Wrappers
  import opened Resources

  const ActionView: string := "android.intent.action.VIEW"        // Intent.ACTION_VIEW
  const CategoryDefault: string := "android.intent.category.DEFAULT" // Intent.CATEGORY_DEFAULT
  const SchemeContent: string := "content"                          // ContentResolver.SCHEME_CONTENT
  const HtmlMimeType: string := "text/html"
  const HtmlViewerPackage: string := "com.android.htmlviewer"
  const CurrentChangelog: string := "current.html"

  /** The parts of a URI the decision looks at; everything past the scheme is opaque. */
  datatype Uri = Uri(scheme: string, rest: string)

  /** The Intent built for the viewer: action, data, type, title extra, read grant flag, categories, package. */
  datatype ViewRequest = ViewRequest(
    action: string,
    data: Uri,
    mimeType: string,
    title: Text,
    grantReadUri: bool,
    categories: set<string>,
    package: string)

  /**
   * No request when the file is not cached; otherwise a VIEW request for the
   * file's URI, typed text/html, titled, aimed at the HTML viewer package in the
   * default category, granting read access exactly for a content: URI.
   */
  function ChangelogIntent(changelogFiles: set<string>, filename: string, uri: Uri): (r: Option<ViewRequest>)
    ensures r.None? <==> filename !in changelogFiles
    ensures r.Some? ==>
      && r.value.action == ActionView
      && r.value.data == uri
      && r.value.mimeType == HtmlMimeType
      && r.value.title == ChangelogTitle
      && r.value.categories == {CategoryDefault}
      && r.value.package == HtmlViewerPackage
    ensures r.Some? ==> (r.value.grantReadUri <==> uri.scheme == SchemeContent)
  {
    if filename !in changelogFiles then None
    else
      Some(ViewRequest(ActionView, uri, HtmlMimeType, ChangelogTitle,
                       uri.scheme == SchemeContent, {CategoryDefault}, HtmlViewerPackage))
  }

  /**
   * Whether a request is made depends on the cache alone; the URI changes only
   * the data and the read grant.
   */
  lemma ChangelogIntentDependsOnUriOnlyForData(files: set<string>, filename: string, u: Uri, u': Uri)
    ensures ChangelogIntent(files, filename, u).Some? == ChangelogIntent(files, filename, u').Some?
    ensures ChangelogIntent(files, filename, u).Some? && u.scheme == u'.scheme ==>
      ChangelogIntent(files, filename, u).value.(data := u') == ChangelogIntent(files, filename, u').value
  {
  }
}
