/** What the Secure Updates Client reads from the WordPress site on each call, the WordPress
    helpers it calls (whose code is not part of this model), and the trust predicates shared by
    the update rewrite, the inventory sync and the plugin-information filter. */
module Client {
  import opened Php

  /** WordPress helpers, left uninterpreted: nothing is assumed about them. */
  datatype WordPress = WordPress(
    trailingSlashIt: string -> string,
    sanitizeTitle: string -> string,
    sanitizeTextField: string -> string,
    escUrlRaw: string -> string,
    versionAtLeast: (string, string) -> bool)

  /** A read-only snapshot of the site: the plugin's options, the site's home URL, the
      `UpdateURI` header of each installed plugin file (a file without headers reads as ""),
      and the `secure_updates_plugins` option of mirrored slugs (a null value is not set). */
  datatype Site = Site(
    customHost: string,
    customHostEnabled: bool,
    apiKey: string,
    homeUrl: string,
    updateUri: map<string, string>,
    mirroredPlugins: map<string, Option<string>>)

  /** What a GET to the custom host yields: a transport error (`WP_Error`) with its message, or
      a status code and the `checksum` member of the decoded JSON body (None when the body is not
      a JSON object or has no non-null `checksum`). */
  datatype HttpResponse =
    | TransportError(message: string)
    | Reply(status: int, checksum: Option<string>)

  const DownloadRoute := "wp-json/secure-updates-server/v1/download/"
  const PluginsRoute := "wp-json/secure-updates-server/v1/plugins"
  const ConnectedRoute := "wp-json/secure-updates-server/v1/connected"

  /** The custom host's download endpoint for a slug. It is never PHP-empty, whatever the
      host and the slug are. */
  function DownloadUrl(wp: WordPress, host: string, slug: string): (r: string)
    ensures !EmptyString(r)
    ensures var base := wp.trailingSlashIt(host);
      && |base| + |DownloadRoute| <= |r|
      && r[..|base|] == base
      && r[|base|..|base| + |DownloadRoute|] == DownloadRoute
  {
    var base := wp.trailingSlashIt(host);
    var r := base + DownloadRoute + wp.sanitizeTitle(slug);
    assert r[..|base|] == base;
    assert r[|base|..|base| + |DownloadRoute|] == DownloadRoute;
    r
  }

  /** has_custom_update: the plugin file declares a non-empty `UpdateURI` header. */
  predicate HasCustomUpdate(site: Site, pluginFile: string)
  {
    var header := if pluginFile in site.updateUri then site.updateUri[pluginFile] else "";
    !EmptyString(header)
  }

  /** is_using_custom_host: the slug is set in the mirrored-plugins option. */
  function IsUsingCustomHost(site: Site, slug: string): bool
  {
    slug in site.mirroredPlugins && site.mirroredPlugins[slug].Some?
  }

  /** The lookup reads only the slug's own entry of the mirrored-plugins option: writing that
      entry decides the answer (a null value unsets it), writing any other entry leaves it. */
  lemma MirroredLookup(site: Site, key: string, value: Option<string>, slug: string)
    ensures IsUsingCustomHost(site.(mirroredPlugins := site.mirroredPlugins[key := value]), slug) ==
      if key == slug then value.Some? else IsUsingCustomHost(site, slug)
  {
  }

  /** secure_updates_client_is_plugin_securely_updated: a plugin file is reported as securely
      updated exactly when its directory is a mirrored slug. */
  function IsPluginSecurelyUpdated(site: Site, pluginFile: string): (r: bool)
    ensures r <==> IsUsingCustomHost(site, Dirname(pluginFile))
    ensures '/' !in pluginFile ==> (r <==> IsUsingCustomHost(site, "."))
  {
    var slug := Dirname(pluginFile);
    slug in site.mirroredPlugins && site.mirroredPlugins[slug].Some?
  }

  /** verify_plugin_compatibility: a plugin that declares no minimum WordPress version is
      compatible; otherwise the running version must be at least the declared one. */
  function VerifyPluginCompatibility(wp: WordPress, wpVersion: string, minimum: Option<string>): (r: bool)
    ensures minimum.None? ==> r
    ensures minimum.Some? ==> (r <==> wp.versionAtLeast(wpVersion, minimum.value))
  {
    match minimum
    case None => true
    case Some(v) => wp.versionAtLeast(wpVersion, v)
  }
}
