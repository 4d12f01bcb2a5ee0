/** The `pre_set_site_transient_update_plugins` filter: before WordPress stores the list of
    available plugin updates, the download URL of each eligible entry is pointed at the custom
    host. Eligible means the plugin file declares no `UpdateURI` header and its update entry has
    an empty `package` (taken as a sign that it comes from WordPress.org). */
module UpdateRewrite {
  import opened Php
  import opened Client

  /** One entry of the transient's `response` map. */
  datatype PluginUpdate = PluginUpdate(slug: string, newVersion: string, package: Option<string>)

  /** The `update_plugins` site transient; `response` maps plugin file to available update. */
  datatype UpdateTransient = UpdateTransient(
    lastChecked: int,
    checked: map<string, string>,
    response: map<string, PluginUpdate>,
    noUpdate: map<string, PluginUpdate>)

  /** is_from_wordpress_org: the entry carries no package URL (null, "" or "0"). */
  predicate IsFromWordPressOrg(update: PluginUpdate)
  {
    Empty(update.package)
  }

  /** The entry with its package pointed at the custom host's download endpoint. */
  function Redirect(wp: WordPress, site: Site, update: PluginUpdate): PluginUpdate
  {
    update.(package := Some(DownloadUrl(wp, site.customHost, update.slug)))
  }

  /** The entries the loop body rewrites. */
  predicate Redirected(site: Site, pluginFile: string, update: PluginUpdate)
  {
    !HasCustomUpdate(site, pluginFile) && IsFromWordPressOrg(update)
  }

  /** The `response` map the filter leaves behind. */
  function OverriddenResponse(wp: WordPress, site: Site, response: map<string, PluginUpdate>): map<string, PluginUpdate>
  {
    if |response| == 0 || !site.customHostEnabled then response
    else map f | f in response :: if Redirected(site, f, response[f]) then Redirect(wp, site, response[f]) else response[f]
  }

  /** override_plugin_update_url: rewrites the package of every eligible entry, one entry at a
      time, and returns the transient. */
  method OverridePluginUpdateUrl(wp: WordPress, site: Site, transient: UpdateTransient) returns (result: UpdateTransient)
    ensures result == transient.(response := OverriddenResponse(wp, site, transient.response))
  {
    if |transient.response| == 0 || !site.customHostEnabled {
      return transient;
    }
    var response := transient.response;
    var todo := response.Keys;
    while todo != {}
      invariant todo <= transient.response.Keys == response.Keys
      invariant forall f :: f in todo ==> response[f] == transient.response[f]
      invariant forall f :: f in response && f !in todo ==>
        response[f] == OverriddenResponse(wp, site, transient.response)[f]
      decreases todo
    {
      var pluginFile :| pluginFile in todo;
      if !HasCustomUpdate(site, pluginFile) {
        if IsFromWordPressOrg(response[pluginFile]) {
          response := response[pluginFile := Redirect(wp, site, response[pluginFile])];
        }
      }
      todo := todo - {pluginFile};
    }
    result := transient.(response := response);
  }

  /** With the custom host disabled, or nothing to update, the filter is the identity. */
  lemma OverrideOffIsIdentity(wp: WordPress, site: Site, response: map<string, PluginUpdate>)
    requires !site.customHostEnabled || |response| == 0
    ensures OverriddenResponse(wp, site, response) == response
  {
  }

  /** What happens to one entry: no key is added or removed; only `package` may change; an entry
      whose plugin declares `UpdateURI` is untouched; an entry changes exactly when the host is
      enabled and its package was empty, and then its package is the host's download URL. */
  lemma OverrideEntry(wp: WordPress, site: Site, response: map<string, PluginUpdate>, pluginFile: string)
    ensures OverriddenResponse(wp, site, response).Keys == response.Keys
    ensures pluginFile in response ==>
      var before := response[pluginFile];
      var after := OverriddenResponse(wp, site, response)[pluginFile];
      && after.slug == before.slug
      && after.newVersion == before.newVersion
      && (HasCustomUpdate(site, pluginFile) ==> after == before)
      && (after != before <==> site.customHostEnabled && !HasCustomUpdate(site, pluginFile) && Empty(before.package))
      && (after != before ==> after.package == Some(DownloadUrl(wp, site.customHost, before.slug)))
  {
    if pluginFile in response && site.customHostEnabled && Redirected(site, pluginFile, response[pluginFile]) {
      var url := DownloadUrl(wp, site.customHost, response[pluginFile].slug);
      assert !EmptyString(url);
    }
  }

  /** A rewritten entry is no longer taken for a WordPress.org one. */
  lemma RedirectedNotFromWordPressOrg(wp: WordPress, site: Site, update: PluginUpdate)
    ensures !IsFromWordPressOrg(Redirect(wp, site, update))
  {
    var url := DownloadUrl(wp, site.customHost, update.slug);
    assert !EmptyString(url);
  }

  /** Running the filter twice gives the same transient as running it once. */
  lemma {:induction false} OverrideIdempotent(wp: WordPress, site: Site, response: map<string, PluginUpdate>)
    ensures OverriddenResponse(wp, site, OverriddenResponse(wp, site, response)) == OverriddenResponse(wp, site, response)
  {
    var once := OverriddenResponse(wp, site, response);
    if |response| != 0 && site.customHostEnabled {
      assert |once| != 0 by {
        var f :| f in response;
        assert f in once;
      }
      forall f | f in once
        ensures OverriddenResponse(wp, site, once)[f] == once[f]
      {
        if Redirected(site, f, response[f]) {
          RedirectedNotFromWordPressOrg(wp, site, response[f]);
        }
      }
    }
  }
}
