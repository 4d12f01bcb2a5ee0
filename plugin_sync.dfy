/** Inventory sync: on plugin activation, deactivation, upgrade and the daily event, the client
    sends the slugs of its plugins (those without their own update mechanism) to the custom
    host. The POST it would issue is returned as a value. */
module PluginSync {
  import opened Php
  import opened Client

  /** The one outbound call a sync decision can make: none, or a POST of the slug list. */
  datatype Request =
    | NoOp
    | Post(url: string, authorization: string, clientHome: string, plugins: seq<string>)

  /** The `$options` of `upgrader_process_complete`: its `type` and `plugins` entries
      (a missing `plugins` entry reads as the empty list, a missing `type` as ""). */
  datatype UpgradeOptions = UpgradeOptions(kind: string, plugins: seq<string>)

  /** A plugin file that contributes a slug: no custom update mechanism, and a directory. */
  predicate Syncable(site: Site, pluginFile: string)
  {
    !HasCustomUpdate(site, pluginFile) && Dirname(pluginFile) != "."
  }

  /** The slugs of the syncable files, in input order. */
  function FilteredSlugs(site: Site, files: seq<string>): seq<string>
    decreases |files|
  {
    if files == [] then []
    else (if Syncable(site, files[0]) then [Dirname(files[0])] else []) + FilteredSlugs(site, files[1..])
  }

  /** Filtering a concatenation filters each part. */
  lemma {:induction false} FilteredSlugsConcat(site: Site, a: seq<string>, b: seq<string>)
    ensures FilteredSlugs(site, a + b) == FilteredSlugs(site, a) + FilteredSlugs(site, b)
    decreases |a|
  {
    if a != [] {
      assert (a + b)[1..] == a[1..] + b;
      FilteredSlugsConcat(site, a[1..], b);
    } else {
      assert a + b == b;
    }
  }

  /** A slug is collected exactly when some syncable file lies in it; "." is never collected;
      there are never more slugs than files. */
  lemma {:induction false} FilteredSlugsMembers(site: Site, files: seq<string>, slug: string)
    ensures slug in FilteredSlugs(site, files) <==>
      exists i :: 0 <= i < |files| && Syncable(site, files[i]) && Dirname(files[i]) == slug
    ensures "." !in FilteredSlugs(site, files)
    ensures |FilteredSlugs(site, files)| <= |files|
    decreases |files|
  {
    if files != [] {
      FilteredSlugsMembers(site, files[1..], slug);
      if slug in FilteredSlugs(site, files[1..]) {
        var i :| 0 <= i < |files[1..]| && Syncable(site, files[1..][i]) && Dirname(files[1..][i]) == slug;
        assert files[i + 1] == files[1..][i];
      }
      if exists i :: 0 <= i < |files| && Syncable(site, files[i]) && Dirname(files[i]) == slug {
        var i :| 0 <= i < |files| && Syncable(site, files[i]) && Dirname(files[i]) == slug;
        if i > 0 {
          assert files[1..][i - 1] == files[i];
        }
      }
    }
  }

  /** The foreach loops of handle_plugin_changes and send_installed_plugins_to_server: append
      the directory of each syncable file. */
  method CollectSlugs(site: Site, files: seq<string>) returns (slugs: seq<string>)
    ensures slugs == FilteredSlugs(site, files)
  {
    slugs := [];
    for i := 0 to |files|
      invariant slugs == FilteredSlugs(site, files[..i])
    {
      var pluginFile := files[i];
      FilteredSlugsConcat(site, files[..i], [pluginFile]);
      assert files[..i + 1] == files[..i] + [pluginFile];
      if !HasCustomUpdate(site, pluginFile) {
        var slug := Dirname(pluginFile);
        if slug != "." {
          slugs := slugs + [slug];
        }
      }
    }
    assert files[..|files|] == files;
  }

  /** The configuration guard: enabled, with a non-empty host URL and API key. */
  predicate CanSync(site: Site)
  {
    site.customHostEnabled && !EmptyString(site.customHost) && !EmptyString(site.apiKey)
  }

  /** send_installed_plugins_to_server: without a usable configuration nothing is sent;
      otherwise exactly one POST to the host's plugins endpoint, authorised by the API key,
      carrying the given slugs, or the whole filtered inventory when none are given. */
  method SendInstalledPluginsToServer(wp: WordPress, site: Site, inventory: seq<string>, pluginSlugs: seq<string>)
    returns (req: Request)
    ensures req == NoOp <==> !CanSync(site)
    ensures req.Post? ==>
      && req.url == wp.trailingSlashIt(site.customHost) + PluginsRoute
      && req.authorization == "Bearer " + site.apiKey
      && req.clientHome == site.homeUrl
      && req.plugins == (if pluginSlugs == [] then FilteredSlugs(site, inventory) else pluginSlugs)
  {
    if !site.customHostEnabled || EmptyString(site.customHost) {
      return NoOp;
    }
    if EmptyString(site.apiKey) {
      return NoOp;
    }
    var slugs := pluginSlugs;
    if slugs == [] {
      slugs := CollectSlugs(site, inventory);
    }
    req := Post(wp.trailingSlashIt(site.customHost) + PluginsRoute, "Bearer " + site.apiKey, site.homeUrl, slugs);
  }

  /** plugin_activated: sends exactly the activated plugin's slug, when it has one and no
      custom update mechanism. */
  method PluginActivated(wp: WordPress, site: Site, inventory: seq<string>, pluginFile: string) returns (req: Request)
    ensures req != NoOp <==> Syncable(site, pluginFile) && CanSync(site)
    ensures req.Post? ==>
      req == Post(wp.trailingSlashIt(site.customHost) + PluginsRoute, "Bearer " + site.apiKey, site.homeUrl, [Dirname(pluginFile)])
  {
    req := NoOp;
    if !HasCustomUpdate(site, pluginFile) {
      var slug := Dirname(pluginFile);
      if slug != "." {
        req := SendInstalledPluginsToServer(wp, site, inventory, [slug]);
      }
    }
  }

  /** plugin_deactivated: under the same guard, resends the whole filtered inventory. */
  method PluginDeactivated(wp: WordPress, site: Site, inventory: seq<string>, pluginFile: string) returns (req: Request)
    ensures req != NoOp <==> Syncable(site, pluginFile) && CanSync(site)
    ensures req.Post? ==>
      req == Post(wp.trailingSlashIt(site.customHost) + PluginsRoute, "Bearer " + site.apiKey, site.homeUrl, FilteredSlugs(site, inventory))
  {
    req := NoOp;
    if !HasCustomUpdate(site, pluginFile) {
      var slug := Dirname(pluginFile);
      if slug != "." {
        req := SendInstalledPluginsToServer(wp, site, inventory, []);
      }
    }
  }

  /** handle_plugin_changes: for a plugin upgrade or install, sends the slugs of the changed
      files, and nothing when none of them is syncable. */
  method HandlePluginChanges(wp: WordPress, site: Site, inventory: seq<string>, options: UpgradeOptions) returns (req: Request)
    ensures req != NoOp <==> options.kind == "plugin" && FilteredSlugs(site, options.plugins) != [] && CanSync(site)
    ensures req.Post? ==>
      req == Post(wp.trailingSlashIt(site.customHost) + PluginsRoute, "Bearer " + site.apiKey, site.homeUrl, FilteredSlugs(site, options.plugins))
  {
    req := NoOp;
    if options.kind == "plugin" && options.plugins != [] {
      var pluginSlugs := CollectSlugs(site, options.plugins);
      if pluginSlugs != [] {
        req := SendInstalledPluginsToServer(wp, site, inventory, pluginSlugs);
      }
    }
  }

  /** A file that declares `UpdateURI` contributes nothing: inserting it anywhere in a file
      list leaves the collected slugs as they were. */
  lemma {:induction false} CustomUpdateFileIgnored(site: Site, before: seq<string>, after: seq<string>, pluginFile: string)
    requires HasCustomUpdate(site, pluginFile)
    ensures FilteredSlugs(site, before + [pluginFile] + after) == FilteredSlugs(site, before + after)
  {
    assert [pluginFile][1..] == [];
    assert FilteredSlugs(site, [pluginFile]) == [] + FilteredSlugs(site, []);
    FilteredSlugsConcat(site, before + [pluginFile], after);
    FilteredSlugsConcat(site, before, [pluginFile]);
    FilteredSlugsConcat(site, before, after);
  }

  /** Of two installed plugins, one declaring `UpdateURI` and one not, the full resend carries
      only the latter's slug. */
  lemma InventoryOmitsCustomUpdate(site: Site, custom: string, plain: string)
    requires HasCustomUpdate(site, custom) && Syncable(site, plain)
    ensures FilteredSlugs(site, [custom, plain]) == [Dirname(plain)]
  {
    assert [plain][1..] == [];
    assert FilteredSlugs(site, [plain]) == [Dirname(plain)] + FilteredSlugs(site, []);
    assert [custom, plain][1..] == [plain];
    assert FilteredSlugs(site, [custom, plain]) == [] + FilteredSlugs(site, [plain]);
  }
}
