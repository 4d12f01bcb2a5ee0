/** The `plugins_api` filter: on the plugin-information screen of a mirrored plugin, the client
    asks the custom host for the download metadata and, when it carries a checksum, adds a
    "Secure update available" section. */
module PluginInformation {
  import opened Php
  import opened Client

  /** The `$result` object: the fields a reader sees, and its named sections. */
  datatype PluginInfo = PluginInfo(name: string, version: string, sections: map<string, string>)

  const SecureUpdateKey := "secure_update"
  const SecureUpdateSection := "<span style=\"color: green;\">Secure update available.</span>"

  /** The custom host's answer vouches for the plugin: no transport error, status 200, and a
      checksum that is still truthy after sanitising. */
  predicate VouchedFor(wp: WordPress, response: HttpResponse)
  {
    && response.Reply?
    && response.status == 200
    && response.checksum.Some?
    && !EmptyString(wp.sanitizeTextField(response.checksum.value))
  }

  /** modify_plugin_information, with the host's responses given by `fetch`. */
  function ModifyPluginInformation(wp: WordPress, site: Site, fetch: string -> HttpResponse,
                                   result: PluginInfo, action: string, slug: string): (r: PluginInfo)
    ensures action != "plugin_information" || !site.customHostEnabled || !IsUsingCustomHost(site, slug) ==> r == result
    ensures !VouchedFor(wp, fetch(DownloadUrl(wp, site.customHost, slug))) ==> r == result
    ensures action == "plugin_information" && site.customHostEnabled && IsUsingCustomHost(site, slug)
            && VouchedFor(wp, fetch(DownloadUrl(wp, site.customHost, slug))) ==>
      && SecureUpdateKey in r.sections && r.sections[SecureUpdateKey] == SecureUpdateSection
      && r.sections.Keys == result.sections.Keys + {SecureUpdateKey}
    ensures r.name == result.name && r.version == result.version
    ensures forall k :: k in result.sections && k != SecureUpdateKey ==> k in r.sections && r.sections[k] == result.sections[k]
  {
    if action != "plugin_information" || !site.customHostEnabled then result
    else if !IsUsingCustomHost(site, slug) then result
    else
      var response := fetch(DownloadUrl(wp, site.customHost, slug));
      if response.TransportError? || response.status != 200 then result
      else if response.checksum.None? then result
      else
        var checksum := wp.sanitizeTextField(response.checksum.value);
        if EmptyString(checksum) then result
        else result.(sections := result.sections[SecureUpdateKey := SecureUpdateSection])
  }

  /** Running the filter on its own output changes nothing more. */
  lemma ModifyPluginInformationIdempotent(wp: WordPress, site: Site, fetch: string -> HttpResponse,
                                          result: PluginInfo, action: string, slug: string)
    ensures var once := ModifyPluginInformation(wp, site, fetch, result, action, slug);
      ModifyPluginInformation(wp, site, fetch, once, action, slug) == once
  {
    var once := ModifyPluginInformation(wp, site, fetch, result, action, slug);
    var twice := ModifyPluginInformation(wp, site, fetch, once, action, slug);
    assert twice.sections == once.sections;
  }

  /** A response without a checksum never produces the section. */
  lemma NoChecksumNoSection(wp: WordPress, site: Site, fetch: string -> HttpResponse,
                            result: PluginInfo, action: string, slug: string)
    requires SecureUpdateKey !in result.sections
    requires fetch(DownloadUrl(wp, site.customHost, slug)).Reply?
    requires fetch(DownloadUrl(wp, site.customHost, slug)).checksum == None
    ensures SecureUpdateKey !in ModifyPluginInformation(wp, site, fetch, result, action, slug).sections
  {
  }
}
