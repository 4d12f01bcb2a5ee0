/** The administrator's "Test Connection" action: the AJAX reply it sends for a candidate host
    URL, after the nonce and capability checks. */
module ConnectionTest {
  import opened Php
  import opened Client

  /** How the AJAX request ends: rejected by the nonce check (`-1`, status 403), or a JSON error
      or success carrying a message. */
  datatype AjaxReply = NonceRejected | JsonError(message: string) | JsonSuccess(message: string)

  const InsufficientPermissions := "Insufficient permissions."
  const InvalidUrl := "Invalid URL provided."
  const ConnectionFailed := "Connection failed. Please check the URL."
  const ConnectionSuccessful := "Connection successful."

  /** The `/connected` endpoint of a candidate host. */
  function ConnectedUrl(wp: WordPress, host: string): string
  {
    wp.trailingSlashIt(host) + ConnectedRoute
  }

  /** test_custom_host_connection: each failure ends the request with its own reply, in order:
      nonce, capability, empty URL, transport error (its message), a status other than 200;
      otherwise success. `postedUrl` is the `custom_host_url` POST field, if sent. */
  function TestCustomHostConnection(wp: WordPress, nonceValid: bool, canManageOptions: bool,
                                    postedUrl: Option<string>, fetch: string -> HttpResponse): (r: AjaxReply)
    ensures r == NonceRejected <==> !nonceValid
    ensures nonceValid && !canManageOptions ==> r == JsonError(InsufficientPermissions)
    ensures nonceValid && canManageOptions && (postedUrl.None? || EmptyString(wp.escUrlRaw(postedUrl.value))) ==>
      r == JsonError(InvalidUrl)
    ensures nonceValid && canManageOptions && postedUrl.Some? && !EmptyString(wp.escUrlRaw(postedUrl.value)) ==>
      var response := fetch(ConnectedUrl(wp, wp.escUrlRaw(postedUrl.value)));
      && (response.TransportError? ==> r == JsonError(response.message))
      && (response.Reply? && response.status != 200 ==> r == JsonError(ConnectionFailed))
      && (response.Reply? && response.status == 200 ==> r == JsonSuccess(ConnectionSuccessful))
  {
    if !nonceValid then NonceRejected
    else if !canManageOptions then JsonError(InsufficientPermissions)
    else
      var url := if postedUrl.Some? then wp.escUrlRaw(postedUrl.value) else "";
      if EmptyString(url) then JsonError(InvalidUrl)
      else
        match fetch(ConnectedUrl(wp, url))
        case TransportError(message) => JsonError(message)
        case Reply(status, _) =>
          if status != 200 then JsonError(ConnectionFailed)
          else JsonSuccess(ConnectionSuccessful)
  }

  /** The action reports success exactly when a permitted request names a non-empty URL whose
      `/connected` endpoint answers with status 200; every other outcome is an error reply. */
  lemma SuccessExactlyOn200(wp: WordPress, nonceValid: bool, canManageOptions: bool,
                            postedUrl: Option<string>, fetch: string -> HttpResponse)
    ensures TestCustomHostConnection(wp, nonceValid, canManageOptions, postedUrl, fetch).JsonSuccess? <==>
      && nonceValid && canManageOptions && postedUrl.Some?
      && !EmptyString(wp.escUrlRaw(postedUrl.value))
      && fetch(ConnectedUrl(wp, wp.escUrlRaw(postedUrl.value))).Reply?
      && fetch(ConnectedUrl(wp, wp.escUrlRaw(postedUrl.value))).status == 200
  {
  }
}
