/**
  The host check in the application's configuration: outside the command line, a
  request whose `Host` header is not an allowed domain is answered with a permanent
  redirect to the default domain and the script stops; an allowed host becomes the
  `https` base URL.
 */
module AllowedDomains {
  import opened Wrappers
  import opened Php
  import opened Request

  /** The allowed domains: the application's own URL only. */
  function AllowedDomains(applicationUrl: string): (r: seq<string>)
    ensures forall h :: h in r <==> h == applicationUrl
  {
    [applicationUrl]
  }

  const MovedPermanently := "HTTP/1.1 301 Moved Permanently"

  /** The `Location` header line sending the browser to `domain` over https. */
  function LocationHeader(domain: string): (r: string)
    ensures |r| == |domain| + 18
    ensures r[..18] == "Location: https://" && r[18..] == domain
  {
    "Location: " + "https://" + domain
  }

  /**
    The check. `sapi` is `php_sapi_name()`; `host` is `$_SERVER['HTTP_HOST']`
    (None when the header is absent, which the strict `in_array` never matches);
    `defaultDomain` is `$default_domain`, which the file reads but never assigns
    (None stands for the unset variable, which the concatenation renders as '');
    `baseUrl` is the configured `base_url`, returned as it ends up.
   */
  function CheckHost(sapi: string, host: Option<string>, applicationUrl: string, defaultDomain: Option<string>,
                     baseUrl: string): (r: Run<string>)
    ensures sapi == "cli" ==> r == Run([], Done(baseUrl))
    ensures sapi != "cli" && host.Some? && host.value in AllowedDomains(applicationUrl)
            ==> r == Run([], Done("https://" + host.value))
    ensures sapi != "cli" && !(host.Some? && host.value in AllowedDomains(applicationUrl))
            ==> r == Run([Header(MovedPermanently), Header(LocationHeader(Interpolate(defaultDomain)))], Exited(Terminate))
  {
    if sapi != "cli" then
      if host.Some? && host.value in AllowedDomains(applicationUrl) then
        Run([], Done("https://" + host.value))
      else
        Run([Header(MovedPermanently), Header(LocationHeader(Interpolate(defaultDomain)))], Exited(Terminate))
    else Run([], Done(baseUrl))
  }

  /** A web request continues exactly when its host is the application's URL, and then the base URL names it. */
  lemma WebRequestContinuesIffAllowed(host: Option<string>, sapi: string, applicationUrl: string, defaultDomain: Option<string>, baseUrl: string)
    requires sapi != "cli"
    ensures var r := CheckHost(sapi, host, applicationUrl, defaultDomain, baseUrl);
      && (r.Returned() <==> host == Some(applicationUrl))
      && (r.Returned() ==> r.outcome.value == "https://" + applicationUrl)
      && (!r.Returned() ==> |r.effects| == 2 && r.effects[1] == Header("Location: https://" + Interpolate(defaultDomain)))
  {
  }

  /** With `$default_domain` left unset, a foreign host is sent to the bare "https://". */
  lemma UnsetDefaultDomainRedirect(host: Option<string>, sapi: string, applicationUrl: string, baseUrl: string)
    requires sapi != "cli" && host != Some(applicationUrl)
    ensures CheckHost(sapi, host, applicationUrl, None, baseUrl)
         == Run([Header(MovedPermanently), Header("Location: https://")], Exited(Terminate))
  {
    assert !(host.Some? && host.value in AllowedDomains(applicationUrl));
    assert Interpolate(None) == "";
    var h := LocationHeader("");
    assert h == h[..18] + h[18..];
    assert h == "Location: https://";
  }
}
