/** The server base URL of apiConfig.js: a module-level variable that
    `setBaseUrl` replaces after cleaning and checking the new value, and
    that `getBaseUrl` refreshes from a URL the user stored in the browser. */
module ApiConfig {
  import opened Wrappers
  import opened Text
  import opened Json

  /** https://contaminados.akamai.meseguercr.com */
  const DefaultBaseUrl := "https://" + "contaminados.akamai.meseguercr.com"

  /** `url.trim().replace(/\/+$/, '')`. */
  function CleanUrl(url: string): (c: string)
    ensures c == [] || c[|c| - 1] != '/'
  {
    StripTrailing(Trim(url), '/')
  }

  /** The accepted schemes. */
  predicate HasScheme(url: string) {
    StartsWith(url, "http://") || StartsWith(url, "https://")
  }

  /** A base URL the client may use: a scheme and no trailing slash. */
  predicate UsableBase(url: string) {
    HasScheme(url) && url[|url| - 1] != '/'
  }

  /** Whatever cleaning turns into a URL with a scheme is usable as a base. */
  lemma CleanUrlAccepted(url: string)
    requires HasScheme(CleanUrl(url))
    ensures UsableBase(CleanUrl(url))
  {
  }

  /** A bare scheme is not accepted: its own slashes are stripped. */
  lemma BareSchemeRejected()
    ensures !HasScheme(CleanUrl("http://")) && !HasScheme(CleanUrl("https://"))
  {
    BareSchemeStripped("http://");
    BareSchemeStripped("https://");
  }

  lemma BareSchemeStripped(scheme: string)
    requires |scheme| >= 3 && scheme[|scheme| - 3..] == "://" && !IsSpace(scheme[0])
    ensures |CleanUrl(scheme)| < |scheme|
  {
    TrimUnpadded(scheme);
    assert scheme[|scheme| - 1] == '/';
  }

  class Config {
    var currentBaseUrl: string

    ghost predicate Valid()
      reads this
    {
      UsableBase(currentBaseUrl)
    }

    constructor ()
      ensures currentBaseUrl == DefaultBaseUrl && Valid()
    {
      currentBaseUrl := DefaultBaseUrl;
      assert DefaultBaseUrl[..8] == "https://";
      assert DefaultBaseUrl[|DefaultBaseUrl| - 1] == 'm';
    }

    /** `setBaseUrl(newUrl)`: a non-blank string whose cleaned form starts
        with a scheme replaces the base and yields true; anything else
        yields false and changes nothing. */
    method SetBaseUrl(newUrl: Json) returns (accepted: bool)
      requires Valid()
      modifies this
      ensures Valid()
      ensures accepted <==> newUrl.JStr? && !IsBlank(newUrl.s) && HasScheme(CleanUrl(newUrl.s))
      ensures accepted ==> currentBaseUrl == CleanUrl(newUrl.s)
      ensures !accepted ==> currentBaseUrl == old(currentBaseUrl)
    {
      if Truthy(newUrl) && newUrl.JStr? && !IsBlank(newUrl.s) {
        var cleanUrl := CleanUrl(newUrl.s);
        if HasScheme(cleanUrl) {
          currentBaseUrl := cleanUrl;
          return true;
        }
        return false;
      }
      return false;
    }

    /** `getBaseUrl()`, with the `userUrl` entries of localStorage and
        sessionStorage given (None when absent): the first non-empty one,
        when usable after cleaning, becomes the base; the base is
        returned. */
    method GetBaseUrl(local: Option<string>, session: Option<string>) returns (url: string)
      requires Valid()
      modifies this
      ensures Valid() && url == currentBaseUrl
      ensures var stored := if local.Some? && local.value != "" then local else session;
              currentBaseUrl == (if stored.Some? && !IsBlank(stored.value) && HasScheme(CleanUrl(stored.value))
                                 then CleanUrl(stored.value) else old(currentBaseUrl))
    {
      var storedUrl := if local.Some? && local.value != "" then local else session;
      if storedUrl.Some? && storedUrl.value != "" && !IsBlank(storedUrl.value) {
        var cleanUrl := CleanUrl(storedUrl.value);
        if HasScheme(cleanUrl) {
          currentBaseUrl := cleanUrl;
        }
      }
      url := currentBaseUrl;
    }
  }
}
