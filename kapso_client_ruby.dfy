/** The library's global settings: a `Configuration` object with assignable fields, memoised at
    module level and replaced by `reset_configuration!`. */
module KapsoClientRuby {
  import opened Wrappers
  import opened Text

  /** The fields of a configuration at one moment. `retry_delay` is held in milliseconds. */
  datatype Settings = Settings(
    debug: bool, timeout: int, openTimeout: int, maxRetries: int, retryDelayMs: int,
    accessToken: Option<string>, kapsoApiKey: Option<string>, baseUrl: Option<string>, apiVersion: string)

  /** What `Configuration.new` holds: debug off, 60 s and 10 s timeouts, 3 retries 1 s apart,
      the Graph API host, API version v23.0 and no credentials. */
  const Defaults := Settings(false, 60, 10, 3, 1000, None, None, Some("https://graph.facebook.com"), "v23.0")

  /** `kapso_proxy?`: a Kapso key is set and the base URL mentions `kapso`. */
  predicate ProxyConfigured(s: Settings) {
    s.kapsoApiKey.Some? && s.baseUrl.Some? && Contains(s.baseUrl.value, "kapso")
  }

  /** `valid?`: at least one credential is set. */
  predicate HasCredentials(s: Settings) {
    s.accessToken.Some? || s.kapsoApiKey.Some?
  }

  class Configuration {
    var debug: bool
    var timeout: int
    var openTimeout: int
    var maxRetries: int
    var retryDelayMs: int
    var accessToken: Option<string>
    var kapsoApiKey: Option<string>
    var baseUrl: Option<string>
    var apiVersion: string

    constructor ()
      ensures Current() == Defaults
    {
      debug := false;
      timeout := 60;
      openTimeout := 10;
      maxRetries := 3;
      retryDelayMs := 1000;
      baseUrl := Some("https://graph.facebook.com");
      apiVersion := "v23.0";
      accessToken := None;
      kapsoApiKey := None;
    }

    function Current(): Settings
      reads this
    {
      Settings(debug, timeout, openTimeout, maxRetries, retryDelayMs, accessToken, kapsoApiKey, baseUrl, apiVersion)
    }

    predicate KapsoProxy()
      reads this
    {
      ProxyConfigured(Current())
    }

    predicate Valid()
      reads this
    {
      HasCredentials(Current())
    }
  }

  /** A fresh configuration is neither valid nor in proxy mode: it has no credentials. */
  lemma DefaultsHaveNoCredentials()
    ensures !HasCredentials(Defaults) && !ProxyConfigured(Defaults)
  {
  }

  /** `kapso_proxy?` needs both the key and a `kapso` base URL; `valid?` needs either credential. */
  lemma SettingsPredicates(s: Settings)
    ensures ProxyConfigured(s) ==> HasCredentials(s)
    ensures s.kapsoApiKey.None? ==> !ProxyConfigured(s)
    ensures s.baseUrl.None? ==> !ProxyConfigured(s)
  {
  }

  /** The module-level state of `KapsoClientRuby`: the memoised configuration. */
  class Library {
    var configuration: Configuration?

    constructor ()
      ensures configuration == null
    {
      configuration := null;
    }

    /** `configuration`: created with the defaults on first use, the same object afterwards. */
    method GetConfiguration() returns (c: Configuration)
      modifies this
      ensures old(configuration) != null ==> c == old(configuration)
      ensures old(configuration) == null ==> fresh(c) && c.Current() == Defaults
      ensures configuration == c
    {
      if configuration == null {
        configuration := new Configuration();
      }
      c := configuration;
    }

    /** `reset_configuration!`: a new default configuration replaces the old one. */
    method ResetConfiguration() returns (c: Configuration)
      modifies this
      ensures fresh(c) && c.Current() == Defaults
      ensures configuration == c
    {
      c := new Configuration();
      configuration := c;
    }
  }
}
