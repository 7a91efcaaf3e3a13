/** The top-level client (`MizbanCloud`): one transport, every resource module built
    around it, and token/language accessors that forward to it. */
module Facade {
  import opened Values
  import opened Transport
  import opened Authentication
  import opened CdnApi

  /** The cloud compute module; its endpoints are not part of this model, only the
      transport it is bound to. */
  class Cloud {
    const client: HttpClient

    constructor (client: HttpClient)
      ensures this.client == client
    {
      this.client := client;
    }
  }

  /** The catalogue module; as for `Cloud`, only its transport is modelled. */
  class Statics {
    const client: HttpClient

    constructor (client: HttpClient)
      ensures this.client == client
    {
      this.client := client;
    }
  }

  class MizbanCloud {
    const http: HttpClient
    const auth: Auth
    const cdn: Cdn
    const cloud: Cloud
    const statics: Statics

    /** One source of truth: every module holds the facade's own transport. The
        references are read-only, so this holds for the client's whole life. */
    predicate Shared() {
      auth.client == http && cdn.client == http && cloud.client == http && statics.client == http
    }

    constructor (config: Config)
      ensures Shared() && fresh(http)
      ensures http.token == None
      ensures http.language == config.language.GetOr(DefaultLanguage)
      ensures http.baseUrl == config.baseUrl.GetOr(DefaultBaseUrl)
      ensures http.timeout == config.timeout.GetOr(DefaultTimeout)
    {
      var client := new HttpClient(config);
      http := client;
      auth := new Auth(client);
      cdn := new Cdn(client);
      cloud := new Cloud(client);
      statics := new Statics(client);
    }

    /** Takes a string only: the facade can set the token but not clear it. */
    method SetToken(t: string)
      modifies http`token
      ensures http.token == Some(t) && http.language == old(http.language)
    {
      http.SetToken(Some(t));
    }

    method GetToken() returns (t: Option<string>)
      ensures t == http.token
    {
      t := http.GetToken();
    }

    method SetLanguage(l: string)
      modifies http`language
      ensures http.language == l && http.token == old(http.token)
    {
      http.SetLanguage(l);
    }

    method GetLanguage() returns (l: string)
      ensures l == http.language
    {
      l := http.GetLanguage();
    }

    /** A token is set, any token, the empty string included. */
    method IsAuthenticated() returns (b: bool)
      ensures b <==> http.token.Some?
    {
      var t := http.GetToken();
      b := t.Some?;
    }
  }

  /** A new client has no token, is not authenticated and speaks the configured
      language, English by default. */
  method NewClientIsAnonymous(config: Config) returns (token: Option<string>, authenticated: bool, language: string)
    ensures token.None? && !authenticated
    ensures language == config.language.GetOr("en")
  {
    var m := new MizbanCloud(config);
    token := m.GetToken();
    authenticated := m.IsAuthenticated();
    language := m.GetLanguage();
  }

  /** A token set through the Auth module is what the facade reports. */
  method TokenSetThroughAuth(m: MizbanCloud, t: string) returns (seen: Option<string>, authenticated: bool)
    requires m.Shared()
    modifies m.http`token
    ensures seen == Some(t) && authenticated
    ensures m.http.language == old(m.http.language)
  {
    m.auth.SetApiToken(t);
    seen := m.GetToken();
    authenticated := m.IsAuthenticated();
  }

  /** A token set through the facade is what the Auth module reports. */
  method TokenSetThroughFacade(m: MizbanCloud, t: string) returns (seen: Option<string>)
    requires m.Shared()
    modifies m.http`token
    ensures seen == Some(t)
  {
    m.SetToken(t);
    seen := m.auth.GetApiToken();
  }

  /** Clearing through the Auth module leaves the facade unauthenticated. */
  method ClearedTokenIsAnonymous(m: MizbanCloud) returns (seen: Option<string>, authenticated: bool)
    requires m.Shared()
    modifies m.http`token
    ensures seen.None? && !authenticated
  {
    m.auth.ClearApiToken();
    seen := m.auth.GetApiToken();
    authenticated := m.IsAuthenticated();
  }

  /** A language set through the facade is the Accept-Language of the next call of
      the CDN module, which shares the facade's transport; the token is left as it was. */
  method LanguageReachesRequests(m: MizbanCloud, l: string, op: CdnOp, send: Send) returns (reply: Reply)
    requires m.Shared()
    modifies m.http`language
    ensures m.http.token == old(m.http.token)
    ensures var c := Route(op);
            var sent := BuildOptions(old(m.http.token), l, c.verb.Name(), c.payload, NoOptions);
            reply == Classify(send(c.verb.Name(), c.path, sent)) && sent.headers["Accept-Language"] == l
  {
    m.SetLanguage(l);
    reply := m.cdn.Perform(op, send);
  }
}
