/** The authentication module (`Auth`): token management on the shared transport,
    and the wallet lookup. */
module Authentication {
  import opened Values
  import opened Transport

  const WalletPath := "/api/admin-temp-v1/financial/wallet"

  class Auth {
    const client: HttpClient

    constructor (client: HttpClient)
      ensures this.client == client
    {
      this.client := client;
    }

    /** Sets the token every later request carries. */
    method SetApiToken(t: string)
      modifies client`token
      ensures client.token == Some(t) && client.language == old(client.language)
    {
      client.SetToken(Some(t));
    }

    method GetApiToken() returns (t: Option<string>)
      ensures t == client.token
    {
      t := client.GetToken();
    }

    method ClearApiToken()
      modifies client`token
      ensures client.token == None && client.language == old(client.language)
    {
      client.SetToken(None);
    }

    /** One GET of the wallet endpoint with no data and no per-call options. */
    method GetWallet(send: Send) returns (reply: Reply)
      ensures reply == Classify(send("GET", WalletPath, BuildOptions(client.token, client.language, "GET", map[], NoOptions)))
    {
      reply := client.Get(WalletPath, map[], NoOptions, send);
    }
  }

  /** The wallet request carries neither a query string nor a form body, and no
      per-call timeout. */
  lemma WalletRequestIsBare(token: Option<string>, language: string)
    ensures var sent := BuildOptions(token, language, "GET", map[], NoOptions);
            sent.query.None? && sent.formParams.None? && sent.timeout.None?
            && sent.headers["Accept-Language"] == language
            && ("Authorization" in sent.headers <==> token.Some?)
  {
  }
}
