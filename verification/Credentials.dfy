/** Client configuration: credentials and TLS material read from secrets, and the client made of them. */
module Credentials {
  import opened Wrappers
  import opened Texts
  import opened Addressing
  import opened Headers

  /** xpv1.SecretKeySelector */
  datatype SecretRef = SecretRef(namespace: Text, name: Text, key: Text)

  datatype Credentials = Credentials(authType: Text, basicAuth: Option<(SecretRef, SecretRef)>,
                                     tokenAuth: Option<SecretRef>)

  datatype TLSRefs = TLSRefs(insecure: bool, ca: Option<SecretRef>, cert: Option<SecretRef>, key: Option<SecretRef>)

  /** What the cluster holds under a fully qualified reference; None stands for any failure to read it. */
  type Secrets = SecretRef -> Option<Text>

  const BASIC: Text := "basic"
  const TOKEN: Text := "token"

  datatype ConfigError =
    | BasicAuthRequired
    | TokenAuthRequired
    | Unsupported(authType: Text)
    | CannotGet(what: Text)
    | URIRequired
    | CannotLoad(reason: Text)

  /** mimir.Config */
  class Config {
    var uri: Text
    var rulerURI: Text
    var alertmanagerURI: Text
    var orgID: Text
    var token: Text
    var username: Text
    var password: Text
    var insecure: bool
    var ca: Text
    var cert: Text
    var key: Text
    var headers: map<Text, Text>

    /** The configuration a controller starts from: no credentials, no TLS material. */
    constructor (uri: Text, rulerURI: Text, alertmanagerURI: Text, orgID: Text, headers: map<Text, Text>)
      ensures this.uri == uri && this.rulerURI == rulerURI && this.alertmanagerURI == alertmanagerURI
      ensures this.orgID == orgID && this.headers == headers
      ensures token == username == password == ca == cert == key == "" && !insecure
    {
      this.uri, this.rulerURI, this.alertmanagerURI := uri, rulerURI, alertmanagerURI;
      this.orgID, this.headers := orgID, headers;
      token, username, password, ca, cert, key, insecure := "", "", "", "", "", "", false;
    }
  }

  /** The reference a secret is read under: its own namespace if it has one, else the resource's. */
  function Qualified(namespace: Text, ref: SecretRef): SecretRef {
    if ref.namespace == "" then ref.(namespace := namespace) else ref
  }

  /** getSecretValue */
  function SecretValue(secrets: Secrets, namespace: Text, ref: SecretRef): Option<Text> {
    secrets(Qualified(namespace, ref))
  }

  /** The credentials a reference stands for: a token, or a user name and password. */
  datatype Resolved = BearerToken(token: Text) | UserPassword(username: Text, password: Text)

  function Resolve(secrets: Secrets, namespace: Text, creds: Credentials): Result<Resolved, ConfigError> {
    if creds.authType == BASIC then
      match creds.basicAuth
      case None => Err(BasicAuthRequired)
      case Some((user, pass)) =>
        (match (SecretValue(secrets, namespace, user), SecretValue(secrets, namespace, pass))
         case (None, _) => Err(CannotGet("username"))
         case (_, None) => Err(CannotGet("password"))
         case (Some(u), Some(p)) => Ok(UserPassword(u, p)))
    else if creds.authType == TOKEN then
      match creds.tokenAuth
      case None => Err(TokenAuthRequired)
      case Some(ref) =>
        (match SecretValue(secrets, namespace, ref)
         case None => Err(CannotGet("token"))
         case Some(t) => Ok(BearerToken(t)))
    else Err(Unsupported(creds.authType))
  }

  /** applyAuth: on success exactly the resolved fields change, on failure none. */
  method ApplyAuth(secrets: Secrets, namespace: Text, cfg: Config, creds: Credentials)
    returns (r: Result<(), ConfigError>)
    modifies cfg`token, cfg`username, cfg`password
    ensures match Resolve(secrets, namespace, creds)
      case Err(error) => r == Err(error) && unchanged(cfg)
      case Ok(BearerToken(t)) => r.Ok? && cfg.token == t && unchanged(cfg`username, cfg`password)
      case Ok(UserPassword(u, p)) => r.Ok? && cfg.username == u && cfg.password == p && unchanged(cfg`token)
  {
    if creds.authType == BASIC {
      if creds.basicAuth.None? {
        return Err(BasicAuthRequired);
      }
      var username := SecretValue(secrets, namespace, creds.basicAuth.value.0);
      if username.None? {
        return Err(CannotGet("username"));
      }
      var password := SecretValue(secrets, namespace, creds.basicAuth.value.1);
      if password.None? {
        return Err(CannotGet("password"));
      }
      cfg.username := username.value;
      cfg.password := password.value;
    } else if creds.authType == TOKEN {
      if creds.tokenAuth.None? {
        return Err(TokenAuthRequired);
      }
      var token := SecretValue(secrets, namespace, creds.tokenAuth.value);
      if token.None? {
        return Err(CannotGet("token"));
      }
      cfg.token := token.value;
    } else {
      return Err(Unsupported(creds.authType));
    }
    r := Ok(());
  }

  predicate Readable(secrets: Secrets, namespace: Text, ref: Option<SecretRef>) {
    ref.Some? ==> SecretValue(secrets, namespace, ref.value).Some?
  }

  /** The value a TLS field takes: the secret's if there is a reference, else what it was. */
  function Material(secrets: Secrets, namespace: Text, ref: Option<SecretRef>, before: Text): Text
    requires Readable(secrets, namespace, ref)
  {
    if ref.Some? then SecretValue(secrets, namespace, ref.value).value else before
  }

  function TLSResult(secrets: Secrets, namespace: Text, tls: Option<TLSRefs>): Result<(), ConfigError> {
    if tls.None? then Ok(())
    else if !Readable(secrets, namespace, tls.value.ca) then Err(CannotGet("CA"))
    else if !Readable(secrets, namespace, tls.value.cert) then Err(CannotGet("cert"))
    else if !Readable(secrets, namespace, tls.value.key) then Err(CannotGet("key"))
    else Ok(())
  }

  /** applyTLS: the first unreadable secret, in the order CA, certificate, key, ends it; what was applied
      before that stays applied. */
  method ApplyTLS(secrets: Secrets, namespace: Text, cfg: Config, tls: Option<TLSRefs>)
    returns (r: Result<(), ConfigError>)
    modifies cfg`insecure, cfg`ca, cfg`cert, cfg`key
    ensures r == TLSResult(secrets, namespace, tls)
    ensures tls.None? ==> unchanged(cfg)
    ensures tls.Some? ==>
      var ca := Readable(secrets, namespace, tls.value.ca);
      var cert := Readable(secrets, namespace, tls.value.cert);
      var key := Readable(secrets, namespace, tls.value.key);
      && cfg.insecure == tls.value.insecure
      && cfg.ca == (if ca then Material(secrets, namespace, tls.value.ca, old(cfg.ca)) else old(cfg.ca))
      && cfg.cert == (if ca && cert then Material(secrets, namespace, tls.value.cert, old(cfg.cert)) else old(cfg.cert))
      && cfg.key == (if ca && cert && key then Material(secrets, namespace, tls.value.key, old(cfg.key))
                     else old(cfg.key))
  {
    if tls.None? {
      return Ok(());
    }
    cfg.insecure := tls.value.insecure;
    if tls.value.ca.Some? {
      var ca := SecretValue(secrets, namespace, tls.value.ca.value);
      if ca.None? {
        return Err(CannotGet("CA"));
      }
      cfg.ca := ca.value;
    }
    if tls.value.cert.Some? {
      var cert := SecretValue(secrets, namespace, tls.value.cert.value);
      if cert.None? {
        return Err(CannotGet("cert"));
      }
      cfg.cert := cert.value;
    }
    if tls.value.key.Some? {
      var key := SecretValue(secrets, namespace, tls.value.key.value);
      if key.None? {
        return Err(CannotGet("key"));
      }
      cfg.key := key.value;
    }
    r := Ok(());
  }

  /** What loading a certificate and its key makes of them, as inline PEM or as file names; None is success. */
  type KeyPairs = (Text, Text) -> Option<Text>

  /** newTLSConfig, as far as it can fail: a key pair is loaded when both parts are given. Nothing that is wrong with
      a CA is an error. */
  function TLSTrouble(pairs: KeyPairs, cert: Text, key: Text): Option<Text> {
    if cert != "" && key != "" then pairs(cert, key) else None
  }

  /** What NewClient makes of a configuration, as far as requests depend on it. */
  function ClientOf(pairs: KeyPairs, uri: Text, rulerURI: Text, alertmanagerURI: Text, orgID: Text, token: Text,
                    username: Text, password: Text, cert: Text, key: Text, headers: map<Text, Text>)
    : Result<Client, ConfigError>
  {
    if uri == "" then Err(URIRequired)
    else if TLSTrouble(pairs, cert, key).Some? then Err(CannotLoad(TLSTrouble(pairs, cert, key).value))
    else Ok(Client(NewBases(uri, rulerURI, alertmanagerURI), orgID, token, username, password, headers))
  }

  method NewClient(pairs: KeyPairs, cfg: Config) returns (r: Result<Client, ConfigError>)
    ensures r == ClientOf(pairs, cfg.uri, cfg.rulerURI, cfg.alertmanagerURI, cfg.orgID, cfg.token, cfg.username,
                          cfg.password, cfg.cert, cfg.key, cfg.headers)
  {
    if cfg.uri == "" {
      return Err(URIRequired);
    }
    if cfg.cert != "" && cfg.key != "" {
      var trouble := pairs(cfg.cert, cfg.key);
      if trouble.Some? {
        return Err(CannotLoad(trouble.value));
      }
    }
    r := Ok(Client(NewBases(cfg.uri, cfg.rulerURI, cfg.alertmanagerURI), cfg.orgID, cfg.token, cfg.username,
                   cfg.password, cfg.headers));
  }

  /** What the configuration comes to on the wire, in every order of ranging over the headers: there is a client
      exactly if there is a URI, and the key pair, if both its parts are given, can be loaded; a token wins over a
      user name and password; and the tenant is one the headers and organisations allow. */
  lemma NewClientSends(pairs: KeyPairs, uri: Text, rulerURI: Text, alertmanagerURI: Text, orgID: Text, token: Text,
                       username: Text, password: Text, cert: Text, key: Text, headers: map<Text, Text>,
                       resourceOrg: Text, hasBody: bool, final: Header)
    ensures var made := ClientOf(pairs, uri, rulerURI, alertmanagerURI, orgID, token, username, password, cert, key,
                                 headers);
      && (made.Ok? <==> uri != "" && (cert == "" || key == "" || pairs(cert, key) == None))
      && (made.Ok? && Sends(made.value, resourceOrg, hasBody, final) ==>
        && HeaderGet(final, SCOPE) in Tenants(resourceOrg, orgID, headers)
        && (Offered(headers, AUTHORIZATION) == {} ==>
              HeaderGet(final, AUTHORIZATION) ==
                AuthorizationFor(if token != "" then BearerToken(token) else UserPassword(username, password))))
  {
    var made := ClientOf(pairs, uri, rulerURI, alertmanagerURI, orgID, token, username, password, cert, key, headers);
    if made.Ok? && Sends(made.value, resourceOrg, hasBody, final) {
      TenantIsPossible(made.value, resourceOrg, hasBody, final);
      AuthorizationOnWire(made.value, resourceOrg, hasBody, final);
    }
  }

  /** The Authorization value that credentials stand for, "" for none. */
  function AuthorizationFor(resolved: Resolved): Text {
    match resolved
    case BearerToken(t) => if t != "" then "Bearer " + t else ""
    case UserPassword(u, p) => if u != "" && p != "" then "Basic " + Base64(u + ":" + p) else ""
  }

  /** The client of a provider config with given credentials and nothing else to authenticate with. */
  function ClientFor(bases: Bases, orgID: Text, headers: map<Text, Text>, resolved: Resolved): Client {
    match resolved
    case BearerToken(t) => Client(bases, orgID, t, "", "", headers)
    case UserPassword(u, p) => Client(bases, orgID, "", u, p, headers)
  }

  /** The key pair of a TLS configuration whose secrets can be read. */
  function KeyPair(secrets: Secrets, namespace: Text, tls: Option<TLSRefs>): (Text, Text)
    requires TLSResult(secrets, namespace, tls).Ok?
  {
    if tls.None? then ("", "")
    else (Material(secrets, namespace, tls.value.cert, ""), Material(secrets, namespace, tls.value.key, ""))
  }

  /** What Connect makes of a provider config: BuildConfig and NewClient, with the first error they meet. */
  function Connected(secrets: Secrets, pairs: KeyPairs, namespace: Text, uri: Text, rulerURI: Text,
                     alertmanagerURI: Text,
                     orgID: Text, headers: map<Text, Text>, creds: Credentials, tls: Option<TLSRefs>)
    : Result<Client, ConfigError>
  {
    var resolved := Resolve(secrets, namespace, creds);
    if resolved.Err? then Err(resolved.error)
    else if TLSResult(secrets, namespace, tls).Err? then Err(TLSResult(secrets, namespace, tls).error)
    else if uri == "" then Err(URIRequired)
    else
      var (cert, key) := KeyPair(secrets, namespace, tls);
      if TLSTrouble(pairs, cert, key).Some? then Err(CannotLoad(TLSTrouble(pairs, cert, key).value))
      else Ok(ClientFor(NewBases(uri, rulerURI, alertmanagerURI), orgID, headers, resolved.value))
  }

  /** Connect, from the provider config onwards. */
  method Connect(secrets: Secrets, pairs: KeyPairs, namespace: Text, uri: Text, rulerURI: Text, alertmanagerURI: Text,
                 orgID: Text, headers: map<Text, Text>, creds: Credentials, tls: Option<TLSRefs>)
    returns (r: Result<Client, ConfigError>)
    ensures r == Connected(secrets, pairs, namespace, uri, rulerURI, alertmanagerURI, orgID, headers, creds, tls)
  {
    var cfg := new Config(uri, rulerURI, alertmanagerURI, orgID, headers);
    var authenticated := ApplyAuth(secrets, namespace, cfg, creds);
    if authenticated.Err? {
      return Err(authenticated.error);
    }
    var secured := ApplyTLS(secrets, namespace, cfg, tls);
    if secured.Err? {
      return Err(secured.error);
    }
    r := NewClient(pairs, cfg);
  }

  /** The bearer form goes out exactly when the type is "token" and the token is not empty, the basic form
      exactly when it is "basic" and both parts are not empty, nothing otherwise; unless configured headers
      speak for Authorization themselves, and then one of them goes out. */
  lemma AuthorizationEndToEnd(c: Client, secrets: Secrets, namespace: Text, creds: Credentials, resolved: Resolved,
                              orgID: Text, hasBody: bool, final: Header)
    requires Resolve(secrets, namespace, creds) == Ok(resolved) && c == ClientFor(c.bases, c.orgID, c.headers, resolved)
    requires Sends(c, orgID, hasBody, final)
    ensures if Offered(c.headers, AUTHORIZATION) != {}
      then HeaderGet(final, AUTHORIZATION) in Offered(c.headers, AUTHORIZATION)
      else HeaderGet(final, AUTHORIZATION) == AuthorizationFor(resolved)
  {
    AuthorizationOnWire(c, orgID, hasBody, final);
  }

  /** The form an Authorization value has tells the kind of credentials and that they are complete. */
  lemma FormsExactly(resolved: Resolved)
    ensures "Bearer " <= AuthorizationFor(resolved) <==> resolved.BearerToken? && resolved.token != ""
    ensures "Basic " <= AuthorizationFor(resolved)
       <==> resolved.UserPassword? && resolved.username != "" && resolved.password != ""
  {
    var a := AuthorizationFor(resolved);
    if a != "" {
      assert a[1] == if resolved.BearerToken? then 'e' else 'a';
    }
  }

  // --------------------------------------------------------------------------------------------------
  // In other words: predicates and functions that state what is proved, and are not used by the model

  /** What is held under a reference, in its own namespace or else the given one. */
  ghost function Held(secrets: Secrets, namespace: Text, ref: SecretRef): Option<Text> {
    secrets(SecretRef(if ref.namespace == "" then namespace else ref.namespace, ref.name, ref.key))
  }

  ghost predicate HeldIfGiven(secrets: Secrets, namespace: Text, ref: Option<SecretRef>) {
    match ref
    case None => true
    case Some(r) => Held(secrets, namespace, r) != None
  }

  /** The text of an optional reference, "" for none. */
  ghost function HeldText(secrets: Secrets, namespace: Text, ref: Option<SecretRef>): Text {
    match ref
    case None => ""
    case Some(r) => if Held(secrets, namespace, r) == None then "" else Held(secrets, namespace, r).value
  }

  lemma SecretsExactly(secrets: Secrets, namespace: Text, ref: SecretRef, before: Text)
    ensures SecretValue(secrets, namespace, ref) == Held(secrets, namespace, ref)
    ensures Readable(secrets, namespace, None) && Material(secrets, namespace, None, before) == before
    ensures Readable(secrets, namespace, Some(ref)) <==> Held(secrets, namespace, ref) != None
    ensures Readable(secrets, namespace, Some(ref)) ==>
      Some(Material(secrets, namespace, Some(ref), before)) == Held(secrets, namespace, ref)
  {
  }

  /** The credentials a type and its references stand for, and each failure by what is missing. */
  lemma ResolveExactly(secrets: Secrets, namespace: Text, creds: Credentials)
    ensures var r := Resolve(secrets, namespace, creds);
      && (creds.authType != "basic" && creds.authType != "token" ==> r == Err(Unsupported(creds.authType)))
      && (creds.authType == "basic" && creds.basicAuth == None ==> r == Err(BasicAuthRequired))
      && (creds.authType == "token" && creds.tokenAuth == None ==> r == Err(TokenAuthRequired))
      && (creds.authType == "basic" && creds.basicAuth.Some? ==>
            var user := Held(secrets, namespace, creds.basicAuth.value.0);
            var pass := Held(secrets, namespace, creds.basicAuth.value.1);
            && (user == None ==> r == Err(CannotGet("username")))
            && (user != None && pass == None ==> r == Err(CannotGet("password")))
            && (user != None && pass != None ==> r == Ok(UserPassword(user.value, pass.value))))
      && (creds.authType == "token" && creds.tokenAuth.Some? ==>
            var token := Held(secrets, namespace, creds.tokenAuth.value);
            && (token == None ==> r == Err(CannotGet("token")))
            && (token != None ==> r == Ok(BearerToken(token.value))))
  {
  }

  /** The secrets a set of TLS references needs, and the first that is missing. */
  lemma TLSExactly(secrets: Secrets, namespace: Text, tls: Option<TLSRefs>)
    ensures tls == None ==> TLSResult(secrets, namespace, tls) == Ok(()) && KeyPair(secrets, namespace, tls) == ("", "")
    ensures tls.Some? ==>
      var r := TLSResult(secrets, namespace, tls);
      var ca, cert, key := HeldIfGiven(secrets, namespace, tls.value.ca),
      HeldIfGiven(secrets, namespace, tls.value.cert),
                           HeldIfGiven(secrets, namespace, tls.value.key);
      && (!ca ==> r == Err(CannotGet("CA")))
      && (ca && !cert ==> r == Err(CannotGet("cert")))
      && (ca && cert && !key ==> r == Err(CannotGet("key")))
      && (ca && cert && key ==>
            && r == Ok(())
            && KeyPair(secrets, namespace, tls).0 == HeldText(secrets, namespace, tls.value.cert)
            && KeyPair(secrets, namespace, tls).1 == HeldText(secrets, namespace, tls.value.key))
  {
  }

  /** From the cluster to the wire. With the secrets of its credentials and TLS references held, a URI, and a key pair
      that loads if both parts are there, Connect makes a client; it sends the user name and password, or the token,
      that the secrets hold, unless a configured header speaks for Authorization; and acts for the tenants of its
      organisation. */
  lemma ConnectExactly(secrets: Secrets, pairs: KeyPairs, namespace: Text, uri: Text, rulerURI: Text,
                       alertmanagerURI: Text,
                       orgID: Text, headers: map<Text, Text>, creds: Credentials, tls: Option<TLSRefs>,
                       resourceOrg: Option<Text>, hasBody: bool, final: Header)
    requires creds.authType == "basic" || creds.authType == "token"
    requires creds.authType == "basic" ==>
      && creds.basicAuth.Some? && Held(secrets, namespace, creds.basicAuth.value.0) != None
      && Held(secrets, namespace, creds.basicAuth.value.1) != None
    requires creds.authType == "token" ==>
      creds.tokenAuth.Some? && Held(secrets, namespace, creds.tokenAuth.value) != None
    requires tls.Some? ==>
      && HeldIfGiven(secrets, namespace, tls.value.ca) && HeldIfGiven(secrets, namespace, tls.value.cert)
      && HeldIfGiven(secrets, namespace, tls.value.key)
    ensures var made := Connected(secrets, pairs, namespace, uri, rulerURI, alertmanagerURI, orgID, headers, creds,
                                  tls);
      var cert := if tls == None then "" else HeldText(secrets, namespace, tls.value.cert);
      var key := if tls == None then "" else HeldText(secrets, namespace, tls.value.key);
      && (uri == "" ==> made == Err(URIRequired))
      && (made.Ok? <==> uri != "" && (cert == "" || key == "" || pairs(cert, key) == None))
      && (made.Ok? ==>
            && made.value.bases == NewBases(uri, rulerURI, alertmanagerURI)
            && made.value.orgID == orgID && made.value.headers == headers)
      && (made.Ok? && Sends(made.value, OrgID(resourceOrg, orgID), hasBody, final) ==>
            && ActsFor(orgID, headers, resourceOrg, HeaderGet(final, "X-Scope-OrgID"))
            && (Silent(headers, "Authorization") ==>
                  HeaderGet(final, "Authorization") ==
                    if creds.authType == "basic" then
                      AuthorizationText("", Held(secrets, namespace, creds.basicAuth.value.0).value,
                                        Held(secrets, namespace, creds.basicAuth.value.1).value)
                    else AuthorizationText(Held(secrets, namespace, creds.tokenAuth.value).value, "", "")))
  {
    ResolveExactly(secrets, namespace, creds);
    TLSExactly(secrets, namespace, tls);
    var made := Connected(secrets, pairs, namespace, uri, rulerURI, alertmanagerURI, orgID, headers, creds, tls);
    if made.Ok? && Sends(made.value, OrgID(resourceOrg, orgID), hasBody, final) {
      WireExactly(made.value, resourceOrg, hasBody, final, "Authorization");
      NamesApart();
    }
  }

  /** The first secret missing is what Connect fails with. */
  lemma ConnectFailsExactly(secrets: Secrets, pairs: KeyPairs, namespace: Text, uri: Text, rulerURI: Text,
                            alertmanagerURI: Text, orgID: Text, headers: map<Text, Text>, creds: Credentials,
                            tls: Option<TLSRefs>)
    ensures var made := Connected(secrets, pairs, namespace, uri, rulerURI, alertmanagerURI, orgID, headers, creds,
                                  tls);
      && (creds.authType == "basic" && creds.basicAuth.Some? ==>
            var user := Held(secrets, namespace, creds.basicAuth.value.0);
            var pass := Held(secrets, namespace, creds.basicAuth.value.1);
            && (user == None ==> made == Err(CannotGet("username")))
            && (user != None && pass == None ==> made == Err(CannotGet("password"))))
      && (creds.authType == "token" && creds.tokenAuth.Some? &&
          Held(secrets, namespace, creds.tokenAuth.value) == None ==>
            made == Err(CannotGet("token")))
      && (creds.authType == "basic" && creds.basicAuth == None ==> made == Err(BasicAuthRequired))
      && (creds.authType == "token" && creds.tokenAuth == None ==> made == Err(TokenAuthRequired))
      && (creds.authType != "basic" && creds.authType != "token" ==> made == Err(Unsupported(creds.authType)))
      && (Resolve(secrets, namespace, creds).Ok? && TLSResult(secrets, namespace, tls).Err? ==>
            made == Err(TLSResult(secrets, namespace, tls).error))
  {
    ResolveExactly(secrets, namespace, creds);
  }

  /** The values that NewClient's configuration and credentials come to, spelt out. */
  lemma ValuesExactly(token: Text, username: Text, password: Text)
    ensures AuthorizationFor(BearerToken(token)) == AuthorizationText(token, "", "")
    ensures AuthorizationFor(UserPassword(username, password)) == AuthorizationText("", username, password)
  {
  }
}
