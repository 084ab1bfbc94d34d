/** The client registry (primitives/registrar.rs). */
module Registrars {
  import opened Prelude
  import opened Scopes
  import opened Grants

  /** `Exact` keeps the text it was given, which parsed when the value was made; `Semantic` is parsed. */
  datatype RegisteredUrl = Exact(text: string) | Semantic(url: Url)

  datatype ClientType = PublicClient | Confidential(passdata: string)

  datatype EncodedClient = EncodedClient(
    clientId: string,
    redirect: RegisteredUrl,
    additional: seq<RegisteredUrl>,
    defaultScope: Scope,
    clientType: ClientType)

  datatype RegistrarError = Unspecified | RegistrarFailure

  /**
   * A fixed registry. Url parsing and the password policy are arbitrary functions: nothing proved
   * here depends on how they work. The policy gets client id, passphrase and stored data.
   */
  datatype ClientMap = ClientMap(
    clients: map<string, EncodedClient>,
    parseUrl: string -> Option<Url>,
    policy: (string, string, string) -> Result<Unit, RegistrarError>)

  datatype BoundClient = BoundClient(clientId: string, redirect: RegisteredUrl)

  datatype PreGrant = PreGrant(clientId: string, redirect: RegisteredUrl, scope: Scope)

  /** `to_url`; `None` is the `expect("was validated")` failing. */
  function ToUrl(reg: ClientMap, u: RegisteredUrl): Option<Url> {
    match u
    case Exact(text) => reg.parseUrl(text)
    case Semantic(url) => Some(url)
  }

  function Registered(c: EncodedClient): seq<RegisteredUrl> {
    [c.redirect] + c.additional
  }

  /** Registration only accepts exact urls that parse. */
  predicate ValidRegistry(reg: ClientMap) {
    forall id, i :: id in reg.clients && 0 <= i < |Registered(reg.clients[id])|
                    ==> ToUrl(reg, Registered(reg.clients[id])[i]).Some?
  }

  /** Exactly registered urls match literally, semantic ones match after parsing. */
  predicate Matches(reg: ClientMap, u: RegisteredUrl, exact: string) {
    match u
    case Exact(text) => text == exact
    case Semantic(url) => reg.parseUrl(exact) == Some(url)
  }

  /** `find` over the registered urls in order. */
  function FindUrl(reg: ClientMap, urls: seq<RegisteredUrl>, exact: string): (r: Option<RegisteredUrl>)
    ensures r.Some? ==> r.value in urls && Matches(reg, r.value, exact)
    ensures r.None? ==> forall u :: u in urls ==> !Matches(reg, u, exact)
  {
    if urls == [] then None
    else if Matches(reg, urls[0], exact) then Some(urls[0])
    else FindUrl(reg, urls[1..], exact)
  }

  function BoundRedirect(reg: ClientMap, clientId: string, redirect: Option<string>)
    : Result<BoundClient, RegistrarError>
  {
    if clientId !in reg.clients then Err(Unspecified)
    else
      var client := reg.clients[clientId];
      match redirect
      case None => Ok(BoundClient(clientId, client.redirect))
      case Some(exact) =>
        match FindUrl(reg, Registered(client), exact)
        case Some(u) => Ok(BoundClient(clientId, u))
        case None => Err(Unspecified)
  }

  /** `negotiate`: always the default scope. `None` is the `expect` on an unknown client failing. */
  function Negotiate(reg: ClientMap, bound: BoundClient): Option<PreGrant> {
    if bound.clientId in reg.clients then
      Some(PreGrant(bound.clientId, bound.redirect, reg.clients[bound.clientId].defaultScope))
    else None
  }

  function CheckAuthentication(reg: ClientMap, client: EncodedClient,
                               pass: Option<string>): Result<Unit, RegistrarError> {
    match (pass, client.clientType)
    case (None, PublicClient) => Ok(Unit)
    case (Some(given), Confidential(stored)) => reg.policy(client.clientId, given, stored)
    case _ => Err(Unspecified)
  }

  function Check(reg: ClientMap, clientId: string, pass: Option<string>): Result<Unit, RegistrarError> {
    if clientId in reg.clients then CheckAuthentication(reg, reg.clients[clientId], pass) else Err(Unspecified)
  }

  predicate IsPublic(reg: ClientMap, clientId: string) {
    clientId in reg.clients && reg.clients[clientId].clientType.PublicClient?
  }

  /** The passphrase is the one the policy accepts for this very client's record. */
  predicate PassphraseAccepted(reg: ClientMap, clientId: string, pass: string) {
    && clientId in reg.clients
    && reg.clients[clientId].clientType.Confidential?
    && reg.policy(reg.clients[clientId].clientId, pass, reg.clients[clientId].clientType.passdata).Ok?
  }

  /** The client is unknown, a passphrase is missing or out of place, or the policy turns it down. */
  predicate Rejected(reg: ClientMap, clientId: string, pass: Option<string>) {
    || clientId !in reg.clients
    || (pass.Some? <==> reg.clients[clientId].clientType.PublicClient?)
    || (pass.Some? && reg.policy(reg.clients[clientId].clientId, pass.value, reg.clients[clientId].clientType.passdata)
        == Err(Unspecified))
  }

  /**
   * What a check means: it is positive for a public client without passphrase, or an accepted passphrase; it
   * turns the client away exactly if `Rejected`; and it breaks down exactly if the policy does.
   */
  lemma CheckMeaning(reg: ClientMap, clientId: string, pass: Option<string>)
    ensures Check(reg, clientId, pass).Ok?
            <==> if pass.Some? then PassphraseAccepted(reg, clientId, pass.value) else IsPublic(reg, clientId)
    ensures Check(reg, clientId, pass) == Err(Unspecified) <==> Rejected(reg, clientId, pass)
  {
  }

  predicate RegisteredFor(reg: ClientMap, clientId: string, url: Url) {
    clientId in reg.clients
    && exists u :: u in Registered(reg.clients[clientId]) && ToUrl(reg, u) == Some(url)
  }

  /** A bound redirect is one of the client's registered urls, and it matches what was asked for. */
  lemma BoundIsRegistered(reg: ClientMap, clientId: string, redirect: Option<string>)
    requires ValidRegistry(reg) && BoundRedirect(reg, clientId, redirect).Ok?
    ensures var b := BoundRedirect(reg, clientId, redirect).value;
            && b.clientId == clientId && clientId in reg.clients
            && ToUrl(reg, b.redirect).Some? && RegisteredFor(reg, clientId, ToUrl(reg, b.redirect).value)
            && (redirect.Some? ==> Matches(reg, b.redirect, redirect.value))
  {
    var b := BoundRedirect(reg, clientId, redirect).value;
    var urls := Registered(reg.clients[clientId]);
    assert urls[0] == reg.clients[clientId].redirect;
    assert b.redirect in urls;
    var i :| 0 <= i < |urls| && urls[i] == b.redirect;
    assert ToUrl(reg, urls[i]).Some?;
  }
}
