/** From the owner's consent to the redeemed token, one call after the other. */
module CodeFlow {
  import opened Prelude
  import opened Grants
  import opened Registrars
  import opened PkceAddons
  import A = AuthorizationFlow
  import Auth = AuthorizationMachine
  import Token = AccessTokenMachine
  import T = AccessTokenFlow
  import S = Stores
  import M = TokenMaps
  import Sig = Assertions
  import Query

  /**
   * What the client reads off the redirect: one code, the state of its request if it sent one, and nothing else
   * besides the parameters that its registered url may have of its own.
   */
  predicate Delivers(location: A.Location, base: Url, code: string, state: Option<string>) {
    && location.base == base
    && Query.Values(location.params, "code") == [code]
    && Query.Values(location.params, "state") == (if state.Some? then [state.value] else [])
    && forall i :: 0 <= i < |location.params| ==> location.params[i].0 == "code" || location.params[i].0 == "state"
  }

  lemma CodeIsDelivered(pending: A.Pending, code: string)
    requires A.Presentable(pending)
    ensures Delivers(A.CodeLocation(pending, code), pending.preGrant.redirect.url, code, pending.state)
  {
    var params := A.CodeLocation(pending, code).params;
    assert "code"[0] != "state"[0];
    forall key ensures Query.Values([("code", code)], key) == if key == "code" then [code] else [] {
      OneMore([], ("code", code), key);
    }
    if pending.state.Some? {
      assert params == [("code", code)] + [("state", pending.state.value)];
      OneMore([("code", code)], ("state", pending.state.value), "code");
      OneMore([("code", code)], ("state", pending.state.value), "state");
    } else {
      assert params == [("code", code)];
    }
  }

  lemma OneMore(pairs: Query.Pairs, pair: (string, string), key: string)
    ensures Query.Values(pairs + [pair], key)
            == Query.Values(pairs, key) + if pair.0 == key then [pair.1] else []
  {
    assert (pairs + [pair])[..|pairs|] == pairs;
  }

  /** A thread that panics gives no answer. */
  datatype Consented = Panicked | Answered(result: Result<A.Location, Auth.AuthError>)

  /**
   * `Pending::authorize`: store the grant, then redirect with the code. It panics exactly when it reads an
   * exhausted counter, and then nothing is stored.
   */
  method Consent(pending: A.Pending, owner: string, codes: M.AuthMap, now: Time, session: S.Session)
    returns (answer: Consented)
    requires A.Presentable(pending) && |session.choices| == 3
    modifies codes.redis`codes, codes.redis`codeUsage
    ensures answer.Panicked? <==>
              session.connected && session.choices[0].fault.Healthy? && old(codes.redis.codeUsage) == Some(U64_SIZE - 1)
    ensures answer.Panicked? ==> codes.redis.Content() == old(codes.redis.Content())
    ensures answer.Answered? && answer.result.Ok? ==>
              exists code ::
                && Delivers(answer.result.value, pending.preGrant.redirect.url, code, pending.state)
                && code !in old(codes.redis.codes)
                && codes.redis.codes == old(codes.redis.codes)[code := A.ConsentGrant(pending, owner, now)]
    ensures answer.Answered? && answer.result.Err? ==> answer.result.error == Auth.PrimitiveError
  {
    var grant := A.ConsentGrant(pending, owner, now);
    ghost var st := codes.redis.Content();
    var outcome := codes.Authorize(grant, session);
    AuthorizeMeaning(st, grant, session);
    if outcome.CodeIssued? {
      CodeIsDelivered(pending, outcome.code);
      answer := Answered(Ok(A.CodeLocation(pending, outcome.code)));
    } else if outcome == S.Panicked(S.ArithmeticOverflow) {
      answer := Panicked;
    } else {
      answer := Answered(Err(Auth.PrimitiveError));
    }
  }

  /** A code is only reported when it was new and has been stored with its grant. */
  lemma AuthorizeMeaning(st: S.Store, grant: Grant, session: S.Session)
    requires |session.choices| == 3
    ensures var (st', op) := S.CallAlone(None, st, S.AuthorizeGetUsage(grant), session);
            && (op.Done? && op.outcome.CodeIssued? ==>
                  op.outcome.code !in st.codes && st'.codes == st.codes[op.outcome.code := grant])
            && (op.Done? && op.outcome.Panicked? ==> st' == st)
  {
    if session.connected {
      var cs := session.choices;
      var e := S.CodeStep(st, S.AuthorizeGetUsage(grant), cs[0]);
      S.UnrollCode(None, st, S.AuthorizeGetUsage(grant), cs, 0, e.store, e.op);
      if e.op.AuthorizeHset? {
        var e' := S.CodeStep(st, e.op, cs[1]);
        S.UnrollCode(None, st, e.op, cs, 1, e'.store, e'.op);
        if e'.op.AuthorizeSetUsage? {
          var e'' := S.CodeStep(e'.store, e'.op, cs[2]);
          S.UnrollCode(None, e'.store, e'.op, cs, 2, e''.store, e''.op);
        }
      }
    }
  }

  // ------------------------------------------------------- the whole endpoint

  /** What the owner solicitor says; while it is in progress its own page is shown. */
  datatype OwnerConsent = Denied | InProgress | Authorized(owner: string)

  datatype Response = Shown | Redirected(location: A.Location) | Refused(error: Auth.AuthError) | Broken

  /** The grant of an authorized request, read off the request and the registry. */
  function GrantFor(reg: ClientMap, addons: Addons, request: Auth.Request, owner: string, now: Time): Grant
    requires A.Bindable(reg, request) && A.Target(reg, request).Some? && ExtendAuthorization(addons, request).Some?
  {
    var id := request.clientId.value;
    Grant(owner, id, reg.clients[id].defaultScope, A.Target(reg, request).value, now + 86_400 * SECOND,
          ExtendAuthorization(addons, request).value)
  }

  /**
   * An authorization request from beginning to end. A code is delivered only with the owner's consent, to the url
   * of the request, with the state of the request, and after a grant for this owner, client, scope and url, valid
   * for a day, was stored under it. A denial is reported there with that state. Everything else stores nothing.
   */
  method ServeAuthorization(reg: ClientMap, addons: AddonList, request: Auth.Request, consent: OwnerConsent,
                            codes: M.AuthMap, now: Time, session: S.Session)
    returns (response: Response)
    requires ValidRegistry(reg) && |session.choices| == 3
    modifies codes.redis`codes, codes.redis`codeUsage
    ensures response.Redirected? ==>
              && consent.Authorized? && A.Bindable(reg, request) && A.Target(reg, request).Some?
              && ExtendAuthorization(addons.Value(), request).Some?
              && exists code ::
                && Delivers(response.location, A.Target(reg, request).value, code, request.state)
                && code !in old(codes.redis.codes)
                && codes.redis.codes
                == old(codes.redis.codes)[code := GrantFor(reg, addons.Value(), request, consent.owner, now)]
    ensures A.Reference(reg, addons.Value(), request).Err? ==>
              response == Refused(A.Reference(reg, addons.Value(), request).error)
    ensures A.Reference(reg, addons.Value(), request).Ok? && consent.Denied? ==>
              && A.Bindable(reg, request) && A.Target(reg, request).Some?
              && response == Refused(Auth.Redirect(Auth.ErrorUrl(A.Target(reg, request).value, request.state,
                                                                 Auth.AccessDenied)))
    ensures A.Reference(reg, addons.Value(), request).Ok? && consent.InProgress? ==> response == Shown
    ensures A.Reference(reg, addons.Value(), request).Err? || !consent.Authorized? ==>
              codes.redis.Content() == old(codes.redis.Content())
  {
    A.AnswersIff(reg, addons.Value(), request);
    var negotiated, _ := A.AuthorizationCode(reg, addons, request);
    if negotiated.Err? { return Refused(negotiated.error); }
    match consent {
      case Denied => response := Refused(A.Deny(negotiated.value));
      case InProgress => response := Shown;
      case Authorized(owner) =>
        var answer := Consent(negotiated.value, owner, codes, now, session);
        match answer {
          case Panicked => response := Broken;
          case Answered(Ok(location)) => response := Redirected(location);
          case Answered(Err(error)) => response := Refused(error);
        }
    }
  }

  // -------------------------------------------------------- both requests

  function WithPkce(pkce: Pkce): Addons {
    Addons([PkceAddon(pkce)], [PkceAddon(pkce)])
  }

  /** The authorization loop refuses a missing challenge where one is required, and methods that are not enabled. */
  lemma ChallengeAcceptedIff(pkce: Pkce, a: Auth.Request)
    ensures ExtendAuthorization(WithPkce(pkce), a).Some?
            <==> if AuthParameter(a, "code_challenge").None? then !pkce.required
                 else Announced(a) == "S256" || (Announced(a) == "plain" && pkce.allowPlain)
  {
    var auth := WithPkce(pkce).authorization;
    assert AuthorizationData(auth, a, 0) == Some(map[]);
    assert "S256"[0] != "plain"[0];
  }

  /** With pkce as the only addon the token loop accepts exactly the matching verifiers. */
  lemma PkceAcceptsIff(digest: Digest, pkce: Pkce, a: Auth.Request, t: Token.Request)
    requires ExtendAuthorization(WithPkce(pkce), a).Some?
    ensures ExtendToken(digest, WithPkce(pkce), t, ExtendAuthorization(WithPkce(pkce), a).value).Some?
            <==> VerifierMatches(digest, a, t) || (AuthParameter(a, "code_challenge").None? && !pkce.required)
  {
    var addons := WithPkce(pkce);
    var auth, access := addons.authorization, addons.accessToken;
    assert OnlyPkceAt(auth, pkce, 0) && OnlyPkceAt(access, pkce, 0);
    var data := ExtendAuthorization(addons, a).value;
    ChallengeIsStored(auth, a, pkce, 0, 1);
    assert Remaining(access, data, 0) == data;
    assert ExtendToken(digest, addons, t, data).Some?
           <==> Verify(digest, pkce, Get(data, "pkce"), Token.Parameter(t, "code_verifier")) by {
      assert TokenData(digest, access, t, data, 0) == Some(map[]);
    }
    var challenge := AuthParameter(a, "code_challenge");
    if challenge.Some? {
      DecodeEncode(FromParameter(Announced(a), challenge.value).value);
    }
  }

  /** What the token request must show for the consent behind it. */
  predicate Answers(reg: ClientMap, digest: Digest, pkce: Pkce, a: Auth.Request, pending: A.Pending, t: Token.Request)
    requires A.Presentable(pending)
  {
    && t.valid && t.grantType == Some("authorization_code")
    && Token.RedeemAuthorized(reg, t, pending.preGrant.clientId)
    && t.redirectUri.Some? && reg.parseUrl(t.redirectUri.value) == Some(pending.preGrant.redirect.url)
    && (VerifierMatches(digest, a, t) || (AuthParameter(a, "code_challenge").None? && !pkce.required))
  }

  /**
   * The round trip: a code stored by consent is redeemed exactly when the token request comes from the
   * same client, authenticated, with the same redirect url and the matching verifier, within a day, and the
   * tags drawn are not in use.
   * The token then stands for what the owner consented to, and the code is gone.
   */
  lemma ConsentThenRedeem(reg: ClientMap, d: Option<Time>, digest: Digest, pkce: Pkce, a: Auth.Request, owner: string,
                          consentedAt: Time,
                          st: S.Store, code: string, t: Token.Request, env: T.Env, access: S.Tag, refresh: S.Tag)
    requires ValidRegistry(reg) && A.Reference(reg, WithPkce(pkce), a).Ok? && t.code == Some(code)
    requires A.Presentable(A.Reference(reg, WithPkce(pkce), a).value)
    requires code in st.codes
    requires st.codes[code] == A.ConsentGrant(A.Reference(reg, WithPkce(pkce), a).value, owner, consentedAt)
    requires env == T.HealthyEnv(access, refresh, env.recoveredAt, env.issuedAt)
    ensures var pending := A.Reference(reg, WithPkce(pkce), a).value;
            var served := T.Reference(T.Setup(reg, digest, WithPkce(pkce)), T.PrimitivesOf(d, env), st, t, env);
            && (served.result.Ok? <==>
                  && Answers(reg, digest, pkce, a, pending, t) && env.recoveredAt <= consentedAt + DAY
                  && access !in st.access && refresh !in st.refresh)
            && (served.result.Ok? ==>
                  && code !in served.store.codes
                  && served.result.value.token.token in served.store.access
                  && SameAuthorization(served.store.access[served.result.value.token.token].grant, st.codes[code])
                  && served.result.value.scope == pending.preGrant.scope)
  {
    var addons := WithPkce(pkce);
    var pending := A.Reference(reg, addons, a).value;
    var s := T.Setup(reg, digest, addons);
    assert ExtendAuthorization(addons, a) == Some(pending.extensions);
    PkceAcceptsIff(digest, pkce, a, t);
    T.ServedIffDeserved(s, d, st, t, env, access, refresh);
    T.ReferenceIsSound(s, d, st, t, env);
  }

  // -------------------------------------------------- signatures as code tags

  /** A given challenge ends up as private data in the grant. */
  lemma ChallengeIsPrivate(reg: ClientMap, addons: Addons, pkce: Pkce, a: Auth.Request, owner: string, now: Time)
    requires ValidRegistry(reg) && A.Reference(reg, addons, a).Ok? && A.Presentable(A.Reference(reg, addons, a).value)
    requires PkceInstalled(addons, pkce) && AuthParameter(a, "code_challenge").Some?
    ensures Sig.HasPrivate(A.ConsentGrant(A.Reference(reg, addons, a).value, owner, now))
  {
    var i :| 0 <= i < |addons.authorization| && OnlyPkceAt(addons.authorization, pkce, i);
    ChallengeIsStored(addons.authorization, a, pkce, i, |addons.authorization|);
    var grant := A.ConsentGrant(A.Reference(reg, addons, a).value, owner, now);
    assert "pkce" in grant.extensions && grant.extensions["pkce"].Private?;
  }

  /**
   * Proof keys and an assertion as tagger do not go together: no consent to a request with a challenge ever
   * yields a code, whatever happens to the commands, and the store stays as it is.
   */
  lemma AssertionCannotTagChallenges(suite: Sig.Suite, counter: u64, reg: ClientMap, addons: Addons, pkce: Pkce,
                                     a: Auth.Request,
                                     owner: string, now: Time, st: S.Store, session: S.Session)
    requires ValidRegistry(reg) && A.Reference(reg, addons, a).Ok? && A.Presentable(A.Reference(reg, addons, a).value)
    requires PkceInstalled(addons, pkce) && AuthParameter(a, "code_challenge").Some? && |session.choices| == 3
    requires session.choices[0].first
             == Sig.CountedSignature(suite, counter, A.ConsentGrant(A.Reference(reg, addons, a).value, owner, now))
    ensures var grant := A.ConsentGrant(A.Reference(reg, addons, a).value, owner, now);
            var (st', op) := S.CallAlone(None, st, S.AuthorizeGetUsage(grant), session);
            st' == st && op.Done? && !op.outcome.CodeIssued?
  {
    var grant := A.ConsentGrant(A.Reference(reg, addons, a).value, owner, now);
    ChallengeIsPrivate(reg, addons, pkce, a, owner, now);
    Sig.PrivateDataCannotBeTagged(suite, st, grant, session.choices[0], counter);
    var e := S.CodeStep(st, S.AuthorizeGetUsage(grant), session.choices[0]);
    S.UnrollCode(None, st, S.AuthorizeGetUsage(grant), session.choices, 0, e.store, e.op);
  }
}
