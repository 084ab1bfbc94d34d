/**
 * The way of a code from consent to token, phase by phase: the consent draws its code, stores it and writes its
 * counter back; the redemption authenticates its client, looks the code up and takes it, checks the extensions,
 * draws two tags and mints the token. Each phase leads from one view of the server to the next. `Liveness` puts
 * them together.
 */
module RedemptionPhases {
  import opened Prelude
  import opened Grants
  import opened Registrars
  import opened PkceAddons
  import opened Stores
  import opened Interleaving
  import opened Flows
  import opened FailureFree
  import opened Reaching
  import Auth = AuthorizationMachine
  import Redeem = AccessTokenMachine

  /** The request gets what the stored grant stands for. */
  predicate Answers(cfg: Config, request: Redeem.Request, g: Grant, now: Time) {
    && request.valid && request.grantType == Some("authorization_code") && request.code.Some?
    && Redeem.RedeemAuthorized(cfg.reg, request, g.client)
    && request.redirectUri.Some? && cfg.reg.parseUrl(request.redirectUri.value) == Some(g.redirect) && now <= g.until
    && ExtendToken(cfg.digest, cfg.addons, request, g.extensions).Some?
  }

  function Granted(cfg: Config, request: Redeem.Request, g: Grant, now: Time): Grant
    requires Answers(cfg, request, g, now)
  {
    g.(extensions := ExtendToken(cfg.digest, cfg.addons, request, g.extensions).value)
  }

  // ------------------------------------------------------------------ phases

  function WithCode(code: Tag, g: Grant): Store {
    EMPTY_STORE.(codes := map[code := g])
  }

  function Stored(consent: Flow, g: Grant, code: Tag): View {
    View(map[0 := consent], map[0 := AuthorizeSetUsage(code, g, 1)], WithCode(code, g), {}, {code})
  }

  lemma ConsentPhase(cfg: Config, reach: Reach, a: Auth.Request, owner: string, now: Time, code: Tag, g: Grant)
    requires ValidRegistry(cfg.reg) && Closed(cfg, reach) && reach(NOTHING, [])
    requires Consented(cfg, a, owner, now) == Some(g)
    ensures reach(Stored(Consenting(a, owner, g), g, code), [Entry(0, CodeCreated(code, g))])
  {
    var c := HealthyChoice(Some(code), None, now);
    BeginStep(cfg, reach, NOTHING, [], BeginConsent(0, a, owner, now));
    var v := View(map[0 := Consenting(a, owner, g)], map[0 := AuthorizeGetUsage(g)], EMPTY_STORE, {}, {});
    assert reach(v, []);
    TagPhase(cfg, reach, v, code, g, c);
    StorePhase(cfg, reach, v.(ops := map[0 := AuthorizeHset(code, g, 1)], spentCodes := {code}), code, g, c);
  }

  lemma FirstCode(d: Option<Time>, code: Tag, g: Grant, c: Choice)
    requires c.fault.Healthy? && c.first == Some(code)
    ensures OpStep(d, EMPTY_STORE, AuthorizeGetUsage(g), c)
        == Effect(EMPTY_STORE, AuthorizeHset(code, g, 1), [], [Draw(0, code)], [])
  {
    assert CodeStep(EMPTY_STORE, AuthorizeGetUsage(g), c) == AuthorizeTag(EMPTY_STORE, g, c);
  }

  lemma OneTag(code: Tag)
    ensures {} + Tags([Draw(0, code)]) == {code} && {} + Tags([]) == {}
    ensures FreshDraws([Draw(0, code)], {}) && FreshDraws([], {})
  {
  }

  lemma TagPhase(cfg: Config, reach: Reach, v: View, code: Tag, g: Grant, c: Choice)
    requires ValidRegistry(cfg.reg) && Closed(cfg, reach) && reach(v, []) && c.fault.Healthy? && c.first == Some(code)
    requires v.ops == map[0 := AuthorizeGetUsage(g)] && v.store == EMPTY_STORE && v.spentTokens == {}
    requires v.spentCodes == {}
    ensures reach(v.(ops := map[0 := AuthorizeHset(code, g, 1)], spentCodes := {code}), [])
  {
    var e := OpStep(cfg.duration, EMPTY_STORE, AuthorizeGetUsage(g), c);
    FirstCode(cfg.duration, code, g, c);
    OneTag(code);
    CommandStep(cfg, reach, v, [], 0, c, e);
    Overwrite(map[], 0, AuthorizeGetUsage(g), e.op);
    assert [] + Entries(0, []) == [];
  }

  lemma StorePhase(cfg: Config, reach: Reach, v: View, code: Tag, g: Grant, c: Choice)
    requires ValidRegistry(cfg.reg) && Closed(cfg, reach) && reach(v, []) && c.fault.Healthy?
    requires v.ops == map[0 := AuthorizeHset(code, g, 1)] && v.store == EMPTY_STORE
    ensures reach(v.(ops := map[0 := AuthorizeSetUsage(code, g, 1)], store := WithCode(code, g)),
                      [Entry(0, CodeCreated(code, g))])
  {
    var e := Effect(WithCode(code, g), AuthorizeSetUsage(code, g, 1), [], [], [CodeCreated(code, g)]);
    assert CodeStep(EMPTY_STORE, AuthorizeHset(code, g, 1), c) == e;
    var more := [Entry(0, CodeCreated(code, g))];
    PlainStep(cfg, reach, v, [], 0, c, e, more);
    assert v.ops[0 := e.op] == map[0 := e.op] && [] + more == more;
  }

  lemma LookupPhase(cfg: Config, reach: Reach, v: View, log: seq<Entry>, code: Tag, g: Grant, c: Choice)
    requires ValidRegistry(cfg.reg) && Closed(cfg, reach) && c.fault.Healthy? && v.store == WithCode(code, g)
    requires reach(v.(ops := v.ops[2 := ExtractHget(code)]), log)
    ensures reach(v.(ops := v.ops[2 := ExtractHdel(code, g)]), log)
  {
    var e := Quiet(v.store, ExtractHdel(code, g));
    assert CodeStep(v.store, ExtractHget(code), c) == e;
    PlainStep(cfg, reach, v.(ops := v.ops[2 := ExtractHget(code)]), log, 2, c, e, []);
    Overwrite(v.ops, 2, ExtractHget(code), ExtractHdel(code, g));
    assert log + [] == log;
  }

  lemma TakePhase(cfg: Config, reach: Reach, v: View, log: seq<Entry>, code: Tag, g: Grant, c: Choice)
    requires ValidRegistry(cfg.reg) && Closed(cfg, reach) && c.fault.Healthy? && v.store == WithCode(code, g)
    requires reach(v.(ops := v.ops[2 := ExtractHdel(code, g)]), log)
    ensures reach(v.(ops := v.ops[2 := Done(Extracted(code, Some(g)))], store := EMPTY_STORE),
                      log + [Entry(2, CodeTaken(code, g))])
  {
    var e := Effect(EMPTY_STORE, Done(Extracted(code, Some(g))), [], [], [CodeTaken(code, g)]);
    assert v.store.codes - {code} == map[];
    assert CodeStep(v.store, ExtractHdel(code, g), c) == e;
    PlainStep(cfg, reach, v.(ops := v.ops[2 := ExtractHdel(code, g)]), log, 2, c, e, [Entry(2, CodeTaken(code, g))]);
    Overwrite(v.ops, 2, ExtractHdel(code, g), e.op);
  }

  lemma AskPhase(cfg: Config, reach: Reach, v: View, log: seq<Entry>, request: Redeem.Request, client: string,
                 redirect: Url, code: Tag, now: Time)
    requires ValidRegistry(cfg.reg) && Closed(cfg, reach) && reach(v, log) && 2 !in v.ops
    requires 1 in v.flows && v.flows[1] == Redeeming(request, Redeem.Recover(client, code, redirect))
    ensures reach(v.(ops := v.ops[2 := ExtractHget(code)]), log)
  {
    LocalStep(cfg, reach, v, log, 1, now);
    assert v.flows[1 := v.flows[1]] == v.flows;
  }

  /** From a redemption that waits for its code to the extracted grant. */
  lemma ExtractPhase(cfg: Config, reach: Reach, v: View, log: seq<Entry>, request: Redeem.Request, client: string,
                     redirect: Url, code: Tag, g: Grant, now: Time)
    requires ValidRegistry(cfg.reg) && Closed(cfg, reach) && reach(v, log) && 2 !in v.ops
    requires 1 in v.flows && v.flows[1] == Redeeming(request, Redeem.Recover(client, code, redirect))
    requires v.store == WithCode(code, g)
    ensures reach(v.(ops := v.ops[2 := Done(Extracted(code, Some(g)))], store := EMPTY_STORE),
                      log + [Entry(2, CodeTaken(code, g))])
  {
    var c := HealthyChoice(None, None, now);
    AskPhase(cfg, reach, v, log, request, client, redirect, code, now);
    LookupPhase(cfg, reach, v, log, code, g, c);
    TakePhase(cfg, reach, v, log, code, g, c);
  }

  lemma MintPhase(cfg: Config, reach: Reach, v: View, log: seq<Entry>, r: Tag, token: Stores.Token, c: Choice)
    requires ValidRegistry(cfg.reg) && Closed(cfg, reach) && reach(v, log) && c.fault.Healthy?
    requires 3 in v.ops && v.ops[3] == IssueHsetAccess(r, token, 2)
    ensures exists u :: reach(u, log + [Entry(3, Minted(token))]) && u.flows == v.flows
  {
    var e := IssueStep(v.store, v.ops[3], c);
    PlainStep(cfg, reach, v, log, 3, c, e, [Entry(3, Minted(token))]);
  }

  /** From a redemption that may issue to the minted token. */
  lemma IssuePhase(cfg: Config, reach: Reach, v: View, log: seq<Entry>, request: Redeem.Request, g: Grant, now: Time,
                   a: Tag, r: Tag)
    requires ValidRegistry(cfg.reg) && Closed(cfg, reach) && reach(v, log) && 3 !in v.ops && a != r
    requires v.spentTokens == {}
    requires v.store == EMPTY_STORE
    requires 1 in v.flows && v.flows[1] == Redeeming(request, Redeem.Issue(g))
    ensures exists u :: reach(u,
                                  log + [Entry(3, Minted(Token(a, Some(r), SetDuration(cfg.duration, now, g))))])
                                      && u.flows == v.flows
  {
    var c, g' := HealthyChoice(Some(a), Some(r), now), SetDuration(cfg.duration, now, g);
    var token := Token(a, Some(r), g');
    LocalStep(cfg, reach, v, log, 1, now);
    var v1 := v.(ops := v.ops[3 := IssueGetUsage(g')]);
    assert v.flows[1 := v.flows[1]] == v.flows;
    var e1 := Effect(EMPTY_STORE, IssueHsetAccess(r, token, 2), [Draw(0, a), Draw(1, r)], [], []);
    assert IssueStep(EMPTY_STORE, IssueGetUsage(g'), c) == e1;
    CommandStep(cfg, reach, v1, log, 3, c, e1);
    var v2 := v1.(ops := v1.ops[3 := e1.op], spentTokens := v1.spentTokens + Tags(e1.tokenDraws),
                  spentCodes := v1.spentCodes + Tags([]));
    assert log + Entries(3, []) == log;
    MintPhase(cfg, reach, v2, log, r, token, c);
  }

  /** The local work of a redemption around its extracted code. */
  lemma RedeemPhase(cfg: Config, reach: Reach, v: View, log: seq<Entry>, request: Redeem.Request, code: Tag, g: Grant,
                    now: Time)
    requires ValidRegistry(cfg.reg) && Closed(cfg, reach) && reach(v, log) && Answers(cfg, request, g, now)
    requires request.code == Some(code)
    requires 1 in v.flows && v.flows[1] == Redeeming(request, Redeem.Recover(g.client, code, g.redirect))
    requires 2 in v.ops && v.ops[2] == Done(Extracted(code, Some(g)))
    ensures reach(v.(flows := v.flows[1 := Redeeming(request,
                                                                    Redeem.Issue(Granted(cfg, request, g, now)))]), log)
  {
    LocalStep(cfg, reach, v, log, 1, now);
    var v1 := v.(flows := v.flows[1 := Redeeming(request, Redeem.Extend(g.(extensions := map[]), g.extensions))]);
    assert reach(v1, log);
    LocalStep(cfg, reach, v1, log, 1, now);
    var issue := Redeeming(request, Redeem.Issue(Granted(cfg, request, g, now)));
    assert LocalFlow(cfg, v1.ops, 1, v1.flows[1], now) == issue;
    assert v1.flows[1 := issue] == v.flows[1 := issue];
  }

  /** A redemption begins and its client is authenticated. */
  lemma AuthenticatePhase(cfg: Config, reach: Reach, v: View, log: seq<Entry>, request: Redeem.Request, code: Tag,
                          g: Grant, now: Time)
    requires ValidRegistry(cfg.reg) && Closed(cfg, reach) && reach(v, log) && 1 !in v.flows && 2 !in v.ops
    requires Answers(cfg, request, g, now) && request.code == Some(code)
    ensures reach(v.(flows := v.flows[1 := Redeeming(request,
                                                                    Redeem.Recover(g.client, code, g.redirect))]), log)
  {
    BeginStep(cfg, reach, v, log, BeginRedeem(1, request));
    var v1 := v.(flows := v.flows[1 := Redeeming(request, Redeem.Validate(cfg.reg.parseUrl, request))]);
    Redeem.CredentialsMeaning(cfg.reg, request);
    LocalStep(cfg, reach, v1, log, 1, now);
    var recover := Redeeming(request, Redeem.Recover(g.client, code, g.redirect));
    assert LocalFlow(cfg, v1.ops, 1, v1.flows[1], now) == recover;
    assert v1.flows[1 := recover] == v.flows[1 := recover];
  }

  /** Everything a redemption does, once the code is stored. */
  lemma AllPhases(cfg: Config, reach: Reach, v: View, log: seq<Entry>, request: Redeem.Request, code: Tag,
                  g: Grant, now: Time, access: Tag, refresh: Tag)
    requires ValidRegistry(cfg.reg) && Closed(cfg, reach) && reach(v, log) && 1 !in v.flows && 2 !in v.ops
    requires 3 !in v.ops
    requires v.store == WithCode(code, g) && v.spentTokens == {} && access != refresh
    requires Answers(cfg, request, g, now) && request.code == Some(code)
    ensures var token := Token(access, Some(refresh), SetDuration(cfg.duration, now, Granted(cfg, request, g, now)));
            exists u :: reach(u, log + [Entry(2, CodeTaken(code, g))] + [Entry(3, Minted(token))])
  {
    AuthenticatePhase(cfg, reach, v, log, request, code, g, now);
    var v2 := v.(flows := v.flows[1 := Redeeming(request, Redeem.Recover(g.client, code, g.redirect))]);
    ExtractPhase(cfg, reach, v2, log, request, g.client, g.redirect, code, g, now);
    var v3 := v2.(ops := v2.ops[2 := Done(Extracted(code, Some(g)))], store := EMPTY_STORE);
    var log' := log + [Entry(2, CodeTaken(code, g))];
    RedeemPhase(cfg, reach, v3, log', request, code, g, now);
    var granted := Granted(cfg, request, g, now);
    IssuePhase(cfg, reach, v3.(flows := v3.flows[1 := Redeeming(request, Redeem.Issue(granted))]), log', request,
               granted, now, access, refresh);
  }
}
