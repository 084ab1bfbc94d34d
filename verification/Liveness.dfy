/**
 * The server can do what it is for: a run of the whole-server model in which a consent is redeemed and a
 * token is minted. It shows that the results about all runs are about something.
 */
module Liveness {
  import opened Prelude
  import opened Registrars
  import opened Stores
  import opened Interleaving
  import opened Flows
  import opened Reaching
  import Auth = AuthorizationMachine
  import Redeem = AccessTokenMachine
  import opened RedemptionPhases

  /**
   * Whatever the owner consents to can be redeemed by whoever answers for it: some fresh run mints the
   * token for the consented grant, and its log is the creation of the code, its removal, and the token.
   */
  lemma ConsentCanBeRedeemed(cfg: Config, a: Auth.Request, owner: string, consentedAt: Time, request: Redeem.Request,
                             now: Time, code: Tag, access: Tag, refresh: Tag)
    requires ValidRegistry(cfg.reg) && Consented(cfg, a, owner, consentedAt).Some?
    requires Answers(cfg, request, Consented(cfg, a, owner, consentedAt).value, now)
    requires request.code == Some(code) && access != refresh
    ensures var g := Consented(cfg, a, owner, consentedAt).value;
            var token := Token(access, Some(refresh), SetDuration(cfg.duration, now, Granted(cfg, request, g, now)));
            exists u :: Reachable(cfg, EMPTY_WORLD, u,
                                  [Entry(First(0), CodeCreated(code, g)), Entry(First(1), CodeTaken(code, g)),
                                   Entry(Second(1), Minted(token))])
  {
    var g := Consented(cfg, a, owner, consentedAt).value;
    var reach := FromBase(cfg, EMPTY_WORLD);
    ReachableIsClosed(cfg, EMPTY_WORLD);
    StartHere(cfg, EMPTY_WORLD);
    assert ViewOf(EMPTY_WORLD) == NOTHING;
    ConsentPhase(cfg, reach, a, owner, consentedAt, code, g);
    var log := [Entry(0, CodeCreated(code, g))];
    AllPhases(cfg, reach, Stored(Consenting(a, owner, g), g, code), log, request, code, g, now, access, refresh);
    var token := Token(access, Some(refresh), SetDuration(cfg.duration, now, Granted(cfg, request, g, now)));
    assert log + [Entry(2, CodeTaken(code, g))] + [Entry(3, Minted(token))]
        == [Entry(First(0), CodeCreated(code, g)), Entry(First(1), CodeTaken(code, g)),
            Entry(Second(1), Minted(token))];
  }
}
