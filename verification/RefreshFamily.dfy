/** What refreshing can do to a grant, in every run of the whole server with non-repeating tags. */
module RefreshFamily {
  import opened Grants
  import opened Registrars
  import opened Stores
  import opened SelfKeys
  import opened TokenIndex
  import opened Flows
  import Renew = RefreshMachine
  import opened Families
  import opened FamilySteps

  ghost predicate ServerInv(cfg: Config, w: World) {
    FamilyInv(cfg, w) && IndexInv(w.sys) && SelfKeyed(w.sys)
  }

  lemma ActionKeepsFamily(cfg: Config, w: World, a: Action)
    requires ValidRegistry(cfg.reg) && ServerInv(cfg, w) && FreshAction(cfg, w, a)
    ensures ServerInv(cfg, NextWorld(cfg, w, a))
  {
    match a {
      case Command(pid, c) => CommandKeepsFamily(cfg, w, pid, c);
      case Kill(pid) => KillKeepsFamily(cfg, w, pid);
      case Local(f, now) => LocalKeepsFamily(cfg, w, f, now);
      case BeginConsent(f, request, owner, now) => ConsentKeepsFamily(cfg, w, f, request, owner, now);
      case _ => BeginKeepsFamily(cfg, w, a);
    }
    var move := SysMove(cfg, w, a);
    if move.Some? {
      StepKeepsIndex(cfg.duration, w.sys, move.value);
      StepKeepsSelfKeys(cfg.duration, w.sys, move.value);
    }
  }

  lemma {:induction false} RunKeepsFamily(cfg: Config, w: World, acts: seq<Action>)
    requires ValidRegistry(cfg.reg) && ServerInv(cfg, w) && FreshActions(cfg, w, acts)
    ensures ServerInv(cfg, RunWorld(cfg, w, acts))
    decreases |acts|
  {
    if acts != [] {
      ActionKeepsFamily(cfg, w, acts[0]);
      RunKeepsFamily(cfg, NextWorld(cfg, w, acts[0]), acts[1..]);
    }
  }

  lemma ReachedKeepsFamily(cfg: Config, w: World, acts: seq<Action>)
    requires ValidRegistry(cfg.reg) && InitWorld(w) && FreshActions(cfg, w, acts)
    ensures FamilyInv(cfg, RunWorld(cfg, w, acts))
  {
    RunKeepsFamily(cfg, w, acts);
  }

  /**
   * Every token ever minted with refresh tag `r` narrows the first one: same owner, client, redirect
   * url and extensions, and no more scope. That first token came from `issue`, not from a refresh.
   */
  lemma TokensNarrowTheFirstIssued(cfg: Config, w: World, acts: seq<Action>, i: nat, r: Tag)
    requires ValidRegistry(cfg.reg) && InitWorld(w) && FreshActions(cfg, w, acts)
    requires i < |RunWorld(cfg, w, acts).sys.log| && NamedBy(RunWorld(cfg, w, acts).sys.log[i].event, r)
    ensures var v := RunWorld(cfg, w, acts);
            exists j: nat :: j <= i && FirstNaming(v.sys.log, r, j)
                             && Narrows(v.sys.log[i].event.token.grant, v.sys.log[j].event.token.grant)
                             && FlowOf(v.sys.log[j].pid) in v.flows && !v.flows[FlowOf(v.sys.log[j].pid)].Renewing?
  {
    ReachedKeepsFamily(cfg, w, acts);
    var v := RunWorld(cfg, w, acts);
    assert EntryOk(cfg, v, v.sys.log[i].pid, v.sys.log[i].event);
    assert RootLogged(v, r, v.roots[r]);
    var j: nat :| RootAt(v, r, v.roots[r], j);
  }

  /**
   * Every token minted by a refresh narrows the grant that this flow itself recovered for the refresh
   * token of its request, and its client was authenticated by that request.
   */
  lemma RefreshedTokensWereAuthorized(cfg: Config, w: World, acts: seq<Action>, i: nat, f: FlowId)
    requires ValidRegistry(cfg.reg) && InitWorld(w) && FreshActions(cfg, w, acts)
    requires i < |RunWorld(cfg, w, acts).sys.log| && RunWorld(cfg, w, acts).sys.log[i].event.Minted?
    requires FlowOf(RunWorld(cfg, w, acts).sys.log[i].pid) == f
    requires f in RunWorld(cfg, w, acts).flows && RunWorld(cfg, w, acts).flows[f].Renewing?
    ensures var v := RunWorld(cfg, w, acts);
            var request := v.flows[f].refreshRequest;
            var token := v.sys.log[i].event.token;
            && request.refreshToken.Some? && token.refresh == request.refreshToken
            && Renew.RefreshAuthorized(cfg.reg, request, token.grant.client)
            && Source(v.sys.ops, f).Some? && Narrows(token.grant, Source(v.sys.ops, f).value)
  {
    ReachedKeepsFamily(cfg, w, acts);
    var v := RunWorld(cfg, w, acts);
    assert EntryOk(cfg, v, v.sys.log[i].pid, v.sys.log[i].event);
  }
}
