/** Refreshed tokens of the code flow, traced through the first token of their family back to a consent. */
module Lineage {
  import opened Grants
  import opened Registrars
  import opened Stores
  import opened Flows
  import B = Backing
  import P = Provenance
  import F = Families
  import R = RefreshFamily

  /** The token stands for no more than consent `c`: same owner, client and redirect url, no more scope. */
  predicate Within(w: World, token: Token, c: FlowId) {
    && c in w.flows && w.flows[c].Consenting?
    && var g := w.flows[c].grant;
    && token.grant.owner == g.owner && token.grant.client == g.client && token.grant.redirect == g.redirect
    && token.grant.scope.tokens <= g.scope.tokens
  }

  /** The family of `token` began at entry `j` with a redemption of consent `c`. */
  ghost predicate DescendsFrom(cfg: Config, w: World, r: Tag, token: Token, j: nat, c: FlowId) {
    && F.FirstNaming(w.sys.log, r, j) && Within(w, token, c)
    && B.Issues(w, w.sys.log[j].pid, FlowOf(w.sys.log[j].pid))
    && B.BackedBy(cfg, w, FlowOf(w.sys.log[j].pid), w.sys.log[j].event.token.grant, c, j)
  }

  /** The family began with an issue outside the code flow. */
  ghost predicate BeganElsewhere(w: World, r: Tag, j: nat) {
    && F.FirstNaming(w.sys.log, r, j)
    && FlowOf(w.sys.log[j].pid) in w.flows && w.flows[FlowOf(w.sys.log[j].pid)].Other?
  }

  ghost predicate Descends(cfg: Config, w: World, r: Tag, token: Token, j: nat) {
    BeganElsewhere(w, r, j) || exists c :: DescendsFrom(cfg, w, r, token, j, c)
  }

  lemma WithinByNarrowing(cfg: Config, w: World, f: FlowId, token: Token, first: Token, c: FlowId, j: nat)
    requires B.BackedBy(cfg, w, f, first.grant, c, j) && Narrows(token.grant, first.grant)
    ensures Within(w, token, c)
  {
  }

  /** Where a family begins, everything in it descends from. */
  lemma FamilyDescends(cfg: Config, w: World, acts: seq<Action>, r: Tag, token: Token, j: nat)
    requires ValidRegistry(cfg.reg) && InitWorld(w) && FreshActions(cfg, w, acts)
    requires F.FirstNaming(RunWorld(cfg, w, acts).sys.log, r, j)
    requires Narrows(token.grant, RunWorld(cfg, w, acts).sys.log[j].event.token.grant)
    requires var v := RunWorld(cfg, w, acts);
             FlowOf(v.sys.log[j].pid) in v.flows && !v.flows[FlowOf(v.sys.log[j].pid)].Renewing?
    ensures Descends(cfg, RunWorld(cfg, w, acts), r, token, j)
  {
    var v := RunWorld(cfg, w, acts);
    var f := FlowOf(v.sys.log[j].pid);
    P.MintersAreKnown(cfg, w, acts, j);
    if B.Issues(v, v.sys.log[j].pid, f) {
      P.TokensTraceToConsent(cfg, w, acts, j, f);
      var c :| B.BackedBy(cfg, v, f, v.sys.log[j].event.token.grant, c, j);
      WithinByNarrowing(cfg, v, f, token, v.sys.log[j].event.token, c, j);
      assert DescendsFrom(cfg, v, r, token, j, c);
    }
  }

  /**
   * In every run of the server, every token that carries a refresh tag, however often refreshed, goes back
   * through the first token of its tag to one earlier consent of the same owner to the same client and
   * redirect url with at least its scope, redeemed by an authenticated client; or to an issue outside the
   * code flow.
   */
  lemma TokensDescendFromConsent(cfg: Config, w: World, acts: seq<Action>, i: nat, r: Tag)
    requires ValidRegistry(cfg.reg) && InitWorld(w) && FreshActions(cfg, w, acts)
    requires i < |RunWorld(cfg, w, acts).sys.log| && F.NamedBy(RunWorld(cfg, w, acts).sys.log[i].event, r)
    ensures var v := RunWorld(cfg, w, acts);
            exists j: nat :: j <= i && Descends(cfg, v, r, v.sys.log[i].event.token, j)
  {
    var v := RunWorld(cfg, w, acts);
    R.TokensNarrowTheFirstIssued(cfg, w, acts, i, r);
    var j: nat :| j <= i && F.FirstNaming(v.sys.log, r, j)
                  && Narrows(v.sys.log[i].event.token.grant, v.sys.log[j].event.token.grant)
                  && FlowOf(v.sys.log[j].pid) in v.flows && !v.flows[FlowOf(v.sys.log[j].pid)].Renewing?;
    FamilyDescends(cfg, w, acts, r, v.sys.log[i].event.token, j);
  }
}
