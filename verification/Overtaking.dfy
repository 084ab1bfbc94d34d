/** Two refresh flows that overlap: a run of the whole server in which the stored scope shrinks and comes back. */
module Overtaking {
  import opened Prelude
  import opened Scopes
  import opened Grants
  import opened Registrars
  import opened Stores
  import opened Flows
  import opened FailureFree
  import opened Reaching
  import Renew = RefreshMachine
  import opened RefreshPhases

  function Waiting(request: Renew.Request, r: Tag): Flow {
    Renewing(request, Renew.Recovering(None, r))
  }

  /** One token is out, and two flows are about to look it up. */
  function Begun(q1: Renew.Request, q2: Renew.Request, g: Grant, a: Tag, r: Tag): View {
    View(map[0 := Other, 1 := Waiting(q1, r), 2 := Waiting(q2, r)], map[0 := Done(IssuedOk(a, r, g.until))],
         AfterIssue(EMPTY_STORE, a, r, g), {a, r}, {})
  }

  lemma IssuedFirst(cfg: Config, reach: Reach, g: Grant, a: Tag, r: Tag, now: Time)
    requires ValidRegistry(cfg.reg) && Closed(cfg, reach) && reach(NOTHING, []) && a != r
    ensures Leads(reach, View(map[0 := Other], map[0 := Done(IssuedOk(a, r, g.until))],
                                         AfterIssue(EMPTY_STORE, a, r, g), {a, r}, {}))
  {
    OtherBegins(cfg, reach, NOTHING, 0, g);
    var v1 := View(map[0 := Other], map[0 := IssueGetUsage(g)], EMPTY_STORE, {}, {});
    assert Leads(reach, v1);
    IssueRuns(cfg, reach, v1, 0, g, a, r, now);
    Overwrite(map[], 0, IssueGetUsage(g), Done(IssuedOk(a, r, g.until)));
    assert {} + {a, r} == {a, r};
  }

  lemma BothBegin(cfg: Config, reach: Reach, q1: Renew.Request, q2: Renew.Request, g: Grant, a: Tag, r: Tag, now: Time)
    requires ValidRegistry(cfg.reg) && Closed(cfg, reach) && reach(NOTHING, [])
    requires a != r && Bare(q1, r) && Bare(q2, r)
    ensures Leads(reach, Begun(q1, q2, g, a, r))
  {
    IssuedFirst(cfg, reach, g, a, r, now);
    var v := View(map[0 := Other], map[0 := Done(IssuedOk(a, r, g.until))], AfterIssue(EMPTY_STORE, a, r, g), {a, r},
                  {});
    RenewBegins(cfg, reach, v, 1, q1);
    var v1 := v.(flows := v.flows[1 := Waiting(q1, r)]);
    RenewBegins(cfg, reach, v1, 2, q2);
    assert v1.flows[2 := Waiting(q2, r)] == Begun(q1, q2, g, a, r).flows;
  }

  function Found(r: Tag, g: Grant): Op {
    Done(RefreshRecovered(r, Some(g)))
  }

  lemma BothLookUp(cfg: Config, reach: Reach, v: View, q1: Renew.Request, q2: Renew.Request, g: Grant, r: Tag,
                   now: Time)
    requires ValidRegistry(cfg.reg) && Closed(cfg, reach) && Leads(reach, v) && 2 !in v.ops && 4 !in v.ops
    requires 1 in v.flows && v.flows[1] == Waiting(q1, r) && 2 in v.flows && v.flows[2] == Waiting(q2, r)
    requires r in v.store.refresh && v.store.refresh[r].grant == g
    ensures Leads(reach, v.(ops := v.ops[2 := Found(r, g)][4 := Found(r, g)]))
  {
    LookupRuns(cfg, reach, v, 1, q1, r, now);
    LookupRuns(cfg, reach, v.(ops := v.ops[2 := Found(r, g)]), 2, q2, r, now);
  }

  /** A flow that has looked `g` up publishes its decision, whatever is stored by now. */
  lemma FlowRefreshes(cfg: Config, reach: Reach, v: View, f: FlowId, request: Renew.Request, r: Tag, g: Grant, a: Tag,
                      now: Time)
    requires ValidRegistry(cfg.reg) && Closed(cfg, reach) && Leads(reach, v) && IsPublic(cfg.reg, g.client)
    requires Second(f) !in v.ops
    requires f in v.flows && v.flows[f] == Waiting(request, r)
    requires First(f) in v.ops && v.ops[First(f)] == Found(r, g) && Decision(request, g, r, now).Issuing?
    requires Linked(v.store, r) && v.store.tokenUsage.Some? && a !in v.store.access && a !in v.spentTokens
    ensures var state := Decision(request, g, r, now);
            var g' := SetDuration(cfg.duration, now, state.grant);
            Leads(reach, View(v.flows[f := Renewing(request, state)],
                                  v.ops[Second(f) := Done(RefreshedOk(a, g'.until))],
                                  AfterRefresh(v.store, r, a, g'), v.spentTokens + {a}, v.spentCodes))
  {
    var state := Decision(request, g, r, now);
    var g' := SetDuration(cfg.duration, now, state.grant);
    DecisionRuns(cfg, reach, v, f, request, r, g, now);
    var op := RefreshHgetRefresh(r, state.grant);
    var v1 := v.(flows := v.flows[f := Renewing(request, state)], ops := v.ops[Second(f) := op]);
    RefreshRuns(cfg, reach, v1, Second(f), r, state.grant, a, now);
    Overwrite(v.ops, Second(f), op, Done(RefreshedOk(a, g'.until)));
  }

  /** What leads to a view leads to a world, from where one can go on. */
  lemma LeadsToWorld(cfg: Config, base: World, v: View) returns (w: World)
    requires ValidRegistry(cfg.reg) && Leads(FromBase(cfg, base), v)
    ensures Reaches(cfg, base, w) && ViewOf(w) == v && Leads(FromBase(cfg, w), v)
  {
    var log :| FromBase(cfg, base)(v, log);
    w :| Reaches(cfg, base, w) && ViewOf(w) == v && w.sys.log == log;
    StartHere(cfg, w);
    assert FromBase(cfg, w)(v, log);
  }

  /** What the first flow leaves behind. */
  function Overtook(cfg: Config, v: View, q1: Renew.Request, r: Tag, g: Grant, a1: Tag, now: Time): View
    requires r in v.store.refresh && Decision(q1, g, r, now).Issuing?
  {
    var state := Decision(q1, g, r, now);
    var g1 := SetDuration(cfg.duration, now, state.grant);
    View(v.flows[1 := Renewing(q1, state)], v.ops[3 := Done(RefreshedOk(a1, g1.until))],
         AfterRefresh(v.store, r, a1, g1), v.spentTokens + {a1}, v.spentCodes)
  }

  function LookedUp(q1: Renew.Request, q2: Renew.Request, g: Grant, a: Tag, r: Tag): View {
    var v := Begun(q1, q2, g, a, r);
    v.(ops := v.ops[2 := Found(r, g)][4 := Found(r, g)])
  }

  /** Seen from the second flow: its token is there, its own lookup unchanged, and the scope is that of the first. */
  lemma OvertookFacts(cfg: Config, q1: Renew.Request, q2: Renew.Request, g: Grant, r: Tag, a0: Tag, a1: Tag, now: Time)
    requires r != a0 && r != a1 && a0 != a1 && Decision(q1, g, r, now).Issuing?
    ensures var v := Overtook(cfg, LookedUp(q1, q2, g, a0, r), q1, r, g, a1, now);
            && 2 in v.flows && v.flows[2] == Waiting(q2, r) && 4 in v.ops && v.ops[4] == Found(r, g) && 5 !in v.ops
            && Linked(v.store, r) && v.store.tokenUsage.Some? && v.store.access.Keys == {a1}
                && v.spentTokens == {a0, r, a1}
            && v.store.refresh[r].grant.scope == Decision(q1, g, r, now).grant.scope
  {
    var v := Overtook(cfg, LookedUp(q1, q2, g, a0, r), q1, r, g, a1, now);
    assert v.store.access.Keys == {a1};
    assert v.spentTokens == {a0, r, a1};
  }

  lemma LookedUpFacts(q1: Renew.Request, q2: Renew.Request, g: Grant, r: Tag, a0: Tag, a1: Tag)
    requires r != a0 && r != a1 && a0 != a1
    ensures var v := LookedUp(q1, q2, g, a0, r);
            && 1 in v.flows && v.flows[1] == Waiting(q1, r) && 2 in v.ops && v.ops[2] == Found(r, g) && 3 !in v.ops
            && Linked(v.store, r) && v.store.tokenUsage.Some? && a1 !in v.store.access && a1 !in v.spentTokens
  {
  }

  lemma BothHaveLookedUp(cfg: Config, reach: Reach, q1: Renew.Request, q2: Renew.Request, g: Grant, r: Tag, a0: Tag,
                         now: Time)
    requires ValidRegistry(cfg.reg) && Closed(cfg, reach) && reach(NOTHING, [])
    requires a0 != r && Bare(q1, r) && Bare(q2, r)
    ensures Leads(reach, LookedUp(q1, q2, g, a0, r))
  {
    BothBegin(cfg, reach, q1, q2, g, a0, r, now);
    BothLookUp(cfg, reach, Begun(q1, q2, g, a0, r), q1, q2, g, r, now);
  }

  lemma FirstOvertakes(cfg: Config, reach: Reach, q1: Renew.Request, q2: Renew.Request, g: Grant, r: Tag, a0: Tag,
                       a1: Tag, now: Time)
    requires ValidRegistry(cfg.reg) && Closed(cfg, reach) && reach(NOTHING, [])
    requires IsPublic(cfg.reg, g.client) && Bare(q1, r) && Bare(q2, r)
    requires r != a0 && r != a1 && a0 != a1 && Decision(q1, g, r, now).Issuing?
    ensures Leads(reach, Overtook(cfg, LookedUp(q1, q2, g, a0, r), q1, r, g, a1, now))
  {
    BothHaveLookedUp(cfg, reach, q1, q2, g, r, a0, now);
    LookedUpFacts(q1, q2, g, r, a0, a1);
    FlowRefreshes(cfg, reach, LookedUp(q1, q2, g, a0, r), 1, q1, r, g, a1, now);
  }

  lemma SecondUndoes(cfg: Config, w1: World, v1: View, q2: Renew.Request, r: Tag, g: Grant, a2: Tag, now: Time)
    returns (w2: World)
    requires ValidRegistry(cfg.reg) && Leads(FromBase(cfg, w1), v1) && ViewOf(w1) == v1
    requires IsPublic(cfg.reg, g.client) && now < g.until
    requires 2 in v1.flows && v1.flows[2] == Waiting(q2, r) && q2.scope.None?
    requires 4 in v1.ops && v1.ops[4] == Found(r, g) && 5 !in v1.ops
    requires Linked(v1.store, r) && v1.store.tokenUsage.Some? && a2 !in v1.store.access && a2 !in v1.spentTokens
    requires v1.store.refresh[r].grant.scope.tokens < g.scope.tokens
    ensures Reaches(cfg, w1, w2) && r in w2.sys.store.refresh && w2.sys.store.refresh[r].grant.scope == g.scope
    ensures !NothingWidens(w1.sys.store, w2.sys.store)
  {
    ReachableIsClosed(cfg, w1);
    FlowRefreshes(cfg, FromBase(cfg, w1), v1, 2, q2, r, g, a2, now);
    var g2 := SetDuration(cfg.duration, now, Decision(q2, g, r, now).grant);
    w2 := LeadsToWorld(cfg, w1, View(v1.flows[2 := Renewing(q2, Decision(q2, g, r, now))],
                                     v1.ops[5 := Done(RefreshedOk(a2, g2.until))],
                                     AfterRefresh(v1.store, r, a2, g2), v1.spentTokens + {a2}, v1.spentCodes));
    assert r in w2.sys.store.refresh && w2.sys.store.refresh[r].grant == g2;
  }

  lemma Decisions(text: string, small: Scope, g: Grant, r: Tag, now: Time)
    requires Parse(text) == Ok(small) && small.tokens < g.scope.tokens && now < g.until
    ensures var d := Decision(Renew.Request(true, Some(r), Some(text), Some("refresh_token"), None), g, r, now);
            d.Issuing? && d.grant.scope == small
  {
    PartialCmpIsSubsetOrder(small, g.scope);
  }

  /**
   * For every grant of a public client and every smaller scope there is a run of the server in which two
   * refresh flows look up the same token, the first narrows the stored grant to that scope, and the second,
   * deciding on what it had looked up, brings the old scope back.
   */
  lemma ScopeComesBack(cfg: Config, g: Grant, text: string, small: Scope, r: Tag, a0: Tag, a1: Tag, a2: Tag, now: Time)
    returns (w1: World, w2: World)
    requires ValidRegistry(cfg.reg) && IsPublic(cfg.reg, g.client) && now < g.until
    requires Parse(text) == Ok(small) && small.tokens < g.scope.tokens
    requires r != a0 && r != a1 && r != a2 && a0 != a1 && a0 != a2 && a1 != a2
    ensures Reaches(cfg, EMPTY_WORLD, w1) && Reaches(cfg, w1, w2)
    ensures r in w1.sys.store.refresh && w1.sys.store.refresh[r].grant.scope == small
    ensures r in w2.sys.store.refresh && w2.sys.store.refresh[r].grant.scope == g.scope
    ensures !NothingWidens(w1.sys.store, w2.sys.store)
  {
    var q1 := Renew.Request(true, Some(r), Some(text), Some("refresh_token"), None);
    var q2 := Renew.Request(true, Some(r), None, Some("refresh_token"), None);
    Decisions(text, small, g, r, now);
    var v1 := Overtook(cfg, LookedUp(q1, q2, g, a0, r), q1, r, g, a1, now);
    var reach := FromBase(cfg, EMPTY_WORLD);
    ReachableIsClosed(cfg, EMPTY_WORLD);
    StartHere(cfg, EMPTY_WORLD);
    assert ViewOf(EMPTY_WORLD) == NOTHING;
    FirstOvertakes(cfg, reach, q1, q2, g, r, a0, a1, now);
    w1 := LeadsToWorld(cfg, EMPTY_WORLD, v1);
    OvertookFacts(cfg, q1, q2, g, r, a0, a1, now);
    w2 := SecondUndoes(cfg, w1, v1, q2, r, g, a2, now);
  }
}
