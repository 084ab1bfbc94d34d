/**
 * The way of a refresh flow, phase by phase: it begins, looks its token up, decides on the grant it found, and runs
 * its refresh call through; and an issue outside the flows that runs through. A call with nobody in between does to
 * the view of the server what it does alone, and draws the same tags. `Overtaking` puts two such flows together.
 */
module RefreshPhases {
  import opened Prelude
  import opened Grants
  import opened Registrars
  import opened Stores
  import opened Interleaving
  import opened Flows
  import opened FailureFree
  import opened Reaching
  import Renew = RefreshMachine

  /** This view is reached, with some log. */
  ghost predicate Leads(reach: Reach, view: View) {
    exists log :: reach(view, log)
  }

  // ---------------------------------------------------------- calls run through

  lemma FreshParts(first: seq<Draw>, rest: seq<Draw>, spent: set<Tag>)
    requires FreshDraws(first + rest, spent)
    ensures FreshDraws(first, spent) && FreshDraws(rest, spent + Tags(first))
  {
    var all := first + rest;
    forall i | 0 <= i < |first| ensures first[i].tag !in spent { assert all[i] == first[i]; }
    forall i, j | 0 <= i < j < |first| ensures first[i].tag != first[j].tag { assert all[i] == first[i]
                                                                             && all[j] == first[j]; }
    forall i | 0 <= i < |rest| ensures rest[i].tag !in spent + Tags(first) {
      assert all[|first| + i] == rest[i];
      forall m | 0 <= m < |first| ensures first[m].tag != rest[i].tag { assert all[m] == first[m]; }
    }
    forall i, j | 0 <= i < j < |rest| ensures rest[i].tag != rest[j].tag {
      assert all[|first| + i] == rest[i] && all[|first| + j] == rest[j];
    }
  }

  lemma TagsConcat(a: seq<Draw>, b: seq<Draw>, spent: set<Tag>)
    ensures spent + Tags(a) + Tags(b) == spent + Tags(a + b)
  {
    assert forall d :: d in a + b <==> d in a || d in b;
  }

  predicate OnTokens(op: Op) {
    IsIssue(op) || IsRefresh(op) || op.Done?
  }

  lemma TokenCommand(d: Option<Time>, st: Store, op: Op, c: Choice)
    requires OnTokens(op)
    ensures OnTokens(OpStep(d, st, op, c).op) && OpStep(d, st, op, c).codeDraws == []
  {
  }

  /** The view after a call on tokens has run all its commands. */
  function AfterCall(d: Option<Time>, v: View, pid: Pid, cs: seq<Choice>, i: nat): View
    requires pid in v.ops && i <= |cs|
  {
    var (st, op) := RunFrom(d, v.store, v.ops[pid], cs, i);
    v.(ops := v.ops[pid := op], store := st, spentTokens := v.spentTokens
       + Tags(DrawsFrom(d, v.store, v.ops[pid], cs, i)))
  }

  lemma OneCommand(cfg: Config, reach: Reach, v: View, pid: Pid, c: Choice, e: Effect)
    requires ValidRegistry(cfg.reg) && Closed(cfg, reach) && Leads(reach, v) && pid in v.ops && OnTokens(v.ops[pid])
    requires e == OpStep(cfg.duration, v.store, v.ops[pid], c) && FreshDraws(e.tokenDraws, v.spentTokens)
    ensures Leads(reach, v.(ops := v.ops[pid := e.op], store := e.store,
                                spentTokens := v.spentTokens + Tags(e.tokenDraws)))
  {
    var log :| reach(v, log);
    TokenCommand(cfg.duration, v.store, v.ops[pid], c);
    CommandStep(cfg, reach, v, log, pid, c, e);
    assert v.spentCodes + Tags([]) == v.spentCodes;
  }

  /** One command, then the rest. */
  lemma AfterOne(d: Option<Time>, v: View, pid: Pid, cs: seq<Choice>, i: nat, v1: View)
    requires pid in v.ops && i < |cs| && !v.ops[pid].Done?
    requires var e := OpStep(d, v.store, v.ops[pid], cs[i]);
             v1 == v.(ops := v.ops[pid := e.op], store := e.store, spentTokens := v.spentTokens + Tags(e.tokenDraws))
    ensures AfterCall(d, v, pid, cs, i) == AfterCall(d, v1, pid, cs, i + 1)
  {
    var e := OpStep(d, v.store, v.ops[pid], cs[i]);
    TagsConcat(e.tokenDraws, DrawsFrom(d, e.store, e.op, cs, i + 1), v.spentTokens);
    Overwrite(v.ops, pid, e.op, RunFrom(d, e.store, e.op, cs, i + 1).1);
  }

  lemma AfterNone(d: Option<Time>, v: View, pid: Pid, cs: seq<Choice>, i: nat)
    requires pid in v.ops && i <= |cs| && (i == |cs| || v.ops[pid].Done?)
    ensures AfterCall(d, v, pid, cs, i) == v
  {
    assert v.spentTokens + Tags([]) == v.spentTokens && v.ops[pid := v.ops[pid]] == v.ops;
  }

  function AfterCommand(d: Option<Time>, v: View, pid: Pid, c: Choice): View
    requires pid in v.ops
  {
    var e := OpStep(d, v.store, v.ops[pid], c);
    v.(ops := v.ops[pid := e.op], store := e.store, spentTokens := v.spentTokens + Tags(e.tokenDraws))
  }

  predicate FreshCommand(d: Option<Time>, v: View, pid: Pid, c: Choice) {
    && pid in v.ops && OnTokens(v.ops[pid])
    && FreshDraws(OpStep(d, v.store, v.ops[pid], c).tokenDraws, v.spentTokens)
  }

  /** A property of views that fresh commands keep. */
  ghost predicate CommandsKeep(d: Option<Time>, leads: View -> bool) {
    forall v, pid, c :: leads(v) && FreshCommand(d, v, pid, c) ==> leads(AfterCommand(d, v, pid, c))
  }

  lemma {:induction false} CallKeeps(d: Option<Time>, leads: View -> bool, v: View, pid: Pid, cs: seq<Choice>, i: nat)
    requires CommandsKeep(d, leads) && leads(v) && pid in v.ops && i <= |cs| && OnTokens(v.ops[pid])
    requires FreshDraws(DrawsFrom(d, v.store, v.ops[pid], cs, i), v.spentTokens)
    ensures leads(AfterCall(d, v, pid, cs, i))
    decreases |cs| - i
  {
    if i == |cs| || v.ops[pid].Done? {
      AfterNone(d, v, pid, cs, i);
    } else {
      var e, v1 := OpStep(d, v.store, v.ops[pid], cs[i]), AfterCommand(d, v, pid, cs[i]);
      FreshParts(e.tokenDraws, DrawsFrom(d, e.store, e.op, cs, i + 1), v.spentTokens);
      TokenCommand(d, v.store, v.ops[pid], cs[i]);
      assert FreshCommand(d, v, pid, cs[i]);
      AfterOne(d, v, pid, cs, i, v1);
      CallKeeps(d, leads, v1, pid, cs, i + 1);
    }
  }

  lemma CallRuns(cfg: Config, reach: Reach, v: View, pid: Pid, cs: seq<Choice>, i: nat)
    requires ValidRegistry(cfg.reg) && Closed(cfg, reach) && Leads(reach, v) && pid in v.ops && i <= |cs|
    requires OnTokens(v.ops[pid])
    requires FreshDraws(DrawsFrom(cfg.duration, v.store, v.ops[pid], cs, i), v.spentTokens)
    ensures Leads(reach, AfterCall(cfg.duration, v, pid, cs, i))
  {
    var leads := (u: View) => Leads(reach, u);
    forall u, p, c | leads(u) && FreshCommand(cfg.duration, u, p, c)
      ensures leads(AfterCommand(cfg.duration, u, p, c))
    {
      OneCommand(cfg, reach, u, p, c, OpStep(cfg.duration, u.store, u.ops[p], c));
    }
    CallKeeps(cfg.duration, leads, v, pid, cs, i);
  }

  lemma TwoTags(u: u64, a: Tag, u': u64, r: Tag, spent: set<Tag>)
    requires a !in spent && r !in spent && a != r
    ensures FreshDraws([Draw(u, a), Draw(u', r)], spent) && Tags([Draw(u, a), Draw(u', r)]) == {a, r}
  {
    var draws := [Draw(u, a), Draw(u', r)];
    assert draws[0] in draws && draws[1] in draws;
  }

  lemma IssueRuns(cfg: Config, reach: Reach, v: View, pid: Pid, g: Grant, a: Tag, r: Tag, now: Time)
    requires ValidRegistry(cfg.reg) && Closed(cfg, reach) && Leads(reach, v) && pid in v.ops
    requires v.ops[pid] == IssueGetUsage(g)
    requires a !in v.store.access && r !in v.store.refresh && a !in v.spentTokens && r !in v.spentTokens && a != r
    ensures Leads(reach, v.(ops := v.ops[pid := Done(IssuedOk(a, r, g.until))],
                                store := AfterIssue(v.store, a, r, g),
                                spentTokens := v.spentTokens + {a, r}))
  {
    var cs := HealthyRun(4, 0, Some(a), Some(r), now);
    IssueDraws(cfg.duration, v.store, g, cs, a, r);
    IssueSucceeds(cfg.duration, v.store, g, a, r, now);
    TwoTags(UsageOf(v.store), a, WrappingAdd(UsageOf(v.store), 1), r, v.spentTokens);
    CallRuns(cfg, reach, v, pid, cs, 0);
  }

  lemma RefreshRuns(cfg: Config, reach: Reach, v: View, pid: Pid, key: Tag, grant: Grant, a: Tag, now: Time)
    requires ValidRegistry(cfg.reg) && Closed(cfg, reach) && Leads(reach, v) && pid in v.ops
    requires v.ops[pid] == RefreshHgetRefresh(key, grant)
    requires Linked(v.store, key) && v.store.tokenUsage.Some? && a !in v.store.access && a !in v.spentTokens
    ensures var g := SetDuration(cfg.duration, now, grant);
            Leads(reach, v.(ops := v.ops[pid := Done(RefreshedOk(a, g.until))],
                                store := AfterRefresh(v.store, key, a, g),
                                spentTokens := v.spentTokens + {a}))
  {
    var cs := HealthyRun(8, 2, Some(a), None, now);
    RefreshDraws(cfg.duration, v.store, key, grant, cs, a);
    RefreshSucceeds(cfg.duration, v.store, key, grant, a, now);
    var draws := [Draw(UsageOf(v.store), a)];
    assert draws[0] in draws;
    assert Tags(draws) == {a};
    CallRuns(cfg, reach, v, pid, cs, 0);
  }

  // --------------------------------------------------------------- flows move on

  lemma Moves(cfg: Config, reach: Reach, v: View, f: FlowId, now: Time)
    requires ValidRegistry(cfg.reg) && Closed(cfg, reach) && Leads(reach, v) && f in v.flows
    ensures var call := CallOf(cfg, v.ops, f, v.flows[f], now);
            Leads(reach, v.(flows := v.flows[f := LocalFlow(cfg, v.ops, f, v.flows[f], now)],
                                ops := if call.Some? then v.ops[call.value.0 := call.value.1] else v.ops))
  {
    var log :| reach(v, log);
    LocalStep(cfg, reach, v, log, f, now);
  }

  lemma RenewBegins(cfg: Config, reach: Reach, v: View, f: FlowId, request: Renew.Request)
    requires ValidRegistry(cfg.reg) && Closed(cfg, reach) && Leads(reach, v) && f !in v.flows && First(f) !in v.ops
    ensures Leads(reach, v.(flows := v.flows[f := Renewing(request, Renew.Initialize(request))]))
  {
    var log :| reach(v, log);
    BeginStep(cfg, reach, v, log, BeginRenew(f, request));
  }

  lemma OtherBegins(cfg: Config, reach: Reach, v: View, f: FlowId, g: Grant)
    requires ValidRegistry(cfg.reg) && Closed(cfg, reach) && Leads(reach, v) && f !in v.flows && First(f) !in v.ops
    ensures Leads(reach, v.(flows := v.flows[f := Other], ops := v.ops[First(f) := IssueGetUsage(g)]))
  {
    var log :| reach(v, log);
    BeginStep(cfg, reach, v, log, BeginOther(f, IssueGetUsage(g)));
  }

  lemma LookupCommand(cfg: Config, reach: Reach, v: View, pid: Pid, r: Tag, now: Time)
    requires ValidRegistry(cfg.reg) && Closed(cfg, reach)
    requires Leads(reach, v.(ops := v.ops[pid := RecoverRefreshHget(r)]))
    requires r in v.store.refresh
    ensures Leads(reach, v.(ops := v.ops[pid := Done(RefreshRecovered(r, Some(v.store.refresh[r].grant)))]))
  {
    var v1 := v.(ops := v.ops[pid := RecoverRefreshHget(r)]);
    var log :| reach(v1, log);
    var e := Quiet(v.store, Done(RefreshRecovered(r, Some(v.store.refresh[r].grant))));
    PlainStep(cfg, reach, v1, log, pid, HealthyChoice(None, None, now), e, []);
    Overwrite(v.ops, pid, RecoverRefreshHget(r), e.op);
  }

  /** A request for token `r` without header: whose it is shows when the token is looked up. */
  predicate Bare(request: Renew.Request, r: Tag) {
    request.valid && request.refreshToken == Some(r) && request.grantType == Some("refresh_token")
        && request.authorization.None?
  }

  /** A flow looks its token up. */
  lemma LookupRuns(cfg: Config, reach: Reach, v: View, f: FlowId, request: Renew.Request, r: Tag, now: Time)
    requires ValidRegistry(cfg.reg) && Closed(cfg, reach) && Leads(reach, v) && First(f) !in v.ops
    requires r in v.store.refresh
    requires f in v.flows && v.flows[f] == Renewing(request, Renew.Recovering(None, r))
    ensures Leads(reach, v.(ops := v.ops[First(f) := Done(RefreshRecovered(r, Some(v.store.refresh[r].grant)))]))
  {
    Moves(cfg, reach, v, f, now);
    assert v.flows[f := v.flows[f]] == v.flows;
    LookupCommand(cfg, reach, v, First(f), r, now);
  }

  /** What a flow has decided to publish. */
  function Decision(request: Renew.Request, g: Grant, r: Tag, now: Time): Renew.State {
    Renew.Validate(request.scope, g, r, now)
  }

  /** A flow whose client is public decides on what it looked up and starts its refresh. */
  lemma DecisionRuns(cfg: Config, reach: Reach, v: View, f: FlowId, request: Renew.Request, r: Tag, g: Grant, now: Time)
    requires ValidRegistry(cfg.reg) && Closed(cfg, reach) && Leads(reach, v) && IsPublic(cfg.reg, g.client)
    requires Second(f) !in v.ops
    requires f in v.flows && v.flows[f] == Renewing(request, Renew.Recovering(None, r))
    requires First(f) in v.ops && v.ops[First(f)] == Done(RefreshRecovered(r, Some(g)))
    requires Decision(request, g, r, now).Issuing?
    ensures var state := Decision(request, g, r, now);
            Leads(reach, v.(flows := v.flows[f := Renewing(request, state)],
                                ops := v.ops[Second(f) := RefreshHgetRefresh(r, state.grant)]))
  {
    CheckMeaning(cfg.reg, g.client, None);
    Renew.ValidateNarrows(request.scope, g, r, now);
    var co, state := Renewing(request, Renew.CoAuthenticating(g, r)), Renewing(request, Decision(request, g, r, now));
    var v1, v2 := v.(flows := v.flows[f := co]), v.(flows := v.flows[f := state]);
    Moves(cfg, reach, v, f, now);
    assert LocalFlow(cfg, v.ops, f, v.flows[f], now) == co;
    assert Leads(reach, v1);
    Moves(cfg, reach, v1, f, now);
    assert LocalFlow(cfg, v1.ops, f, v1.flows[f], now) == state;
    Overwrite(v.flows, f, co, state);
    assert Leads(reach, v2);
    StartRuns(cfg, reach, v2, f, request, now);
  }

  lemma StartRuns(cfg: Config, reach: Reach, v: View, f: FlowId, request: Renew.Request, now: Time)
    requires ValidRegistry(cfg.reg) && Closed(cfg, reach) && Leads(reach, v) && Second(f) !in v.ops
    requires f in v.flows && v.flows[f].Renewing? && v.flows[f].renew.Issuing?
    ensures var state := v.flows[f].renew;
            Leads(reach, v.(ops := v.ops[Second(f) := RefreshHgetRefresh(state.token, state.grant)]))
  {
    Moves(cfg, reach, v, f, now);
    assert LocalFlow(cfg, v.ops, f, v.flows[f], now) == v.flows[f];
    assert v.flows[f := v.flows[f]] == v.flows;
  }
}
