/**
 * Every action of the server keeps the invariant of `Families`. A command turns a refresh only into its own
 * successor, with the grant it was permitted, and an issue roots a new family; a flow validates only against the
 * grant its own lookup found; and everything else is as it was, so that `Reassemble` gives the invariant back. The
 * results about whole runs are in `RefreshFamily`.
 */
module FamilySteps {
  import opened Prelude
  import opened Grants
  import opened Registrars
  import opened Stores
  import opened Interleaving
  import opened SelfKeys
  import opened TokenIndex
  import opened Flows
  import Auth = AuthorizationMachine
  import Renew = RefreshMachine
  import opened Families

  // --------------------------------------------------- facts survive later steps

  lemma PermittedGrows(cfg: Config, w: World, v: World, f: FlowId, key: Tag, grant: Grant)
    requires Grows(w, v) && Permitted(cfg, w, f, key, grant)
    ensures Permitted(cfg, v, f, key, grant)
  {
  }

  lemma OpOwnedGrows(cfg: Config, w: World, v: World, p: Pid, op: Op)
    requires Grows(w, v) && OpOwned(cfg, w, p, op)
    ensures OpOwned(cfg, v, p, op)
  {
    if IsRefresh(op) { PermittedGrows(cfg, w, v, FlowOf(p), op.key, Target(op)); }
  }

  lemma RenewOkGrows(cfg: Config, w: World, v: World, f: FlowId, request: Renew.Request, st: Renew.State)
    requires Grows(w, v) && RenewOk(cfg, w, f, request, st)
    ensures RenewOk(cfg, v, f, request, st)
  {
    if st.Issuing? { PermittedGrows(cfg, w, v, f, st.token, st.grant); }
  }

  lemma EntryOkGrows(cfg: Config, w: World, v: World, p: Pid, event: Event)
    requires Grows(w, v) && EntryOk(cfg, w, p, event)
    ensures EntryOk(cfg, v, p, event)
  {
    var f := FlowOf(p);
    if event.Minted? && w.flows[f].Renewing? {
      PermittedGrows(cfg, w, v, f, event.token.refresh.value, event.token.grant);
    }
  }

  lemma RootLoggedGrows(w: World, v: World, r: Tag, root: Grant)
    requires Grows(w, v) && RootLogged(w, r, root)
    ensures RootLogged(v, r, root)
  {
    var j: nat :| RootAt(w, r, root, j);
    assert forall i :: 0 <= i <= j ==> v.sys.log[i] == w.sys.log[i];
    assert RootAt(v, r, root, j);
  }

  /** A step that changes at most one call, one flow and the end of the log. */
  lemma Reassemble(cfg: Config, w: World, v: World, pid: Pid, f: FlowId)
    requires FamilyInv(cfg, w) && Grows(w, v) && StoreRooted(v.roots, v.sys.store)
    requires forall q :: q in v.sys.ops && q != pid ==> q in w.sys.ops && v.sys.ops[q] == w.sys.ops[q]
    requires forall q :: q in v.sys.ops ==> OpRooted(v.roots, v.sys.ops[q])
    requires forall g :: g in v.flows && g != f ==> g in w.flows && v.flows[g] == w.flows[g]
    requires pid in v.sys.ops ==> OpOwned(cfg, v, pid, v.sys.ops[pid])
    requires f in v.flows ==> FlowOk(cfg, v, f)
    requires forall i :: |w.sys.log| <= i < |v.sys.log| ==> EntryOk(cfg, v, v.sys.log[i].pid, v.sys.log[i].event)
    requires forall r :: r in v.roots && r !in w.roots ==> r in v.sys.spentTokens && RootLogged(v, r, v.roots[r])
    ensures FamilyInv(cfg, v)
  {
    forall q | q in v.sys.ops ensures OpOwned(cfg, v, q, v.sys.ops[q]) {
      if q != pid { OpOwnedGrows(cfg, w, v, q, w.sys.ops[q]); }
    }
    forall g | g in v.flows ensures FlowOk(cfg, v, g) {
      if g != f {
        assert FlowOk(cfg, w, g);
        if w.flows[g].Renewing? { RenewOkGrows(cfg, w, v, g, w.flows[g].refreshRequest, w.flows[g].renew); }
      }
    }
    forall i | 0 <= i < |v.sys.log| ensures EntryOk(cfg, v, v.sys.log[i].pid, v.sys.log[i].event) {
      if i < |w.sys.log| {
        assert v.sys.log[i] == w.sys.log[i];
        EntryOkGrows(cfg, w, v, w.sys.log[i].pid, w.sys.log[i].event);
      }
    }
    forall r | r in v.roots ensures r in v.sys.spentTokens && RootLogged(v, r, v.roots[r]) {
      if r in w.roots { RootLoggedGrows(w, v, r, w.roots[r]); }
    }
  }

  // ------------------------------------------------------------------ commands

  function RootsAfter(roots: Roots, op: Op, c: Choice): Roots {
    if op.IssueHsetAccess? && c.fault.Executed() then roots[op.key := op.token.grant] else roots
  }

  /** What a command writes, carries on and mints stays in the family. */
  predicate RootEffect(roots: Roots, e: Effect) {
    && StoreRooted(roots, e.store)
    && OpRooted(roots, e.op)
    && (|e.events| == 1 && e.events[0].Minted? ==> TokenRooted(roots, e.events[0].token))
  }

  lemma IssueKeepsRoots(st: Store, op: Op, c: Choice, roots: Roots)
    requires IsIssue(op) && StoreRooted(roots, st) && OpRooted(roots, op) && OpSelfKeyed(op)
    requires FreshDraws(IssueStep(st, op, c).tokenDraws, roots.Keys)
    ensures RootEffect(RootsAfter(roots, op, c), IssueStep(st, op, c))
  {
    var e := IssueStep(st, op, c);
    assert StoreRooted(RootsAfter(roots, op, c), st);
    if e.op.IssueHsetAccess? { assert e.tokenDraws[1].tag == e.op.key; }
  }

  lemma RefreshKeepsRoots(d: Option<Time>, st: Store, op: Op, c: Choice, roots: Roots)
    requires IsRefresh(op) && StoreRooted(roots, st) && OpRooted(roots, op) && OpSelfKeyed(op)
    ensures RootEffect(roots, RefreshStep(d, st, op, c))
  {
  }

  lemma CommandKeepsRoots(d: Option<Time>, st: Store, op: Op, c: Choice, roots: Roots)
    requires StoreRooted(roots, st) && OpRooted(roots, op) && OpSelfKeyed(op)
    requires FreshDraws(OpStep(d, st, op, c).tokenDraws, roots.Keys)
    ensures RootEffect(RootsAfter(roots, op, c), OpStep(d, st, op, c))
  {
    if IsIssue(op) {
      IssueKeepsRoots(st, op, c, roots);
    } else if IsRefresh(op) {
      RefreshKeepsRoots(d, st, op, c, roots);
    }
  }

  /** What becomes of a call: a refresh keeps its tag and, up to the expiry, its grant. */
  predicate Succession(op: Op, e: Effect) {
    && |e.events| <= 1
    && (op.Done? ==> e.op == op)
    && (IsRefresh(op) ==>
          && (!e.op.Done? ==> IsRefresh(e.op) && e.op.key == op.key && SameButUntil(Target(e.op), Target(op)))
          && (e.events != [] ==> e.events[0].Minted? && e.events[0].token.grant == Target(op)))
    && (IsRefresh(e.op) ==> IsRefresh(op))
    && !e.op.RecoverRefreshHget?
    && (op.RecoverRefreshHget? ==> e.op.Done?)
    && (e.op.Done? && e.op.outcome.RefreshRecovered? && e.op != op ==> op == RecoverRefreshHget(e.op.outcome.key))
    && (e.events != [] && e.events[0].Minted? ==>
          || (IsRefresh(op) && op.RefreshHsetAccess? && e.events[0].token == op.token)
          || op == ImportHset(e.events[0].token.access, e.events[0].token.grant)
          || (op.IssueHsetAccess? && op.token == e.events[0].token))
  }

  lemma IssueSucceeds(st: Store, op: Op, c: Choice)
    requires IsIssue(op)
    ensures Succession(op, IssueStep(st, op, c))
  {
  }

  lemma RefreshSucceeds(d: Option<Time>, st: Store, op: Op, c: Choice)
    requires IsRefresh(op)
    ensures Succession(op, RefreshStep(d, st, op, c))
  {
  }

  lemma CommandSucceeds(d: Option<Time>, st: Store, op: Op, c: Choice)
    ensures Succession(op, OpStep(d, st, op, c))
  {
    if IsIssue(op) {
      IssueSucceeds(st, op, c);
    } else if IsRefresh(op) {
      RefreshSucceeds(d, st, op, c);
    }
  }

  lemma NewOp(cfg: Config, w: World, v: World, pid: Pid, op: Op, e: Effect)
    requires Grows(w, v) && v.flows == w.flows && OpOwned(cfg, w, pid, op) && Succession(op, e)
    ensures OpOwned(cfg, v, pid, e.op)
  {
    var f := FlowOf(pid);
    if IsRefresh(op) { PermittedGrows(cfg, w, v, f, op.key, Target(op)); }
  }

  lemma NewEntry(cfg: Config, w: World, v: World, pid: Pid, op: Op, e: Effect)
    requires Grows(w, v) && v.flows == w.flows && OpOwned(cfg, w, pid, op) && OpSelfKeyed(op)
    requires Succession(op, e) && RootEffect(v.roots, e) && e.events != []
    ensures EntryOk(cfg, v, pid, e.events[0])
  {
    if IsRefresh(op) { PermittedGrows(cfg, w, v, FlowOf(pid), op.key, Target(op)); }
  }

  /** The root a command adds is logged by the same command. */
  lemma NewRoot(cfg: Config, w: World, v: World, pid: Pid, op: Op)
    requires FamilyInv(cfg, w) && op.IssueHsetAccess? && OpSelfKeyed(op) && OpRooted(w.roots, op)
    requires OpOwned(cfg, w, pid, op)
    requires v.sys.log == w.sys.log + [Entry(pid, Minted(op.token))] && v.flows == w.flows
    ensures RootLogged(v, op.key, op.token.grant)
  {
    var n := |w.sys.log|;
    forall i | 0 <= i < n ensures !NamedBy(v.sys.log[i].event, op.key) {
      assert EntryOk(cfg, w, w.sys.log[i].pid, w.sys.log[i].event);
    }
    assert RootAt(v, op.key, op.token.grant, n);
  }

  lemma PendingKeyIsSpent(s: Sys, p: Pid)
    requires IndexInv(s) && p in s.ops && s.ops[p].IssueHsetAccess?
    ensures s.ops[p].key in s.spentTokens
  {
    var cs := ClaimsOf(s.ops);
    assert ClaimOk(s.store, cs[p], s.minted, s.spentTokens);
  }

  /** Pending issues hold different refresh tags, so one's root never clashes with another's. */
  lemma OthersStayRooted(s: Sys, roots: Roots, p: Pid, q: Pid, c: Choice)
    requires IndexInv(s) && p in s.ops && q in s.ops && p != q && OpRooted(roots, s.ops[p]) && OpRooted(roots, s.ops[q])
    ensures OpRooted(RootsAfter(roots, s.ops[p], c), s.ops[q])
  {
    var cs := ClaimsOf(s.ops);
    assert Apart(cs[p], cs[q]);
  }

  lemma AllStayRooted(cfg: Config, w: World, v: World, pid: Pid, e: Effect, c: Choice)
    requires FamilyInv(cfg, w) && IndexInv(w.sys) && pid in w.sys.ops && OpRooted(v.roots, e.op)
    requires v.sys.ops == w.sys.ops[pid := e.op] && v.roots == RootsAfter(w.roots, w.sys.ops[pid], c)
    ensures forall q :: q in v.sys.ops ==> OpRooted(v.roots, v.sys.ops[q])
  {
    forall q | q in v.sys.ops ensures OpRooted(v.roots, v.sys.ops[q]) {
      if q != pid { OthersStayRooted(w.sys, w.roots, pid, q, c); }
    }
  }

  lemma MoveKeepsFamily(cfg: Config, w: World, v: World, pid: Pid, e: Effect, c: Choice)
    requires FamilyInv(cfg, w) && IndexInv(w.sys) && SelfKeyed(w.sys) && pid in w.sys.ops
    requires Succession(w.sys.ops[pid], e) && RootEffect(v.roots, e)
    requires v.flows == w.flows && v.sys.ops == w.sys.ops[pid := e.op] && v.sys.store == e.store
    requires v.sys.log == w.sys.log + Entries(pid, e.events) && w.sys.spentTokens <= v.sys.spentTokens
    requires v.roots == RootsAfter(w.roots, w.sys.ops[pid], c)
    requires w.sys.ops[pid].IssueHsetAccess? && c.fault.Executed() ==> e.events == [Minted(w.sys.ops[pid].token)]
    ensures FamilyInv(cfg, v)
  {
    var op := w.sys.ops[pid];
    assert OpOwned(cfg, w, pid, op) && OpRooted(w.roots, op) && OpSelfKeyed(op);
    assert Grows(w, v);
    NewOp(cfg, w, v, pid, op, e);
    if e.events != [] {
      NewEntry(cfg, w, v, pid, op, e);
      assert Entries(pid, e.events) == [Entry(pid, e.events[0])];
    }
    AllStayRooted(cfg, w, v, pid, e, c);
    if v.roots != w.roots {
      NewRoot(cfg, w, v, pid, op);
      PendingKeyIsSpent(w.sys, pid);
    }
    UnmovedFlow(cfg, w, v, FlowOf(pid));
    Reassemble(cfg, w, v, pid, FlowOf(pid));
  }

  lemma UnmovedFlow(cfg: Config, w: World, v: World, f: FlowId)
    requires FamilyInv(cfg, w) && Grows(w, v) && f in w.flows && v.flows[f] == w.flows[f]
    ensures FlowOk(cfg, v, f)
  {
    assert FlowOk(cfg, w, f);
    if w.flows[f].Renewing? { RenewOkGrows(cfg, w, v, f, w.flows[f].refreshRequest, w.flows[f].renew); }
  }

  lemma FewerSpent(draws: seq<Draw>, spent: set<Tag>, some: set<Tag>)
    requires FreshDraws(draws, spent) && some <= spent
    ensures FreshDraws(draws, some)
  {
  }

  lemma CommandKeepsFamily(cfg: Config, w: World, pid: Pid, c: Choice)
    requires ValidRegistry(cfg.reg) && FamilyInv(cfg, w) && IndexInv(w.sys) && SelfKeyed(w.sys)
    requires FreshAction(cfg, w, Command(pid, c))
    ensures FamilyInv(cfg, NextWorld(cfg, w, Command(pid, c)))
  {
    var v := NextWorld(cfg, w, Command(pid, c));
    if pid in w.sys.ops {
      var op := w.sys.ops[pid];
      var e := OpStep(cfg.duration, w.sys.store, op, c);
      FewerSpent(e.tokenDraws, w.sys.spentTokens, w.roots.Keys);
      CommandKeepsRoots(cfg.duration, w.sys.store, op, c, w.roots);
      CommandSucceeds(cfg.duration, w.sys.store, op, c);
      MoveKeepsFamily(cfg, w, v, pid, e, c);
    } else {
      assert v == w;
    }
  }

  lemma KillKeepsFamily(cfg: Config, w: World, pid: Pid)
    requires ValidRegistry(cfg.reg) && FamilyInv(cfg, w) && IndexInv(w.sys) && SelfKeyed(w.sys)
    ensures FamilyInv(cfg, NextWorld(cfg, w, Kill(pid)))
  {
    var v := NextWorld(cfg, w, Kill(pid));
    if pid in w.sys.ops && !w.sys.ops[pid].Done? {
      assert v == World(w.sys.(ops := w.sys.ops[pid := Done(Failed)]), w.flows, w.roots, w.lookups);
      MoveKeepsFamily(cfg, w, v, pid, Quiet(w.sys.store, Done(Failed)), Choice(Refused, None, None, 0));
    } else {
      assert v == w;
    }
  }

  // ------------------------------------------------------------- flows move on

  lemma NarrowsTransitive(a: Grant, b: Grant, c: Grant)
    requires Narrows(a, b) && Narrows(b, c)
    ensures Narrows(a, c)
  {
  }

  /** A validated grant that the flow itself recovered may be refreshed. */
  lemma ValidatedIsPermitted(cfg: Config, w: World, f: FlowId, scope: Option<string>, g: Grant, token: string,
                             now: Time)
    requires f in w.flows && w.flows[f].Renewing? && w.flows[f].refreshRequest.refreshToken == Some(token)
    requires Renew.RefreshAuthorized(cfg.reg, w.flows[f].refreshRequest, g.client)
    requires Source(w.sys.ops, f) == Some(g) && Rooted(w.roots, token, g)
    ensures RenewOk(cfg, w, f, w.flows[f].refreshRequest, Renew.Validate(scope, g, token, now))
  {
    var st := Renew.Validate(scope, g, token, now);
    if st.Issuing? {
      Renew.ValidateNarrows(scope, g, token, now);
      NarrowsTransitive(st.grant, g, w.roots[token]);
    }
  }

  lemma AuthenticatedRenewal(cfg: Config, w: World, f: FlowId, request: Renew.Request, st: Renew.State,
                             scope: Option<string>, now: Time)
    requires st.Authenticating? && st == Renew.Initialize(request) && Check(cfg.reg, st.client, st.passdata).Ok?
    ensures RenewOk(cfg, w, f, request, Renew.Next(st, Renew.Authenticated(scope, now)).0)
  {
    CheckMeaning(cfg.reg, st.client, st.passdata);
  }

  lemma RecoveredRenewal(cfg: Config, w: World, f: FlowId, st: Renew.State, o: Outcome, now: Time)
    requires FamilyInv(cfg, w) && f in w.flows && w.flows[f].Renewing? && w.flows[f].renew == st && st.Recovering?
    requires Answer(w.sys.ops, First(f)) == Some(o) && o.RefreshRecovered?
    ensures var request := w.flows[f].refreshRequest;
            RenewOk(cfg, w, f, request, Renew.Next(st, Renew.Recovered(request.scope, o.grant, now)).0)
  {
    assert FlowOf(First(f)) == f;
    assert FlowOk(cfg, w, f);
    assert OpOwned(cfg, w, First(f), w.sys.ops[First(f)]) && OpRooted(w.roots, w.sys.ops[First(f)]);
    if o.grant.Some? && st.authenticated == Some(o.grant.value.client) {
      ValidatedIsPermitted(cfg, w, f, w.flows[f].refreshRequest.scope, o.grant.value, st.token, now);
    }
  }

  lemma RenewStep(cfg: Config, w: World, f: FlowId, now: Time)
    requires FamilyInv(cfg, w) && f in w.flows && w.flows[f].Renewing?
    ensures var request := w.flows[f].refreshRequest;
            RenewOk(cfg, w, f, request, RenewLocal(cfg, w.sys.ops, f, request, w.flows[f].renew, now))
  {
    var request, st := w.flows[f].refreshRequest, w.flows[f].renew;
    assert FlowOk(cfg, w, f);
    match st {
      case Authenticating(client, pass, _) =>
        if Check(cfg.reg, client, pass).Ok? { AuthenticatedRenewal(cfg, w, f, request, st, request.scope, now); }
      case Recovering(_, _) =>
        var o := Answer(w.sys.ops, First(f));
        if o.Some? && o.value.RefreshRecovered? { RecoveredRenewal(cfg, w, f, st, o.value, now); }
      case CoAuthenticating(grant, token) =>
        if Check(cfg.reg, grant.client, None).Ok? {
          CheckMeaning(cfg.reg, grant.client, None);
          ValidatedIsPermitted(cfg, w, f, request.scope, grant, token, now);
        }
      case Issuing(_, _) =>
      case Failed(_) =>
    }
  }

  /** A flow begins or moves on, perhaps starting a call. */
  lemma StartKeepsFamily(cfg: Config, w: World, v: World, pid: Pid, f: FlowId)
    requires FamilyInv(cfg, w) && pid !in w.sys.ops
    requires v.roots == w.roots && v.sys.store == w.sys.store && v.sys.log == w.sys.log
    requires w.sys.spentTokens <= v.sys.spentTokens
    requires v.sys.ops == w.sys.ops || (pid in v.sys.ops && v.sys.ops == w.sys.ops[pid := v.sys.ops[pid]])
    requires f in v.flows && v.flows == w.flows[f := v.flows[f]] && (f in w.flows ==> SameKind(w.flows[f], v.flows[f]))
    requires FlowOk(cfg, v, f)
    requires pid in v.sys.ops ==> OpOwned(cfg, v, pid, v.sys.ops[pid]) && OpRooted(v.roots, v.sys.ops[pid])
    ensures FamilyInv(cfg, v)
  {
    Reassemble(cfg, w, v, pid, f);
  }

  lemma NewFlowHasNoCall(cfg: Config, w: World, f: FlowId)
    requires FamilyInv(cfg, w) && f !in w.flows
    ensures First(f) !in w.sys.ops
  {
    assert FlowOf(First(f)) == f;
    assert First(f) in w.sys.ops ==> OpOwned(cfg, w, First(f), w.sys.ops[First(f)]);
  }

  lemma ConsentKeepsFamily(cfg: Config, w: World, f: FlowId, request: Auth.Request, owner: string, now: Time)
    requires ValidRegistry(cfg.reg) && FamilyInv(cfg, w)
    ensures FamilyInv(cfg, NextWorld(cfg, w, BeginConsent(f, request, owner, now)))
  {
    var v := NextWorld(cfg, w, BeginConsent(f, request, owner, now));
    if f in w.flows || Consented(cfg, request, owner, now).None? {
      assert v == w;
    } else {
      NewFlowHasNoCall(cfg, w, f);
      StartKeepsFamily(cfg, w, v, First(f), f);
    }
  }

  lemma BeginKeepsFamily(cfg: Config, w: World, a: Action)
    requires ValidRegistry(cfg.reg) && FamilyInv(cfg, w)
    requires a.BeginRedeem? || a.BeginRenew? || a.BeginOther?
    ensures FamilyInv(cfg, NextWorld(cfg, w, a))
  {
    var v := NextWorld(cfg, w, a);
    if a.flow in w.flows || (a.BeginOther? && !OtherOp(a.op)) {
      assert v == w;
    } else {
      NewFlowHasNoCall(cfg, w, a.flow);
      StartKeepsFamily(cfg, w, v, First(a.flow), a.flow);
    }
  }

  lemma StartedCall(cfg: Config, w: World, v: World, f: FlowId, now: Time)
    requires FamilyInv(cfg, w) && Grows(w, v) && v.roots == w.roots
    requires f in w.flows && CallOf(cfg, w.sys.ops, f, w.flows[f], now).Some?
    ensures var call := CallOf(cfg, w.sys.ops, f, w.flows[f], now).value;
            OpOwned(cfg, v, call.0, call.1) && OpRooted(v.roots, call.1)
  {
    assert FlowOk(cfg, w, f);
    assert FlowOf(First(f)) == f && FlowOf(Second(f)) == f;
    if w.flows[f].Renewing? && w.flows[f].renew.Issuing? {
      PermittedGrows(cfg, w, v, f, w.flows[f].renew.token, w.flows[f].renew.grant);
    }
  }

  lemma LocalKeepsFamily(cfg: Config, w: World, f: FlowId, now: Time)
    requires ValidRegistry(cfg.reg) && FamilyInv(cfg, w)
    ensures FamilyInv(cfg, NextWorld(cfg, w, Local(f, now)))
  {
    var v := NextWorld(cfg, w, Local(f, now));
    if f !in w.flows {
      assert v == w;
      return;
    }
    LocalShape(cfg, w, f, now);
    assert Grows(w, v);
    if w.flows[f].Renewing? {
      RenewStep(cfg, w, f, now);
      RenewOkGrows(cfg, w, v, f, v.flows[f].refreshRequest, v.flows[f].renew);
    }
    var call := CallOf(cfg, w.sys.ops, f, w.flows[f], now);
    if call.Some? {
      StartedCall(cfg, w, v, f, now);
      StartKeepsFamily(cfg, w, v, call.value.0, f);
    } else {
      var pid := First(f);
      if pid in w.sys.ops { OpOwnedGrows(cfg, w, v, pid, w.sys.ops[pid]); }
      Reassemble(cfg, w, v, pid, f);
    }
  }
}
