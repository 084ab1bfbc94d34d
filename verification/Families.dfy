/** What belongs together in the family of a refresh tag, and the invariant made of it over the whole server. */
module Families {
  import opened Prelude
  import opened Grants
  import opened Stores
  import opened Interleaving
  import opened Flows
  import Renew = RefreshMachine

  // -------------------------------------------------------------- what is claimed

  /** The grant the flow read before deciding. */
  function Source(ops: map<Pid, Op>, f: FlowId): Option<Grant> {
    if First(f) in ops && ops[First(f)].Done? && ops[First(f)].outcome.RefreshRecovered?
    then ops[First(f)].outcome.grant else None
  }

  /** Flow `f` may turn refresh tag `key` into a token for `grant`. */
  predicate Permitted(cfg: Config, w: World, f: FlowId, key: Tag, grant: Grant) {
    && f in w.flows && w.flows[f].Renewing?
    && w.flows[f].refreshRequest.refreshToken == Some(key)
    && Renew.RefreshAuthorized(cfg.reg, w.flows[f].refreshRequest, grant.client)
    && Source(w.sys.ops, f).Some? && Narrows(grant, Source(w.sys.ops, f).value)
  }

  predicate NamedBy(e: Event, r: Tag) {
    e.Minted? && e.token.refresh == Some(r)
  }

  /** Entry `j` is the first to mint a token with refresh tag `r`. */
  predicate FirstNaming(log: seq<Entry>, r: Tag, j: nat) {
    j < |log| && NamedBy(log[j].event, r) && forall i :: 0 <= i < j ==> !NamedBy(log[i].event, r)
  }

  // ---------------------------------------------------------------- invariant

  type Roots = map<Tag, Grant>

  predicate Rooted(roots: Roots, r: Tag, g: Grant) {
    r in roots && Narrows(g, roots[r])
  }

  predicate TokenRooted(roots: Roots, t: Token) {
    t.refresh.Some? ==> Rooted(roots, t.refresh.value, t.grant)
  }

  predicate StoreRooted(roots: Roots, st: Store) {
    && (forall k :: k in st.access ==> TokenRooted(roots, st.access[k]))
    && (forall r :: r in st.refresh ==> Rooted(roots, r, st.refresh[r].grant))
  }

  predicate OpRooted(roots: Roots, op: Op) {
    && (IsRefresh(op) ==> Rooted(roots, op.key, Target(op)))
    && (op.IssueHsetAccess? ==> op.key !in roots)
    && (op.IssueHsetRefresh? ==> Rooted(roots, op.key, op.token.grant))
    && (op.Done? && op.outcome.RefreshRecovered? && op.outcome.grant.Some? ==>
          Rooted(roots, op.outcome.key, op.outcome.grant.value))
  }

  /** Which flow a call works for. */
  predicate OpOwned(cfg: Config, w: World, pid: Pid, op: Op) {
    var f := FlowOf(pid);
    && f in w.flows
    && (IsRefresh(op) ==> pid == Second(f) && Permitted(cfg, w, f, op.key, Target(op)))
    && (pid == First(f) && w.flows[f].Renewing? ==>
          && (op.RecoverRefreshHget? ==> w.flows[f].refreshRequest.refreshToken == Some(op.key))
          && (op.Done? && op.outcome.RefreshRecovered? ==>
                w.flows[f].refreshRequest.refreshToken == Some(op.outcome.key)))
    && (w.flows[f].Renewing? ==> IsRefresh(op) || op.Done? || op.RecoverRefreshHget?)
  }

  predicate RenewOk(cfg: Config, w: World, f: FlowId, request: Renew.Request, st: Renew.State) {
    && (st.Authenticating? ==> st == Renew.Initialize(request))
    && (st.Recovering? ==>
          && request.refreshToken == Some(st.token)
          && (st.authenticated.None? ==> request.authorization.None?)
          && (st.authenticated.Some? ==>
                request.authorization.Some? && Renew.RefreshAuthorized(cfg.reg, request, st.authenticated.value)))
    && (st.CoAuthenticating? ==>
          && request.refreshToken == Some(st.token) && request.authorization.None?
          && Rooted(w.roots, st.token, st.grant) && Source(w.sys.ops, f) == Some(st.grant))
    && (st.Issuing? ==> Rooted(w.roots, st.token, st.grant) && Permitted(cfg, w, f, st.token, st.grant))
  }

  predicate FlowOk(cfg: Config, w: World, f: FlowId)
    requires f in w.flows
  {
    w.flows[f].Renewing? ==> RenewOk(cfg, w, f, w.flows[f].refreshRequest, w.flows[f].renew)
  }

  predicate EntryOk(cfg: Config, w: World, pid: Pid, event: Event) {
    var f := FlowOf(pid);
    event.Minted? ==>
      && TokenRooted(w.roots, event.token)
      && f in w.flows
      && (w.flows[f].Renewing? ==>
            event.token.refresh.Some? && Permitted(cfg, w, f, event.token.refresh.value, event.token.grant))
  }

  /** Entry `j` is the first to name `r`, and it was not written by a refresh flow. */
  predicate RootAt(w: World, r: Tag, root: Grant, j: nat) {
    && FirstNaming(w.sys.log, r, j) && w.sys.log[j].event.token.grant == root
    && FlowOf(w.sys.log[j].pid) in w.flows && !w.flows[FlowOf(w.sys.log[j].pid)].Renewing?
  }

  ghost predicate RootLogged(w: World, r: Tag, root: Grant) {
    exists j: nat :: RootAt(w, r, root, j)
  }

  ghost predicate FamilyInv(cfg: Config, w: World) {
    && StoreRooted(w.roots, w.sys.store)
    && (forall p :: p in w.sys.ops ==> OpRooted(w.roots, w.sys.ops[p]) && OpOwned(cfg, w, p, w.sys.ops[p]))
    && (forall f :: f in w.flows ==> FlowOk(cfg, w, f))
    && (forall i :: 0 <= i < |w.sys.log| ==> EntryOk(cfg, w, w.sys.log[i].pid, w.sys.log[i].event))
    && (forall r :: r in w.roots ==> r in w.sys.spentTokens && RootLogged(w, r, w.roots[r]))
  }

  predicate SameKind(a: Flow, b: Flow) {
    && (a.Renewing? <==> b.Renewing?)
    && (a.Renewing? ==> a.refreshRequest == b.refreshRequest)
  }

  /** Flows keep their kind, finished calls their answer, and roots are never replaced. */
  predicate Grows(w: World, v: World) {
    && (forall f :: f in w.flows ==> f in v.flows && SameKind(w.flows[f], v.flows[f]))
    && (forall p :: p in w.sys.ops && w.sys.ops[p].Done? ==> p in v.sys.ops && v.sys.ops[p] == w.sys.ops[p])
    && (forall r :: r in w.roots ==> r in v.roots && v.roots[r] == w.roots[r])
    && w.sys.log <= v.sys.log
    && w.sys.spentTokens <= v.sys.spentTokens
  }
}
