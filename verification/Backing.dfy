/**
 * What it means that a call, a flow or a log entry goes back to a consent of the owner, the invariant
 * made of it over the whole server, and that it survives when the log grows.
 */
module Backing {
  import opened Prelude
  import opened Grants
  import opened PkceAddons
  import opened Stores
  import opened Interleaving
  import opened Flows
  import Redeem = AccessTokenMachine

  // -------------------------------------------------------------- what is claimed

  /** Flow `f` took the code that consent `c` created; both happened before position `n` of the log. */
  ghost predicate Traced(w: World, f: FlowId, c: FlowId, n: nat) {
    && f in w.flows && w.flows[f].Redeeming? && w.flows[f].tokenRequest.code.Some?
    && c in w.flows && w.flows[c].Consenting? && n <= |w.sys.log|
    && var code := w.flows[f].tokenRequest.code.value;
    && Happened(w.sys.log, n, First(c), CodeCreated(code, w.flows[c].grant))
    && Happened(w.sys.log, n, First(f), CodeTaken(code, w.flows[c].grant))
  }

  ghost predicate Happened(log: seq<Entry>, n: nat, pid: Pid, event: Event)
    requires n <= |log|
  {
    exists i :: 0 <= i < n && log[i] == Entry(pid, event)
  }

  /** The request named this client in one place, with its accepted passphrase or as a public client. */
  ghost predicate ClientAuthenticated(cfg: Config, request: Redeem.Request, client: string) {
    Redeem.RedeemAuthorized(cfg.reg, request, client)
  }

  /** The token extensions accepted the request against the data stored with consent `c`. */
  ghost predicate ExtensionsAccepted(cfg: Config, w: World, f: FlowId, c: FlowId)
    requires f in w.flows && w.flows[f].Redeeming? && c in w.flows && w.flows[c].Consenting?
  {
    ExtendToken(cfg.digest, cfg.addons, w.flows[f].tokenRequest, w.flows[c].grant.extensions).Some?
  }

  /** `grant` may be issued to flow `f` on the strength of consent `c`. */
  ghost predicate BackedBy(cfg: Config, w: World, f: FlowId, grant: Grant, c: FlowId, n: nat) {
    && Traced(w, f, c, n)
    && SameAuthorization(grant, w.flows[c].grant)
    && ClientAuthenticated(cfg, w.flows[f].tokenRequest, grant.client)
    && ExtensionsAccepted(cfg, w, f, c)
  }

  ghost predicate Backed(cfg: Config, w: World, f: FlowId, grant: Grant, n: nat) {
    exists c :: BackedBy(cfg, w, f, grant, c, n)
  }

  // ---------------------------------------------------------------- invariant

  /** The grant an `issue` call is working with. */
  function IssueGrant(op: Op): Option<Grant> {
    match op
    case IssueGetUsage(grant) => Some(grant)
    case IssueHsetAccess(_, token, _) => Some(token.grant)
    case IssueHsetRefresh(_, token, _) => Some(token.grant)
    case IssueSetUsage(_, token, _) => Some(token.grant)
    case _ => None
  }

  /** Calls on codes belong to the flow that needs them. */
  ghost predicate CodeCallProv(w: World, pid: Pid, op: Op, f: FlowId)
    requires f in w.flows
  {
    && (op.AuthorizeGetUsage? || op.AuthorizeHset? ==>
          pid == First(f) && w.flows[f].Consenting? && op.grant == w.flows[f].grant)
    && (op.ExtractHget? || op.ExtractHdel? ==>
          pid == First(f) && w.flows[f].Redeeming? && w.flows[f].tokenRequest.code == Some(op.code))
    && (op.Done? && op.outcome.Extracted? && op.outcome.grant.Some? ==>
          && pid == First(f) && w.flows[f].Redeeming? && w.flows[f].tokenRequest.code == Some(op.outcome.code)
          && Happened(w.sys.log, |w.sys.log|, pid, CodeTaken(op.outcome.code, op.outcome.grant.value)))
  }

  /** The process is the one that issues for redemption `f`. */
  predicate Issues(w: World, pid: Pid, f: FlowId) {
    pid == Second(f) && f in w.flows && w.flows[f].Redeeming?
  }

  ghost predicate TokenCallProv(cfg: Config, w: World, pid: Pid, op: Op, f: FlowId)
    requires f in w.flows
  {
    && (IssueGrant(op).Some? && Issues(w, pid, f) ==> Backed(cfg, w, f, IssueGrant(op).value, |w.sys.log|))
    && (IssueGrant(op).Some? ==> Issues(w, pid, f) || w.flows[f].Other?)
    && (IsRefresh(op) ==> w.flows[f].Renewing?)
    && (op.ImportHset? ==> w.flows[f].Other?)
  }

  ghost predicate OpProv(cfg: Config, w: World, pid: Pid, op: Op) {
    var f := FlowOf(pid);
    f in w.flows && CodeCallProv(w, pid, op, f) && TokenCallProv(cfg, w, pid, op, f)
  }

  ghost predicate EntryProv(cfg: Config, w: World, i: nat, pid: Pid, event: Event) {
    var f := FlowOf(pid);
    && f in w.flows
    && (event.CodeCreated? ==> pid == First(f) && w.flows[f].Consenting? && event.grant == w.flows[f].grant)
    && (event.Minted? ==> Issues(w, pid, f) || w.flows[f].Other? || w.flows[f].Renewing?)
    && (event.Minted? && Issues(w, pid, f) ==> Backed(cfg, w, f, event.token.grant, i))
  }

  ghost predicate FlowProv(cfg: Config, w: World, f: FlowId)
    requires f in w.flows
  {
    match w.flows[f]
    case Consenting(request, owner, grant) =>
      ExtendAuthorization(cfg.addons, request) == Some(grant.extensions) && grant.owner == owner
      && request.clientId == Some(grant.client)
    case Redeeming(request, st) =>
      RedeemProv(cfg, w, f, request, st)
    case _ => true
  }

  /** What one iteration of the loop may leave behind in a redemption. */
  ghost predicate RedeemProv(cfg: Config, w: World, f: FlowId, request: Redeem.Request, st: Redeem.State) {
    && (st.Authenticate? ==> st == Redeem.Validate(cfg.reg.parseUrl, request))
    && (st.Recover? ==> request.code == Some(st.code) && ClientAuthenticated(cfg, request, st.client))
    && (st.Extend? ==> exists c :: HalfBacked(cfg, w, f, st, c))
    && (st.Issue? ==> Backed(cfg, w, f, st.grant, |w.sys.log|))
  }

  /** Between recovering the code and checking the extensions. */
  ghost predicate HalfBacked(cfg: Config, w: World, f: FlowId, st: Redeem.State, c: FlowId)
    requires st.Extend?
  {
    && Traced(w, f, c, |w.sys.log|)
    && SameAuthorization(st.saved, w.flows[c].grant) && st.extensions == w.flows[c].grant.extensions
    && ClientAuthenticated(cfg, w.flows[f].tokenRequest, st.saved.client)
  }

  ghost predicate ProvInv(cfg: Config, w: World) {
    && (forall pid :: pid in w.sys.ops ==> OpProv(cfg, w, pid, w.sys.ops[pid]))
    && (forall i :: 0 <= i < |w.sys.log| ==> EntryProv(cfg, w, i, w.sys.log[i].pid, w.sys.log[i].event))
    && (forall f :: f in w.flows ==> FlowProv(cfg, w, f))
  }

  // --------------------------------------------------- facts survive later steps

  predicate SameIdentity(a: Flow, b: Flow) {
    && (a.Consenting? ==> b == a)
    && (a.Redeeming? ==> b.Redeeming? && b.tokenRequest == a.tokenRequest)
    && (b.Redeeming? ==> a.Redeeming?)
    && (a.Renewing? ==> b.Renewing?) && (a.Other? ==> b.Other?)
  }

  ghost predicate Grows(w: World, v: World) {
    && w.sys.log <= v.sys.log
    && forall f :: f in w.flows ==> f in v.flows && SameIdentity(w.flows[f], v.flows[f])
  }

  lemma HappenedGrows(log: seq<Entry>, log': seq<Entry>, n: nat, m: nat, pid: Pid, event: Event)
    requires log <= log' && n <= |log| && n <= m <= |log'| && Happened(log, n, pid, event)
    ensures Happened(log', m, pid, event)
  {
    var i :| 0 <= i < n && log[i] == Entry(pid, event);
    assert log'[i] == log[i];
  }

  lemma TracedGrows(w: World, v: World, f: FlowId, c: FlowId, n: nat, m: nat)
    requires Grows(w, v) && Traced(w, f, c, n) && n <= m <= |v.sys.log|
    ensures Traced(v, f, c, m)
  {
    var code := w.flows[f].tokenRequest.code.value;
    HappenedGrows(w.sys.log, v.sys.log, n, m, First(c), CodeCreated(code, w.flows[c].grant));
    HappenedGrows(w.sys.log, v.sys.log, n, m, First(f), CodeTaken(code, w.flows[c].grant));
  }

  lemma BackedGrows(cfg: Config, w: World, v: World, f: FlowId, g: Grant, g': Grant, n: nat, m: nat)
    requires Grows(w, v) && Backed(cfg, w, f, g, n) && n <= m <= |v.sys.log|
    requires SameAuthorization(g, g')
    ensures Backed(cfg, v, f, g', m)
  {
    var c :| BackedBy(cfg, w, f, g, c, n);
    TracedGrows(w, v, f, c, n, m);
    assert BackedBy(cfg, v, f, g', c, m);
  }

  /** A call that does not move keeps its place. */
  lemma OpProvGrows(cfg: Config, w: World, v: World, pid: Pid, op: Op)
    requires Grows(w, v) && OpProv(cfg, w, pid, op)
    ensures OpProv(cfg, v, pid, op)
  {
    var f := FlowOf(pid);
    if op.Done? && op.outcome.Extracted? && op.outcome.grant.Some? {
      HappenedGrows(w.sys.log, v.sys.log, |w.sys.log|, |v.sys.log|, pid,
                    CodeTaken(op.outcome.code, op.outcome.grant.value));
    }
    if IssueGrant(op).Some? && Issues(w, pid, f) {
      BackedGrows(cfg, w, v, f, IssueGrant(op).value, IssueGrant(op).value, |w.sys.log|, |v.sys.log|);
    }
  }

  lemma EntryProvGrows(cfg: Config, w: World, v: World, i: nat, pid: Pid, event: Event)
    requires Grows(w, v) && EntryProv(cfg, w, i, pid, event) && i <= |v.sys.log|
    ensures EntryProv(cfg, v, i, pid, event)
  {
    var f := FlowOf(pid);
    if event.Minted? && Issues(w, pid, f) {
      BackedGrows(cfg, w, v, f, event.token.grant, event.token.grant, i, i);
    }
  }

  lemma FlowProvGrows(cfg: Config, w: World, v: World, f: FlowId)
    requires Grows(w, v) && f in w.flows && FlowProv(cfg, w, f) && v.flows[f] == w.flows[f]
    ensures FlowProv(cfg, v, f)
  {
    if w.flows[f].Redeeming? {
      var st := w.flows[f].redeem;
      if st.Extend? {
        var c :| HalfBacked(cfg, w, f, st, c);
        TracedGrows(w, v, f, c, |w.sys.log|, |v.sys.log|);
        assert HalfBacked(cfg, v, f, st, c);
      }
      if st.Issue? { BackedGrows(cfg, w, v, f, st.grant, st.grant, |w.sys.log|, |v.sys.log|); }
    }
  }

  /** A step that changes at most one call, one flow and the end of the log. */
  lemma Reassemble(cfg: Config, w: World, v: World, pid: Pid, f: FlowId)
    requires ProvInv(cfg, w) && Grows(w, v)
    requires forall q :: q in v.sys.ops && q != pid ==> q in w.sys.ops && v.sys.ops[q] == w.sys.ops[q]
    requires forall g :: g in v.flows && g != f ==> g in w.flows && v.flows[g] == w.flows[g]
    requires pid in v.sys.ops ==> OpProv(cfg, v, pid, v.sys.ops[pid])
    requires f in v.flows ==> FlowProv(cfg, v, f)
    requires forall i :: |w.sys.log| <= i < |v.sys.log| ==> EntryProv(cfg, v, i, v.sys.log[i].pid, v.sys.log[i].event)
    ensures ProvInv(cfg, v)
  {
    forall q | q in v.sys.ops ensures OpProv(cfg, v, q, v.sys.ops[q]) {
      if q != pid { OpProvGrows(cfg, w, v, q, w.sys.ops[q]); }
    }
    forall i | 0 <= i < |v.sys.log| ensures EntryProv(cfg, v, i, v.sys.log[i].pid, v.sys.log[i].event) {
      if i < |w.sys.log| {
        assert v.sys.log[i] == w.sys.log[i];
        EntryProvGrows(cfg, w, v, i, w.sys.log[i].pid, w.sys.log[i].event);
      }
    }
    forall g | g in v.flows ensures FlowProv(cfg, v, g) {
      if g != f { FlowProvGrows(cfg, w, v, g); }
    }
  }
}
