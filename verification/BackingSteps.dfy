/**
 * Every action of the server keeps the invariant of `Backing`. A command turns a call only into its own successor
 * and logs at most what that call stands for; a flow moves on only with what its call answered; and everything
 * else is as it was, so that `Reassemble` gives the invariant back. The results about whole runs are in
 * `Provenance`.
 */
module BackingSteps {
  import opened Prelude
  import opened Grants
  import opened Registrars
  import opened PkceAddons
  import opened Stores
  import opened Interleaving
  import opened CodeLedger
  import opened AuthorizationFlow
  import opened Flows
  import Auth = AuthorizationMachine
  import Redeem = AccessTokenMachine
  import opened Backing

  // ------------------------------------------------------------------ commands

  /** What a command may turn a call into, and what it may log. */
  ghost predicate Succession(op: Op, e: Effect) {
    && |e.events| <= 1
    && !e.op.AuthorizeGetUsage? && !e.op.ExtractHget? && !e.op.ImportHset?
    && (e.op.AuthorizeHset? ==> op.AuthorizeGetUsage? && e.op.grant == op.grant)
    && (e.op.ExtractHdel? ==> op == ExtractHget(e.op.code))
    && (RedeemedCode(e.op).Some? ==>
          || (op == e.op && e.events == [])
          || (op == ExtractHdel(e.op.outcome.code, e.op.outcome.grant.value)
              && e.events == [CodeTaken(e.op.outcome.code, e.op.outcome.grant.value)]))
    && (IssueGrant(e.op).Some? ==> IssueGrant(op) == IssueGrant(e.op))
    && (IsRefresh(e.op) ==> IsRefresh(op))
    && (e.events != [] ==>
          && (e.events[0].CodeCreated? ==> op.AuthorizeHset? && op.grant == e.events[0].grant)
          && (e.events[0].Minted? ==>
                IssueGrant(op) == Some(e.events[0].token.grant) || IsRefresh(op) || op.ImportHset?))
  }

  lemma IssueSucceeds(st: Store, op: Op, c: Choice)
    requires IsIssue(op)
    ensures Succession(op, IssueStep(st, op, c))
  {
  }

  lemma RefreshSucceeds(duration: Option<Time>, st: Store, op: Op, c: Choice)
    requires IsRefresh(op)
    ensures Succession(op, RefreshStep(duration, st, op, c))
  {
  }

  lemma CodeSucceeds(st: Store, op: Op, c: Choice)
    requires IsCode(op)
    ensures Succession(op, CodeStep(st, op, c))
  {
  }

  lemma CommandSucceeds(duration: Option<Time>, st: Store, op: Op, c: Choice)
    ensures Succession(op, OpStep(duration, st, op, c))
  {
    if IsIssue(op) {
      IssueSucceeds(st, op, c);
    } else if IsRefresh(op) {
      RefreshSucceeds(duration, st, op, c);
    } else if IsCode(op) {
      CodeSucceeds(st, op, c);
    }
  }

  lemma NewEntry(cfg: Config, w: World, v: World, pid: Pid, op: Op, e: Effect)
    requires Grows(w, v) && OpProv(cfg, w, pid, op) && Succession(op, e) && e.events != []
    requires v.flows == w.flows
    ensures EntryProv(cfg, v, |w.sys.log|, pid, e.events[0])
  {
    var f := FlowOf(pid);
    if e.events[0].Minted? && Issues(w, pid, f) {
      BackedGrows(cfg, w, v, f, IssueGrant(op).value, IssueGrant(op).value, |w.sys.log|, |w.sys.log|);
    }
  }

  lemma NewOp(cfg: Config, w: World, v: World, pid: Pid, op: Op, e: Effect)
    requires Grows(w, v) && OpProv(cfg, w, pid, op) && Succession(op, e)
    requires v.flows == w.flows && v.sys.log == w.sys.log + Entries(pid, e.events)
    ensures OpProv(cfg, v, pid, e.op)
  {
    var f := FlowOf(pid);
    OpProvGrows(cfg, w, v, pid, op);
    if RedeemedCode(e.op).Some? && op != e.op {
      assert v.sys.log[|w.sys.log|] == Entry(pid, e.events[0]);
    }
  }

  lemma MoveKeepsProv(cfg: Config, w: World, v: World, pid: Pid, e: Effect)
    requires ProvInv(cfg, w) && pid in w.sys.ops && Succession(w.sys.ops[pid], e)
    requires v.flows == w.flows && v.sys.ops == w.sys.ops[pid := e.op]
    requires v.sys.log == w.sys.log + Entries(pid, e.events)
    ensures ProvInv(cfg, v)
  {
    var op := w.sys.ops[pid];
    assert OpProv(cfg, w, pid, op);
    NewOp(cfg, w, v, pid, op, e);
    if e.events != [] {
      NewEntry(cfg, w, v, pid, op, e);
      assert v.sys.log[|w.sys.log|] == Entry(pid, e.events[0]);
    }
    FlowProvGrows(cfg, w, v, FlowOf(pid));
    Reassemble(cfg, w, v, pid, FlowOf(pid));
  }

  lemma CommandKeepsProv(cfg: Config, w: World, pid: Pid, c: Choice)
    requires ValidRegistry(cfg.reg) && ProvInv(cfg, w)
    ensures ProvInv(cfg, NextWorld(cfg, w, Command(pid, c)))
  {
    var v := NextWorld(cfg, w, Command(pid, c));
    if pid in w.sys.ops {
      CommandSucceeds(cfg.duration, w.sys.store, w.sys.ops[pid], c);
      MoveKeepsProv(cfg, w, v, pid, OpStep(cfg.duration, w.sys.store, w.sys.ops[pid], c));
    } else {
      assert v == w;
    }
  }

  lemma KillKeepsProv(cfg: Config, w: World, pid: Pid)
    requires ValidRegistry(cfg.reg) && ProvInv(cfg, w)
    ensures ProvInv(cfg, NextWorld(cfg, w, Kill(pid)))
  {
    var v := NextWorld(cfg, w, Kill(pid));
    if pid in w.sys.ops && !w.sys.ops[pid].Done? {
      MoveKeepsProv(cfg, w, v, pid, Quiet(w.sys.store, Done(Failed)));
    } else {
      assert v == w;
    }
  }

  // ------------------------------------------------------------- flows move on

  lemma ConsentGrantProv(cfg: Config, request: Auth.Request, owner: string, now: Time)
    requires ValidRegistry(cfg.reg) && Consented(cfg, request, owner, now).Some?
    ensures var g := Consented(cfg, request, owner, now).value;
            ExtendAuthorization(cfg.addons, request) == Some(g.extensions) && g.owner == owner
            && request.clientId == Some(g.client)
  {
    RedirectsOnlyToRegisteredUrls(cfg.reg, cfg.addons, request);
  }

  lemma NewFlowHasNoCall(cfg: Config, w: World, f: FlowId)
    requires ProvInv(cfg, w) && f !in w.flows
    ensures First(f) !in w.sys.ops
  {
    assert FlowOf(First(f)) == f;
    assert First(f) in w.sys.ops ==> OpProv(cfg, w, First(f), w.sys.ops[First(f)]);
  }

  /** A flow begins, perhaps together with its first call. */
  lemma NewFlowKeepsProv(cfg: Config, w: World, v: World, f: FlowId)
    requires ProvInv(cfg, w) && f !in w.flows && First(f) !in w.sys.ops
    requires f in v.flows && v.flows == w.flows[f := v.flows[f]] && v.sys.log == w.sys.log
    requires v.sys.ops == w.sys.ops || (First(f) in v.sys.ops
                                        && v.sys.ops == w.sys.ops[First(f) := v.sys.ops[First(f)]])
    requires FlowProv(cfg, v, f) && (First(f) in v.sys.ops ==> OpProv(cfg, v, First(f), v.sys.ops[First(f)]))
    ensures ProvInv(cfg, v)
  {
    Reassemble(cfg, w, v, First(f), f);
  }

  lemma ConsentKeepsProv(cfg: Config, w: World, f: FlowId, request: Auth.Request, owner: string, now: Time)
    requires ValidRegistry(cfg.reg) && ProvInv(cfg, w)
    ensures ProvInv(cfg, NextWorld(cfg, w, BeginConsent(f, request, owner, now)))
  {
    var v := NextWorld(cfg, w, BeginConsent(f, request, owner, now));
    if f in w.flows || Consented(cfg, request, owner, now).None? {
      assert v == w;
    } else {
      NewFlowHasNoCall(cfg, w, f);
      ConsentGrantProv(cfg, request, owner, now);
      NewFlowKeepsProv(cfg, w, v, f);
    }
  }

  lemma BeginKeepsProv(cfg: Config, w: World, a: Action)
    requires ValidRegistry(cfg.reg) && ProvInv(cfg, w)
    requires a.BeginRedeem? || a.BeginRenew? || a.BeginOther?
    ensures ProvInv(cfg, NextWorld(cfg, w, a))
  {
    var v := NextWorld(cfg, w, a);
    if a.flow in w.flows || (a.BeginOther? && !OtherOp(a.op)) {
      assert v == w;
    } else {
      NewFlowHasNoCall(cfg, w, a.flow);
      NewFlowKeepsProv(cfg, w, v, a.flow);
    }
  }

  /** What authentication establishes. */
  lemma AuthenticateStep(cfg: Config, request: Redeem.Request, st: Redeem.State)
    requires st.Authenticate? && st == Redeem.Validate(cfg.reg.parseUrl, request)
    requires Check(cfg.reg, st.client, st.passdata).Ok?
    ensures var st' := Redeem.Next(st, Redeem.Authenticated).0;
            && st'.Recover? && request.code == Some(st'.code) && ClientAuthenticated(cfg, request, st'.client)
  {
    Redeem.CredentialsMeaning(cfg.reg, request);
  }

  /** The code a redemption took was created by exactly one consent, which it can now be traced to. */
  lemma RecoverTraces(cfg: Config, w: World, f: FlowId, code: Tag, grant: Grant) returns (c: FlowId)
    requires ProvInv(cfg, w) && CodeInv(w.sys)
    requires f in w.flows && w.flows[f].Redeeming? && w.flows[f].tokenRequest.code == Some(code)
    requires Happened(w.sys.log, |w.sys.log|, First(f), CodeTaken(code, grant))
    ensures Traced(w, f, c, |w.sys.log|) && w.flows[c].grant == grant
  {
    var log := w.sys.log;
    var j :| 0 <= j < |log| && log[j] == Entry(First(f), CodeTaken(code, grant));
    assert CreatedIn(log[..j], code, grant);
    var i :| 0 <= i < j && log[..j][i].event == CodeCreated(code, grant);
    assert log[i] == log[..j][i];
    assert EntryProv(cfg, w, i, log[i].pid, log[i].event);
    c := FlowOf(log[i].pid);
    assert log[i] == Entry(First(c), CodeCreated(code, grant));
  }

  lemma RecoverStep(cfg: Config, w: World, f: FlowId, st: Redeem.State, grant: Option<Grant>, now: Time)
    requires ProvInv(cfg, w) && CodeInv(w.sys)
    requires f in w.flows && w.flows[f].Redeeming? && w.flows[f].redeem == st && st.Recover?
    requires grant.Some? ==> Happened(w.sys.log, |w.sys.log|, First(f), CodeTaken(st.code, grant.value))
    ensures var st' := Redeem.Next(st, Redeem.Recovered(grant, now)).0;
            st'.Failed? || (st'.Extend? && exists c :: HalfBacked(cfg, w, f, st', c))
  {
    var st' := Redeem.Next(st, Redeem.Recovered(grant, now)).0;
    assert FlowProv(cfg, w, f);
    if st'.Extend? {
      var c := RecoverTraces(cfg, w, f, st.code, grant.value);
      assert HalfBacked(cfg, w, f, st', c);
    }
  }

  lemma ExtendStep(cfg: Config, w: World, f: FlowId, st: Redeem.State, e: Extensions)
    requires ProvInv(cfg, w) && f in w.flows && w.flows[f].Redeeming? && w.flows[f].redeem == st && st.Extend?
    requires ExtendToken(cfg.digest, cfg.addons, w.flows[f].tokenRequest, st.extensions) == Some(e)
    ensures var st' := Redeem.Next(st, Redeem.Extended(e)).0;
            st'.Issue? && Backed(cfg, w, f, st'.grant, |w.sys.log|)
  {
    assert FlowProv(cfg, w, f);
    var st' := Redeem.Next(st, Redeem.Extended(e)).0;
    var c :| HalfBacked(cfg, w, f, st, c);
    assert BackedBy(cfg, w, f, st'.grant, c, |w.sys.log|);
  }

  lemma AnsweredExtract(cfg: Config, w: World, f: FlowId, st: Redeem.State)
    requires ProvInv(cfg, w) && f in w.flows && w.flows[f].Redeeming? && w.flows[f].redeem == st && st.Recover?
    requires Answer(w.sys.ops, First(f)).Some? && Answer(w.sys.ops, First(f)).value.Extracted?
    ensures var o := Answer(w.sys.ops, First(f)).value;
            o.grant.Some? ==> Happened(w.sys.log, |w.sys.log|, First(f), CodeTaken(st.code, o.grant.value))
  {
    assert OpProv(cfg, w, First(f), w.sys.ops[First(f)]);
    assert FlowProv(cfg, w, f);
  }

  lemma RedeemStep(cfg: Config, w: World, f: FlowId, now: Time)
    requires ProvInv(cfg, w) && CodeInv(w.sys) && f in w.flows && w.flows[f].Redeeming?
    ensures var request := w.flows[f].tokenRequest;
            RedeemProv(cfg, w, f, request, RedeemLocal(cfg, w.sys.ops, f, request, w.flows[f].redeem, now))
  {
    var request, st := w.flows[f].tokenRequest, w.flows[f].redeem;
    assert FlowProv(cfg, w, f);
    match st {
      case Authenticate(client, pass, _, _) =>
        if Check(cfg.reg, client, pass).Ok? { AuthenticateStep(cfg, request, st); }
      case Recover(_, _, _) =>
        var o := Answer(w.sys.ops, First(f));
        if o.Some? && o.value.Extracted? {
          AnsweredExtract(cfg, w, f, st);
          RecoverStep(cfg, w, f, st, o.value.grant, now);
        }
      case Extend(_, extensions) =>
        var e := ExtendToken(cfg.digest, cfg.addons, request, extensions);
        if e.Some? { ExtendStep(cfg, w, f, st, e.value); }
      case Issue(_) =>
      case Failed(_) =>
    }
  }

  /** The call a flow starts belongs to it. */
  lemma StartedIssue(cfg: Config, w: World, v: World, f: FlowId, now: Time, grant: Grant)
    requires Grows(w, v) && v.sys.log == w.sys.log && f in w.flows && Backed(cfg, w, f, grant, |w.sys.log|)
    ensures OpProv(cfg, v, Second(f), BeginIssue(cfg.duration, now, grant))
  {
    BackedGrows(cfg, w, v, f, grant, SetDuration(cfg.duration, now, grant), |w.sys.log|, |v.sys.log|);
    assert FlowOf(Second(f)) == f;
  }

  lemma StartedCall(cfg: Config, w: World, v: World, f: FlowId, now: Time)
    requires ProvInv(cfg, w) && Grows(w, v) && v.sys.log == w.sys.log
    requires f in w.flows && CallOf(cfg, w.sys.ops, f, w.flows[f], now).Some?
    ensures var call := CallOf(cfg, w.sys.ops, f, w.flows[f], now).value; OpProv(cfg, v, call.0, call.1)
  {
    assert FlowProv(cfg, w, f);
    assert FlowOf(First(f)) == f && FlowOf(Second(f)) == f;
    if w.flows[f].Redeeming? && w.flows[f].redeem.Issue? {
      StartedIssue(cfg, w, v, f, now, w.flows[f].redeem.grant);
    }
  }

  lemma RedeemProvGrows(cfg: Config, w: World, v: World, f: FlowId, request: Redeem.Request, st: Redeem.State)
    requires Grows(w, v) && RedeemProv(cfg, w, f, request, st)
    requires f in v.flows && v.flows[f] == Redeeming(request, st)
    ensures FlowProv(cfg, v, f)
  {
    if st.Extend? {
      var c :| HalfBacked(cfg, w, f, st, c);
      TracedGrows(w, v, f, c, |w.sys.log|, |v.sys.log|);
      assert HalfBacked(cfg, v, f, st, c);
    }
    if st.Issue? { BackedGrows(cfg, w, v, f, st.grant, st.grant, |w.sys.log|, |v.sys.log|); }
  }

  lemma MovedFlow(cfg: Config, w: World, v: World, f: FlowId, now: Time)
    requires ProvInv(cfg, w) && CodeInv(w.sys) && f in w.flows && f in v.flows && Grows(w, v)
    requires v.flows[f] == LocalFlow(cfg, w.sys.ops, f, w.flows[f], now)
    ensures FlowProv(cfg, v, f)
  {
    if w.flows[f].Redeeming? {
      RedeemStep(cfg, w, f, now);
      RedeemProvGrows(cfg, w, v, f, v.flows[f].tokenRequest, v.flows[f].redeem);
    } else if !w.flows[f].Renewing? {
      FlowProvGrows(cfg, w, v, f);
    }
  }

  lemma LocalKeepsProv(cfg: Config, w: World, f: FlowId, now: Time)
    requires ValidRegistry(cfg.reg) && ProvInv(cfg, w) && CodeInv(w.sys)
    ensures ProvInv(cfg, NextWorld(cfg, w, Local(f, now)))
  {
    var v := NextWorld(cfg, w, Local(f, now));
    if f !in w.flows {
      assert v == w;
      return;
    }
    var call := CallOf(cfg, w.sys.ops, f, w.flows[f], now);
    LocalShape(cfg, w, f, now);
    assert Grows(w, v);
    MovedFlow(cfg, w, v, f, now);
    if call.Some? {
      StartedCall(cfg, w, v, f, now);
      Reassemble(cfg, w, v, call.value.0, f);
    } else {
      if First(f) in w.sys.ops { OpProvGrows(cfg, w, v, First(f), w.sys.ops[First(f)]); }
      Reassemble(cfg, w, v, First(f), f);
    }
  }
}
