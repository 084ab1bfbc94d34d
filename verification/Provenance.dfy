/**
 * Where the tokens of the code flow come from: in every run of the whole server with non-repeating tags,
 * each goes back to one consent of the owner, which serves no other.
 */
module Provenance {
  import opened Grants
  import opened Registrars
  import opened PkceAddons
  import opened Stores
  import opened Interleaving
  import opened CodeLedger
  import opened Journal
  import opened Flows
  import opened Backing
  import opened BackingSteps

  ghost predicate ServerInv(cfg: Config, w: World) {
    ProvInv(cfg, w) && CodeInv(w.sys) && JournalInv(w.sys) && forall k :: Balanced(w.sys, k)
  }

  lemma ActionKeepsServer(cfg: Config, w: World, a: Action)
    requires ValidRegistry(cfg.reg) && ServerInv(cfg, w) && FreshAction(cfg, w, a)
    ensures ServerInv(cfg, NextWorld(cfg, w, a))
  {
    match a {
      case Command(pid, c) => CommandKeepsProv(cfg, w, pid, c);
      case Kill(pid) => KillKeepsProv(cfg, w, pid);
      case Local(f, now) => LocalKeepsProv(cfg, w, f, now);
      case BeginConsent(f, request, owner, now) => ConsentKeepsProv(cfg, w, f, request, owner, now);
      case _ => BeginKeepsProv(cfg, w, a);
    }
    var move := SysMove(cfg, w, a);
    if move.Some? {
      StepKeepsCodes(cfg.duration, w.sys, move.value);
      StepKeepsJournal(cfg.duration, w.sys, move.value);
      forall k ensures Balanced(NextWorld(cfg, w, a).sys, k) { StepKeepsBalance(cfg.duration, w.sys, move.value, k); }
    }
  }

  lemma {:induction false} RunKeepsServer(cfg: Config, w: World, acts: seq<Action>)
    requires ValidRegistry(cfg.reg) && ServerInv(cfg, w) && FreshActions(cfg, w, acts)
    ensures ServerInv(cfg, RunWorld(cfg, w, acts))
    decreases |acts|
  {
    if acts != [] {
      ActionKeepsServer(cfg, w, acts[0]);
      RunKeepsServer(cfg, NextWorld(cfg, w, acts[0]), acts[1..]);
    }
  }

  lemma InitServer(cfg: Config, w: World)
    requires InitWorld(w)
    ensures ServerInv(cfg, w)
  {
    forall k ensures Balanced(w.sys, k) {
      assert Redeemers(w.sys, k) == {};
    }
  }

  /**
   * Section 4.1.3 of RFC 6749: whenever a redemption has minted a token, some consent came before it
   * with the same owner, client, redirect url and scope, whose code this redemption took; the client
   * was authenticated with what its request presented, and the token extensions accepted the request
   * against the data stored with that consent.
   */
  lemma TokensTraceToConsent(cfg: Config, w: World, acts: seq<Action>, i: nat, f: FlowId)
    requires ValidRegistry(cfg.reg) && InitWorld(w) && FreshActions(cfg, w, acts)
    requires i < |RunWorld(cfg, w, acts).sys.log| && RunWorld(cfg, w, acts).sys.log[i].event.Minted?
    requires Issues(RunWorld(cfg, w, acts), RunWorld(cfg, w, acts).sys.log[i].pid, f)
    ensures var v := RunWorld(cfg, w, acts);
            exists c :: BackedBy(cfg, v, f, v.sys.log[i].event.token.grant, c, i)
  {
    InitServer(cfg, w);
    RunKeepsServer(cfg, w, acts);
    var v := RunWorld(cfg, w, acts);
    assert EntryProv(cfg, v, i, v.sys.log[i].pid, v.sys.log[i].event);
    assert FlowOf(Second(f)) == f;
  }

  /** Tokens are minted by redemptions, by refreshes and by users outside the flows, and by nobody else. */
  lemma MintersAreKnown(cfg: Config, w: World, acts: seq<Action>, i: nat)
    requires ValidRegistry(cfg.reg) && InitWorld(w) && FreshActions(cfg, w, acts)
    requires i < |RunWorld(cfg, w, acts).sys.log| && RunWorld(cfg, w, acts).sys.log[i].event.Minted?
    ensures var v := RunWorld(cfg, w, acts);
            var f := FlowOf(v.sys.log[i].pid);
            f in v.flows && (Issues(v, v.sys.log[i].pid, f) || v.flows[f].Other? || v.flows[f].Renewing?)
  {
    InitServer(cfg, w);
    RunKeepsServer(cfg, w, acts);
    var v := RunWorld(cfg, w, acts);
    assert EntryProv(cfg, v, i, v.sys.log[i].pid, v.sys.log[i].event);
  }

  lemma {:induction false} TakenTwiceCounts(log: seq<Entry>, k: Tag, i: nat, j: nat)
    requires i <= j < |log| && Shows(log[i].event, k, Taken) && Shows(log[j].event, k, Taken)
    ensures Count(log, k, Taken) >= if i < j then 2 else 1
  {
    var front := log[..|log| - 1];
    if j < |front| {
      TakenTwiceCounts(front, k, i, j);
    } else if i < |front| {
      TakenTwiceCounts(front, k, i, i);
    }
  }

  lemma TakenByOne(s: Sys, k: Tag, g: Grant, p: Pid, q: Pid, n: nat, m: nat)
    requires CodeInv(s) && Balanced(s, k) && n <= |s.log| && m <= |s.log|
    requires Happened(s.log, n, p, CodeTaken(k, g)) && Happened(s.log, m, q, CodeTaken(k, g))
    ensures p == q
  {
    var i :| 0 <= i < n && s.log[i] == Entry(p, CodeTaken(k, g));
    var j :| 0 <= j < m && s.log[j] == Entry(q, CodeTaken(k, g));
    CountAtMostOnce(s.log, k);
    TakenTwiceCounts(s.log, k, if i <= j then i else j, if i <= j then j else i);
  }

  lemma CreatesOneCode(s: Sys, k: Tag, l: Tag, g: Grant, p: Pid, n: nat, m: nat)
    requires OncePerCall(s.log) && n <= |s.log| && m <= |s.log|
    requires Happened(s.log, n, p, CodeCreated(k, g)) && Happened(s.log, m, p, CodeCreated(l, g))
    ensures k == l
  {
  }

  /** A consent is traced to by one redemption only. */
  lemma OneRedemptionPerConsent(cfg: Config, w: World, f: FlowId, g: FlowId, c: FlowId, n: nat, m: nat)
    requires ServerInv(cfg, w) && Traced(w, f, c, n) && Traced(w, g, c, m)
    ensures f == g
  {
    var k, l := w.flows[f].tokenRequest.code.value, w.flows[g].tokenRequest.code.value;
    CreatesOneCode(w.sys, k, l, w.flows[c].grant, First(c), n, m);
    assert Balanced(w.sys, k);
    TakenByOne(w.sys, k, w.flows[c].grant, First(f), First(g), n, m);
  }

  /** No consent leads to two tokens, whichever redemptions minted them. */
  lemma NoConsentServesTwice(cfg: Config, w: World, acts: seq<Action>, i: nat, f: FlowId, j: nat, g: FlowId, c: FlowId)
    requires ValidRegistry(cfg.reg) && InitWorld(w) && FreshActions(cfg, w, acts)
    requires i < |RunWorld(cfg, w, acts).sys.log| && j < |RunWorld(cfg, w, acts).sys.log|
    requires Issues(RunWorld(cfg, w, acts), RunWorld(cfg, w, acts).sys.log[i].pid, f)
    requires Issues(RunWorld(cfg, w, acts), RunWorld(cfg, w, acts).sys.log[j].pid, g)
    requires Traced(RunWorld(cfg, w, acts), f, c, i) && Traced(RunWorld(cfg, w, acts), g, c, j)
    ensures i == j
  {
    InitServer(cfg, w);
    RunKeepsServer(cfg, w, acts);
    var v := RunWorld(cfg, w, acts);
    OneRedemptionPerConsent(cfg, v, f, g, c, i, j);
    assert v.sys.log[i].pid == v.sys.log[j].pid;
  }

  /**
   * Section 4.6 of RFC 7636: with one required pkce addon installed and its identifier unshared, the
   * redemption presented a verifier that matches the challenge of the request consented to.
   */
  lemma TokensWereVerified(cfg: Config, w: World, acts: seq<Action>, i: nat, f: FlowId, pkce: Pkce)
    requires ValidRegistry(cfg.reg) && InitWorld(w) && FreshActions(cfg, w, acts)
    requires PkceInstalled(cfg.addons, pkce) && pkce.required
    requires i < |RunWorld(cfg, w, acts).sys.log| && RunWorld(cfg, w, acts).sys.log[i].event.Minted?
    requires Issues(RunWorld(cfg, w, acts), RunWorld(cfg, w, acts).sys.log[i].pid, f)
    ensures var v := RunWorld(cfg, w, acts);
            exists c :: Traced(v, f, c, i) && VerifierMatches(cfg.digest, v.flows[c].authRequest,
                                                              v.flows[f].tokenRequest)
  {
    TokensTraceToConsent(cfg, w, acts, i, f);
    InitServer(cfg, w);
    RunKeepsServer(cfg, w, acts);
    var v := RunWorld(cfg, w, acts);
    var c :| BackedBy(cfg, v, f, v.sys.log[i].event.token.grant, c, i);
    assert FlowProv(cfg, v, c);
    AcceptedVerifierMatches(cfg.digest, cfg.addons, pkce, v.flows[c].authRequest, v.flows[f].tokenRequest);
  }
}
