/**
 * Every action of the server keeps refreshes in order. The latest token of a refresh tag is the one in the hash, or the
 * one that the call holding the tag has read or written; whoever looked the tag up found the latest token of that
 * moment; and a token in the log narrows what its flow had found. A command changes this only for its own call, which
 * only one call at a time can be for a tag. The results about whole runs are in `RefreshOrder`.
 */
module RefreshOrderSteps {
  import opened Prelude
  import opened Registrars
  import opened Stores
  import opened Interleaving
  import opened SelfKeys
  import opened TokenIndex
  import opened Flows
  import F = Families

  // -------------------------------------------------------------- what is claimed

  predicate NoneNamed(log: seq<Entry>, r: Tag, from: nat, to: nat)
    requires to <= |log|
  {
    forall i :: from <= i < to ==> !F.NamedBy(log[i].event, r)
  }

  /** Entry `j` minted the latest token with refresh tag `r` before position `n`. */
  predicate LatestAt(log: seq<Entry>, r: Tag, n: nat, j: nat) {
    j < n <= |log| && F.NamedBy(log[j].event, r) && NoneNamed(log, r, j + 1, n)
  }

  ghost predicate LatestIs(log: seq<Entry>, r: Tag, n: nat, token: Token) {
    exists j: nat :: LatestAt(log, r, n, j) && log[j].event.token == token
  }

  /** Another refresh flow minted a token with tag `r` between positions `n` and `i`. */
  ghost predicate Overtaken(w: World, f: FlowId, r: Tag, n: nat, i: nat) {
    exists k: nat :: n <= k < i < |w.sys.log| && OtherRefresh(w, f, r, k)
  }

  predicate OtherRefresh(w: World, f: FlowId, r: Tag, k: nat) {
    && k < |w.sys.log| && F.NamedBy(w.sys.log[k].event, r)
    && var g := FlowOf(w.sys.log[k].pid); g != f && g in w.flows && w.flows[g].Renewing?
  }

  // ---------------------------------------------------------------- invariant

  predicate Publishing(op: Op) {
    op.IssueHsetRefresh? || op.RefreshHsetRefresh?
  }

  predicate Found(op: Op) {
    op.Done? && op.outcome.RefreshRecovered? && op.outcome.grant.Some?
  }

  ghost predicate OpInOrder(w: World, p: Pid, op: Op) {
    && (Publishing(op) ==> LatestIs(w.sys.log, op.key, |w.sys.log|, op.token))
    && (Found(op) ==>
          && p in w.lookups && w.lookups[p] <= |w.sys.log|
          && exists token :: LatestIs(w.sys.log, op.outcome.key, w.lookups[p], token)
              && token.grant == op.outcome.grant.value)
  }

  /** A token of a refresh flow comes after the flow's lookup; any other token is the first of its tag. */
  predicate EntryInOrder(w: World, i: nat)
    requires i < |w.sys.log|
  {
    var Entry(p, event) := w.sys.log[i];
    var f := FlowOf(p);
    event.Minted? && event.token.refresh.Some? ==>
      && f in w.flows
      && (if w.flows[f].Renewing? then p == Second(f) && First(f) in w.lookups && w.lookups[First(f)] <= i
          else NoneNamed(w.sys.log, event.token.refresh.value, 0, i))
  }

  ghost predicate OrderInv(w: World) {
    && (forall r :: r in w.sys.store.refresh ==> LatestIs(w.sys.log, r, |w.sys.log|, w.sys.store.refresh[r]))
    && (forall p :: p in w.sys.ops ==> OpInOrder(w, p, w.sys.ops[p]))
    && (forall i: nat :: i < |w.sys.log| ==> EntryInOrder(w, i))
    && (forall p :: p in w.lookups ==> p in w.sys.ops && w.sys.ops[p].Done?)
  }

  // ------------------------------------------------------------------ commands

  predicate Shape(st: Store, op: Op, e: Effect) {
    && |e.events| <= 1
    && (op.Done? ==> e.op == op) && (op.RecoverRefreshHget? ==> e.op.Done?)
    && (e.events != [] && e.events[0].Minted? ==>
          && e.store.refresh == st.refresh
          && (((op.IssueHsetAccess? || op.RefreshHsetAccess?) && e.events[0].token == op.token)
              || (op.ImportHset? && e.events[0].token.refresh.None?)))
    && (Publishing(e.op) ==>
          && (op.IssueHsetAccess? || op.RefreshHsetAccess?)
          && e.op.key == op.key && e.op.token == op.token && e.events == [Minted(op.token)])
    && (forall r :: r in e.store.refresh ==>
          || (r in st.refresh && e.store.refresh[r] == st.refresh[r])
          || (Publishing(op) && r == op.key && e.store.refresh[r] == op.token && e.events == []))
    && (Found(e.op) && e.op != op ==>
          && op == RecoverRefreshHget(e.op.outcome.key) && e.events == [] && e.op.outcome.key in st.refresh
          && e.op.outcome.grant.value == st.refresh[e.op.outcome.key].grant)
  }

  lemma IssueShape(st: Store, op: Op, c: Choice)
    requires IsIssue(op)
    ensures Shape(st, op, IssueStep(st, op, c))
  {
  }

  lemma RefreshShape(d: Option<Time>, st: Store, op: Op, c: Choice)
    requires IsRefresh(op)
    ensures Shape(st, op, RefreshStep(d, st, op, c))
  {
  }

  lemma CodeShape(st: Store, op: Op, c: Choice)
    requires IsCode(op)
    ensures Shape(st, op, CodeStep(st, op, c))
  {
  }

  lemma CommandShape(d: Option<Time>, st: Store, op: Op, c: Choice)
    ensures Shape(st, op, OpStep(d, st, op, c))
  {
    if IsIssue(op) {
      IssueShape(st, op, c);
    } else if IsRefresh(op) {
      RefreshShape(d, st, op, c);
    } else if IsCode(op) {
      CodeShape(st, op, c);
    }
  }

  /** A token stays the latest while no other of its tag is minted, */
  lemma LatestGrows(log: seq<Entry>, more: seq<Entry>, r: Tag, token: Token)
    requires LatestIs(log, r, |log|, token) && |more| <= 1
    requires more != [] ==> !F.NamedBy(more[0].event, r)
    ensures LatestIs(log + more, r, |log + more|, token)
  {
    var all := log + more;
    var j: nat :| LatestAt(log, r, |log|, j) && log[j].event.token == token;
    assert all[j] == log[j];
    assert NoneNamed(all, r, j + 1, |all|) by {
      forall i | j + 1 <= i < |all| ensures !F.NamedBy(all[i].event, r) {
        assert i < |log| ==> all[i] == log[i];
      }
    }
    assert LatestAt(all, r, |all|, j);
  }

  /** and was the latest at an earlier position for good. */
  lemma LatestStays(log: seq<Entry>, more: seq<Entry>, r: Tag, n: nat, token: Token)
    requires LatestIs(log, r, n, token)
    ensures LatestIs(log + more, r, n, token)
  {
    var all := log + more;
    var j: nat :| LatestAt(log, r, n, j) && log[j].event.token == token;
    assert forall i :: 0 <= i < n ==> all[i] == log[i];
    assert LatestAt(all, r, n, j);
  }

  /** Who is about to mint a token with tag `r` holds the tag: its entry is away, and nobody publishes it. */
  lemma MinterHolds(s: Sys, p: Pid)
    requires IndexInv(s) && p in s.ops && (s.ops[p].IssueHsetAccess? || s.ops[p].RefreshHsetAccess?)
    ensures s.ops[p].key !in s.store.refresh
    ensures forall q :: q in s.ops && q != p && Publishing(s.ops[q]) ==> s.ops[q].key != s.ops[p].key
  {
    var cs := ClaimsOf(s.ops);
    assert ClaimOk(s.store, cs[p], s.minted, s.spentTokens);
    forall q | q in s.ops && q != p && Publishing(s.ops[q]) ensures s.ops[q].key != s.ops[p].key {
      assert Apart(cs[p], cs[q]);
    }
  }

  /** What one command leaves to be shown: its log entry concerns no tag that is present or being published. */
  ghost predicate Undisturbed(s: Sys, p: Pid, more: seq<Entry>) {
    && |more| <= 1
    && forall r :: more != [] && F.NamedBy(more[0].event, r) ==>
         r !in s.store.refresh && forall q :: q in s.ops && q != p && Publishing(s.ops[q]) ==> s.ops[q].key != r
  }

  lemma CommandUndisturbed(s: Sys, p: Pid, e: Effect)
    requires IndexInv(s) && SelfKeyed(s) && p in s.ops && Shape(s.store, s.ops[p], e)
    ensures Undisturbed(s, p, Entries(p, e.events))
  {
    assert OpSelfKeyed(s.ops[p]);
    if s.ops[p].IssueHsetAccess? || s.ops[p].RefreshHsetAccess? { MinterHolds(s, p); }
  }

  lemma StoreStaysInOrder(w: World, p: Pid, e: Effect)
    requires OrderInv(w) && p in w.sys.ops && Shape(w.sys.store, w.sys.ops[p], e)
    requires Undisturbed(w.sys, p, Entries(p, e.events))
    ensures var log := w.sys.log + Entries(p, e.events);
            forall r :: r in e.store.refresh ==> LatestIs(log, r, |log|, e.store.refresh[r])
  {
    var more := Entries(p, e.events);
    var log := w.sys.log + more;
    forall r | r in e.store.refresh ensures LatestIs(log, r, |log|, e.store.refresh[r]) {
      if r in w.sys.store.refresh && e.store.refresh[r] == w.sys.store.refresh[r] {
        LatestGrows(w.sys.log, more, r, e.store.refresh[r]);
      } else {
        assert OpInOrder(w, p, w.sys.ops[p]);
        LatestGrows(w.sys.log, more, r, e.store.refresh[r]);
      }
    }
  }

  /** Another call keeps its place. */
  lemma OtherOpInOrder(w: World, v: World, p: Pid, q: Pid, more: seq<Entry>)
    requires q in w.sys.ops && OpInOrder(w, q, w.sys.ops[q]) && p != q && Undisturbed(w.sys, p, more)
    requires v.sys.log == w.sys.log + more && (q in w.lookups ==> q in v.lookups && v.lookups[q] == w.lookups[q])
    ensures OpInOrder(v, q, w.sys.ops[q])
  {
    var op := w.sys.ops[q];
    if Publishing(op) { LatestGrows(w.sys.log, more, op.key, op.token); }
    if Found(op) {
      var token :| LatestIs(w.sys.log, op.outcome.key, w.lookups[q], token) && token.grant == op.outcome.grant.value;
      LatestStays(w.sys.log, more, op.outcome.key, w.lookups[q], token);
    }
  }

  lemma MovedOpInOrder(w: World, v: World, p: Pid, e: Effect)
    requires OrderInv(w) && SelfKeyed(w.sys) && p in w.sys.ops && Shape(w.sys.store, w.sys.ops[p], e)
    requires v.sys.log == w.sys.log + Entries(p, e.events)
    requires v.lookups == if w.sys.ops[p].RecoverRefreshHget? then w.lookups[p := |w.sys.log|] else w.lookups
    ensures OpInOrder(v, p, e.op)
  {
    var op := w.sys.ops[p];
    assert OpInOrder(w, p, op) && OpSelfKeyed(op);
    if Publishing(e.op) {
      assert v.sys.log[|w.sys.log|].event == Minted(op.token);
      assert LatestAt(v.sys.log, op.key, |v.sys.log|, |w.sys.log|);
    }
    if Found(e.op) {
      if e.op == op {
        var token :| LatestIs(w.sys.log, op.outcome.key, w.lookups[p], token) && token.grant == op.outcome.grant.value;
        LatestStays(w.sys.log, Entries(p, e.events), op.outcome.key, w.lookups[p], token);
      } else {
        var key := e.op.outcome.key;
        assert v.sys.log == w.sys.log;
        assert LatestIs(v.sys.log, key, v.lookups[p], w.sys.store.refresh[key]);
      }
    }
  }

  predicate LookupsStay(w: World, v: World) {
    forall p :: p in w.lookups ==> p in v.lookups && v.lookups[p] == w.lookups[p]
  }

  lemma OldEntryInOrder(w: World, v: World, i: nat)
    requires i < |w.sys.log| && EntryInOrder(w, i) && w.sys.log <= v.sys.log && LookupsStay(w, v)
    requires forall f :: f in w.flows ==> f in v.flows && F.SameKind(w.flows[f], v.flows[f])
    ensures EntryInOrder(v, i)
  {
    assert forall k :: 0 <= k <= i ==> v.sys.log[k] == w.sys.log[k];
  }

  /** The first token of a tag: nobody named it before. */
  lemma NewTagIsUnnamed(cfg: Config, w: World, r: Tag)
    requires F.FamilyInv(cfg, w) && r !in w.roots
    ensures NoneNamed(w.sys.log, r, 0, |w.sys.log|)
  {
    forall i | 0 <= i < |w.sys.log| ensures !F.NamedBy(w.sys.log[i].event, r) {
      assert F.EntryOk(cfg, w, w.sys.log[i].pid, w.sys.log[i].event);
    }
  }

  /** Who refreshes has looked the token up before. */
  lemma RefresherLookedUp(cfg: Config, w: World, p: Pid)
    requires F.FamilyInv(cfg, w) && OrderInv(w) && p in w.sys.ops && IsRefresh(w.sys.ops[p])
    ensures var f := FlowOf(p);
            && p == Second(f) && f in w.flows && w.flows[f].Renewing?
            && First(f) in w.lookups && w.lookups[First(f)] <= |w.sys.log|
  {
    var f := FlowOf(p);
    assert F.OpOwned(cfg, w, p, w.sys.ops[p]);
    assert First(f) in w.sys.ops && Found(w.sys.ops[First(f)]);
    assert OpInOrder(w, First(f), w.sys.ops[First(f)]);
  }

  lemma NewEntryInOrder(cfg: Config, w: World, v: World, p: Pid, e: Effect)
    requires F.FamilyInv(cfg, w) && OrderInv(w) && SelfKeyed(w.sys) && p in w.sys.ops
    requires Shape(w.sys.store, w.sys.ops[p], e)
    requires e.events != [] && v.sys.log == w.sys.log + [Entry(p, e.events[0])] && v.flows == w.flows
    requires LookupsStay(w, v)
    ensures EntryInOrder(v, |w.sys.log|)
  {
    var op := w.sys.ops[p];
    assert F.OpOwned(cfg, w, p, op) && F.OpRooted(w.roots, op) && OpSelfKeyed(op);
    assert v.sys.log[|w.sys.log|] == Entry(p, e.events[0]);
    if op.RefreshHsetAccess? {
      RefresherLookedUp(cfg, w, p);
    } else if op.IssueHsetAccess? {
      NewTagIsUnnamed(cfg, w, op.key);
      assert forall k :: 0 <= k < |w.sys.log| ==> v.sys.log[k] == w.sys.log[k];
    }
  }

  lemma MoveKeepsOrder(cfg: Config, w: World, v: World, p: Pid, e: Effect)
    requires OrderInv(w) && F.FamilyInv(cfg, w) && IndexInv(w.sys) && SelfKeyed(w.sys) && p in w.sys.ops
    requires Shape(w.sys.store, w.sys.ops[p], e)
    requires v.sys.store == e.store && v.sys.ops == w.sys.ops[p := e.op]
    requires v.sys.log == w.sys.log + Entries(p, e.events)
    requires v.flows == w.flows
    requires v.lookups == if w.sys.ops[p].RecoverRefreshHget? then w.lookups[p := |w.sys.log|] else w.lookups
    ensures OrderInv(v)
  {
    var more := Entries(p, e.events);
    CommandUndisturbed(w.sys, p, e);
    StoreStaysInOrder(w, p, e);
    MovedOpInOrder(w, v, p, e);
    assert LookupsStay(w, v);
    forall q | q in v.sys.ops ensures OpInOrder(v, q, v.sys.ops[q]) {
      if q != p { OtherOpInOrder(w, v, p, q, more); }
    }
    forall i: nat | i < |v.sys.log| ensures EntryInOrder(v, i) {
      if i < |w.sys.log| {
        OldEntryInOrder(w, v, i);
      } else {
        assert more == [Entry(p, e.events[0])];
        NewEntryInOrder(cfg, w, v, p, e);
      }
    }
  }

  /** A step that starts or kills a call, or moves a flow. */
  lemma QuietKeepsOrder(w: World, v: World, p: Pid)
    requires OrderInv(w) && v.sys.store == w.sys.store && v.sys.log == w.sys.log && v.lookups == w.lookups
    requires v.sys.ops == w.sys.ops || (p in v.sys.ops && v.sys.ops == w.sys.ops[p := v.sys.ops[p]])
    requires v.sys.ops != w.sys.ops ==>
              !Publishing(v.sys.ops[p]) && !Found(v.sys.ops[p]) && (p in w.sys.ops ==> !w.sys.ops[p].Done?)
    requires forall f :: f in w.flows ==> f in v.flows && F.SameKind(w.flows[f], v.flows[f])
    ensures OrderInv(v)
  {
    forall q | q in v.sys.ops ensures OpInOrder(v, q, v.sys.ops[q]) {
      if v.sys.ops == w.sys.ops || q != p { assert OpInOrder(w, q, w.sys.ops[q]); }
    }
    forall i: nat | i < |v.sys.log| ensures EntryInOrder(v, i) {
      OldEntryInOrder(w, v, i);
    }
  }

  lemma CommandKeepsOrder(cfg: Config, w: World, p: Pid, c: Choice)
    requires ValidRegistry(cfg.reg) && OrderInv(w) && F.FamilyInv(cfg, w) && IndexInv(w.sys) && SelfKeyed(w.sys)
    ensures OrderInv(NextWorld(cfg, w, Command(p, c)))
  {
    var v := NextWorld(cfg, w, Command(p, c));
    if p in w.sys.ops {
      CommandShape(cfg.duration, w.sys.store, w.sys.ops[p], c);
      MoveKeepsOrder(cfg, w, v, p, OpStep(cfg.duration, w.sys.store, w.sys.ops[p], c));
    } else {
      assert v == w;
    }
  }

  lemma LocalKeepsOrder(cfg: Config, w: World, f: FlowId, now: Time)
    requires ValidRegistry(cfg.reg) && OrderInv(w)
    ensures OrderInv(NextWorld(cfg, w, Local(f, now)))
  {
    var v := NextWorld(cfg, w, Local(f, now));
    if f in w.flows {
      LocalShape(cfg, w, f, now);
      var call := CallOf(cfg, w.sys.ops, f, w.flows[f], now);
      QuietKeepsOrder(w, v, if call.Some? then call.value.0 else 0);
    } else {
      assert v == w;
    }
  }

  lemma KillKeepsOrder(cfg: Config, w: World, p: Pid)
    requires ValidRegistry(cfg.reg) && OrderInv(w)
    ensures OrderInv(NextWorld(cfg, w, Kill(p)))
  {
    QuietKeepsOrder(w, NextWorld(cfg, w, Kill(p)), p);
  }

  lemma BeginKeepsOrder(cfg: Config, w: World, a: Action)
    requires ValidRegistry(cfg.reg) && OrderInv(w)
    requires (a.BeginConsent? || a.BeginRedeem? || a.BeginRenew? || a.BeginOther?)
    ensures OrderInv(NextWorld(cfg, w, a))
  {
    QuietKeepsOrder(w, NextWorld(cfg, w, a), First(a.flow));
  }
}
