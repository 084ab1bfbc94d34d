/** How refreshes of one token follow each other when flows interleave, and when one overtakes another. */
module RefreshOrder {
  import opened Prelude
  import opened Grants
  import opened Registrars
  import opened Stores
  import opened Interleaving
  import opened Journal
  import opened Flows
  import F = Families
  import R = RefreshFamily
  import opened RefreshOrderSteps

  ghost predicate ServerInv(cfg: Config, w: World) {
    R.ServerInv(cfg, w) && OrderInv(w) && JournalInv(w.sys)
  }

  lemma ActionKeepsServer(cfg: Config, w: World, a: Action)
    requires ValidRegistry(cfg.reg) && ServerInv(cfg, w) && FreshAction(cfg, w, a)
    ensures ServerInv(cfg, NextWorld(cfg, w, a))
  {
    R.ActionKeepsFamily(cfg, w, a);
    match a {
      case Command(p, c) => CommandKeepsOrder(cfg, w, p, c);
      case Kill(p) => KillKeepsOrder(cfg, w, p);
      case Local(f, now) => LocalKeepsOrder(cfg, w, f, now);
      case _ => BeginKeepsOrder(cfg, w, a);
    }
    var move := SysMove(cfg, w, a);
    if move.Some? { StepKeepsJournal(cfg.duration, w.sys, move.value); }
  }

  lemma {:induction false} RunKeepsServer(cfg: Config, w: World, acts: seq<Action>)
    requires ValidRegistry(cfg.reg) && ServerInv(cfg, w) && FreshActions(cfg, w, acts)
    ensures ServerInv(cfg, RunWorld(cfg, w, acts))
    decreases |acts|
  {
    if acts != [] {
      ActionKeepsServer(cfg, w, acts[0]);
      RunKeepsServer(cfg, NextWorld(cfg, w, acts[0]), acts[1..]);
    }
  }

  /** Whoever minted a token of the tag after the flow's lookup was another refresh flow. */
  lemma LaterIsOtherRefresh(w: World, f: FlowId, r: Tag, j: nat, k: nat, i: nat)
    requires OrderInv(w) && JournalInv(w.sys) && j < k < i < |w.sys.log|
    requires F.NamedBy(w.sys.log[j].event, r) && F.NamedBy(w.sys.log[k].event, r)
    requires w.sys.log[i].pid == Second(f)
    ensures OtherRefresh(w, f, r, k)
  {
    assert EntryInOrder(w, k);
  }

  /** In terms of the invariant: position `n` is the flow's lookup. */
  lemma NarrowsOrOvertaken(w: World, f: FlowId, r: Tag, n: nat, i: nat, source: Grant) returns (j: nat)
    requires OrderInv(w) && JournalInv(w.sys) && n <= i < |w.sys.log| && w.sys.log[i].pid == Second(f)
    requires exists token :: LatestIs(w.sys.log, r, n, token) && token.grant == source
    ensures LatestAt(w.sys.log, r, i, j) && (w.sys.log[j].event.token.grant == source || Overtaken(w, f, r, n, i))
  {
    var token :| LatestIs(w.sys.log, r, n, token) && token.grant == source;
    var first: nat :| LatestAt(w.sys.log, r, n, first) && w.sys.log[first].event.token == token;
    if NoneNamed(w.sys.log, r, n, i) {
      j := first;
    } else {
      j := LastNamed(w.sys.log, r, n, i);
      LaterIsOtherRefresh(w, f, r, first, j, i);
    }
  }

  lemma {:induction false} LastNamed(log: seq<Entry>, r: Tag, n: nat, i: nat) returns (j: nat)
    requires n <= i <= |log| && !NoneNamed(log, r, n, i)
    ensures n <= j && LatestAt(log, r, i, j)
    decreases i
  {
    if F.NamedBy(log[i - 1].event, r) {
      j := i - 1;
    } else {
      j := LastNamed(log, r, n, i - 1);
    }
  }

  /** The grant a flow looked up was the latest of its tag at that time. */
  lemma SourceIsLatest(cfg: Config, w: World, f: FlowId, r: Tag)
    requires F.FamilyInv(cfg, w) && OrderInv(w) && f in w.flows && w.flows[f].Renewing? && F.Source(w.sys.ops, f).Some?
    requires w.flows[f].refreshRequest.refreshToken == Some(r)
    ensures First(f) in w.lookups && w.lookups[First(f)] <= |w.sys.log|
    ensures exists t :: LatestIs(w.sys.log, r, w.lookups[First(f)], t) && t.grant == F.Source(w.sys.ops, f).value
  {
    assert FlowOf(First(f)) == f;
    assert F.OpOwned(cfg, w, First(f), w.sys.ops[First(f)]);
    assert OpInOrder(w, First(f), w.sys.ops[First(f)]);
  }

  lemma LookedUpBefore(cfg: Config, w: World, i: nat, f: FlowId)
    requires F.FamilyInv(cfg, w) && OrderInv(w)
    requires i < |w.sys.log| && w.sys.log[i].event.Minted? && FlowOf(w.sys.log[i].pid) == f
    requires f in w.flows && w.flows[f].Renewing?
    ensures var token := w.sys.log[i].event.token;
            && w.sys.log[i].pid == Second(f) && token.refresh.Some? && First(f) in w.lookups && w.lookups[First(f)] <= i
            && w.flows[f].refreshRequest.refreshToken == token.refresh
            && F.Source(w.sys.ops, f).Some? && Narrows(token.grant, F.Source(w.sys.ops, f).value)
  {
    assert F.EntryOk(cfg, w, w.sys.log[i].pid, w.sys.log[i].event);
    assert EntryInOrder(w, i);
  }

  lemma InitServer(cfg: Config, w: World)
    requires InitWorld(w)
    ensures ServerInv(cfg, w)
  {
  }

  lemma NarrowsInState(cfg: Config, w: World, i: nat, f: FlowId)
    requires ServerInv(cfg, w)
    requires i < |w.sys.log| && w.sys.log[i].event.Minted? && FlowOf(w.sys.log[i].pid) == f
    requires f in w.flows && w.flows[f].Renewing?
    ensures var token := w.sys.log[i].event.token;
            && token.refresh.Some? && First(f) in w.lookups && w.lookups[First(f)] <= i
            && exists j: nat :: LatestAt(w.sys.log, token.refresh.value, i, j)
                                && (Narrows(token.grant, w.sys.log[j].event.token.grant)
                                    || Overtaken(w, f, token.refresh.value, w.lookups[First(f)], i))
  {
    LookedUpBefore(cfg, w, i, f);
    var token := w.sys.log[i].event.token;
    SourceIsLatest(cfg, w, f, token.refresh.value);
    var j := NarrowsOrOvertaken(w, f, token.refresh.value, w.lookups[First(f)], i, F.Source(w.sys.ops, f).value);
  }

  /**
   * In every run of the server, a token minted by a refresh flow narrows the latest token of its refresh tag
   * before it, unless another refresh flow minted one between this flow's lookup and its own token.
   */
  lemma RefreshNarrowsTheLatestUnlessOvertaken(cfg: Config, w: World, acts: seq<Action>, i: nat, f: FlowId)
    requires ValidRegistry(cfg.reg) && InitWorld(w) && FreshActions(cfg, w, acts)
    requires i < |RunWorld(cfg, w, acts).sys.log| && RunWorld(cfg, w, acts).sys.log[i].event.Minted?
    requires FlowOf(RunWorld(cfg, w, acts).sys.log[i].pid) == f
    requires f in RunWorld(cfg, w, acts).flows && RunWorld(cfg, w, acts).flows[f].Renewing?
    ensures var v := RunWorld(cfg, w, acts);
            var token := v.sys.log[i].event.token;
            && token.refresh.Some? && First(f) in v.lookups && v.lookups[First(f)] <= i
            && exists j: nat :: LatestAt(v.sys.log, token.refresh.value, i, j)
                                && (Narrows(token.grant, v.sys.log[j].event.token.grant)
                                    || Overtaken(v, f, token.refresh.value, v.lookups[First(f)], i))
  {
    InitServer(cfg, w);
    RunKeepsServer(cfg, w, acts);
    NarrowsInState(cfg, RunWorld(cfg, w, acts), i, f);
  }
}
