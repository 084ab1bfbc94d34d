/** When refreshes that overlap destroy the entry they refresh, although no command fails and no tag repeats. */
module Vanishing {
  import opened Prelude
  import opened Stores
  import opened Interleaving
  import opened SelfKeys
  import opened TokenIndex

  // ------------------------------------------------------------- what is claimed

  /** The command answers, the tagger too, and nobody is killed. */
  predicate SmoothStep(s: Sys, l: Label) {
    match l
    case Start(_, _) => true
    case Exec(p, c) =>
      && c.fault.Healthy?
      && (p in s.ops && (s.ops[p].IssueGetUsage? || s.ops[p].RefreshGetUsage?) ==> c.first.Some?)
      && (p in s.ops && s.ops[p].IssueGetUsage? ==> c.second.Some?)
    case Crash(_) => false
  }

  predicate SmoothRun(d: Option<Time>, s: Sys, ls: seq<Label>)
    decreases |ls|
  {
    ls != [] ==> SmoothStep(s, ls[0]) && SmoothRun(d, Step(d, s, ls[0]), ls[1..])
  }

  /**
   * This command costs the entry under `r`: it deletes another token than its call has read, or its call, having
   * deleted the entry, finds no usage counter.
   */
  predicate Costs(s: Sys, l: Label, r: Tag) {
    && l.Exec? && l.pid in s.ops
    && match s.ops[l.pid]
       case RefreshHdelRefresh(key, _, token) => key == r && r in s.store.refresh && s.store.refresh[r] != token
       case RefreshGetUsage(key, _, _) => key == r && s.store.tokenUsage.None?
       case _ => false
  }

  predicate SomeCosts(d: Option<Time>, s: Sys, ls: seq<Label>, r: Tag)
    decreases |ls|
  {
    ls != [] && (Costs(s, ls[0], r) || SomeCosts(d, Step(d, s, ls[0]), ls[1..], r))
  }

  // ------------------------------------------------------------------ invariant

  /** This call is going to put the entry under `r` back. */
  predicate Returns(st: Store, c: Claim, r: Tag) {
    c.Holds() == Some(r) && (c.Locked? || c.Replacing? ==> c.token.access in st.access)
  }

  predicate Alive(st: Store, cs: Claims, r: Tag) {
    r in st.refresh || exists p :: p in cs && Returns(st, cs[p], r)
  }

  /** Once gone, a refresh tag does not come back, under any fault. */
  lemma MoveKeepsGone(m: Move, st: Store, cs: Claims, minted: map<Tag, Token>, spent: set<Tag>, p: Pid, e: Effect,
                      r: Tag)
    requires Indexed(st, cs, minted, spent) && p in cs && Performs(m, st, cs[p], e) && FreshDraws(e.tokenDraws, spent)
    requires r in spent && !Alive(st, cs, r)
    ensures !Alive(e.store, cs[p := ClaimOf(e.op)], r)
  {
    assert ClaimOk(st, cs[p], minted, spent) && !Returns(st, cs[p], r);
    forall q | q in cs && q != p ensures !Returns(e.store, cs[q], r) {
      assert ClaimOk(st, cs[q], minted, spent) && !Returns(st, cs[q], r);
    }
    assert !Returns(e.store, ClaimOf(e.op), r);
  }

  /** Nobody else's move keeps a call from putting its entry back. */
  lemma OthersReturn(m: Move, st: Store, cs: Claims, minted: map<Tag, Token>, spent: set<Tag>, p: Pid, e: Effect,
                     q: Pid, r: Tag)
    requires Indexed(st, cs, minted, spent) && p in cs && Performs(m, st, cs[p], e)
    requires q in cs && q != p && Returns(st, cs[q], r)
    ensures Returns(e.store, cs[q], r)
  {
    assert ClaimOk(st, cs[p], minted, spent) && ClaimOk(st, cs[q], minted, spent) && Apart(cs[p], cs[q]);
  }

  /** The entry is there after this command, or the call is still going to put it back. */
  predicate Kept(e: Effect, r: Tag) {
    r in e.store.refresh || Returns(e.store, ClaimOf(e.op), r)
  }

  lemma WriterReturns(d: Option<Time>, st: Store, op: Op, c: Choice, minted: map<Tag, Token>, spent: set<Tag>, r: Tag)
    requires StoreOk(st, minted, spent) && ClaimOk(st, ClaimOf(op), minted, spent)
    requires ClaimOf(op).Arriving? || ClaimOf(op).Seated?
    requires Returns(st, ClaimOf(op), r) && c.fault.Healthy?
    ensures IsIssue(op) ==> Kept(IssueStep(st, op, c), r)
    ensures IsRefresh(op) ==> Kept(RefreshStep(d, st, op, c), r)
  {
  }

  lemma SwapperReturns(d: Option<Time>, st: Store, op: Op, c: Choice, minted: map<Tag, Token>, spent: set<Tag>, r: Tag)
    requires ClaimOk(st, ClaimOf(op), minted, spent) && OpSelfKeyed(op)
    requires op.RefreshGetUsage? || op.RefreshHgetAccess? || op.RefreshHdelAccess?
    requires Returns(st, ClaimOf(op), r) && c.fault.Healthy? && (op.RefreshGetUsage? ==> c.first.Some?)
    ensures Kept(RefreshStep(d, st, op, c), r) <==> !(op.RefreshGetUsage? && st.tokenUsage.None?)
  {
  }

  /** A call that is going to put the entry back does so, or is still going to, while nothing fails. */
  lemma HolderReturns(d: Option<Time>, st: Store, op: Op, c: Choice, minted: map<Tag, Token>, spent: set<Tag>, r: Tag)
    requires StoreOk(st, minted, spent) && ClaimOk(st, ClaimOf(op), minted, spent) && OpSelfKeyed(op)
    requires Returns(st, ClaimOf(op), r) && c.fault.Healthy? && (op.RefreshGetUsage? ==> c.first.Some?)
    ensures Kept(OpStep(d, st, op, c), r) <==> !(op.RefreshGetUsage? && st.tokenUsage.None?)
  {
    if ClaimOf(op).Arriving? || ClaimOf(op).Seated? {
      WriterReturns(d, st, op, c, minted, spent, r);
    } else {
      SwapperReturns(d, st, op, c, minted, spent, r);
    }
  }

  /** A call that deletes the entry is going to put it back exactly if it is the one the call has read. */
  lemma ReaderReturns(d: Option<Time>, st: Store, op: Op, c: Choice, minted: map<Tag, Token>, spent: set<Tag>)
    requires StoreOk(st, minted, spent) && ClaimOk(st, ClaimOf(op), minted, spent) && OpSelfKeyed(op)
    requires op.RefreshHdelRefresh? && op.key in st.refresh && c.fault.Healthy?
    ensures var e := OpStep(d, st, op, c);
            && op.key !in e.store.refresh && ClaimOf(e.op).Holds() == Some(op.key)
            && (Returns(e.store, ClaimOf(e.op), op.key) <==> st.refresh[op.key] == op.token)
  {
  }

  // ---------------------------------------------------------------- single steps

  predicate Lives(s: Sys, r: Tag) {
    Alive(s.store, ClaimsOf(s.ops), r)
  }

  lemma ExecKeepsGone(d: Option<Time>, s: Sys, p: Pid, c: Choice, r: Tag)
    requires IndexInv(s) && p in s.ops && FreshStep(d, s, Exec(p, c)) && r in s.spentTokens && !Lives(s, r)
    ensures !Lives(ExecStep(d, s, p, c), r)
  {
    var e := OpStep(d, s.store, s.ops[p], c);
    ClaimsUpdate(s.ops, p, e.op);
    var m := EveryCommandIsAMove(d, s.store, s.ops[p], c);
    MoveKeepsGone(m, s.store, ClaimsOf(s.ops), s.minted, s.spentTokens, p, e, r);
  }

  /** A call that holds nothing before and after changes nothing here. */
  lemma IdleKeepsLife(s: Sys, t: Sys, p: Pid, op: Op, r: Tag)
    requires t.store == s.store && t.ops == s.ops[p := op] && ClaimOf(op).Holds().None?
    requires p !in s.ops || ClaimOf(s.ops[p]).Holds() != Some(r)
    ensures Lives(t, r) <==> Lives(s, r)
  {
    ClaimsUpdate(s.ops, p, op);
    var cs, cs' := ClaimsOf(s.ops), ClaimsOf(t.ops);
    forall q | q in cs && Returns(s.store, cs[q], r) ensures q in cs' && Returns(s.store, cs'[q], r) {}
    forall q | q in cs' && Returns(s.store, cs'[q], r) ensures q in cs && Returns(s.store, cs[q], r) {}
  }

  lemma StepKeepsGone(d: Option<Time>, s: Sys, l: Label, r: Tag)
    requires IndexInv(s) && FreshStep(d, s, l) && r in s.spentTokens && !Lives(s, r)
    ensures !Lives(Step(d, s, l), r)
  {
    match l {
      case Start(p, op) => if CanStart(s, p, op) { IdleKeepsLife(s, StartStep(s, p, op), p, op, r); }
      case Exec(p, c) => if p in s.ops { ExecKeepsGone(d, s, p, c, r); }
      case Crash(p) =>
        if p in s.ops && !s.ops[p].Done? {
          ClaimsUpdate(s.ops, p, Done(Failed));
          var cs := ClaimsOf(s.ops);
          assert forall q :: q in cs ==> !Returns(s.store, cs[q], r);
        }
    }
  }

  /** Only one call can hold a tag, and none while it is in the hash. */
  lemma HoldsAlone(st: Store, cs: Claims, minted: map<Tag, Token>, spent: set<Tag>, p: Pid, r: Tag)
    requires Indexed(st, cs, minted, spent) && p in cs && (cs[p].Holds() == Some(r) || r in st.refresh)
    ensures forall q :: q in cs && q != p ==> cs[q].Holds() != Some(r)
    ensures cs[p].Holds() == Some(r) ==> r !in st.refresh
  {
    assert ClaimOk(st, cs[p], minted, spent);
    forall q | q in cs && q != p ensures cs[q].Holds() != Some(r) {
      assert ClaimOk(st, cs[q], minted, spent) && Apart(cs[p], cs[q]);
    }
  }

  /** With no other holder, it depends on this call alone. */
  lemma AloneDecides(st: Store, cs: Claims, p: Pid, e: Effect, r: Tag)
    requires p in cs && forall q :: q in cs && q != p ==> cs[q].Holds() != Some(r)
    ensures Alive(e.store, cs[p := ClaimOf(e.op)], r) <==> Kept(e, r)
  {
    var cs' := cs[p := ClaimOf(e.op)];
    assert cs'[p] == ClaimOf(e.op);
    assert forall q :: q in cs' && q != p ==> !Returns(e.store, cs'[q], r);
  }

  /** A call that neither holds the tag nor deletes its entry leaves it alive. */
  lemma BystanderKeepsAlive(m: Move, st: Store, cs: Claims, minted: map<Tag, Token>, spent: set<Tag>, p: Pid, e: Effect,
                            r: Tag)
    requires Indexed(st, cs, minted, spent) && p in cs && Performs(m, st, cs[p], e) && Alive(st, cs, r)
    requires cs[p].Holds() != Some(r) && !(cs[p].Reader? && cs[p].r == r && r in st.refresh)
    ensures Alive(e.store, cs[p := ClaimOf(e.op)], r)
  {
    if r !in st.refresh {
      var q :| q in cs && Returns(st, cs[q], r);
      OthersReturn(m, st, cs, minted, spent, p, e, q, r);
      assert cs[p := ClaimOf(e.op)][q] == cs[q];
    }
  }

  lemma ExecCosts(d: Option<Time>, s: Sys, p: Pid, c: Choice, r: Tag)
    requires IndexInv(s) && SelfKeyed(s) && p in s.ops && SmoothStep(s, Exec(p, c)) && Lives(s, r)
    ensures Lives(ExecStep(d, s, p, c), r) <==> !Costs(s, Exec(p, c), r)
  {
    var st, op, cs := s.store, s.ops[p], ClaimsOf(s.ops);
    var e := OpStep(d, st, op, c);
    ClaimsUpdate(s.ops, p, e.op);
    assert cs[p] == ClaimOf(op) && ClaimOk(st, cs[p], s.minted, s.spentTokens) && OpSelfKeyed(op);
    if cs[p].Holds() == Some(r) {
      HoldsAlone(st, cs, s.minted, s.spentTokens, p, r);
      AloneDecides(st, cs, p, e, r);
      HolderReturns(d, st, op, c, s.minted, s.spentTokens, r);
    } else if op.RefreshHdelRefresh? && op.key == r && r in st.refresh {
      HoldsAlone(st, cs, s.minted, s.spentTokens, p, r);
      AloneDecides(st, cs, p, e, r);
      ReaderReturns(d, st, op, c, s.minted, s.spentTokens);
    } else {
      var m := EveryCommandIsAMove(d, st, op, c);
      BystanderKeepsAlive(m, st, cs, s.minted, s.spentTokens, p, e, r);
    }
  }

  /** While nothing fails, a live entry stays alive through every step but the two that cost it. */
  lemma StepCosts(d: Option<Time>, s: Sys, l: Label, r: Tag)
    requires IndexInv(s) && SelfKeyed(s) && SmoothStep(s, l) && Lives(s, r)
    ensures Lives(Step(d, s, l), r) <==> !Costs(s, l, r)
  {
    match l {
      case Start(p, op) => if CanStart(s, p, op) { IdleKeepsLife(s, StartStep(s, p, op), p, op, r); }
      case Exec(p, c) => if p in s.ops { ExecCosts(d, s, p, c, r); }
    }
  }

  // ------------------------------------------------------------------ whole runs

  lemma {:induction false} RunKeepsGone(d: Option<Time>, s: Sys, ls: seq<Label>, r: Tag)
    requires IndexInv(s) && FreshRun(d, s, ls) && r in s.spentTokens && !Lives(s, r)
    ensures !Lives(Run(d, s, ls), r)
    decreases |ls|
  {
    if ls != [] {
      StepKeepsIndex(d, s, ls[0]);
      StepKeepsGone(d, s, ls[0], r);
      RunKeepsGone(d, Step(d, s, ls[0]), ls[1..], r);
    }
  }

  lemma {:induction false} RunCosts(d: Option<Time>, s: Sys, ls: seq<Label>, r: Tag)
    requires IndexInv(s) && SelfKeyed(s) && FreshRun(d, s, ls) && SmoothRun(d, s, ls)
    requires r in s.spentTokens && Lives(s, r)
    ensures Lives(Run(d, s, ls), r) <==> !SomeCosts(d, s, ls, r)
    decreases |ls|
  {
    if ls != [] {
      var t := Step(d, s, ls[0]);
      StepKeepsIndex(d, s, ls[0]);
      StepKeepsSelfKeys(d, s, ls[0]);
      StepCosts(d, s, ls[0], r);
      if Costs(s, ls[0], r) { RunKeepsGone(d, t, ls[1..], r); } else { RunCosts(d, t, ls[1..], r); }
    }
  }

  /**
   * An entry of the refresh hash, in any state of any run with non-repeating tags, and any further run in which
   * nothing fails: once nobody is between deleting and re-inserting it, it is still there if and only if no
   * refresh on the way deleted another token than it had read, nor found no usage counter.
   */
  lemma EntryVanishesIff(d: Option<Time>, s: Sys, past: seq<Label>, ls: seq<Label>, r: Tag)
    requires Init(s) && FreshRun(d, s, past) && r in Run(d, s, past).store.refresh
    requires FreshRun(d, Run(d, s, past), ls) && SmoothRun(d, Run(d, s, past), ls)
    ensures var t := Run(d, Run(d, s, past), ls);
            && (SomeCosts(d, Run(d, s, past), ls, r) ==> r !in t.store.refresh)
            && (LockHolders(t, r) == {} ==> (r !in t.store.refresh <==> SomeCosts(d, Run(d, s, past), ls, r)))
  {
    RunKeepsIndex(d, s, past);
    RunKeepsSelfKeys(d, s, past);
    RunCosts(d, Run(d, s, past), ls, r);
    var t := Run(d, Run(d, s, past), ls);
    var cs := ClaimsOf(t.ops);
    if LockHolders(t, r) == {} {
      forall p | p in cs ensures !Returns(t.store, cs[p], r) {
        assert p !in LockHolders(t, r);
      }
    }
  }

  /** And it is gone for good: however the run goes on, and whatever fails then, it does not come back. */
  lemma VanishedForGood(d: Option<Time>, s: Sys, past: seq<Label>, ls: seq<Label>, more: seq<Label>, r: Tag)
    requires Init(s) && FreshRun(d, s, past) && r in Run(d, s, past).store.refresh
    requires FreshRun(d, Run(d, s, past), ls) && SmoothRun(d, Run(d, s, past), ls)
    requires SomeCosts(d, Run(d, s, past), ls, r) && FreshRun(d, Run(d, Run(d, s, past), ls), more)
    ensures r !in Run(d, Run(d, Run(d, s, past), ls), more).store.refresh
  {
    var u := Run(d, s, past);
    RunKeepsIndex(d, s, past);
    RunKeepsSelfKeys(d, s, past);
    RunCosts(d, u, ls, r);
    RunKeepsIndex(d, u, ls);
    SpentGrows(d, u, ls);
    RunKeepsGone(d, Run(d, u, ls), more, r);
  }

  lemma {:induction false} SpentGrows(d: Option<Time>, s: Sys, ls: seq<Label>)
    ensures s.spentTokens <= Run(d, s, ls).spentTokens
    decreases |ls|
  {
    if ls != [] { SpentGrows(d, Step(d, s, ls[0]), ls[1..]); }
  }
}
