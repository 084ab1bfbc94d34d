/**
 * What holds under every interleaving, fault, crash and tag collision: an entry is stored under the
 * key it names. Hence the assertions inside `TokenMap::refresh` never fail.
 */
module SelfKeys {
  import opened Prelude
  import opened Stores
  import opened Interleaving

  predicate StoreSelfKeyed(st: Store) {
    && (forall k :: k in st.access ==> st.access[k].access == k)
    && (forall k :: k in st.refresh ==> st.refresh[k].refresh == Some(k))
  }

  predicate OpSelfKeyed(op: Op) {
    match op
    case IssueHsetAccess(key, token, _) => token.refresh == Some(key)
    case IssueHsetRefresh(key, token, _) => token.refresh == Some(key)
    case RefreshHdelRefresh(key, _, token) => token.refresh == Some(key)
    case RefreshGetUsage(key, _, token) => token.refresh == Some(key)
    case RefreshHgetAccess(key, _, token, _, _) => token.refresh == Some(key)
    case RefreshHdelAccess(key, _, token, _, _, seen) => token.refresh == Some(key) && seen.access == token.access
    case RefreshHsetAccess(key, token, _) => token.refresh == Some(key)
    case RefreshHsetRefresh(key, token, _) => token.refresh == Some(key)
    case Done(outcome) => outcome != Panicked(AssertionFailed)
    case _ => true
  }

  predicate SelfKeyed(s: Sys) {
    && StoreSelfKeyed(s.store)
    && forall p :: p in s.ops ==> OpSelfKeyed(s.ops[p])
  }

  predicate EffectSelfKeyed(e: Effect) {
    StoreSelfKeyed(e.store) && OpSelfKeyed(e.op)
  }

  lemma IssueKeepsSelfKeys(st: Store, op: Op, c: Choice)
    requires StoreSelfKeyed(st) && OpSelfKeyed(op) && IsIssue(op)
    ensures EffectSelfKeyed(IssueStep(st, op, c))
  {
  }

  lemma RefreshKeepsSelfKeys(duration: Option<Time>, st: Store, op: Op, c: Choice)
    requires StoreSelfKeyed(st) && OpSelfKeyed(op) && IsRefresh(op)
    ensures EffectSelfKeyed(RefreshStep(duration, st, op, c))
  {
  }

  lemma CodeKeepsSelfKeys(st: Store, op: Op, c: Choice)
    requires StoreSelfKeyed(st) && IsCode(op)
    ensures EffectSelfKeyed(CodeStep(st, op, c))
  {
  }

  lemma CommandKeepsSelfKeys(duration: Option<Time>, st: Store, op: Op, c: Choice)
    requires StoreSelfKeyed(st) && OpSelfKeyed(op)
    ensures EffectSelfKeyed(OpStep(duration, st, op, c))
  {
    if IsIssue(op) {
      IssueKeepsSelfKeys(st, op, c);
    } else if IsRefresh(op) {
      RefreshKeepsSelfKeys(duration, st, op, c);
    } else if IsCode(op) {
      CodeKeepsSelfKeys(st, op, c);
    }
  }

  lemma StepKeepsSelfKeys(duration: Option<Time>, s: Sys, l: Label)
    requires SelfKeyed(s)
    ensures SelfKeyed(Step(duration, s, l))
  {
    if l.Exec? && l.pid in s.ops {
      CommandKeepsSelfKeys(duration, s.store, s.ops[l.pid], l.choice);
    }
  }

  /** No run of any kind leaves an entry under a foreign key or trips an assertion in `refresh`. */
  lemma {:induction false} RunKeepsSelfKeys(duration: Option<Time>, s: Sys, ls: seq<Label>)
    requires SelfKeyed(s)
    ensures SelfKeyed(Run(duration, s, ls))
    decreases |ls|
  {
    if ls != [] {
      StepKeepsSelfKeys(duration, s, ls[0]);
      RunKeepsSelfKeys(duration, Step(duration, s, ls[0]), ls[1..]);
    }
  }

  lemma AssertionsNeverFail(duration: Option<Time>, s: Sys, ls: seq<Label>, p: Pid)
    requires Init(s)
    requires p in Run(duration, s, ls).ops
    ensures Run(duration, s, ls).ops[p] != Done(Panicked(AssertionFailed))
    ensures StoreSelfKeyed(Run(duration, s, ls).store)
  {
    RunKeepsSelfKeys(duration, s, ls);
  }
}
