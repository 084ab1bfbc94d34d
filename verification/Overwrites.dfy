/**
 * HSET writes even where it finds an entry. The calls report that as a failure, but the entry is gone: when
 * exactly a call damages an entry that is not its own.
 */
module Overwrites {
  import opened Prelude
  import opened Grants
  import opened Stores
  import opened Interleaving
  import opened FailureFree

  /** `m` holds something else under `k`. */
  predicate Differs<V(==)>(m: map<Tag, V>, k: Tag, v: V) {
    k in m && m[k] != v
  }

  /** This command is an HSET that runs on a present key with another value. */
  predicate Overwrites(st: Store, op: Op, c: Choice) {
    && c.fault.Executed()
    && match op
       case IssueHsetAccess(_, token, _) => Differs(st.access, token.access, token)
       case IssueHsetRefresh(key, token, _) => Differs(st.refresh, key, token)
       case RefreshHsetAccess(_, token, _) => Differs(st.access, token.access, token)
       case RefreshHsetRefresh(key, token, _) => Differs(st.refresh, key, token)
       case ImportHset(key, grant) => Differs(st.access, key, Token(key, None, grant))
       case AuthorizeHset(code, grant, _) => Differs(st.codes, code, grant)
       case _ => false
  }

  // ----------------------------------------------------------- every command

  /** Some entry is there before and after, with another value. */
  predicate Replaced<V(==)>(before: map<Tag, V>, after: map<Tag, V>) {
    exists k :: k in before && k in after && before[k] != after[k]
  }

  predicate SomeReplaced(st: Store, st': Store) {
    Replaced(st.access, st'.access) || Replaced(st.refresh, st'.refresh) || Replaced(st.codes, st'.codes)
  }

  lemma ReplacedByUpdate<V>(m: map<Tag, V>, k: Tag, v: V)
    ensures Replaced(m, m[k := v]) <==> Differs(m, k, v)
    ensures !Replaced(m, m) && !Replaced(m, m - {k})
  {
    if Differs(m, k, v) { assert k in m[k := v]; }
  }

  lemma IssueReplaces(st: Store, op: Op, c: Choice)
    requires IsIssue(op)
    ensures SomeReplaced(st, IssueStep(st, op, c).store) <==> Overwrites(st, op, c)
    ensures Overwrites(st, op, c) ==> IssueStep(st, op, c).op == Done(Failed)
  {
    match op {
      case IssueHsetAccess(_, token, _) => ReplacedByUpdate(st.access, token.access, token);
      case IssueHsetRefresh(key, token, _) => ReplacedByUpdate(st.refresh, key, token);
      case _ =>
    }
  }

  lemma RefreshReplaces(d: Option<Time>, st: Store, op: Op, c: Choice)
    requires IsRefresh(op)
    ensures SomeReplaced(st, RefreshStep(d, st, op, c).store) <==> Overwrites(st, op, c)
    ensures Overwrites(st, op, c) ==> RefreshStep(d, st, op, c).op == Done(Failed)
  {
    match op {
      case RefreshHsetAccess(_, token, _) => ReplacedByUpdate(st.access, token.access, token);
      case RefreshHsetRefresh(key, token, _) => ReplacedByUpdate(st.refresh, key, token);
      case _ =>
    }
  }

  lemma CodeReplaces(st: Store, op: Op, c: Choice)
    requires IsCode(op)
    ensures SomeReplaced(st, CodeStep(st, op, c).store) <==> Overwrites(st, op, c)
    ensures Overwrites(st, op, c) ==> CodeStep(st, op, c).op == Done(Failed)
  {
    match op {
      case AuthorizeHset(code, grant, _) => ReplacedByUpdate(st.codes, code, grant);
      case _ =>
    }
  }

  lemma CommandReplaces(d: Option<Time>, st: Store, op: Op, c: Choice)
    ensures SomeReplaced(st, OpStep(d, st, op, c).store) <==> Overwrites(st, op, c)
    ensures Overwrites(st, op, c) ==> OpStep(d, st, op, c).op == Done(Failed)
  {
    if IsIssue(op) {
      IssueReplaces(st, op, c);
    } else if IsRefresh(op) {
      RefreshReplaces(d, st, op, c);
    } else if IsCode(op) {
      CodeReplaces(st, op, c);
    } else if op.ImportHset? {
      ReplacedByUpdate(st.access, op.key, Token(op.key, None, op.grant));
    }
  }

  /**
   * In every state of every run, whatever the faults and collisions: a step replaces the value of an entry
   * exactly if it is an HSET that runs on a present key with another value, and the call that did it then
   * reports failure. No successful call ever replaces an entry.
   */
  lemma StepReplacesIff(d: Option<Time>, s: Sys, l: Label)
    ensures SomeReplaced(s.store, Step(d, s, l).store)
            <==> l.Exec? && l.pid in s.ops && Overwrites(s.store, s.ops[l.pid], l.choice)
    ensures SomeReplaced(s.store, Step(d, s, l).store) ==> Step(d, s, l).ops[l.pid] == Done(Failed)
  {
    if l.Exec? && l.pid in s.ops { CommandReplaces(d, s.store, s.ops[l.pid], l.choice); }
  }

  // -------------------------------------------------------------- whole calls

  /** One of the commands of this call overwrites. */
  predicate OverwritesFrom(d: Option<Time>, st: Store, op: Op, cs: seq<Choice>, i: nat)
    requires i <= |cs|
    decreases |cs| - i
  {
    i < |cs| && !op.Done?
    && (Overwrites(st, op, cs[i])
        || var e := OpStep(d, st, op, cs[i]); OverwritesFrom(d, e.store, e.op, cs, i + 1))
  }

  /** Keys of the three hashes. */
  datatype Own = Own(access: set<Tag>, refresh: set<Tag>, codes: set<Tag>)

  /** The keys a call deletes: the refresh entry under `key` and what its access tag leads to, or the code. */
  function DeletedBy(st: Store, op: Op): Own {
    match op
    case RefreshHgetRefresh(key, _) => Own(if key in st.refresh then {st.refresh[key].access} else {}, {key}, {})
    case ExtractHget(code) => Own({}, {}, {code})
    case _ => Own({}, {}, {})
  }

  /** The access tag of the entry under `key` leads to another token. */
  predicate LeadsElsewhere(st: Store, key: Tag) {
    key in st.refresh && Differs(st.access, st.refresh[key].access, st.refresh[key])
  }

  /** What is the call's own to remove: its refresh entry and the very same token in the access hash, or its code. */
  function OwnOf(st: Store, op: Op): Own {
    if op.RefreshHgetRefresh? && LeadsElsewhere(st, op.key) then Own({}, {op.key}, {}) else DeletedBy(st, op)
  }

  predicate KeptIn<V(==)>(before: map<Tag, V>, after: map<Tag, V>, own: set<Tag>) {
    forall k :: k in before && k !in own ==> k in after && after[k] == before[k]
  }

  /** Every entry but the call's own is as it was. */
  predicate Kept(st: Store, st': Store, own: Own) {
    && KeptIn(st.access, st'.access, own.access)
    && KeptIn(st.refresh, st'.refresh, own.refresh)
    && KeptIn(st.codes, st'.codes, own.codes)
  }

  /** Halfway through a call that started on `st0`: what it has removed, and that nothing foreign is touched. */
  predicate Careful(st0: Store, own: Own, st: Store, op: Op) {
    && Kept(st0, st, own)
    && (IsStart(op) ==> own == DeletedBy(st, op))
    && (IsStart(op) || op.IssueHsetAccess? || op.AuthorizeHset? || op.RefreshHdelRefresh? || op.ExtractHdel? ==>
            st == st0)
    && (op.IssueHsetAccess? || op.IssueHsetRefresh? || op.AuthorizeHset? ==> own == Own({}, {}, {}))
    && (op.IssueHsetRefresh? ==> st.refresh == st0.refresh)
    && (op.ExtractHdel? ==> own.codes == {op.code})
    && (op.RefreshHdelRefresh? || op.RefreshGetUsage? || op.RefreshHgetAccess? || op.RefreshHdelAccess? ==>
          own == Own({op.token.access}, {op.key}, {}))
    && (op.RefreshGetUsage? || op.RefreshHgetAccess? || op.RefreshHdelAccess? ==>
          st.access == st0.access && st.refresh == st0.refresh - {op.key})
    && (op.RefreshHsetAccess? ==> st.access == st0.access - own.access)
    && (op.RefreshHsetAccess? || op.RefreshHsetRefresh? ==>
            own.refresh == {op.key} && st.refresh == st0.refresh - {op.key})
  }

  /** What a command does to a careful call. */
  predicate Proceeds(st0: Store, own: Own, st: Store, op: Op, c: Choice, e: Effect) {
    if Overwrites(st, op, c) then e.op.Done? && !Kept(st0, e.store, own) else Careful(st0, own, e.store, e.op)
  }

  lemma NotKept<V>(before: map<Tag, V>, after: map<Tag, V>, own: set<Tag>, k: Tag)
    requires k in before && k !in own && k in after && after[k] != before[k]
    ensures !KeptIn(before, after, own)
  {
  }

  lemma IssueIsCareful(st0: Store, own: Own, st: Store, op: Op, c: Choice)
    requires IsIssue(op) && Careful(st0, own, st, op)
    ensures Proceeds(st0, own, st, op, c, IssueStep(st, op, c))
  {
    if Overwrites(st, op, c) {
      var after := IssueStep(st, op, c).store;
      if op.IssueHsetAccess? {
        NotKept(st0.access, after.access, own.access, op.token.access);
      } else {
        NotKept(st0.refresh, after.refresh, own.refresh, op.key);
      }
    }
  }

  lemma RemovingIsCareful(d: Option<Time>, st0: Store, own: Own, st: Store, op: Op, c: Choice)
    requires op.RefreshHgetRefresh? || op.RefreshHdelRefresh? || op.RefreshGetUsage?
    requires Careful(st0, own, st, op)
    ensures Proceeds(st0, own, st, op, c, RefreshStep(d, st, op, c))
  {
  }

  lemma SwappingIsCareful(d: Option<Time>, st0: Store, own: Own, st: Store, op: Op, c: Choice)
    requires op.RefreshHgetAccess? || op.RefreshHdelAccess?
    requires Careful(st0, own, st, op)
    ensures Proceeds(st0, own, st, op, c, RefreshStep(d, st, op, c))
  {
  }

  lemma PublishingIsCareful(d: Option<Time>, st0: Store, own: Own, st: Store, op: Op, c: Choice)
    requires op.RefreshHsetAccess? || op.RefreshHsetRefresh? || op.RefreshSetUsage?
    requires Careful(st0, own, st, op)
    ensures Proceeds(st0, own, st, op, c, RefreshStep(d, st, op, c))
  {
    if Overwrites(st, op, c) {
      NotKept(st0.access, RefreshStep(d, st, op, c).store.access, own.access, op.token.access);
    }
  }

  lemma RefreshIsCareful(d: Option<Time>, st0: Store, own: Own, st: Store, op: Op, c: Choice)
    requires IsRefresh(op) && Careful(st0, own, st, op)
    ensures Proceeds(st0, own, st, op, c, RefreshStep(d, st, op, c))
  {
    if op.RefreshHgetRefresh? || op.RefreshHdelRefresh? || op.RefreshGetUsage? {
      RemovingIsCareful(d, st0, own, st, op, c);
    } else if op.RefreshHgetAccess? || op.RefreshHdelAccess? {
      SwappingIsCareful(d, st0, own, st, op, c);
    } else {
      PublishingIsCareful(d, st0, own, st, op, c);
    }
  }

  lemma CodeIsCareful(st0: Store, own: Own, st: Store, op: Op, c: Choice)
    requires IsCode(op) && Careful(st0, own, st, op)
    ensures Proceeds(st0, own, st, op, c, CodeStep(st, op, c))
  {
    if Overwrites(st, op, c) {
      NotKept(st0.codes, CodeStep(st, op, c).store.codes, own.codes, op.code);
    }
  }

  lemma CommandIsCareful(d: Option<Time>, st0: Store, own: Own, st: Store, op: Op, c: Choice)
    requires !op.Done? && Careful(st0, own, st, op)
    ensures Proceeds(st0, own, st, op, c, OpStep(d, st, op, c))
  {
    if IsIssue(op) {
      IssueIsCareful(st0, own, st, op, c);
    } else if IsRefresh(op) {
      RefreshIsCareful(d, st0, own, st, op, c);
    } else if IsCode(op) {
      CodeIsCareful(st0, own, st, op, c);
    } else if Overwrites(st, op, c) {
      NotKept(st0.access, OpStep(d, st, op, c).store.access, own.access, op.key);
    }
  }

  lemma {:induction false} RunIsCareful(d: Option<Time>, st0: Store, own: Own, st: Store, op: Op, cs: seq<Choice>,
                                        i: nat)
    requires i <= |cs| && Careful(st0, own, st, op)
    ensures Kept(st0, RunFrom(d, st, op, cs, i).0, own) <==> !OverwritesFrom(d, st, op, cs, i)
    ensures OverwritesFrom(d, st, op, cs, i) ==> RunFrom(d, st, op, cs, i).1 == Done(Failed)
    decreases |cs| - i
  {
    if i < |cs| && !op.Done? {
      var e := OpStep(d, st, op, cs[i]);
      CommandIsCareful(d, st0, own, st, op, cs[i]);
      CommandReplaces(d, st, op, cs[i]);
      if !Overwrites(st, op, cs[i]) { RunIsCareful(d, st0, own, e.store, e.op, cs, i + 1); }
    }
  }

  /** The commands before number `n` answered, and number `n` itself runs. */
  predicate Answered(cs: seq<Choice>, n: nat) {
    n < |cs| && (forall i :: 0 <= i < n ==> cs[i].fault.Healthy?) && cs[n].fault.Executed()
  }

  /** `refresh` gets as far as deleting the access entry. */
  predicate RefreshDeletes(st: Store, key: Tag, cs: seq<Choice>) {
    && Answered(cs, 4) && key in st.refresh && st.refresh[key].refresh == Some(key)
    && st.tokenUsage.Some? && cs[2].first.Some? && st.refresh[key].access in st.access
  }

  /** And as far as writing the new one. */
  predicate RefreshWrites(st: Store, key: Tag, cs: seq<Choice>) {
    && Answered(cs, 5) && RefreshDeletes(st, key, cs)
    && st.access[st.refresh[key].access].access == st.refresh[key].access
  }

  /** The token `refresh` writes. */
  function Renewed(d: Option<Time>, key: Tag, grant: Grant, cs: seq<Choice>): Token
    requires |cs| > 2 && cs[2].first.Some?
  {
    Token(cs[2].first.value, Some(key), SetDuration(d, cs[2].now, grant))
  }

  /** The access hash after a refresh, under any faults and wherever it ends. */
  function AccessAfter(d: Option<Time>, st: Store, key: Tag, grant: Grant, cs: seq<Choice>): map<Tag, Token> {
    if RefreshWrites(st, key, cs) then
      (st.access - {st.refresh[key].access})[cs[2].first.value := Renewed(d, key, grant, cs)]
    else if RefreshDeletes(st, key, cs) then st.access - {st.refresh[key].access}
    else st.access
  }

  /** Once the new access entry is written, or the call has ended, the access hash stays as it is. */
  lemma {:induction false} AccessSettles(d: Option<Time>, st: Store, op: Op, cs: seq<Choice>, i: nat)
    requires i <= |cs| && (op.RefreshHsetRefresh? || op.RefreshSetUsage? || op.Done?)
    ensures RunFrom(d, st, op, cs, i).0.access == st.access
    decreases |cs| - i
  {
    if i < |cs| && !op.Done? {
      var e := OpStep(d, st, op, cs[i]);
      AccessSettles(d, e.store, e.op, cs, i + 1);
    }
  }

  /** The last five commands, from looking up the old access entry on. */
  lemma SwapAccess(d: Option<Time>, st: Store, op: Op, cs: seq<Choice>)
    requires |cs| >= 3 && op.RefreshHgetAccess?
    ensures var k := op.token.access;
            RunFrom(d, st, op, cs, 3).0.access
            == if !(|cs| > 4 && cs[3].fault.Healthy? && cs[4].fault.Executed() && k in st.access) then st.access
               else if |cs| > 5 && cs[4].fault.Healthy? && cs[5].fault.Executed() && st.access[k].access == k then
                 (st.access - {k})[op.newAccess := op.token.(access := op.newAccess, grant := op.grant)]
               else st.access - {k}
  {
    if |cs| > 3 {
      var e3 := RefreshStep(d, st, op, cs[3]);
      if e3.op.Done? {
        AccessSettles(d, e3.store, e3.op, cs, 4);
      } else if |cs| > 4 {
        var e4 := RefreshStep(d, st, e3.op, cs[4]);
        assert RunFrom(d, st, op, cs, 3) == RunFrom(d, e4.store, e4.op, cs, 5);
        if e4.op.Done? {
          AccessSettles(d, e4.store, e4.op, cs, 5);
        } else if |cs| > 5 {
          var e5 := RefreshStep(d, e4.store, e4.op, cs[5]);
          AccessSettles(d, e5.store, e5.op, cs, 6);
        }
      }
    }
  }

  lemma LockedAccess(d: Option<Time>, st: Store, key: Tag, grant: Grant, cs: seq<Choice>)
    requires |cs| >= 1 && cs[0].fault.Healthy? && key in st.refresh
    ensures RunFrom(d, st, RefreshHdelRefresh(key, grant, st.refresh[key]), cs, 1).0.access
            == AccessAfter(d, st, key, grant, cs)
  {
    if |cs| > 1 {
      var e1 := RefreshStep(d, st, RefreshHdelRefresh(key, grant, st.refresh[key]), cs[1]);
      if e1.op.Done? {
        AccessSettles(d, e1.store, e1.op, cs, 2);
      } else if |cs| > 2 {
        var e2 := RefreshStep(d, e1.store, e1.op, cs[2]);
        if e2.op.Done? { AccessSettles(d, e2.store, e2.op, cs, 3); } else { SwapAccess(d, e2.store, e2.op, cs); }
      }
    }
  }

  /** Under any faults, wherever a refresh ends and whatever store it ran on. */
  lemma RefreshAccessHash(d: Option<Time>, st: Store, key: Tag, grant: Grant, cs: seq<Choice>)
    ensures RunAlone(d, st, RefreshHgetRefresh(key, grant), cs).0.access == AccessAfter(d, st, key, grant, cs)
  {
    if |cs| > 0 {
      var e0 := RefreshStep(d, st, RefreshHgetRefresh(key, grant), cs[0]);
      if e0.op.Done? { AccessSettles(d, e0.store, e0.op, cs, 1); } else { LockedAccess(d, st, key, grant, cs); }
    }
  }

  /** This refresh removes a token that is not its own, and does not happen to put the very same one back. */
  predicate RemovesAnother(d: Option<Time>, st: Store, op: Op, cs: seq<Choice>) {
    && op.RefreshHgetRefresh? && RefreshDeletes(st, op.key, cs) && LeadsElsewhere(st, op.key)
    && !(RefreshWrites(st, op.key, cs) && Renewed(d, op.key, op.grant, cs) == st.access[st.refresh[op.key].access])
  }

  /** Under any faults: the entry that the access tag leads to, if it is another token, is kept exactly if not so. */
  lemma RefreshRemovesAnotherIff(d: Option<Time>, st: Store, key: Tag, grant: Grant, cs: seq<Choice>)
    requires LeadsElsewhere(st, key)
    ensures var k := st.refresh[key].access;
            var after := RunAlone(d, st, RefreshHgetRefresh(key, grant), cs).0.access;
            !(k in after && after[k] == st.access[k]) <==> RemovesAnother(d, st, RefreshHgetRefresh(key, grant), cs)
  {
    RefreshAccessHash(d, st, key, grant, cs);
  }

  /**
   * Any call on its own, under any faults: it leaves every entry that is not its own to remove as it was
   * if and only if none of its HSETs ran on a present key with another value, and it was no refresh that
   * removed another token. If an HSET did, the call reports failure.
   */
  lemma CallKeepsEntriesIff(d: Option<Time>, st: Store, op: Op, cs: seq<Choice>)
    requires IsStart(op)
    ensures Kept(st, RunAlone(d, st, op, cs).0, OwnOf(st, op))
            <==> !OverwritesFrom(d, st, op, cs, 0) && !RemovesAnother(d, st, op, cs)
    ensures OverwritesFrom(d, st, op, cs, 0) ==> RunAlone(d, st, op, cs).1 == Done(Failed)
  {
    RunIsCareful(d, st, DeletedBy(st, op), st, op, cs, 0);
    if op.RefreshHgetRefresh? && LeadsElsewhere(st, op.key) {
      RefreshRemovesAnotherIff(d, st, op.key, op.grant, cs);
    }
  }

  // ------------------------------------------------- what a caller can look up

  /** `authorize` damages an entry exactly if its code is in use for another grant. */
  lemma AuthorizeOverwritesIff(d: Option<Time>, st: Store, grant: Grant, cs: seq<Choice>)
    ensures OverwritesFrom(d, st, AuthorizeGetUsage(grant), cs, 0)
            <==> && |cs| > 1 && cs[0].first.Some? && !(cs[0].fault.Healthy? && st.codeUsage == Some(U64_SIZE - 1))
                 && cs[1].fault.Executed() && Differs(st.codes, cs[0].first.value, grant)
  {
    if |cs| > 1 {
      var e := CodeStep(st, AuthorizeGetUsage(grant), cs[0]);
      assert OverwritesFrom(d, st, AuthorizeGetUsage(grant), cs, 0) <==> OverwritesFrom(d, e.store, e.op, cs, 1);
      if e.op.AuthorizeHset? {
        var e' := CodeStep(st, e.op, cs[1]);
        assert !OverwritesFrom(d, e'.store, e'.op, cs, 2);
      }
    }
  }

  lemma ImportOverwritesIff(d: Option<Time>, st: Store, key: Tag, grant: Grant, cs: seq<Choice>)
    ensures OverwritesFrom(d, st, ImportHset(key, grant), cs, 0)
            <==> |cs| > 0 && cs[0].fault.Executed() && Differs(st.access, key, Token(key, None, grant))
  {
  }

  /** `issue` does exactly if its access tag is in use for another token, or else its refresh tag is. */
  lemma IssueOverwritesIff(d: Option<Time>, st: Store, g: Grant, cs: seq<Choice>)
    ensures OverwritesFrom(d, st, IssueGetUsage(g), cs, 0)
            <==> && |cs| > 1 && cs[0].first.Some? && cs[0].second.Some? && cs[1].fault.Executed()
                 && var (a, r) := (cs[0].first.value, cs[0].second.value);
                 && var token := Token(a, Some(r), g);
                 || Differs(st.access, a, token)
                 || (&& a !in st.access && cs[1].fault.Healthy?
                     && |cs| > 2 && cs[2].fault.Executed() && Differs(st.refresh, r, token))
  {
    if |cs| > 1 {
      var op0 := IssueGetUsage(g);
      var e0 := IssueStep(st, op0, cs[0]);
      assert OverwritesFrom(d, st, op0, cs, 0) <==> OverwritesFrom(d, e0.store, e0.op, cs, 1);
      if e0.op.IssueHsetAccess? { WritingOverwritesIff(d, st, e0.op, cs); }
    }
  }

  lemma WritingOverwritesIff(d: Option<Time>, st: Store, op: Op, cs: seq<Choice>)
    requires |cs| > 1 && op.IssueHsetAccess?
    ensures OverwritesFrom(d, st, op, cs, 1)
            <==> && cs[1].fault.Executed()
                 && (|| Differs(st.access, op.token.access, op.token)
                     || (&& op.token.access !in st.access && cs[1].fault.Healthy?
                         && |cs| > 2 && cs[2].fault.Executed() && Differs(st.refresh, op.key, op.token)))
  {
    var e1 := IssueStep(st, op, cs[1]);
    assert OverwritesFrom(d, st, op, cs, 1) <==> Overwrites(st, op, cs[1]) || OverwritesFrom(d, e1.store, e1.op, cs, 2);
    if e1.op.IssueHsetRefresh? && |cs| > 2 {
      var e2 := IssueStep(e1.store, e1.op, cs[2]);
      assert !OverwritesFrom(d, e2.store, e2.op, cs, 3);
    }
  }

  /** `refresh` does exactly if its new access tag is in use by another token than the one it replaces. */
  lemma RefreshOverwritesIff(d: Option<Time>, st: Store, key: Tag, grant: Grant, cs: seq<Choice>)
    ensures OverwritesFrom(d, st, RefreshHgetRefresh(key, grant), cs, 0)
            <==> && RefreshWrites(st, key, cs)
                 && var a := cs[2].first.value;
                 && a != st.refresh[key].access && Differs(st.access, a, Renewed(d, key, grant, cs))
  {
    if |cs| > 0 {
      var op0 := RefreshHgetRefresh(key, grant);
      var e0 := RefreshStep(d, st, op0, cs[0]);
      assert OverwritesFrom(d, st, op0, cs, 0) <==> OverwritesFrom(d, e0.store, e0.op, cs, 1);
      if e0.op.RefreshHdelRefresh? { LockedOverwritesIff(d, st, key, grant, cs); }
    }
  }

  lemma LockedOverwritesIff(d: Option<Time>, st: Store, key: Tag, grant: Grant, cs: seq<Choice>)
    requires |cs| > 0 && cs[0].fault.Healthy? && key in st.refresh
    ensures OverwritesFrom(d, st, RefreshHdelRefresh(key, grant, st.refresh[key]), cs, 1)
            <==> && RefreshWrites(st, key, cs)
                 && var a := cs[2].first.value;
                 && a != st.refresh[key].access && Differs(st.access, a, Renewed(d, key, grant, cs))
  {
    if |cs| > 2 {
      var op1 := RefreshHdelRefresh(key, grant, st.refresh[key]);
      var e1 := RefreshStep(d, st, op1, cs[1]);
      assert OverwritesFrom(d, st, op1, cs, 1) <==> OverwritesFrom(d, e1.store, e1.op, cs, 2);
      if e1.op.RefreshGetUsage? {
        var e2 := RefreshStep(d, e1.store, e1.op, cs[2]);
        assert OverwritesFrom(d, e1.store, e1.op, cs, 2) <==> OverwritesFrom(d, e2.store, e2.op, cs, 3);
        if e2.op.RefreshHgetAccess? { SwapOverwritesIff(d, e2.store, e2.op, cs); }
      }
    }
  }

  lemma SwapOverwritesIff(d: Option<Time>, st: Store, op: Op, cs: seq<Choice>)
    requires |cs| > 2 && op.RefreshHgetAccess? && op.key !in st.refresh
    ensures OverwritesFrom(d, st, op, cs, 3)
            <==> && |cs| > 5 && cs[3].fault.Healthy? && cs[4].fault.Healthy? && cs[5].fault.Executed()
                 && op.token.access in st.access && st.access[op.token.access].access == op.token.access
                 && op.newAccess != op.token.access
                 && Differs(st.access, op.newAccess, op.token.(access := op.newAccess, grant := op.grant))
  {
    if |cs| > 4 {
      var e3 := RefreshStep(d, st, op, cs[3]);
      assert OverwritesFrom(d, st, op, cs, 3) <==> OverwritesFrom(d, e3.store, e3.op, cs, 4);
      if e3.op.RefreshHdelAccess? {
        var e4 := RefreshStep(d, st, e3.op, cs[4]);
        assert OverwritesFrom(d, st, e3.op, cs, 4) <==> OverwritesFrom(d, e4.store, e4.op, cs, 5);
        if e4.op.RefreshHsetAccess? { PublishOverwritesIff(d, e4.store, e4.op, cs); }
      }
    }
  }

  lemma PublishOverwritesIff(d: Option<Time>, st: Store, op: Op, cs: seq<Choice>)
    requires |cs| > 4 && op.RefreshHsetAccess? && op.key !in st.refresh
    ensures OverwritesFrom(d, st, op, cs, 5) <==>
              |cs| > 5 && cs[5].fault.Executed() && Differs(st.access, op.token.access, op.token)
  {
    if |cs| > 5 {
      var e5 := RefreshStep(d, st, op, cs[5]);
      if e5.op.RefreshHsetRefresh? && |cs| > 6 {
        var e6 := RefreshStep(d, e5.store, e5.op, cs[6]);
        assert !OverwritesFrom(d, e6.store, e6.op, cs, 7);
      }
    }
  }

  /**
   * The condition a caller can look up: while the tags drawn are not in the hashes, no call of `authorize` or
   * `issue` damages an entry, however it fails; and one of `refresh` does only if the access tag of its entry
   * leads to another token, and then exactly if it gets as far as deleting that.
   */
  lemma UnusedTagsKeepEntries(d: Option<Time>, st: Store, op: Op, cs: seq<Choice>)
    requires op.AuthorizeGetUsage? || op.IssueGetUsage? || op.RefreshHgetRefresh?
    requires forall i :: 0 <= i < |cs| && cs[i].first.Some? ==>
        cs[i].first.value !in st.access && cs[i].first.value !in st.codes
    requires forall i :: 0 <= i < |cs| && cs[i].second.Some? ==> cs[i].second.value !in st.refresh
    ensures Kept(st, RunAlone(d, st, op, cs).0, OwnOf(st, op))
            <==> !(op.RefreshHgetRefresh? && LeadsElsewhere(st, op.key) && RefreshDeletes(st, op.key, cs))
  {
    CallKeepsEntriesIff(d, st, op, cs);
    if op.AuthorizeGetUsage? {
      AuthorizeOverwritesIff(d, st, op.grant, cs);
    } else if op.IssueGetUsage? {
      IssueOverwritesIff(d, st, op.grant, cs);
    } else {
      RefreshOverwritesIff(d, st, op.key, op.grant, cs);
      if RefreshWrites(st, op.key, cs) && LeadsElsewhere(st, op.key) {
        assert Renewed(d, op.key, op.grant, cs).access !in st.access;
      }
    }
  }

  /**
   * What it costs: `authorize` draws a code that is in use and reports failure, and whoever holds the code
   * then gets the other owner's grant for it.
   */
  lemma OverwrittenGrantIsHandedOut(st: Store, code: Tag, grant: Grant, now: Time)
    requires Differs(st.codes, code, grant) && CodeUsageOf(st) + 1 < U64_SIZE
    ensures var (st1, op) := RunAlone(None, st, AuthorizeGetUsage(grant), HealthyRun(3, 0, Some(code), None, now));
            && op == Done(Failed) && code in st1.codes && st1.codes[code] == grant
            && RunAlone(None, st1, ExtractHget(code), HealthyRun(2, 0, None, None, now)).1
                == Done(Extracted(code, Some(grant)))
            && grant != st.codes[code]
  {
    var cs, next: u64 := HealthyRun(3, 0, Some(code), None, now), CodeUsageOf(st) + 1;
    var st1 := st.(codes := st.codes[code := grant]);
    UnrollCode(None, st, AuthorizeGetUsage(grant), cs, 0, st, AuthorizeHset(code, grant, next));
    UnrollCode(None, st, AuthorizeHset(code, grant, next), cs, 1, st1, Done(Failed));
    ExtractSucceeds(st1, code, now);
  }
}
