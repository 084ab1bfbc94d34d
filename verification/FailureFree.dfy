/** What whole calls do when no command fails: the closed form of each program of commands. */
module FailureFree {
  import opened Prelude
  import opened Grants
  import opened Stores
  import opened SelfKeys

  function HealthyChoice(first: Option<Tag>, second: Option<Tag>, now: Time): Choice {
    Choice(Healthy, first, second, now)
  }

  /** `n` healthy commands, command `k` carrying the tagger's answers. */
  function HealthyRun(n: nat, k: nat, first: Option<Tag>, second: Option<Tag>, now: Time): (cs: seq<Choice>)
    ensures |cs| == n
    ensures forall i :: 0 <= i < n ==> cs[i] == if i == k then HealthyChoice(first, second, now)
        else HealthyChoice(None, None, now)
  {
    seq(n, i => if i == k then HealthyChoice(first, second, now) else HealthyChoice(None, None, now))
  }

  /** The counter as `issue` reads it. */
  function UsageOf(st: Store): u64 {
    if st.tokenUsage.Some? then st.tokenUsage.value else 0
  }

  function AfterIssue(st: Store, access: Tag, refresh: Tag, g: Grant): Store {
    var token := Token(access, Some(refresh), g);
    st.(access := st.access[access := token], refresh := st.refresh[refresh := token],
        tokenUsage := Some(WrappingAdd(UsageOf(st), 2)))
  }

  lemma IssueSucceeds(d: Option<Time>, st: Store, g: Grant, a: Tag, r: Tag, now: Time)
    requires a !in st.access && r !in st.refresh
    ensures RunAlone(d, st, IssueGetUsage(g), HealthyRun(4, 0, Some(a), Some(r), now))
            == (AfterIssue(st, a, r, g), Done(IssuedOk(a, r, g.until)))
  {
    var cs := HealthyRun(4, 0, Some(a), Some(r), now);
    var token, next := Token(a, Some(r), g), WrappingAdd(UsageOf(st), 2);
    var st1 := st.(access := st.access[a := token]);
    var st2 := st1.(refresh := st.refresh[r := token]);
    UnrollIssue(d, st, IssueGetUsage(g), cs, 0, st, IssueHsetAccess(r, token, next));
    UnrollIssue(d, st, IssueHsetAccess(r, token, next), cs, 1, st1, IssueHsetRefresh(r, token, next));
    UnrollIssue(d, st1, IssueHsetRefresh(r, token, next), cs, 2, st2, IssueSetUsage(r, token, next));
    UnrollIssue(d, st2, IssueSetUsage(r, token, next), cs, 3, AfterIssue(st, a, r, g), Done(IssuedOk(a, r, g.until)));
  }

  /** Where `issue` gives up at a tag in use: it has overwritten the entry that used it. */
  function IssueAbandoned(st: Store, a: Tag, r: Tag, g: Grant): Store {
    var token := Token(a, Some(r), g);
    if a in st.access then st.(access := st.access[a := token])
    else st.(access := st.access[a := token], refresh := st.refresh[r := token])
  }

  /** What `issue` does when no command fails, whatever tags it draws. */
  lemma IssueAnswers(d: Option<Time>, st: Store, g: Grant, a: Tag, r: Tag, now: Time)
    ensures RunAlone(d, st, IssueGetUsage(g), HealthyRun(4, 0, Some(a), Some(r), now))
            == if a !in st.access && r !in st.refresh then (AfterIssue(st, a, r, g), Done(IssuedOk(a, r, g.until)))
               else (IssueAbandoned(st, a, r, g), Done(Failed))
  {
    var cs := HealthyRun(4, 0, Some(a), Some(r), now);
    var token, next := Token(a, Some(r), g), WrappingAdd(UsageOf(st), 2);
    if a !in st.access && r !in st.refresh {
      IssueSucceeds(d, st, g, a, r, now);
    } else {
      var st1 := st.(access := st.access[a := token]);
      UnrollIssue(d, st, IssueGetUsage(g), cs, 0, st, IssueHsetAccess(r, token, next));
      if a in st.access {
        UnrollIssue(d, st, IssueHsetAccess(r, token, next), cs, 1, st1, Done(Failed));
      } else {
        UnrollIssue(d, st, IssueHsetAccess(r, token, next), cs, 1, st1, IssueHsetRefresh(r, token, next));
        UnrollIssue(d, st1, IssueHsetRefresh(r, token, next), cs, 2, IssueAbandoned(st, a, r, g), Done(Failed));
      }
    }
  }

  lemma IssueUntagged(d: Option<Time>, st: Store, g: Grant, first: Option<Tag>, second: Option<Tag>, now: Time)
    requires first.None? || second.None?
    ensures RunAlone(d, st, IssueGetUsage(g), HealthyRun(4, 0, first, second, now)) == (st, Done(Failed))
  {
    UnrollIssue(d, st, IssueGetUsage(g), HealthyRun(4, 0, first, second, now), 0, st, Done(Failed));
  }

  /** The entry under `key` and its access entry are there, under their own keys. */
  predicate Linked(st: Store, key: Tag) {
    && key in st.refresh && st.refresh[key].refresh == Some(key)
    && st.refresh[key].access in st.access && st.access[st.refresh[key].access] == st.refresh[key]
  }

  function AfterRefresh(st: Store, key: Tag, access: Tag, g: Grant): Store
    requires key in st.refresh
  {
    var token := st.refresh[key].(access := access, grant := g);
    st.(access := (st.access - {st.refresh[key].access})[access := token], refresh := st.refresh[key := token],
        tokenUsage := Some(WrappingAdd(UsageOf(st), 1)))
  }

  lemma RefreshFindsNothing(d: Option<Time>, st: Store, key: Tag, g: Grant, first: Option<Tag>, now: Time)
    requires key !in st.refresh
    ensures RunAlone(d, st, RefreshHgetRefresh(key, g), HealthyRun(8, 2, first, None, now)) == (st, Done(Failed))
  {
    UnrollRefresh(d, st, RefreshHgetRefresh(key, g), HealthyRun(8, 2, first, None, now), 0, st, Done(Failed));
  }

  /** The first two commands of a refresh that finds its entry. */
  lemma RefreshLocks(d: Option<Time>, st: Store, key: Tag, g: Grant, first: Option<Tag>, now: Time)
    requires key in st.refresh && st.refresh[key].refresh == Some(key)
    ensures var cs := HealthyRun(8, 2, first, None, now);
            RunAlone(d, st, RefreshHgetRefresh(key, g), cs)
            == RunFrom(d, st.(refresh := st.refresh - {key}), RefreshGetUsage(key, g, st.refresh[key]), cs, 2)
  {
    var cs := HealthyRun(8, 2, first, None, now);
    UnrollRefresh(d, st, RefreshHgetRefresh(key, g), cs, 0, st, RefreshHdelRefresh(key, g, st.refresh[key]));
    UnrollRefresh(d, st, RefreshHdelRefresh(key, g, st.refresh[key]), cs, 1,
         st.(refresh := st.refresh - {key}), RefreshGetUsage(key, g, st.refresh[key]));
  }

  lemma RefreshUntagged(d: Option<Time>, st: Store, key: Tag, g: Grant, now: Time)
    requires Linked(st, key)
    ensures RunAlone(d, st, RefreshHgetRefresh(key, g), HealthyRun(8, 2, None, None, now))
            == (st.(refresh := st.refresh - {key}), Done(Failed))
  {
    RefreshLocks(d, st, key, g, None, now);
    var st1 := st.(refresh := st.refresh - {key});
    UnrollRefresh(d, st1, RefreshGetUsage(key, g, st.refresh[key]), HealthyRun(8, 2, None, None, now), 2, st1,
                  Done(Failed));
  }

  /** The last three commands: publish the new pair and move the counter. */
  lemma RefreshPublishes(d: Option<Time>, st: Store, key: Tag, token: Token, next: u64, cs: seq<Choice>)
    requires |cs| == 8 && cs[5].fault.Healthy? && cs[6].fault.Healthy? && cs[7].fault.Healthy?
    requires token.access !in st.access && key !in st.refresh
    ensures RunFrom(d, st, RefreshHsetAccess(key, token, next), cs, 5)
            == (st.(access := st.access[token.access := token], refresh := st.refresh[key := token],
                    tokenUsage := Some(next)),
                Done(RefreshedOk(token.access, token.grant.until)))
  {
    var st3 := st.(access := st.access[token.access := token]);
    var st4 := st3.(refresh := st.refresh[key := token]);
    UnrollRefresh(d, st, RefreshHsetAccess(key, token, next), cs, 5, st3, RefreshHsetRefresh(key, token, next));
    UnrollRefresh(d, st3, RefreshHsetRefresh(key, token, next), cs, 6, st4, RefreshSetUsage(key, token, next));
    UnrollRefresh(d, st4, RefreshSetUsage(key, token, next), cs, 7, st4.(tokenUsage := Some(next)),
         Done(RefreshedOk(token.access, token.grant.until)));
  }

  /** The commands in between: draw the new tag, remove the old access entry. */
  lemma RefreshSwaps(d: Option<Time>, st: Store, key: Tag, grant: Grant, token: Token, a: Tag, now: Time,
                     cs: seq<Choice>)
    requires |cs| == 8 && cs[2] == HealthyChoice(Some(a), None, now) && cs[3].fault.Healthy? && cs[4].fault.Healthy?
    requires st.tokenUsage.Some? && token.access in st.access && st.access[token.access].access == token.access
    ensures var g := SetDuration(d, now, grant);
            RunFrom(d, st, RefreshGetUsage(key, grant, token), cs, 2)
            == RunFrom(d, st.(access := st.access - {token.access}),
                       RefreshHsetAccess(key, token.(access := a, grant := g), WrappingAdd(st.tokenUsage.value, 1)),
                           cs, 5)
  {
    var g, next := SetDuration(d, now, grant), WrappingAdd(st.tokenUsage.value, 1);
    UnrollRefresh(d, st, RefreshGetUsage(key, grant, token), cs, 2, st, RefreshHgetAccess(key, g, token, a, next));
    var seen := st.access[token.access];
    UnrollRefresh(d, st, RefreshHgetAccess(key, g, token, a, next), cs, 3, st,
                  RefreshHdelAccess(key, g, token, a, next, seen));
    UnrollRefresh(d, st, RefreshHdelAccess(key, g, token, a, next, seen), cs, 4,
                  st.(access := st.access - {token.access}),
                      RefreshHsetAccess(key, token.(access := a, grant := g), next));
  }

  /** There is a counter, the access entry is in place, and the new tag is not in use by another entry. */
  predicate Completes(st: Store, key: Tag, a: Tag)
    requires key in st.refresh
  {
    st.tokenUsage.Some? && st.refresh[key].access in st.access && (a in st.access ==> a == st.refresh[key].access)
  }

  /** Where a refresh gives up: the refresh entry is gone, and a used tag costs the entry that used it too. */
  function Abandoned(st: Store, key: Tag, a: Tag, g: Grant): Store
    requires key in st.refresh
  {
    var token := st.refresh[key];
    st.(refresh := st.refresh - {key},
        access := if st.tokenUsage.None? || token.access !in st.access then st.access
                  else (st.access - {token.access})[a := token.(access := a, grant := g)])
  }

  lemma RefreshSucceeds(d: Option<Time>, st: Store, key: Tag, grant: Grant, a: Tag, now: Time)
    requires key in st.refresh && Completes(st, key, a)
    requires st.refresh[key].refresh == Some(key)
    requires st.access[st.refresh[key].access].access == st.refresh[key].access
    ensures var g := SetDuration(d, now, grant);
            RunAlone(d, st, RefreshHgetRefresh(key, grant), HealthyRun(8, 2, Some(a), None, now))
            == (AfterRefresh(st, key, a, g), Done(RefreshedOk(a, g.until)))
  {
    var cs := HealthyRun(8, 2, Some(a), None, now);
    var token := st.refresh[key];
    var st1 := st.(refresh := st.refresh - {key});
    RefreshLocks(d, st, key, grant, Some(a), now);
    RefreshSwaps(d, st1, key, grant, token, a, now, cs);
    var token' := token.(access := a, grant := SetDuration(d, now, grant));
    RefreshPublishes(d, st1.(access := st.access - {token.access}), key, token', WrappingAdd(st.tokenUsage.value, 1),
                     cs);
    assert st1.refresh[key := token'] == st.refresh[key := token'];
  }

  /** Without a counter, or without its access entry, the call fails after it has removed the refresh entry. */
  lemma RefreshFindsTooLittle(d: Option<Time>, st: Store, key: Tag, grant: Grant, a: Tag, now: Time)
    requires StoreSelfKeyed(st) && key in st.refresh
    requires st.tokenUsage.None? || st.refresh[key].access !in st.access
    ensures RunAlone(d, st, RefreshHgetRefresh(key, grant), HealthyRun(8, 2, Some(a), None, now))
            == (st.(refresh := st.refresh - {key}), Done(Failed))
  {
    var cs, token := HealthyRun(8, 2, Some(a), None, now), st.refresh[key];
    var st1, get := st.(refresh := st.refresh - {key}), RefreshGetUsage(key, grant, token);
    RefreshLocks(d, st, key, grant, Some(a), now);
    if st.tokenUsage.None? {
      UnrollRefresh(d, st1, get, cs, 2, st1, Done(Failed));
    } else {
      var hget := RefreshHgetAccess(key, SetDuration(d, now, grant), token, a, WrappingAdd(st.tokenUsage.value, 1));
      UnrollRefresh(d, st1, get, cs, 2, st1, hget);
      UnrollRefresh(d, st1, hget, cs, 3, st1, Done(Failed));
    }
  }

  lemma RefreshTurnedAway(d: Option<Time>, st: Store, key: Tag, token: Token, next: u64, cs: seq<Choice>)
    requires |cs| == 8 && cs[5].fault.Healthy? && token.access in st.access
    ensures RunFrom(d, st, RefreshHsetAccess(key, token, next), cs, 5)
            == (st.(access := st.access[token.access := token]), Done(Failed))
  {
    UnrollRefresh(d, st, RefreshHsetAccess(key, token, next), cs, 5, st.(access := st.access[token.access := token]),
                  Done(Failed));
  }

  /** With a tag that is in use, it fails after it has overwritten the entry that used it. */
  lemma RefreshHitsUsedTag(d: Option<Time>, st: Store, key: Tag, grant: Grant, a: Tag, now: Time)
    requires StoreSelfKeyed(st) && key in st.refresh && st.tokenUsage.Some? && st.refresh[key].access in st.access
    requires a in st.access && a != st.refresh[key].access
    ensures RunAlone(d, st, RefreshHgetRefresh(key, grant), HealthyRun(8, 2, Some(a), None, now))
            == (Abandoned(st, key, a, SetDuration(d, now, grant)), Done(Failed))
  {
    var cs, token := HealthyRun(8, 2, Some(a), None, now), st.refresh[key];
    var st1 := st.(refresh := st.refresh - {key});
    RefreshLocks(d, st, key, grant, Some(a), now);
    RefreshSwaps(d, st1, key, grant, token, a, now, cs);
    var token' := token.(access := a, grant := SetDuration(d, now, grant));
    RefreshTurnedAway(d, st1.(access := st.access - {token.access}), key, token', WrappingAdd(st.tokenUsage.value, 1),
                      cs);
  }

  /**
   * What a refresh does when no command fails, in every store whose entries sit under their own keys, and
   * whatever tag it draws: nothing without an entry; the new pair if the entry can be replaced; and else an
   * error, after the refresh entry is lost.
   */
  lemma RefreshAnswers(d: Option<Time>, st: Store, key: Tag, grant: Grant, a: Tag, now: Time)
    requires StoreSelfKeyed(st)
    ensures var g := SetDuration(d, now, grant);
            RunAlone(d, st, RefreshHgetRefresh(key, grant), HealthyRun(8, 2, Some(a), None, now))
            == if key !in st.refresh then (st, Done(Failed))
               else if Completes(st, key, a) then (AfterRefresh(st, key, a, g), Done(RefreshedOk(a, g.until)))
               else (Abandoned(st, key, a, g), Done(Failed))
  {
    if key !in st.refresh {
      RefreshFindsNothing(d, st, key, grant, Some(a), now);
    } else if Completes(st, key, a) {
      RefreshSucceeds(d, st, key, grant, a, now);
    } else if st.tokenUsage.None? || st.refresh[key].access !in st.access {
      RefreshFindsTooLittle(d, st, key, grant, a, now);
    } else {
      RefreshHitsUsedTag(d, st, key, grant, a, now);
    }
  }

  lemma RecoverAnswers(d: Option<Time>, st: Store, key: Tag, now: Time)
    ensures RunAlone(d, st, RecoverTokenHget(key), HealthyRun(1, 0, None, None, now))
            == (st, Done(TokenRecovered(GrantOf(Lookup(st.access, key, Healthy)))))
    ensures RunAlone(d, st, RecoverRefreshHget(key), HealthyRun(1, 0, None, None, now))
            == (st, Done(RefreshRecovered(key, GrantOf(Lookup(st.refresh, key, Healthy)))))
  {
    var cs := HealthyRun(1, 0, None, None, now);
    Unroll(d, st, RecoverTokenHget(key), cs, 0,
           Quiet(st, Done(TokenRecovered(GrantOf(Lookup(st.access, key, Healthy))))));
    Unroll(d, st, RecoverRefreshHget(key), cs, 0,
           Quiet(st, Done(RefreshRecovered(key, GrantOf(Lookup(st.refresh, key, Healthy))))));
  }

  /** The code counter as `authorize` reads it. */
  function CodeUsageOf(st: Store): u64 {
    if st.codeUsage.Some? then st.codeUsage.value else 0
  }

  lemma AuthorizeStores(st: Store, grant: Grant, code: Tag, next: u64, cs: seq<Choice>)
    requires |cs| == 3 && cs[1].fault.Healthy? && cs[2].fault.Healthy? && code !in st.codes
    ensures RunFrom(None, st, AuthorizeHset(code, grant, next), cs, 1)
            == (st.(codes := st.codes[code := grant], codeUsage := Some(next)), Done(CodeIssued(code)))
  {
    var st1 := st.(codes := st.codes[code := grant]);
    UnrollCode(None, st, AuthorizeHset(code, grant, next), cs, 1, st1, AuthorizeSetUsage(code, grant, next));
    UnrollCode(None, st1, AuthorizeSetUsage(code, grant, next), cs, 2, st1.(codeUsage := Some(next)),
               Done(CodeIssued(code)));
  }

  lemma AuthorizeSucceeds(st: Store, grant: Grant, code: Tag, next: u64)
    requires CodeUsageOf(st) + 1 == next && code !in st.codes
    ensures RunAlone(None, st, AuthorizeGetUsage(grant), HealthyRun(3, 0, Some(code), None, 0))
            == (st.(codes := st.codes[code := grant], codeUsage := Some(next)), Done(CodeIssued(code)))
  {
    var cs := HealthyRun(3, 0, Some(code), None, 0);
    UnrollCode(None, st, AuthorizeGetUsage(grant), cs, 0, st, AuthorizeHset(code, grant, next));
    AuthorizeStores(st, grant, code, next, cs);
  }

  lemma ExtractSucceeds(st: Store, code: Tag, now: Time)
    requires code in st.codes
    ensures RunAlone(None, st, ExtractHget(code), HealthyRun(2, 0, None, None, now))
            == (st.(codes := st.codes - {code}), Done(Extracted(code, Some(st.codes[code]))))
  {
    var cs, grant := HealthyRun(2, 0, None, None, now), st.codes[code];
    UnrollCode(None, st, ExtractHget(code), cs, 0, st, ExtractHdel(code, grant));
    UnrollCode(None, st, ExtractHdel(code, grant), cs, 1, st.(codes := st.codes - {code}),
               Done(Extracted(code, Some(grant))));
  }

  /** An `issue` on the empty store whose last command is refused: both entries are there, the counter is not. */
  lemma IssueDiesUncounted(d: Option<Time>, g: Grant, a: Tag, r: Tag, now: Time)
    ensures var last := HealthyRun(4, 0, Some(a), Some(r), now)[3 := Choice(Refused, None, None, now)];
            RunAlone(d, EMPTY_STORE, IssueGetUsage(g), last)
            == (AfterIssue(EMPTY_STORE, a, r, g).(tokenUsage := None), Done(Failed))
  {
    var cs := HealthyRun(4, 0, Some(a), Some(r), now)[3 := Choice(Refused, None, None, now)];
    var token := Token(a, Some(r), g);
    var st1 := EMPTY_STORE.(access := map[a := token]);
    var st2 := st1.(refresh := map[r := token]);
    UnrollIssue(d, EMPTY_STORE, IssueGetUsage(g), cs, 0, EMPTY_STORE, IssueHsetAccess(r, token, 2));
    UnrollIssue(d, EMPTY_STORE, IssueHsetAccess(r, token, 2), cs, 1, st1, IssueHsetRefresh(r, token, 2));
    UnrollIssue(d, st1, IssueHsetRefresh(r, token, 2), cs, 2, st2, IssueSetUsage(r, token, 2));
    UnrollIssue(d, st2, IssueSetUsage(r, token, 2), cs, 3, st2, Done(Failed));
  }

  // ------------------------------------------------------------ what is drawn

  /** A command other than the two GETs draws nothing. */
  lemma {:induction false} NoMoreDraws(d: Option<Time>, st: Store, op: Op, cs: seq<Choice>, i: nat)
    requires i <= |cs| && (IsIssue(op) || IsRefresh(op) || op.Done?)
    requires !op.IssueGetUsage? && !op.RefreshHgetRefresh? && !op.RefreshHdelRefresh? && !op.RefreshGetUsage?
    ensures DrawsFrom(d, st, op, cs, i) == []
    decreases |cs| - i
  {
    if i < |cs| && !op.Done? {
      var e := OpStep(d, st, op, cs[i]);
      NoMoreDraws(d, e.store, e.op, cs, i + 1);
    }
  }

  lemma IssueDraws(d: Option<Time>, st: Store, g: Grant, cs: seq<Choice>, a: Tag, r: Tag)
    requires |cs| == 4 && cs[0].fault.Healthy? && cs[0].first == Some(a) && cs[0].second == Some(r)
    ensures DrawsFrom(d, st, IssueGetUsage(g), cs, 0) == [Draw(UsageOf(st), a), Draw(WrappingAdd(UsageOf(st), 1), r)]
  {
    var e := OpStep(d, st, IssueGetUsage(g), cs[0]);
    NoMoreDraws(d, e.store, e.op, cs, 1);
  }

  lemma RefreshDraws(d: Option<Time>, st: Store, key: Tag, g: Grant, cs: seq<Choice>, a: Tag)
    requires |cs| == 8 && cs[0].fault.Healthy? && cs[1].fault.Healthy? && cs[2].fault.Healthy? && cs[2].first == Some(a)
    requires Linked(st, key) && st.tokenUsage.Some?
    ensures DrawsFrom(d, st, RefreshHgetRefresh(key, g), cs, 0) == [Draw(UsageOf(st), a)]
  {
    var token := st.refresh[key];
    var op1, op2 := RefreshHdelRefresh(key, g, token), RefreshGetUsage(key, g, token);
    var st1 := st.(refresh := st.refresh - {key});
    assert RefreshStep(d, st, RefreshHgetRefresh(key, g), cs[0]) == Quiet(st, op1);
    assert RefreshStep(d, st, op1, cs[1]) == Quiet(st1, op2);
    var e := RefreshStep(d, st1, op2, cs[2]);
    assert e.tokenDraws == [Draw(UsageOf(st), a)];
    NoMoreDraws(d, e.store, e.op, cs, 3);
    assert DrawsFrom(d, st1, op2, cs, 2) == [Draw(UsageOf(st), a)];
    assert DrawsFrom(d, st, op1, cs, 1) == [Draw(UsageOf(st), a)];
  }
}
