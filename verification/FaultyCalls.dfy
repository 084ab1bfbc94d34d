/** What every store call does to the hashes and answers, whatever happens to each of its commands. */
module FaultyCalls {
  import opened Prelude
  import opened Grants
  import opened Stores
  import opened SelfKeys

  /** The three things that can happen to a command, as the store and the caller see them. */
  predicate Ran(c: Choice) { !c.fault.Refused? }

  predicate Answered(c: Choice) { c.fault.Healthy? }

  // ------------------------------------------------------------------ lookups

  /** A lookup that is not answered is "no grant", like one that finds nothing. */
  lemma LookupUnderFaults(d: Option<Time>, st: Store, key: Tag, c: Choice)
    ensures RunAlone(d, st, RecoverTokenHget(key), [c])
            == (st, Done(TokenRecovered(if Answered(c) && key in st.access then Some(st.access[key].grant) else None)))
    ensures RunAlone(d, st, RecoverRefreshHget(key), [c])
            == (st, Done(RefreshRecovered(key, if Answered(c) && key in st.refresh then Some(st.refresh[key].grant)
                                          else None)))
  {
    Unroll(d, st, RecoverTokenHget(key), [c], 0, OpStep(d, st, RecoverTokenHget(key), c));
    Unroll(d, st, RecoverRefreshHget(key), [c], 0, OpStep(d, st, RecoverRefreshHget(key), c));
  }

  /**
   * `extract`: a lookup that is not answered is "no grant" as well; but once the code was found, the removal
   * counts only if it is answered, and may have happened even if it is not.
   */
  lemma ExtractUnderFaults(d: Option<Time>, st: Store, code: Tag, get: Choice, del: Choice)
    ensures RunAlone(d, st, ExtractHget(code), [get, del])
            == if !Answered(get) || code !in st.codes then (st, Done(Extracted(code, None)))
               else (if Ran(del) then st.(codes := st.codes - {code}) else st,
                     if Answered(del) then Done(Extracted(code, Some(st.codes[code]))) else Done(Failed))
  {
    var cs := [get, del];
    var e := CodeStep(st, ExtractHget(code), get);
    UnrollCode(d, st, ExtractHget(code), cs, 0, e.store, e.op);
    if e.op.ExtractHdel? {
      var e' := CodeStep(st, e.op, del);
      UnrollCode(d, st, e.op, cs, 1, e'.store, e'.op);
    }
  }

  // ------------------------------------------------------------------ authorize

  /** The commands of `authorize` after the code is drawn. */
  lemma CodeUnderFaults(d: Option<Time>, st: Store, code: Tag, grant: Grant, next: u64, cs: seq<Choice>)
    requires |cs| == 3
    ensures var result := RunFrom(d, st, AuthorizeHset(code, grant, next), cs, 1);
            var stored := st.(codes := st.codes[code := grant]);
            if !Ran(cs[1]) then result == (st, Done(Failed))
            else if !Answered(cs[1]) || code in st.codes || !Ran(cs[2]) then result == (stored, Done(Failed))
            else
              result == (stored.(codeUsage := Some(next)),
                         if Answered(cs[2]) then Done(CodeIssued(code)) else Done(Failed))
  {
    var op := AuthorizeHset(code, grant, next);
    var e1 := CodeStep(st, op, cs[1]);
    UnrollCode(d, st, op, cs, 1, e1.store, e1.op);
    if e1.op.AuthorizeSetUsage? {
      var e2 := CodeStep(e1.store, e1.op, cs[2]);
      UnrollCode(d, e1.store, e1.op, cs, 2, e2.store, e2.op);
    }
  }

  /** `authorize`: the code is stored, then the counter; each counts only if it is answered, and the code is new. */
  lemma AuthorizeUnderFaults(d: Option<Time>, st: Store, grant: Grant, get: Choice, put: Choice, count: Choice)
    ensures var usage: u64 := if Answered(get) && st.codeUsage.Some? then st.codeUsage.value else 0;
            var result := RunAlone(d, st, AuthorizeGetUsage(grant), [get, put, count]);
            if usage == U64_SIZE - 1 then result == (st, Done(Panicked(ArithmeticOverflow)))
            else if get.first.None? || !Ran(put) then result == (st, Done(Failed))
            else
              var code := get.first.value;
              var stored := st.(codes := st.codes[code := grant]);
              if !Answered(put) || code in st.codes || !Ran(count) then result == (stored, Done(Failed))
              else
                result == (stored.(codeUsage := Some(usage + 1)),
                           if Answered(count) then Done(CodeIssued(code)) else Done(Failed))
  {
    var cs := [get, put, count];
    var e := CodeStep(st, AuthorizeGetUsage(grant), get);
    UnrollCode(d, st, AuthorizeGetUsage(grant), cs, 0, e.store, e.op);
    if e.op.AuthorizeHset? { CodeUnderFaults(d, st, e.op.code, grant, e.op.next, cs); }
  }

  // ---------------------------------------------------------------------- issue

  /** The commands of `issue` after the tags are drawn. */
  lemma PairUnderFaults(d: Option<Time>, st: Store, r: Tag, token: Token, next: u64, cs: seq<Choice>)
    requires |cs| == 4
    ensures var result := RunFrom(d, st, IssueHsetAccess(r, token, next), cs, 1);
            var one := st.(access := st.access[token.access := token]);
            var both := one.(refresh := st.refresh[r := token]);
            if !Ran(cs[1]) then result == (st, Done(Failed))
            else if !Answered(cs[1]) || token.access in st.access || !Ran(cs[2]) then result == (one, Done(Failed))
            else if !Answered(cs[2]) || r in st.refresh || !Ran(cs[3]) then result == (both, Done(Failed))
            else
              result == (both.(tokenUsage := Some(next)),
                         if Answered(cs[3]) then Done(IssuedOk(token.access, r, token.grant.until)) else Done(Failed))
  {
    var op := IssueHsetAccess(r, token, next);
    var e1 := IssueStep(st, op, cs[1]);
    UnrollIssue(d, st, op, cs, 1, e1.store, e1.op);
    if e1.op.IssueHsetRefresh? {
      var e2 := IssueStep(e1.store, e1.op, cs[2]);
      UnrollIssue(d, e1.store, e1.op, cs, 2, e2.store, e2.op);
      if e2.op.IssueSetUsage? {
        var e3 := IssueStep(e2.store, e2.op, cs[3]);
        UnrollIssue(d, e2.store, e2.op, cs, 3, e3.store, e3.op);
      }
    }
  }

  /**
   * `issue`: a counter that is missing or not answered counts as 0; then the access entry, the refresh entry and
   * the counter are written in this order, up to the first that is not answered or finds its tag in use.
   */
  lemma IssueUnderFaults(d: Option<Time>, st: Store, grant: Grant, cs: seq<Choice>)
    requires |cs| == 4
    ensures var usage: u64 := if Answered(cs[0]) && st.tokenUsage.Some? then st.tokenUsage.value else 0;
            var result := RunAlone(d, st, IssueGetUsage(grant), cs);
            if cs[0].first.None? || cs[0].second.None? || !Ran(cs[1]) then result == (st, Done(Failed))
            else
              var (a, r) := (cs[0].first.value, cs[0].second.value);
              var token := Token(a, Some(r), grant);
              var one := st.(access := st.access[a := token]);
              var both := one.(refresh := st.refresh[r := token]);
              if !Answered(cs[1]) || a in st.access || !Ran(cs[2]) then result == (one, Done(Failed))
              else if !Answered(cs[2]) || r in st.refresh || !Ran(cs[3]) then result == (both, Done(Failed))
              else
                result == (both.(tokenUsage := Some((usage + 2) % 0x1_0000_0000_0000_0000)),
                           if Answered(cs[3]) then Done(IssuedOk(a, r, grant.until)) else Done(Failed))
  {
    var e0 := IssueStep(st, IssueGetUsage(grant), cs[0]);
    UnrollIssue(d, st, IssueGetUsage(grant), cs, 0, e0.store, e0.op);
    if e0.op.IssueHsetAccess? { PairUnderFaults(d, st, e0.op.key, e0.op.token, e0.op.next, cs); }
  }

  // -------------------------------------------------------------------- refresh

  /** The last three commands of `refresh`: the new pair, then the counter. */
  function AfterSwap(freed: Store, key: Tag, token: Token, next: u64, cs: seq<Choice>): (Store, Op)
    requires |cs| == 8
  {
    var one := freed.(access := freed.access[token.access := token]);
    var both := one.(refresh := freed.refresh[key := token]);
    if !Ran(cs[5]) then (freed, Done(Failed))
    else if !Answered(cs[5]) || token.access in freed.access || !Ran(cs[6]) then (one, Done(Failed))
    else if !Answered(cs[6]) || key in freed.refresh || !Ran(cs[7]) then (both, Done(Failed))
    else
      (both.(tokenUsage := Some(next)),
       if Answered(cs[7]) then Done(RefreshedOk(token.access, token.grant.until)) else Done(Failed))
  }

  lemma PublishedUnderFaults(d: Option<Time>, st: Store, r: Tag, token: Token, next: u64, cs: seq<Choice>)
    requires |cs| == 8
    ensures var result := RunFrom(d, st, RefreshHsetRefresh(r, token, next), cs, 6);
            var both := st.(refresh := st.refresh[r := token]);
            if !Ran(cs[6]) then result == (st, Done(Failed))
            else if !Answered(cs[6]) || r in st.refresh || !Ran(cs[7]) then result == (both, Done(Failed))
            else
              result == (both.(tokenUsage := Some(next)),
                         if Answered(cs[7]) then Done(RefreshedOk(token.access, token.grant.until)) else Done(Failed))
  {
    var op := RefreshHsetRefresh(r, token, next);
    var e6 := RefreshStep(d, st, op, cs[6]);
    UnrollRefresh(d, st, op, cs, 6, e6.store, e6.op);
    if e6.op.RefreshSetUsage? {
      var e7 := RefreshStep(d, e6.store, e6.op, cs[7]);
      UnrollRefresh(d, e6.store, e6.op, cs, 7, e7.store, e7.op);
    }
  }

  lemma SwappedUnderFaults(d: Option<Time>, st: Store, r: Tag, token: Token, next: u64, cs: seq<Choice>)
    requires |cs| == 8
    ensures RunFrom(d, st, RefreshHsetAccess(r, token, next), cs, 5) == AfterSwap(st, r, token, next, cs)
  {
    var op := RefreshHsetAccess(r, token, next);
    var e5 := RefreshStep(d, st, op, cs[5]);
    UnrollRefresh(d, st, op, cs, 5, e5.store, e5.op);
    if e5.op.RefreshHsetRefresh? { PublishedUnderFaults(d, e5.store, r, token, next, cs); }
  }

  /** What a refresh comes to after it has deleted the refresh entry, which leaves `locked`. */
  function AfterLock(d: Option<Time>, locked: Store, key: Tag, grant: Grant, entry: Token, cs: seq<Choice>): (Store, Op)
    requires |cs| == 8
  {
    var freed := locked.(access := locked.access - {entry.access});
    if !Answered(cs[2]) || locked.tokenUsage.None? || cs[2].first.None? || !Answered(cs[3])
       || entry.access !in locked.access || !Ran(cs[4]) then (locked, Done(Failed))
    else if !Answered(cs[4]) then (freed, Done(Failed))
    else
      var until := if d.Some? then cs[2].now + d.value else grant.until;
      AfterSwap(freed, key, Token(cs[2].first.value, entry.refresh, grant.(until := until)),
                (locked.tokenUsage.value + 1) % 0x1_0000_0000_0000_0000, cs)
  }

  lemma SwapUnderFaults(d: Option<Time>, st: Store, r: Tag, grant: Grant, token: Token, cs: seq<Choice>)
    requires |cs| == 8 && (token.access in st.access ==> st.access[token.access].access == token.access)
    ensures var result := RunFrom(d, st, RefreshGetUsage(r, grant, token), cs, 2);
            var freed := st.(access := st.access - {token.access});
            if !Answered(cs[2]) || st.tokenUsage.None? || cs[2].first.None? || !Answered(cs[3])
               || token.access !in st.access || !Ran(cs[4]) then result == (st, Done(Failed))
            else if !Answered(cs[4]) then result == (freed, Done(Failed))
            else
              var renewed := token.(access := cs[2].first.value, grant := SetDuration(d, cs[2].now, grant));
              result == RunFrom(d, freed, RefreshHsetAccess(r, renewed, WrappingAdd(st.tokenUsage.value, 1)), cs, 5)
  {
    var op := RefreshGetUsage(r, grant, token);
    var e2 := RefreshStep(d, st, op, cs[2]);
    UnrollRefresh(d, st, op, cs, 2, e2.store, e2.op);
    if e2.op.RefreshHgetAccess? {
      var e3 := RefreshStep(d, e2.store, e2.op, cs[3]);
      UnrollRefresh(d, e2.store, e2.op, cs, 3, e3.store, e3.op);
      if e3.op.RefreshHdelAccess? {
        var e4 := RefreshStep(d, e3.store, e3.op, cs[4]);
        UnrollRefresh(d, e3.store, e3.op, cs, 4, e4.store, e4.op);
      }
    }
  }

  lemma DurationIsAdded(d: Option<Time>, now: Time, grant: Grant, token: Token, a: Tag, u: u64)
    ensures token.(access := a, grant := SetDuration(d, now, grant))
            == Token(a, token.refresh, grant.(until := if d.Some? then now + d.value else grant.until))
    ensures WrappingAdd(u, 1) == (u + 1) % 0x1_0000_0000_0000_0000
  {
  }

  lemma LockedUnderFaults(d: Option<Time>, st: Store, r: Tag, grant: Grant, token: Token, cs: seq<Choice>)
    requires |cs| == 8 && (token.access in st.access ==> st.access[token.access].access == token.access)
    ensures RunFrom(d, st, RefreshGetUsage(r, grant, token), cs, 2) == AfterLock(d, st, r, grant, token, cs)
  {
    SwapUnderFaults(d, st, r, grant, token, cs);
    if cs[2].first.Some? && st.tokenUsage.Some? {
      var a, u := cs[2].first.value, st.tokenUsage.value;
      var renewed := token.(access := a, grant := SetDuration(d, cs[2].now, grant));
      DurationIsAdded(d, cs[2].now, grant, token, a, u);
      SwappedUnderFaults(d, st.(access := st.access - {token.access}), r, renewed, WrappingAdd(u, 1), cs);
    }
  }

  /**
   * `refresh`: the refresh entry is deleted first; a counter that is missing or not answered ends it there. Then the
   * access entry is deleted, the new pair is written and the counter advanced, in this order, up to the first
   * command that is not answered or finds its tag in use. Nothing is ever put back.
   */
  lemma RefreshUnderFaults(d: Option<Time>, st: Store, key: Tag, grant: Grant, cs: seq<Choice>)
    requires |cs| == 8 && StoreSelfKeyed(st)
    ensures var result := RunAlone(d, st, RefreshHgetRefresh(key, grant), cs);
            var locked := st.(refresh := st.refresh - {key});
            if !Answered(cs[0]) || key !in st.refresh || !Ran(cs[1]) then result == (st, Done(Failed))
            else if !Answered(cs[1]) then result == (locked, Done(Failed))
            else result == AfterLock(d, locked, key, grant, st.refresh[key], cs)
  {
    var op := RefreshHgetRefresh(key, grant);
    var e0 := RefreshStep(d, st, op, cs[0]);
    UnrollRefresh(d, st, op, cs, 0, e0.store, e0.op);
    if e0.op.RefreshHdelRefresh? {
      var e1 := RefreshStep(d, st, e0.op, cs[1]);
      UnrollRefresh(d, st, e0.op, cs, 1, e1.store, e1.op);
      if e1.op.RefreshGetUsage? { LockedUnderFaults(d, e1.store, key, grant, e1.op.token, cs); }
    }
  }
}
