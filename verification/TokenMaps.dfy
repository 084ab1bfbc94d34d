/**
 * `TokenMap` and `AuthMap` as the source writes them: command after command on a shared Redis object,
 * returning early on the first unexpected reply. Each method is proved to be the call that the
 * interleaving model runs one command at a time.
 */
module TokenMaps {
  import opened Prelude
  import opened Grants
  import opened Stores
  import opened SelfKeys
  import opened RedisServer

  class TokenMap {
    const redis: Redis
    var duration: Option<Time>

    constructor (redis: Redis)
      ensures this.redis == redis && duration == None
    {
      this.redis := redis;
      duration := None;
    }

    method ValidFor(d: Time)
      modifies this
      ensures duration == Some(d)
    {
      duration := Some(d);
    }

    ghost predicate Valid()
      reads redis
    {
      StoreSelfKeyed(redis.Content())
    }

    method Issue(grant: Grant, now: Time, session: Session) returns (outcome: Outcome)
      requires Valid() && |session.choices| == 4
      modifies redis`access, redis`refresh, redis`tokenUsage
      ensures Valid()
      ensures (redis.Content(), Done(outcome))
              == CallAlone(duration, old(redis.Content()), BeginIssue(duration, now, grant), session)
    {
      if !session.connected { return Failed; }
      var cs := session.choices;
      var g := SetDuration(duration, now, grant);
      ghost var st0, op0 := redis.Content(), IssueGetUsage(g);
      RunKeepsValid(duration, st0, op0, cs, 0);

      var read := redis.GetTokenUsage(cs[0].fault);
      var usage: u64 := if read.Some? then read.value else 0;
      var next := WrappingAdd(usage, 2);
      if cs[0].first.None? || cs[0].second.None? {
        UnrollIssue(duration, st0, op0, cs, 0, st0, Done(Failed));
        return Failed;
      }
      var access, refresh := cs[0].first.value, cs[0].second.value;
      var token := Token(access, Some(refresh), g);
      UnrollIssue(duration, st0, op0, cs, 0, st0, IssueHsetAccess(refresh, token, next));
      outcome := StorePair(refresh, token, next, cs);
    }

    /** Writes the access entry first, the refresh entry second, the counter last. */
    method StorePair(key: Tag, token: Token, next: u64, cs: seq<Choice>) returns (outcome: Outcome)
      requires |cs| == 4
      modifies redis`access, redis`refresh, redis`tokenUsage
      ensures (redis.Content(), Done(outcome))
              == RunFrom(duration, old(redis.Content()), IssueHsetAccess(key, token, next), cs, 1)
    {
      ghost var st0, op1 := redis.Content(), IssueHsetAccess(key, token, next);
      var added := redis.HsetAccess(token.access, token, cs[1].fault);
      ghost var st1 := redis.Content();
      if added != Some(1) {
        UnrollIssue(duration, st0, op1, cs, 1, st1, Done(Failed));
        return Failed;
      }
      ghost var op2 := IssueHsetRefresh(key, token, next);
      UnrollIssue(duration, st0, op1, cs, 1, st1, op2);

      added := redis.HsetRefresh(key, token, cs[2].fault);
      ghost var st2 := redis.Content();
      if added != Some(1) {
        UnrollIssue(duration, st1, op2, cs, 2, st2, Done(Failed));
        return Failed;
      }
      ghost var op3 := IssueSetUsage(key, token, next);
      UnrollIssue(duration, st1, op2, cs, 2, st2, op3);

      var ok := redis.SetTokenUsage(next, cs[3].fault);
      outcome := if ok then IssuedOk(token.access, key, token.grant.until) else Failed;
      UnrollIssue(duration, st2, op3, cs, 3, redis.Content(), Done(outcome));
    }

    method Refresh(key: Tag, grant: Grant, session: Session) returns (outcome: Outcome)
      requires Valid() && |session.choices| == 8
      modifies redis`access, redis`refresh, redis`tokenUsage
      ensures Valid()
      ensures (redis.Content(), Done(outcome))
              == CallAlone(duration, old(redis.Content()), RefreshHgetRefresh(key, grant), session)
    {
      if !session.connected { return Failed; }
      var cs := session.choices;
      ghost var st0, op0 := redis.Content(), RefreshHgetRefresh(key, grant);
      RunKeepsValid(duration, st0, op0, cs, 0);

      var found := redis.HgetRefresh(key, cs[0].fault);
      if found.None? {
        UnrollRefresh(duration, st0, op0, cs, 0, st0, Done(Failed));
        return Failed;
      }
      var token := found.value;
      ghost var op1 := RefreshHdelRefresh(key, grant, token);
      UnrollRefresh(duration, st0, op0, cs, 0, st0, op1);

      outcome := Lock(key, grant, token, cs);
    }

    /** Removes the refresh entry, which only one caller can do. */
    method Lock(key: Tag, grant: Grant, token: Token, cs: seq<Choice>) returns (outcome: Outcome)
      requires |cs| == 8 && token.refresh == Some(key) && Valid()
      modifies redis`access, redis`refresh, redis`tokenUsage
      ensures (redis.Content(), Done(outcome))
              == RunFrom(duration, old(redis.Content()), RefreshHdelRefresh(key, grant, token), cs, 1)
    {
      ghost var st0, op1 := redis.Content(), RefreshHdelRefresh(key, grant, token);
      var removed := redis.HdelRefresh(key, cs[1].fault);
      ghost var st1 := redis.Content();
      if removed != Some(1) {
        UnrollRefresh(duration, st0, op1, cs, 1, st1, Done(Failed));
        return Failed;
      }
      assert token.refresh == Some(key);   // the source's own assertion
      ghost var op2 := RefreshGetUsage(key, grant, token);
      UnrollRefresh(duration, st0, op1, cs, 1, st1, op2);

      outcome := Retag(key, grant, token, cs);
    }

    /** Reads the counter and draws the new access tag. */
    method Retag(key: Tag, grant: Grant, token: Token, cs: seq<Choice>) returns (outcome: Outcome)
      requires |cs| == 8 && Valid()
      modifies redis`access, redis`refresh, redis`tokenUsage
      ensures (redis.Content(), Done(outcome))
              == RunFrom(duration, old(redis.Content()), RefreshGetUsage(key, grant, token), cs, 2)
    {
      ghost var st1, op2 := redis.Content(), RefreshGetUsage(key, grant, token);
      var usage := redis.GetTokenUsage(cs[2].fault);
      if usage.None? || cs[2].first.None? {
        UnrollRefresh(duration, st1, op2, cs, 2, st1, Done(Failed));
        return Failed;
      }
      var g := SetDuration(duration, cs[2].now, grant);
      var newAccess, next := cs[2].first.value, WrappingAdd(usage.value, 1);
      UnrollRefresh(duration, st1, op2, cs, 2, st1, RefreshHgetAccess(key, g, token, newAccess, next));
      outcome := FindOld(key, g, token, newAccess, next, cs);
    }

    method FindOld(key: Tag, g: Grant, token: Token, newAccess: Tag, next: u64,
                   cs: seq<Choice>) returns (outcome: Outcome)
      requires |cs| == 8 && Valid()
      modifies redis`access, redis`refresh, redis`tokenUsage
      ensures (redis.Content(), Done(outcome))
              == RunFrom(duration, old(redis.Content()), RefreshHgetAccess(key, g, token, newAccess, next), cs, 3)
    {
      ghost var st1, op3 := redis.Content(), RefreshHgetAccess(key, g, token, newAccess, next);
      var seen := redis.HgetAccess(token.access, cs[3].fault);
      if seen.None? {
        UnrollRefresh(duration, st1, op3, cs, 3, st1, Done(Failed));
        return Failed;
      }
      UnrollRefresh(duration, st1, op3, cs, 3, st1, RefreshHdelAccess(key, g, token, newAccess, next, seen.value));
      outcome := Swap(key, g, token, newAccess, next, seen.value, cs);
    }

    /** The second half of `refresh`: remove the old access entry, then publish the pair again. */
    method Swap(key: Tag, g: Grant, token: Token, newAccess: Tag, next: u64, seen: Token, cs: seq<Choice>)
      returns (outcome: Outcome)
      requires |cs| == 8 && seen.access == token.access
      modifies redis`access, redis`refresh, redis`tokenUsage
      ensures (redis.Content(), Done(outcome))
              == RunFrom(duration, old(redis.Content()), RefreshHdelAccess(key, g, token, newAccess, next, seen), cs, 4)
    {
      ghost var st1, op4 := redis.Content(), RefreshHdelAccess(key, g, token, newAccess, next, seen);
      var removed := redis.HdelAccess(token.access, cs[4].fault);
      ghost var st2 := redis.Content();
      if removed != Some(1) {
        UnrollRefresh(duration, st1, op4, cs, 4, st2, Done(Failed));
        return Failed;
      }
      assert token.access == seen.access;   // the source's own assertion
      var token' := token.(access := newAccess, grant := g);
      UnrollRefresh(duration, st1, op4, cs, 4, st2, RefreshHsetAccess(key, token', next));
      outcome := Reinsert(key, token', next, cs);
    }

    method Reinsert(key: Tag, token: Token, next: u64, cs: seq<Choice>) returns (outcome: Outcome)
      requires |cs| == 8
      modifies redis`access, redis`refresh, redis`tokenUsage
      ensures (redis.Content(), Done(outcome))
              == RunFrom(duration, old(redis.Content()), RefreshHsetAccess(key, token, next), cs, 5)
    {
      ghost var st2, op5 := redis.Content(), RefreshHsetAccess(key, token, next);
      var added := redis.HsetAccess(token.access, token, cs[5].fault);
      ghost var st3 := redis.Content();
      if added != Some(1) {
        UnrollRefresh(duration, st2, op5, cs, 5, st3, Done(Failed));
        return Failed;
      }
      UnrollRefresh(duration, st2, op5, cs, 5, st3, RefreshHsetRefresh(key, token, next));
      outcome := PublishAgain(key, token, next, cs);
    }

    method PublishAgain(key: Tag, token: Token, next: u64, cs: seq<Choice>) returns (outcome: Outcome)
      requires |cs| == 8
      modifies redis`access, redis`refresh, redis`tokenUsage
      ensures (redis.Content(), Done(outcome))
              == RunFrom(duration, old(redis.Content()), RefreshHsetRefresh(key, token, next), cs, 6)
    {
      ghost var st3, op6 := redis.Content(), RefreshHsetRefresh(key, token, next);
      var added := redis.HsetRefresh(key, token, cs[6].fault);
      ghost var st4 := redis.Content();
      if added != Some(1) {
        UnrollRefresh(duration, st3, op6, cs, 6, st4, Done(Failed));
        return Failed;
      }
      ghost var op7 := RefreshSetUsage(key, token, next);
      UnrollRefresh(duration, st3, op6, cs, 6, st4, op7);

      var ok := redis.SetTokenUsage(next, cs[7].fault);
      outcome := if ok then RefreshedOk(token.access, token.grant.until) else Failed;
      UnrollRefresh(duration, st4, op7, cs, 7, redis.Content(), Done(outcome));
    }

    method RecoverToken(key: Tag, session: Session) returns (outcome: Outcome)
      requires |session.choices| == 1
      ensures (redis.Content(), Done(outcome)) == CallAlone(duration, redis.Content(), RecoverTokenHget(key), session)
    {
      if !session.connected { return Failed; }
      var token := redis.HgetAccess(key, session.choices[0].fault);
      outcome := TokenRecovered(if token.Some? then Some(token.value.grant) else None);
      ghost var st, op := redis.Content(), RecoverTokenHget(key);
      Unroll(duration, st, op, session.choices, 0, Quiet(st, Done(outcome)));
    }

    method RecoverRefresh(key: Tag, session: Session) returns (outcome: Outcome)
      requires |session.choices| == 1
      ensures (redis.Content(), Done(outcome)) == CallAlone(duration, redis.Content(), RecoverRefreshHget(key), session)
    {
      if !session.connected { return Failed; }
      var token := redis.HgetRefresh(key, session.choices[0].fault);
      outcome := RefreshRecovered(key, if token.Some? then Some(token.value.grant) else None);
      ghost var st, op := redis.Content(), RecoverRefreshHget(key);
      Unroll(duration, st, op, session.choices, 0, Quiet(st, Done(outcome)));
    }
  }

  /** A call on its own keeps every entry under its own key. */
  lemma {:induction false} RunKeepsValid(d: Option<Time>, st: Store, op: Op, cs: seq<Choice>, i: nat)
    requires i <= |cs| && StoreSelfKeyed(st) && OpSelfKeyed(op)
    ensures StoreSelfKeyed(RunFrom(d, st, op, cs, i).0)
    decreases |cs| - i
  {
    if i < |cs| && !op.Done? {
      CommandKeepsSelfKeys(d, st, op, cs[i]);
      var e := OpStep(d, st, op, cs[i]);
      RunKeepsValid(d, e.store, e.op, cs, i + 1);
    }
  }

  class AuthMap {
    const redis: Redis

    constructor (redis: Redis)
      ensures this.redis == redis
    {
      this.redis := redis;
    }

    method Authorize(grant: Grant, session: Session) returns (outcome: Outcome)
      requires |session.choices| == 3
      modifies redis`codes, redis`codeUsage
      ensures (redis.Content(), Done(outcome)) == CallAlone(None, old(redis.Content()), AuthorizeGetUsage(grant),
                                                            session)
      ensures outcome == Panicked(ArithmeticOverflow)
              <==> session.connected && session.choices[0].fault.Healthy? && old(redis.codeUsage) == Some(U64_SIZE - 1)
    {
      if !session.connected { return Failed; }
      var cs := session.choices;
      ghost var st0, op0 := redis.Content(), AuthorizeGetUsage(grant);
      var read := redis.GetCodeUsage(cs[0].fault);
      var usage: u64 := if read.Some? then read.value else 0;
      var next := WrappingAdd(usage, 1);
      if next == 0 {
        UnrollCode(None, st0, op0, cs, 0, st0, Done(Panicked(ArithmeticOverflow)));
        return Panicked(ArithmeticOverflow);
      }
      if cs[0].first.None? {
        UnrollCode(None, st0, op0, cs, 0, st0, Done(Failed));
        return Failed;
      }
      var code := cs[0].first.value;
      UnrollCode(None, st0, op0, cs, 0, st0, AuthorizeHset(code, grant, next));
      outcome := StoreCode(code, grant, next, cs);
    }

    method StoreCode(code: Tag, grant: Grant, next: u64, cs: seq<Choice>) returns (outcome: Outcome)
      requires |cs| == 3
      modifies redis`codes, redis`codeUsage
      ensures (redis.Content(), Done(outcome)) == RunFrom(None, old(redis.Content()), AuthorizeHset(code, grant, next),
                                                          cs, 1)
      ensures !outcome.Panicked?
    {
      ghost var st0, op1 := redis.Content(), AuthorizeHset(code, grant, next);
      var added := redis.HsetCode(code, grant, cs[1].fault);
      ghost var st1 := redis.Content();
      if added != Some(1) {
        UnrollCode(None, st0, op1, cs, 1, st1, Done(Failed));
        return Failed;
      }
      ghost var op2 := AuthorizeSetUsage(code, grant, next);
      UnrollCode(None, st0, op1, cs, 1, st1, op2);

      var ok := redis.SetCodeUsage(next, cs[2].fault);
      outcome := if ok then CodeIssued(code) else Failed;
      UnrollCode(None, st1, op2, cs, 2, redis.Content(), Done(outcome));
    }

    method Extract(code: Tag, session: Session) returns (outcome: Outcome)
      requires |session.choices| == 2
      modifies redis`codes
      ensures (redis.Content(), Done(outcome)) == CallAlone(None, old(redis.Content()), ExtractHget(code), session)
    {
      if !session.connected { return Failed; }
      var cs := session.choices;
      ghost var st0, op0 := redis.Content(), ExtractHget(code);
      var found := redis.HgetCode(code, cs[0].fault);
      if found.None? {
        UnrollCode(None, st0, op0, cs, 0, st0, Done(Extracted(code, None)));
        return Extracted(code, None);
      }
      ghost var op1 := ExtractHdel(code, found.value);
      UnrollCode(None, st0, op0, cs, 0, st0, op1);

      var removed := redis.HdelCode(code, cs[1].fault);
      outcome := if removed == Some(1) then Extracted(code, found) else Failed;
      assert code in st0.codes || st0.codes - {code} == st0.codes;
      UnrollCode(None, st0, op1, cs, 1, redis.Content(), Done(outcome));
    }
  }
}
