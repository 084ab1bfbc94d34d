/**
 * A run in which two refreshes that overlap destroy the entry they refresh. It is put together from pieces: a call
 * that reads the entry and stops, a call that runs from beginning to end with nobody in between and does then what
 * it does alone, and the first call going on. Each piece leads from one state to the next without failures and
 * without repeating a tag.
 */
module OverlappingRefreshes {
  import opened Prelude
  import opened Grants
  import opened Stores
  import opened Interleaving
  import opened SelfKeys
  import opened TokenIndex
  import opened FailureFree
  import opened Vanishing

  /** The run leads from `s` to `t` without failures and without repeating a tag. */
  predicate Leads(d: Option<Time>, s: Sys, ls: seq<Label>, t: Sys) {
    Run(d, s, ls) == t && FreshRun(d, s, ls) && SmoothRun(d, s, ls)
  }

  lemma LeadsFirst(d: Option<Time>, s: Sys, l: Label, ls: seq<Label>, t: Sys)
    requires FreshStep(d, s, l) && SmoothStep(s, l) && Leads(d, Step(d, s, l), ls, t)
    ensures Leads(d, s, [l] + ls, t)
  {
    assert ([l] + ls)[1..] == ls;
  }

  lemma {:induction false} LeadsOn(d: Option<Time>, s: Sys, xs: seq<Label>, t: Sys, ys: seq<Label>, u: Sys)
    requires Leads(d, s, xs, t) && Leads(d, t, ys, u)
    ensures Leads(d, s, xs + ys, u)
    decreases |xs|
  {
    if xs == [] {
      assert xs + ys == ys;
    } else {
      assert xs + ys == [xs[0]] + (xs[1..] + ys);
      LeadsOn(d, Step(d, s, xs[0]), xs[1..], t, ys, u);
      LeadsFirst(d, s, xs[0], xs[1..] + ys, u);
    }
  }

  /** One healthy command of a refresh; `drawn` is the tag it draws, if it does. */
  lemma RefreshMoves(d: Option<Time>, s: Sys, p: Pid, c: Choice, e: Effect, drawn: set<Tag>)
    requires p in s.ops && IsRefresh(s.ops[p]) && c.fault.Healthy? && e == RefreshStep(d, s.store, s.ops[p], c)
    requires s.ops[p].RefreshGetUsage? ==> c.first.Some? && c.first.value !in s.spentTokens
    requires drawn == if s.ops[p].RefreshGetUsage? && s.store.tokenUsage.Some? then {c.first.value} else {}
    ensures var t := Step(d, s, Exec(p, c));
            t.store == e.store && t.ops == s.ops[p := e.op] && t.spentTokens == s.spentTokens + drawn
    ensures FreshStep(d, s, Exec(p, c)) && SmoothStep(s, Exec(p, c))
  {
    assert s.ops[p].RefreshGetUsage? && s.store.tokenUsage.Some? ==>
             e.tokenDraws == [Draw(s.store.tokenUsage.value, c.first.value)];
    assert Tags(e.tokenDraws) == drawn;
  }

  /** The remaining commands of one call, with nobody in between. */
  function Commands(p: Pid, cs: seq<Choice>, i: nat): seq<Label>
    requires i <= |cs|
    decreases |cs| - i
  {
    if i == |cs| then [] else [Exec(p, cs[i])] + Commands(p, cs, i + 1)
  }

  /** Command `i` of a refresh is the one that draws exactly if it is number 2. */
  predicate Stage(op: Op, i: nat) {
    && (IsRefresh(op) || op.Done?)
    && (op.RefreshHgetRefresh? ==> i == 0) && (op.RefreshHdelRefresh? ==> i == 1) && (op.RefreshGetUsage? ==> i == 2)
  }

  lemma StageMoves(d: Option<Time>, s: Sys, p: Pid, c: Choice, i: nat, a: Tag)
    requires p in s.ops && Stage(s.ops[p], i) && c.fault.Healthy? && (i == 2 ==> c.first == Some(a))
    requires i <= 2 ==> a !in s.spentTokens
    ensures var e, t := OpStep(d, s.store, s.ops[p], c), Step(d, s, Exec(p, c));
            && t.store == e.store && t.ops == s.ops[p := e.op] && Stage(e.op, i + 1)
            && t.spentTokens <= s.spentTokens + {a} && (i < 2 ==> t.spentTokens == s.spentTokens)
    ensures FreshStep(d, s, Exec(p, c)) && SmoothStep(s, Exec(p, c))
  {
    if IsRefresh(s.ops[p]) {
      var drawn := if s.ops[p].RefreshGetUsage? && s.store.tokenUsage.Some? then {a} else {};
      RefreshMoves(d, s, p, c, RefreshStep(d, s.store, s.ops[p], c), drawn);
    }
  }

  /** A call with nobody in between does what it does alone. */
  lemma {:induction false} CallWithoutBreak(d: Option<Time>, s: Sys, p: Pid, cs: seq<Choice>, i: nat)
    requires i <= |cs| && p in s.ops
    ensures var (st, op) := RunFrom(d, s.store, s.ops[p], cs, i);
            var t := Run(d, s, Commands(p, cs, i));
            t.store == st && t.ops == s.ops[p := op]
    decreases |cs| - i
  {
    if i < |cs| {
      UnrollAny(d, s.store, s.ops[p], cs, i);
      CallWithoutBreak(d, Step(d, s, Exec(p, cs[i])), p, cs, i + 1);
      assert Commands(p, cs, i)[1..] == Commands(p, cs, i + 1);
    } else {
      assert s.ops[p := s.ops[p]] == s.ops;
    }
  }

  /** A refresh that does so draws one tag. */
  lemma {:induction false} RefreshWithoutBreak(d: Option<Time>, s: Sys, p: Pid, cs: seq<Choice>, i: nat, a: Tag)
      returns (t: Sys)
    requires |cs| == 8 && i <= 8 && p in s.ops && Stage(s.ops[p], i)
    requires cs[2].first == Some(a) && (forall j :: 0 <= j < 8 ==> cs[j].fault.Healthy?)
    requires i <= 2 ==> a !in s.spentTokens
    ensures Leads(d, s, Commands(p, cs, i), t) && t.spentTokens <= s.spentTokens + {a}
    decreases 8 - i
  {
    if i < 8 {
      StageMoves(d, s, p, cs[i], i, a);
      t := RefreshWithoutBreak(d, Step(d, s, Exec(p, cs[i])), p, cs, i + 1, a);
      LeadsFirst(d, s, Exec(p, cs[i]), Commands(p, cs, i + 1), t);
    } else {
      t := s;
    }
  }

  lemma UnrollAny(d: Option<Time>, st: Store, op: Op, cs: seq<Choice>, i: nat)
    requires i < |cs|
    ensures var e := OpStep(d, st, op, cs[i]); RunFrom(d, st, op, cs, i) == RunFrom(d, e.store, e.op, cs, i + 1)
  {
  }

  /** One call has read the entry and stops there. */
  function Reading(p: Pid, r: Tag, grant: Grant): seq<Label> {
    [Start(p, RefreshHgetRefresh(r, grant))] + ([Exec(p, HealthyChoice(None, None, 0))] + [])
  }

  lemma ReadingLeads(d: Option<Time>, s: Sys, p: Pid, r: Tag, grant: Grant) returns (t: Sys)
    requires p !in s.ops && r in s.store.refresh
    ensures Leads(d, s, Reading(p, r, grant), t) && t.store == s.store && t.spentTokens == s.spentTokens
    ensures t.ops == s.ops[p := RefreshHdelRefresh(r, grant, s.store.refresh[r])]
  {
    var c := HealthyChoice(None, None, 0);
    var s1 := Step(d, s, Start(p, RefreshHgetRefresh(r, grant)));
    t := Step(d, s1, Exec(p, c));
    RefreshMoves(d, s1, p, c, Quiet(s.store, RefreshHdelRefresh(r, grant, s.store.refresh[r])), {});
    LeadsFirst(d, s1, Exec(p, c), [], t);
    LeadsFirst(d, s, Start(p, RefreshHgetRefresh(r, grant)), [Exec(p, c)] + [], t);
  }

  /** Another refreshes it from beginning to end. */
  function Refreshing(p: Pid, r: Tag, grant: Grant, a: Tag): seq<Label> {
    [Start(p, RefreshHgetRefresh(r, grant))] + Commands(p, HealthyRun(8, 2, Some(a), None, 0), 0)
  }

  lemma CallLeads(d: Option<Time>, s: Sys, p: Pid, r: Tag, grant: Grant, a: Tag) returns (t: Sys)
    requires p in s.ops && s.ops[p] == RefreshHgetRefresh(r, grant) && a !in s.spentTokens
    requires r in s.store.refresh && StoreSelfKeyed(s.store) && Completes(s.store, r, a)
    ensures Leads(d, s, Commands(p, HealthyRun(8, 2, Some(a), None, 0), 0), t) && t.spentTokens <= s.spentTokens + {a}
    ensures t.store == AfterRefresh(s.store, r, a, SetDuration(d, 0, grant))
    ensures t.ops == s.ops[p := Done(RefreshedOk(a, SetDuration(d, 0, grant).until))]
  {
    var cs := HealthyRun(8, 2, Some(a), None, 0);
    t := RefreshWithoutBreak(d, s, p, cs, 0, a);
    CallWithoutBreak(d, s, p, cs, 0);
    RefreshSucceeds(d, s.store, r, grant, a, 0);
  }

  lemma RefreshingLeads(d: Option<Time>, s: Sys, p: Pid, r: Tag, grant: Grant, a: Tag) returns (t: Sys)
    requires p !in s.ops && r in s.store.refresh && a !in s.spentTokens && StoreSelfKeyed(s.store)
    requires Completes(s.store, r, a)
    ensures Leads(d, s, Refreshing(p, r, grant, a), t) && t.spentTokens <= s.spentTokens + {a}
    ensures t.store == AfterRefresh(s.store, r, a, SetDuration(d, 0, grant))
    ensures t.ops == s.ops[p := Done(RefreshedOk(a, SetDuration(d, 0, grant).until))]
  {
    var l := Start(p, RefreshHgetRefresh(r, grant));
    t := CallLeads(d, Step(d, s, l), p, r, grant, a);
    LeadsFirst(d, s, l, Commands(p, HealthyRun(8, 2, Some(a), None, 0), 0), t);
  }

  /** The first one goes on. */
  function GoingOn(p: Pid, a: Tag): seq<Label> {
    var l := Exec(p, HealthyChoice(Some(a), None, 0));
    [l] + ([l] + ([l] + []))
  }

  lemma MissingLeads(d: Option<Time>, s: Sys, p: Pid, r: Tag, grant: Grant, token: Token, a: Tag) returns (t: Sys)
    requires p in s.ops && s.ops[p] == RefreshGetUsage(r, grant, token)
    requires s.store.tokenUsage.Some? && token.access !in s.store.access && a !in s.spentTokens
    ensures var l := Exec(p, HealthyChoice(Some(a), None, 0)); Leads(d, s, [l] + ([l] + []), t)
    ensures t.store == s.store && t.ops == s.ops[p := Done(Failed)]
  {
    var c, u := HealthyChoice(Some(a), None, 0), s.store.tokenUsage.value;
    var hget := RefreshHgetAccess(r, SetDuration(d, 0, grant), token, a, WrappingAdd(u, 1));
    var s1 := Step(d, s, Exec(p, c));
    RefreshMoves(d, s, p, c, Effect(s.store, hget, [Draw(u, a)], [], []), {a});
    t := Step(d, s1, Exec(p, c));
    RefreshMoves(d, s1, p, c, Quiet(s.store, Done(Failed)), {});
    LeadsFirst(d, s1, Exec(p, c), [], t);
    LeadsFirst(d, s, Exec(p, c), [Exec(p, c)] + [], t);
  }

  /** It deletes an entry other than it has read, and then misses the access entry it looks for. */
  lemma GoingOnLeads(d: Option<Time>, s: Sys, p: Pid, r: Tag, grant: Grant, token: Token, a: Tag) returns (t: Sys)
    requires p in s.ops && s.ops[p] == RefreshHdelRefresh(r, grant, token) && token.refresh == Some(r)
    requires r in s.store.refresh && s.store.tokenUsage.Some? && token.access !in s.store.access && a !in s.spentTokens
    ensures Leads(d, s, GoingOn(p, a), t)
    ensures t.store == s.store.(refresh := s.store.refresh - {r}) && t.ops == s.ops[p := Done(Failed)]
  {
    var l := Exec(p, HealthyChoice(Some(a), None, 0));
    var s1 := Step(d, s, l);
    RefreshMoves(d, s, p, l.choice, Quiet(s.store.(refresh := s.store.refresh - {r}), RefreshGetUsage(r, grant, token)),
                 {});
    t := MissingLeads(d, s1, p, r, grant, token, a);
    LeadsFirst(d, s, l, [l] + ([l] + []), t);
  }

  lemma OverlapLeads(d: Option<Time>, s: Sys, r: Tag, p: Pid, q: Pid, g: Grant, h: Grant, a: Tag, b: Tag)
      returns (t: Sys)
    requires r in s.store.refresh && StoreSelfKeyed(s.store)
    requires Completes(s.store, r, a) && a != s.store.refresh[r].access
    requires p !in s.ops && q !in s.ops && p != q && a !in s.spentTokens && b !in s.spentTokens && a != b
    ensures Leads(d, s, Reading(p, r, g) + (Refreshing(q, r, h, a) + GoingOn(p, b)), t)
    ensures q in t.ops && t.ops[q] == Done(RefreshedOk(a, SetDuration(d, 0, h).until))
    ensures p in t.ops && t.ops[p] == Done(Failed) && r !in t.store.refresh
  {
    var s1 := ReadingLeads(d, s, p, r, g);
    var s2 := RefreshingLeads(d, s1, q, r, h, a);
    t := GoingOnLeads(d, s2, p, r, g, s.store.refresh[r], b);
    LeadsOn(d, s1, Refreshing(q, r, h, a), s2, GoingOn(p, b), t);
    LeadsOn(d, s, Reading(p, r, g), s1, Refreshing(q, r, h, a) + GoingOn(p, b), t);
  }

  /** A new tag is not in use, and the entry under `r` can be replaced with it. */
  lemma NewTagCompletes(s: Sys, r: Tag, a: Tag)
    requires IndexInv(s) && r in s.store.refresh && s.store.tokenUsage.Some? && a !in s.spentTokens
    ensures Completes(s.store, r, a) && a != s.store.refresh[r].access
  {
  }

  /**
   * In every state of every run with non-repeating tags, every entry of the refresh hash can be destroyed by two
   * refreshes that overlap, while no command fails: one reads the entry, the other refreshes it and reports
   * success, and the first then deletes the new entry and fails.
   */
  lemma EntryCanBeDestroyed(d: Option<Time>, s: Sys, past: seq<Label>, r: Tag, p: Pid, q: Pid, g: Grant, h: Grant,
                            a: Tag, b: Tag)
    requires Init(s) && FreshRun(d, s, past)
    requires var u := Run(d, s, past);
             && r in u.store.refresh && u.store.tokenUsage.Some?
             && p !in u.ops && q !in u.ops && p != q && a !in u.spentTokens && b !in u.spentTokens && a != b
    ensures var u := Run(d, s, past);
            var ls := Reading(p, r, g) + (Refreshing(q, r, h, a) + GoingOn(p, b));
            var t := Run(d, u, ls);
            && FreshRun(d, u, ls) && SmoothRun(d, u, ls)
            && q in t.ops && t.ops[q] == Done(RefreshedOk(a, SetDuration(d, 0, h).until))
            && p in t.ops && t.ops[p] == Done(Failed) && r !in t.store.refresh
  {
    var u := Run(d, s, past);
    RunKeepsIndex(d, s, past);
    RunKeepsSelfKeys(d, s, past);
    NewTagCompletes(u, r, a);
    var t := OverlapLeads(d, u, r, p, q, g, h, a, b);
  }
}
