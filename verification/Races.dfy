/** What interleaving and faults do break: concrete runs beside the exact conditions proved elsewhere. */
module Races {
  import opened Prelude
  import opened Grants
  import opened Stores
  import opened Interleaving
  import opened TokenIndex
  import opened FailureFree
  import C = Counters

  const NOTHING_YET := Sys(EMPTY_STORE, map[], {}, {}, map[], [])

  function Answering(a: Tag, r: Tag): Choice {
    HealthyChoice(Some(a), Some(r), 0)
  }

  lemma RunHead(s: Sys, ls: seq<Label>)
    requires ls != []
    ensures Run(None, s, ls) == Run(None, Step(None, s, ls[0]), ls[1..])
    ensures C.RunDraws(C.TOKENS, None, s, ls)
            == C.StepDraws(C.TOKENS, None, s, ls[0])
                + C.RunDraws(C.TOKENS, None, Step(None, s, ls[0]), ls[1..])
  {
  }

  lemma {:induction false} RunConcat(s: Sys, xs: seq<Label>, ys: seq<Label>)
    ensures Run(None, s, xs + ys) == Run(None, Run(None, s, xs), ys)
    decreases |xs|
  {
    if xs == [] {
      assert xs + ys == ys;
    } else {
      assert (xs + ys)[1..] == xs[1..] + ys;
      RunConcat(Step(None, s, xs[0]), xs[1..], ys);
    }
  }

  lemma {:induction false} DrawsConcat(s: Sys, xs: seq<Label>, ys: seq<Label>)
    ensures C.RunDraws(C.TOKENS, None, s, xs + ys)
            == C.RunDraws(C.TOKENS, None, s, xs) + C.RunDraws(C.TOKENS, None, Run(None, s, xs), ys)
    decreases |xs|
  {
    if xs == [] {
      assert xs + ys == ys;
    } else {
      var t := Step(None, s, xs[0]);
      assert (xs + ys)[1..] == xs[1..] + ys;
      DrawsConcat(t, xs[1..], ys);
      RunHead(s, xs);
      RunHead(s, xs + ys);
      Regroup(C.StepDraws(C.TOKENS, None, s, xs[0]), C.RunDraws(C.TOKENS, None, t, xs[1..]),
              C.RunDraws(C.TOKENS, None, Run(None, t, xs[1..]), ys));
    }
  }

  lemma Regroup(a: seq<Draw>, b: seq<Draw>, c: seq<Draw>)
    ensures a + (b + c) == (a + b) + c
  {
  }

  // -------------------------------------------------------- repeated usage values

  /** A new call reads the counter. */
  function Ask(p: Pid, g: Grant, c: Choice): seq<Label> {
    [Start(p, IssueGetUsage(g)), Exec(p, c)]
  }

  /** It draws two values from what it reads; the store does not change. */
  lemma AskDraws(s: Sys, p: Pid, g: Grant, c: Choice, a: Tag, r: Tag)
    requires p !in s.ops && c.first == Some(a) && c.second == Some(r)
    ensures var u := C.Read(C.TOKENS, s.store, c);
            var t := Run(None, s, Ask(p, g, c));
            && C.RunDraws(C.TOKENS, None, s, Ask(p, g, c)) == [Draw(u, a), Draw(WrappingAdd(u, 1), r)]
            && t.store == s.store && t.ops == s.ops[p := IssueHsetAccess(r, Token(a, Some(r), g), WrappingAdd(u, 2))]
  {
    var ls := Ask(p, g, c);
    var s1 := Step(None, s, ls[0]);
    assert s1.store == s.store && s1.ops == s.ops[p := IssueGetUsage(g)];
    var e := IssueStep(s.store, IssueGetUsage(g), c);
    RunHead(s, ls);
    RunHead(s1, ls[1..]);
    assert ls[1..][1..] == [];
    assert s1.ops[p := e.op] == s.ops[p := e.op];
  }

  /** Two calls that overlap read the same value, */
  lemma OverlappingCallsRepeat(g0: Grant, g1: Grant, a: Tag, r: Tag, b: Tag, q: Tag)
    ensures C.RunDraws(C.TOKENS, None, NOTHING_YET, Ask(0, g0, Answering(a, r)) + Ask(1, g1, Answering(b, q)))
            == [Draw(0, a), Draw(1, r)] + [Draw(0, b), Draw(1, q)]
  {
    AskDraws(NOTHING_YET, 0, g0, Answering(a, r), a, r);
    var s := Run(None, NOTHING_YET, Ask(0, g0, Answering(a, r)));
    AskDraws(s, 1, g1, Answering(b, q), b, q);
    DrawsConcat(NOTHING_YET, Ask(0, g0, Answering(a, r)), Ask(1, g1, Answering(b, q)));
  }

  /** and so does the next call of a single process whose call before died between reading and writing back. */
  lemma AbortedCallRepeats(g0: Grant, g1: Grant, a: Tag, r: Tag, b: Tag, q: Tag)
    ensures C.RunDraws(C.TOKENS, None, NOTHING_YET,
                       Ask(0, g0, Answering(a, r)) + [Crash(0)] + Ask(1, g1, Answering(b, q)))
            == [Draw(0, a), Draw(1, r)] + [Draw(0, b), Draw(1, q)]
  {
    var first, crash, second := Ask(0, g0, Answering(a, r)), [Crash(0)], Ask(1, g1, Answering(b, q));
    AskDraws(NOTHING_YET, 0, g0, Answering(a, r), a, r);
    var s := Run(None, NOTHING_YET, first);
    RunHead(s, crash);
    assert crash[1..] == [];
    var s' := Run(None, s, crash);
    assert s'.store == s.store && 1 !in s'.ops;
    AskDraws(s', 1, g1, Answering(b, q), b, q);
    RunConcat(NOTHING_YET, first, crash);
    DrawsConcat(NOTHING_YET, first, crash);
    DrawsConcat(NOTHING_YET, first + crash, second);
    assert [Draw(0, a), Draw(1, r)] + [] + [Draw(0, b), Draw(1, q)] == [Draw(0, a), Draw(1, r)]
        + [Draw(0, b), Draw(1, q)];
  }

  /** A GET that is not answered starts over at 0, whatever the counter holds. */
  lemma UnansweredGetStartsOver(s: Sys, p: Pid, g: Grant, c: Choice, a: Tag, r: Tag)
    requires p !in s.ops && !c.fault.Healthy? && c.first == Some(a) && c.second == Some(r)
    ensures C.RunDraws(C.TOKENS, None, s, Ask(p, g, c)) == [Draw(0, a), Draw(1, r)]
  {
    AskDraws(s, p, g, c, a, r);
  }

  /** A draw whose GET is not answered is out of order, unless the counter is at 0. */
  lemma UnansweredGetIsDisorder(s: Sys, g: Grant, c: Choice)
    requires 0 !in s.ops && C.Held(C.TOKENS, s.store) != 0 && !c.fault.Healthy? && c.first.Some?
    ensures !C.Orderly(C.TOKENS, None, s, Ask(0, g, c), None)
  {
    var ls := Ask(0, g, c);
    var s1 := Step(None, s, ls[0]);
    assert s1.ops[0] == IssueGetUsage(g) && s1.store == s.store;
    assert C.DrawsOf(C.TOKENS, OpStep(None, s.store, IssueGetUsage(g), c)) == IssueTag(s.store, g, c).tokenDraws;
    assert !C.OrderlyStep(C.TOKENS, None, s1, ls[1], None);
    assert ls[1..][0] == ls[1];
  }

  lemma TwoAreDistinct(u: u64, a: Tag, r: Tag)
    ensures C.DistinctValues(C.UsagesOf([Draw(u, a), Draw(WrappingAdd(u, 1), r)]))
  {
  }

  /** From a counter that began elsewhere this need not repeat a value: there the condition is not necessary. */
  lemma DisorderNeedNotRepeatElsewhere(s: Sys, start: u64, g: Grant, c: Choice, a: Tag, r: Tag)
    requires Init(s) && s.store.tokenUsage == Some(start) && start != 0
    requires !c.fault.Healthy? && c.first == Some(a) && c.second == Some(r)
    ensures C.DistinctValues(C.RunValues(C.TOKENS, None, s, Ask(0, g, c)))
    ensures !C.Orderly(C.TOKENS, None, s, Ask(0, g, c), None)
  {
    AskDraws(s, 0, g, c, a, r);
    C.AnsweredRun(C.TOKENS, None, s, Ask(0, g, c));
    TwoAreDistinct(0, a, r);
    UnansweredGetIsDisorder(s, g, c);
  }

  // ----------------------------------------------------- what repeated tags do

  /** Both calls read the counter before either writes it back. */
  function TwoIssues(g0: Grant, g1: Grant, c: Choice): seq<Label> {
    Ask(0, g0, c) + Ask(1, g1, c) + [Exec(0, c), Exec(1, c), Exec(0, c)]
  }

  lemma TheyOverwriteEachOther(s: Sys, c: Choice, key: Tag, t0: Token, t1: Token)
    requires c.fault.Healthy? && s.store == EMPTY_STORE && s.ops.Keys == {0, 1} && t0.access == t1.access
    requires s.ops[0] == IssueHsetAccess(key, t0, 2) && s.ops[1] == IssueHsetAccess(key, t1, 2)
    ensures var t := Run(None, s, [Exec(0, c), Exec(1, c), Exec(0, c)]).store;
            t.access == map[t0.access := t1] && t.refresh == map[key := t0]
  {
    var ls := [Exec(0, c), Exec(1, c), Exec(0, c)];
    var s1 := Step(None, s, ls[0]);
    var s2 := Step(None, s1, ls[1]);
    RunHead(s, ls);
    RunHead(s1, ls[1..]);
    RunHead(s2, ls[2..]);
    assert ls[1..][1..] == ls[2..] && ls[2..][1..] == [];
    assert s1.ops[1] == s.ops[1] && s1.ops[0] == IssueHsetRefresh(key, t0, 2);
    assert s2.ops[0] == s1.ops[0] && s2.store.access == map[t0.access := t1];
  }

  lemma BothHaveAsked(g0: Grant, g1: Grant, a: Tag, r: Tag)
    ensures var t := Run(None, NOTHING_YET, Ask(0, g0, Answering(a, r)) + Ask(1, g1, Answering(a, r)));
            && t.store == EMPTY_STORE && t.ops.Keys == {0, 1}
            && t.ops[0] == IssueHsetAccess(r, Token(a, Some(r), g0), 2)
            && t.ops[1] == IssueHsetAccess(r, Token(a, Some(r), g1), 2)
  {
    var c := Answering(a, r);
    AskDraws(NOTHING_YET, 0, g0, c, a, r);
    AskDraws(Run(None, NOTHING_YET, Ask(0, g0, c)), 1, g1, c, a, r);
    RunConcat(NOTHING_YET, Ask(0, g0, c), Ask(1, g1, c));
  }

  lemma TwoIssuesEnd(g0: Grant, g1: Grant, a: Tag, r: Tag)
    ensures var t := Run(None, NOTHING_YET, TwoIssues(g0, g1, Answering(a, r))).store;
            t.access == map[a := Token(a, Some(r), g1)] && t.refresh == map[r := Token(a, Some(r), g0)]
  {
    var c := Answering(a, r);
    var asks, writes := Ask(0, g0, c) + Ask(1, g1, c), [Exec(0, c), Exec(1, c), Exec(0, c)];
    BothHaveAsked(g0, g1, a, r);
    RunConcat(NOTHING_YET, asks, writes);
    TheyOverwriteEachOther(Run(None, NOTHING_YET, asks), c, r, Token(a, Some(r), g0), Token(a, Some(r), g1));
  }

  /**
   * The index invariant needs tags that do not repeat: two overlapping issues ask the tagger twice with the
   * values 0 and 1, and if it answers both with the same tags the hashes disagree unless the grants are equal.
   */
  lemma InterleavedIssuesCollide(g0: Grant, g1: Grant, a: Tag, r: Tag)
    ensures var ls := TwoIssues(g0, g1, Answering(a, r));
            && C.RunDraws(C.TOKENS, None, NOTHING_YET, ls[..4]) == [Draw(0, a), Draw(1, r)]
                + [Draw(0, a), Draw(1, r)]
            && (RefreshBacked(Run(None, NOTHING_YET, ls).store) <==> g0 == g1)
  {
    OverlappingCallsRepeat(g0, g1, a, r, a, r);
    assert TwoIssues(g0, g1, Answering(a, r))[..4] == Ask(0, g0, Answering(a, r)) + Ask(1, g1, Answering(a, r));
    TwoIssuesEnd(g0, g1, a, r);
    assert r in Run(None, NOTHING_YET, TwoIssues(g0, g1, Answering(a, r))).store.refresh;
  }
}
