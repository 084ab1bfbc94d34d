/**
 * Where "tags never repeat" comes from: taggers whose tags tell the usage value, and calls that draw one after
 * the other. In particular every sequential run without failures meets it.
 */
module Freshness {
  import opened Prelude
  import opened Stores
  import opened Interleaving
  import opened SelfKeys
  import opened TokenIndex
  import opened CodeLedger
  import opened Taggers
  import opened Counters

  // ------------------------------------------------- distinct values, fresh tags

  /** Imported tokens bring their own keys, which no counter knows about. */
  function KeyOf(l: Label): set<Tag> {
    if l.Start? && l.op.ImportHset? then {l.op.key} else {}
  }

  /** No imported key is among `keys`, and none is imported twice. */
  predicate NewKeys(ls: seq<Label>, keys: set<Tag>)
    decreases |ls|
  {
    ls != [] ==> KeyOf(ls[0]) !! keys && NewKeys(ls[1..], keys + KeyOf(ls[0]))
  }

  predicate KeysOutside(ls: seq<Label>, tags: set<Tag>) {
    forall i :: 0 <= i < |ls| ==> KeyOf(ls[i]) !! tags
  }

  /** No key is imported twice, and none is ever drawn by the tagger. */
  predicate ImportsApart(d: Option<Time>, s: Sys, ls: seq<Label>) {
    NewKeys(ls, {}) && KeysOutside(ls, Tags(RunDraws(TOKENS, d, s, ls)))
  }

  function SpentOf(k: Counter, s: Sys): set<Tag> {
    if k.TokenCounter? then s.spentTokens else s.spentCodes
  }

  /** The tags spent are those of the draws before, and imported keys. */
  predicate Accounted(k: Counter, s: Sys, before: seq<Draw>, keys: set<Tag>) {
    SpentOf(k, s) <= Tags(before) + keys
  }

  /** The tags of the draws stay away from the keys imported so far, and from those still to come. */
  predicate Unmixed(k: Counter, ls: seq<Label>, draws: seq<Draw>, keys: set<Tag>) {
    Tags(draws) !! keys && (k.TokenCounter? ==> NewKeys(ls, keys) && KeysOutside(ls, Tags(draws)))
  }

  function KeysAfter(k: Counter, l: Label, keys: set<Tag>): set<Tag> {
    if k.TokenCounter? then keys + KeyOf(l) else keys
  }

  lemma DistinctDrawsAreFresh(usageOf: Tag -> u64, before: seq<Draw>, draws: seq<Draw>, rest: seq<Draw>,
                              spent: set<Tag>, keys: set<Tag>)
    requires spent <= Tags(before) + keys && DistinctValues(UsagesOf(before + (draws + rest)))
    requires Told(usageOf, before + (draws + rest)) && Tags(before + (draws + rest)) !! keys
    ensures FreshDraws(draws, spent)
  {
    var all := before + (draws + rest);
    var values := UsagesOf(all);
    forall i | 0 <= i < |draws| ensures draws[i].tag !in spent {
      assert all[|before| + i] == draws[i];
      assert draws[i] in all;
      forall m | 0 <= m < |before| ensures before[m].tag != draws[i].tag {
        assert all[m] == before[m] && values[m] != values[|before| + i];
      }
    }
    forall i, j | 0 <= i < j < |draws| ensures draws[i].tag != draws[j].tag {
      assert all[|before| + i] == draws[i] && all[|before| + j] == draws[j];
      assert values[|before| + i] != values[|before| + j];
    }
  }

  lemma StepAccounts(k: Counter, d: Option<Time>, s: Sys, l: Label, before: seq<Draw>, keys: set<Tag>)
    requires Accounted(k, s, before, keys)
    ensures Accounted(k, Step(d, s, l), before + StepDraws(k, d, s, l), KeysAfter(k, l, keys))
  {
    var draws := StepDraws(k, d, s, l);
    assert forall x :: x in before || x in draws ==> x in before + draws;
  }

  /** The next import is of a new key, and the tags of all draws stay away from it. */
  lemma UnmixedStep(k: Counter, s: Sys, ls: seq<Label>, before: seq<Draw>, after: seq<Draw>, keys: set<Tag>)
    requires ls != [] && Accounted(k, s, before, keys) && Unmixed(k, ls, before + after, keys)
    ensures k.TokenCounter? ==> KeyOf(ls[0]) !! s.spentTokens
    ensures Unmixed(k, ls[1..], before + after, KeysAfter(k, ls[0], keys))
  {
    assert forall x :: x in before ==> x in before + after;
    assert KeysOutside(ls, Tags(before + after)) ==> KeyOf(ls[0]) !! Tags(before + after);
  }

  /** From here on no value of this counter is presented again. */
  predicate NoneAgain(k: Counter, usageOf: Tag -> u64, d: Option<Time>, s: Sys, ls: seq<Label>, before: seq<Draw>,
                      keys: set<Tag>) {
    var all := before + RunDraws(k, d, s, ls);
    Accounted(k, s, before, keys) && DistinctValues(UsagesOf(all)) && Told(usageOf, all) && Unmixed(k, ls, all, keys)
  }

  lemma NoneAgainStep(k: Counter, usageOf: Tag -> u64, d: Option<Time>, s: Sys, ls: seq<Label>, before: seq<Draw>,
                      keys: set<Tag>)
    requires ls != [] && NoneAgain(k, usageOf, d, s, ls, before, keys)
    ensures FreshDraws(StepDraws(k, d, s, ls[0]), SpentOf(k, s))
    ensures k.TokenCounter? ==> KeyOf(ls[0]) !! s.spentTokens
    ensures NoneAgain(k, usageOf, d, Step(d, s, ls[0]), ls[1..], before + StepDraws(k, d, s, ls[0]),
                      KeysAfter(k, ls[0], keys))
  {
    var draws, rest := StepDraws(k, d, s, ls[0]), RunDraws(k, d, Step(d, s, ls[0]), ls[1..]);
    DistinctDrawsAreFresh(usageOf, before, draws, rest, SpentOf(k, s), keys);
    StepAccounts(k, d, s, ls[0], before, keys);
    UnmixedStep(k, s, ls, before, draws + rest, keys);
    assert before + (draws + rest) == (before + draws) + rest;
  }

  lemma FreshByCounters(d: Option<Time>, s: Sys, l: Label)
    requires KeyOf(l) !! s.spentTokens
    requires FreshDraws(StepDraws(TOKENS, d, s, l), s.spentTokens)
    requires FreshDraws(StepDraws(CODES, d, s, l), s.spentCodes)
    ensures FreshStep(d, s, l)
  {
    assert l.Start? && l.op.ImportHset? ==> l.op.key in KeyOf(l);
  }

  lemma {:induction false} DistinctValuesAreFresh(d: Option<Time>, s: Sys, ls: seq<Label>, tokenUsage: Tag -> u64,
                                                  codeUsage: Tag -> u64, tokens: seq<Draw>, codes: seq<Draw>,
                                                  keys: set<Tag>)
    requires NoneAgain(TOKENS, tokenUsage, d, s, ls, tokens, keys) && NoneAgain(CODES, codeUsage, d, s, ls, codes, {})
    ensures FreshRun(d, s, ls)
    decreases |ls|
  {
    if ls != [] {
      NoneAgainStep(TOKENS, tokenUsage, d, s, ls, tokens, keys);
      NoneAgainStep(CODES, codeUsage, d, s, ls, codes, {});
      FreshByCounters(d, s, ls[0]);
      DistinctValuesAreFresh(d, Step(d, s, ls[0]), ls[1..], tokenUsage, codeUsage,
                             tokens + StepDraws(TOKENS, d, s, ls[0]), codes + StepDraws(CODES, d, s, ls[0]),
                             KeysAfter(TOKENS, ls[0], keys));
    }
  }

  /** Two taggers, one for each counter, that are injective in the usage value and answer every draw of a run. */
  ghost predicate Tagged(d: Option<Time>, s: Sys, ls: seq<Label>, token: TotalTagger, code: TotalTagger) {
    && UsageInjective(token) && UsageInjective(code)
    && FromTagger(token, RunDraws(TOKENS, d, s, ls)) && FromTagger(code, RunDraws(CODES, d, s, ls))
  }

  /** With such taggers a run is fresh if its calls present distinct values. */
  lemma DistinctRunsAreFresh(d: Option<Time>, s: Sys, ls: seq<Label>, token: TotalTagger, code: TotalTagger)
    requires Init(s) && ImportsApart(d, s, ls) && Tagged(d, s, ls, token, code)
    requires DistinctValues(RunValues(TOKENS, d, s, ls)) && DistinctValues(RunValues(CODES, d, s, ls))
    ensures FreshRun(d, s, ls)
  {
    var tokenUsage := InjectiveTells(token);
    var codeUsage := InjectiveTells(code);
    FromTaggerIsTold(token, tokenUsage, RunDraws(TOKENS, d, s, ls));
    FromTaggerIsTold(code, codeUsage, RunDraws(CODES, d, s, ls));
    assert [] + RunDraws(TOKENS, d, s, ls) == RunDraws(TOKENS, d, s, ls);
    assert [] + RunDraws(CODES, d, s, ls) == RunDraws(CODES, d, s, ls);
    AnsweredRun(TOKENS, d, s, ls);
    AnsweredRun(CODES, d, s, ls);
    DistinctValuesAreFresh(d, s, ls, tokenUsage, codeUsage, [], [], {});
  }

  /** At most 2^64 draws from each counter. */
  predicate WithinBounds(d: Option<Time>, s: Sys, ls: seq<Label>) {
    |RunValues(TOKENS, d, s, ls)| <= U64_SIZE && |RunValues(CODES, d, s, ls)| <= U64_SIZE
  }

  /** Calls may overlap and fail in any way, as long as those that draw do so one after the other. */
  lemma OrderlyRunsAreFresh(d: Option<Time>, s: Sys, ls: seq<Label>, token: TotalTagger, code: TotalTagger)
    requires Init(s) && ImportsApart(d, s, ls) && Tagged(d, s, ls, token, code) && WithinBounds(d, s, ls)
    requires Orderly(TOKENS, d, s, ls, None) && Orderly(CODES, d, s, ls, None)
    ensures FreshRun(d, s, ls)
  {
    OrderlyRunsDrawDistinctValues(TOKENS, d, s, ls);
    OrderlyRunsDrawDistinctValues(CODES, d, s, ls);
    DistinctRunsAreFresh(d, s, ls, token, code);
  }

  // ----------------------------------------------------------- one after the other

  predicate OthersDone(s: Sys, p: Pid) {
    forall q :: q in s.ops && q != p ==> s.ops[q].Done?
  }

  /** No call starts or moves while another is under way, no command fails, and the taggers answer. */
  predicate SequentialStep(s: Sys, l: Label) {
    match l
    case Start(p, op) => OthersDone(s, p)
    case Exec(p, c) => OthersDone(s, p) && c.fault.Healthy? && c.first.Some? && c.second.Some?
    case Crash(_) => false
  }

  predicate Sequential(d: Option<Time>, s: Sys, ls: seq<Label>)
    decreases |ls|
  {
    ls != [] ==> SequentialStep(s, ls[0]) && Sequential(d, Step(d, s, ls[0]), ls[1..])
  }

  /** A refresh under way has its access entry still in place. */
  predicate Backing(s: Sys) {
    forall p :: p in s.ops && OnOldToken(s.ops[p]) ==> s.ops[p].token.access in s.store.access
  }

  predicate OnOldToken(op: Op) {
    op.RefreshHdelRefresh? || op.RefreshGetUsage? || op.RefreshHgetAccess? || op.RefreshHdelAccess?
  }

  ghost predicate Intact(s: Sys) {
    IndexInv(s) && SelfKeyed(s) && CodeInv(s) && Backing(s)
  }

  /** The next command of a call that has drawn will not be turned away. */
  predicate Ready(st: Store, op: Op) {
    && (op.IssueHsetAccess? || op.RefreshHsetAccess? ==> op.token.access !in st.access)
    && (op.IssueHsetRefresh? || op.RefreshHsetRefresh? ==> op.key !in st.refresh)
    && (op.RefreshHgetAccess? || op.RefreshHdelAccess? ==> op.token.access in st.access)
    && (op.RefreshHdelAccess? ==> op.seen.access == op.token.access)
    && (op.AuthorizeHset? ==> op.code !in st.codes)
  }

  lemma IntactIsReady(s: Sys, p: Pid)
    requires Intact(s) && p in s.ops
    ensures Ready(s.store, s.ops[p])
  {
    var cs := ClaimsOf(s.ops);
    assert cs[p] == ClaimOf(s.ops[p]);
    assert ClaimOk(s.store, cs[p], s.minted, s.spentTokens) && OpSelfKeyed(s.ops[p]);
    if s.ops[p].AuthorizeHset? { PendingIsAbsent(s, p); }
  }

  /** Without failures, a call that draws, or has drawn, goes on until it has written the counter back. */
  lemma DrawnCallGoesOn(k: Counter, d: Option<Time>, st: Store, op: Op, c: Choice)
    requires c.fault.Healthy? && c.first.Some? && c.second.Some? && Ready(st, op)
    requires NextOf(k, op).Some? || ValuesOf(k, st, op, c, OpStep(d, st, op, c)) != []
    ensures Sets(k, op, c) || NextOf(k, OpStep(d, st, op, c).op).Some?
  {
  }

  /** The call that drew last is still at it. */
  predicate Busy(k: Counter, s: Sys, open: Option<Pid>) {
    open.Some? ==> open.value in s.ops && NextOf(k, s.ops[open.value]).Some?
  }

  lemma SequentialIsOrderly(k: Counter, d: Option<Time>, s: Sys, l: Label, open: Option<Pid>)
    requires Busy(k, s, open) && SequentialStep(s, l)
    ensures OrderlyStep(k, d, s, l, open)
  {
    if l.Exec? && l.pid in s.ops { CommandCounts(k, d, s.store, s.ops[l.pid], l.choice); }
  }

  lemma ReadyKeepsBusy(k: Counter, d: Option<Time>, s: Sys, p: Pid, c: Choice, open: Option<Pid>)
    requires Busy(k, s, open) && SequentialStep(s, Exec(p, c)) && p in s.ops && Ready(s.store, s.ops[p])
    ensures Busy(k, ExecStep(d, s, p, c), OpenAfter(k, d, s, Exec(p, c), open))
  {
    if open == Some(p) || StepValues(k, d, s, Exec(p, c)) != [] { DrawnCallGoesOn(k, d, s.store, s.ops[p], c); }
  }

  lemma StepKeepsBusy(k: Counter, d: Option<Time>, s: Sys, l: Label, open: Option<Pid>)
    requires Intact(s) && Busy(k, s, open) && SequentialStep(s, l)
    ensures Busy(k, Step(d, s, l), OpenAfter(k, d, s, l, open))
  {
    if l.Exec? && l.pid in s.ops {
      IntactIsReady(s, l.pid);
      ReadyKeepsBusy(k, d, s, l.pid, l.choice, open);
    }
  }

  lemma RefreshKeepsToken(d: Option<Time>, st: Store, op: Op, c: Choice)
    requires IsRefresh(op) && RefreshBacked(st) && (OnOldToken(op) ==> op.token.access in st.access)
    ensures var e := RefreshStep(d, st, op, c); OnOldToken(e.op) ==> e.op.token.access in e.store.access
  {
  }

  lemma CommandKeepsToken(d: Option<Time>, st: Store, op: Op, c: Choice)
    requires RefreshBacked(st) && (OnOldToken(op) ==> op.token.access in st.access)
    ensures var e := OpStep(d, st, op, c); OnOldToken(e.op) ==> e.op.token.access in e.store.access
  {
    if IsRefresh(op) { RefreshKeepsToken(d, st, op, c); }
  }

  lemma OnlyOneMoves(s: Sys, t: Sys, p: Pid)
    requires OthersDone(s, p) && p in t.ops && t.ops == s.ops[p := t.ops[p]]
    requires OnOldToken(t.ops[p]) ==> t.ops[p].token.access in t.store.access
    ensures Backing(t)
  {
  }

  lemma StepKeepsBacking(d: Option<Time>, s: Sys, l: Label)
    requires RefreshBacked(s.store) && Backing(s) && SequentialStep(s, l)
    ensures Backing(Step(d, s, l))
  {
    if l.Exec? && l.pid in s.ops {
      CommandKeepsToken(d, s.store, s.ops[l.pid], l.choice);
      OnlyOneMoves(s, Step(d, s, l), l.pid);
    }
  }

  lemma StepKeepsIntact(d: Option<Time>, s: Sys, l: Label)
    requires Intact(s) && SequentialStep(s, l) && FreshStep(d, s, l)
    ensures Intact(Step(d, s, l))
  {
    StepKeepsIndex(d, s, l);
    StepKeepsSelfKeys(d, s, l);
    StepKeepsCodes(d, s, l);
    StepKeepsBacking(d, s, l);
  }

  /** How far the counter has come in a sequential run. */
  predicate Progress(k: Counter, start: u64, s: Sys, open: Option<Pid>, before: seq<Draw>, keys: set<Tag>) {
    && Counted(k, At(start, |before|), Seen(UsagesOf(before)), s, open) && Busy(k, s, open)
    && ValuesFrom(start, UsagesOf(before)) && Accounted(k, s, before, keys)
  }

  lemma ValuesAppend(start: u64, before: seq<u64>, values: seq<u64>)
    requires ValuesFrom(start, before) && StartsAt(At(start, |before|), values)
    ensures ValuesFrom(start, before + values)
    ensures At(start, |before + values|) == WrappingAdd(At(start, |before|), |values|)
  {
    AtStep(start, |before|);
    var all := before + values;
    forall i | 0 <= i < |all| ensures all[i] == At(start, i) {
      assert i < |before| || i == |before| || i == |before| + 1;
    }
  }

  lemma ProgressStep(k: Counter, usageOf: Tag -> u64, d: Option<Time>, start: u64, s: Sys, l: Label, open: Option<Pid>,
                     before: seq<Draw>, keys: set<Tag>)
    requires !k.refused && Intact(s) && SequentialStep(s, l) && Progress(k, start, s, open, before, keys)
    requires |before| + |StepDraws(k, d, s, l)| <= U64_SIZE && Told(usageOf, before + StepDraws(k, d, s, l))
    requires Tags(before + StepDraws(k, d, s, l)) !! keys
    ensures OrderlyStep(k, d, s, l, open) && FreshDraws(StepDraws(k, d, s, l), SpentOf(k, s))
    ensures Progress(k, start, Step(d, s, l), OpenAfter(k, d, s, l, open), before + StepDraws(k, d, s, l),
                     KeysAfter(k, l, keys))
  {
    var draws := StepDraws(k, d, s, l);
    SequentialIsOrderly(k, d, s, l, open);
    AnsweredStep(k, d, s, l);
    UsagesOfConcat(before, draws);
    StepKeepsCount(k, d, At(start, |before|), Seen(UsagesOf(before)), s, l, open);
    ValuesAppend(start, UsagesOf(before), UsagesOf(draws));
    SeenConcat(UsagesOf(before), UsagesOf(draws));
    StepKeepsBusy(k, d, s, l, open);
    StepAccounts(k, d, s, l, before, keys);
    ValuesDiffer(start, UsagesOf(before + draws));
    assert draws + [] == draws;
    DistinctDrawsAreFresh(usageOf, before, draws, [], SpentOf(k, s), keys);
  }

  /** The draws still to come fit in with those before. */
  predicate Fitting(k: Counter, usageOf: Tag -> u64, d: Option<Time>, s: Sys, ls: seq<Label>, before: seq<Draw>,
                    keys: set<Tag>) {
    var all := before + RunDraws(k, d, s, ls);
    |all| <= U64_SIZE && Told(usageOf, all) && Unmixed(k, ls, all, keys)
  }

  lemma FittingStep(k: Counter, usageOf: Tag -> u64, d: Option<Time>, s: Sys, ls: seq<Label>, before: seq<Draw>,
                    keys: set<Tag>)
    requires ls != [] && Accounted(k, s, before, keys) && Fitting(k, usageOf, d, s, ls, before, keys)
    ensures var draws := StepDraws(k, d, s, ls[0]);
            && |before| + |draws| <= U64_SIZE && Told(usageOf, before + draws) && Tags(before + draws) !! keys
            && (k.TokenCounter? ==> KeyOf(ls[0]) !! s.spentTokens)
            && Fitting(k, usageOf, d, Step(d, s, ls[0]), ls[1..], before + draws, KeysAfter(k, ls[0], keys))
  {
    var draws, rest := StepDraws(k, d, s, ls[0]), RunDraws(k, d, Step(d, s, ls[0]), ls[1..]);
    ToldPart(k, usageOf, d, s, ls, before);
    UnmixedStep(k, s, ls, before, draws + rest, keys);
    assert forall x :: x in before + draws ==> x in before + (draws + rest);
  }

  lemma {:induction false} SequentialRun(d: Option<Time>, s: Sys, ls: seq<Label>, token: Tag -> u64, code: Tag -> u64,
                                         startToken: u64, openToken: Option<Pid>, tokens: seq<Draw>, keys: set<Tag>,
                                         startCode: u64, openCode: Option<Pid>, codes: seq<Draw>)
    requires Intact(s) && Sequential(d, s, ls)
    requires Progress(TOKENS, startToken, s, openToken, tokens, keys) && Fitting(TOKENS, token, d, s, ls, tokens, keys)
    requires Progress(CODES, startCode, s, openCode, codes, {}) && Fitting(CODES, code, d, s, ls, codes, {})
    ensures Orderly(TOKENS, d, s, ls, openToken) && Orderly(CODES, d, s, ls, openCode) && FreshRun(d, s, ls)
    decreases |ls|
  {
    if ls != [] {
      var l, t := ls[0], Step(d, s, ls[0]);
      var a, b := StepDraws(TOKENS, d, s, l), StepDraws(CODES, d, s, l);
      FittingStep(TOKENS, token, d, s, ls, tokens, keys);
      FittingStep(CODES, code, d, s, ls, codes, {});
      ProgressStep(TOKENS, token, d, startToken, s, l, openToken, tokens, keys);
      ProgressStep(CODES, code, d, startCode, s, l, openCode, codes, {});
      FreshByCounters(d, s, l);
      StepKeepsIntact(d, s, l);
      SequentialRun(d, t, ls[1..], token, code, startToken, OpenAfter(TOKENS, d, s, l, openToken), tokens + a,
                    KeysAfter(TOKENS, l, keys), startCode, OpenAfter(CODES, d, s, l, openCode), codes + b);
    }
  }

  lemma ToldPart(k: Counter, usageOf: Tag -> u64, d: Option<Time>, s: Sys, ls: seq<Label>, before: seq<Draw>)
    requires ls != [] && Told(usageOf, before + RunDraws(k, d, s, ls))
    ensures var draws, rest := StepDraws(k, d, s, ls[0]), RunDraws(k, d, Step(d, s, ls[0]), ls[1..]);
            && before + RunDraws(k, d, s, ls) == before + draws + rest
            && Told(usageOf, before + draws) && Told(usageOf, before + draws + rest)
  {
    var draws, rest := StepDraws(k, d, s, ls[0]), RunDraws(k, d, Step(d, s, ls[0]), ls[1..]);
    assert before + (draws + rest) == before + draws + rest;
    forall i | 0 <= i < |before + draws| ensures usageOf((before + draws)[i].tag) == (before + draws)[i].usage {
      assert (before + draws + rest)[i] == (before + draws)[i];
    }
  }

  /**
   * Every sequential run without failures, from a store without entries and any counter values, with injective
   * taggers, imported keys that are new, and at most 2^64 draws from each counter: its draws are orderly, and
   * its tags never repeat.
   */
  lemma SequentialRunsAreFresh(d: Option<Time>, s: Sys, ls: seq<Label>, token: TotalTagger, code: TotalTagger)
    requires Init(s) && Sequential(d, s, ls) && ImportsApart(d, s, ls)
    requires Tagged(d, s, ls, token, code) && WithinBounds(d, s, ls)
    ensures Orderly(TOKENS, d, s, ls, None) && Orderly(CODES, d, s, ls, None)
    ensures FreshRun(d, s, ls)
  {
    var tokenUsage := FirstFitting(TOKENS, d, s, ls, token);
    var codeUsage := FirstFitting(CODES, d, s, ls, code);
    FirstProgress(TOKENS, s);
    FirstProgress(CODES, s);
    FirstIntact(s);
    SequentialRun(d, s, ls, tokenUsage, codeUsage, Held(TOKENS, s.store), None, [], {}, Held(CODES, s.store), None, []);
  }

  lemma FirstFitting(k: Counter, d: Option<Time>, s: Sys, ls: seq<Label>, tagger: TotalTagger)
      returns (usageOf: Tag -> u64)
    requires !k.refused && UsageInjective(tagger) && FromTagger(tagger, RunDraws(k, d, s, ls))
    requires |RunValues(k, d, s, ls)| <= U64_SIZE && (k.TokenCounter? ==> ImportsApart(d, s, ls) && k == TOKENS)
    ensures Fitting(k, usageOf, d, s, ls, [], {})
  {
    usageOf := InjectiveTells(tagger);
    FromTaggerIsTold(tagger, usageOf, RunDraws(k, d, s, ls));
    AnsweredRun(k, d, s, ls);
    assert [] + RunDraws(k, d, s, ls) == RunDraws(k, d, s, ls);
  }

  lemma FirstIntact(s: Sys)
    requires Init(s)
    ensures Intact(s)
  {
  }

  lemma FirstProgress(k: Counter, s: Sys)
    requires Init(s)
    ensures Progress(k, Held(k, s.store), s, None, [], {})
  {
    CountedAtFirst(k, s);
    assert Seen(UsagesOf([])) == {};
  }

  /** So there the token hashes stay linked without any assumption on freshness, */
  lemma SequentialHashesStayLinked(d: Option<Time>, s: Sys, ls: seq<Label>, token: TotalTagger, code: TotalTagger)
    requires Init(s) && Sequential(d, s, ls) && ImportsApart(d, s, ls)
    requires Tagged(d, s, ls, token, code) && WithinBounds(d, s, ls)
    ensures RefreshBacked(Run(d, s, ls).store) && UniqueNames(Run(d, s, ls).store)
  {
    SequentialRunsAreFresh(d, s, ls, token, code);
    TokenHashesStayLinked(d, s, ls);
  }

  /** and so they do under interleaving and faults, as long as draws are orderly; no code is redeemed twice either. */
  lemma OrderlyStoresStaySound(d: Option<Time>, s: Sys, ls: seq<Label>, token: TotalTagger, code: TotalTagger, k: Tag)
    requires Init(s) && ImportsApart(d, s, ls) && Tagged(d, s, ls, token, code) && WithinBounds(d, s, ls)
    requires Orderly(TOKENS, d, s, ls, None) && Orderly(CODES, d, s, ls, None)
    ensures RefreshBacked(Run(d, s, ls).store) && UniqueNames(Run(d, s, ls).store)
    ensures |Redeemers(Run(d, s, ls), k)| <= 1
  {
    OrderlyRunsAreFresh(d, s, ls, token, code);
    TokenHashesStayLinked(d, s, ls);
    CodeRedeemedAtMostOnce(d, s, ls, k);
  }
}
