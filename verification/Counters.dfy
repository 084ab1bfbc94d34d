/** When the usage counters give distinct values: exactly if the calls that draw do so one after the other. */
module Counters {
  import opened Prelude
  import opened Stores
  import opened Interleaving
  import opened FailureFree

  /**
   * The token store and the code store have a counter each. `refused` says whether the values that the tagger
   * was asked with but refused to answer count as well.
   */
  datatype Counter = TokenCounter(refused: bool) | CodeCounter(refused: bool)

  const TOKENS := TokenCounter(false)

  const CODES := CodeCounter(false)

  /** The value of a counter; a missing one counts as 0. */
  function Held(k: Counter, st: Store): u64 {
    if k.TokenCounter? then UsageOf(st) else CodeUsageOf(st)
  }

  function DrawsOf(k: Counter, e: Effect): seq<Draw> {
    if k.TokenCounter? then e.tokenDraws else e.codeDraws
  }

  function UsagesOf(draws: seq<Draw>): (values: seq<u64>)
    ensures |values| == |draws| && forall i :: 0 <= i < |draws| ==> values[i] == draws[i].usage
  {
    seq(|draws|, i requires 0 <= i < |draws| => draws[i].usage)
  }

  /** The values the tagger is asked with in one command, answered or not; after a refusal nothing more is asked. */
  function AskedWith(k: Counter, st: Store, op: Op, c: Choice): seq<u64> {
    match k
    case TokenCounter(_) =>
      if op.IssueGetUsage? then
        if c.first.None? then [Read(k, st, c)] else [Read(k, st, c), WrappingAdd(Read(k, st, c), 1)]
      else if op.RefreshGetUsage? && c.fault.Healthy? && st.tokenUsage.Some? then [Read(k, st, c)]
      else []
    case CodeCounter(_) =>
      if op.AuthorizeGetUsage? && WrappingAdd(Read(k, st, c), 1) != 0 then [Read(k, st, c)] else []
  }

  /** The values that count in one command with effect `e`. */
  function ValuesOf(k: Counter, st: Store, op: Op, c: Choice, e: Effect): seq<u64> {
    if k.refused then AskedWith(k, st, op, c) else UsagesOf(DrawsOf(k, e))
  }

  /** The value a call that has drawn is going to write back. */
  function NextOf(k: Counter, op: Op): Option<u64> {
    match k
    case TokenCounter(_) =>
      if op.IssueHsetAccess? || op.IssueHsetRefresh? || op.IssueSetUsage? || op.RefreshHgetAccess?
          || op.RefreshHdelAccess?
         || op.RefreshHsetAccess? || op.RefreshHsetRefresh? || op.RefreshSetUsage?
      then Some(op.next) else None
    case CodeCounter(_) => if op.AuthorizeHset? || op.AuthorizeSetUsage? then Some(op.next) else None
  }

  /** This command writes the counter back. */
  predicate Sets(k: Counter, op: Op, c: Choice) {
    && c.fault.Executed()
    && if k.TokenCounter? then op.IssueSetUsage? || op.RefreshSetUsage? else op.AuthorizeSetUsage?
  }

  /** What a drawing GET yields: the counter, or 0 if it is not answered. */
  function Read(k: Counter, st: Store, c: Choice): u64 {
    if c.fault.Healthy? then Held(k, st) else 0
  }

  // -------------------------------------------------------------- one command

  predicate Counts(k: Counter, st: Store, op: Op, c: Choice, e: Effect) {
    var values := ValuesOf(k, st, op, c, e);
    && |values| <= 2
    && (values != [] ==>
          && NextOf(k, op).None? && !Sets(k, op, c) && values[0] == Read(k, st, c)
          && (|values| == 2 ==> values[1] == WrappingAdd(Read(k, st, c), 1))
          && (NextOf(k, e.op).Some? ==> NextOf(k, e.op).value == WrappingAdd(Read(k, st, c), |values|)))
    && (values == [] && NextOf(k, e.op).Some? ==> NextOf(k, e.op) == NextOf(k, op))
    && (Sets(k, op, c) ==> NextOf(k, op).Some? && NextOf(k, e.op).None? && Held(k, e.store) == NextOf(k, op).value)
    && (!Sets(k, op, c) ==> Held(k, e.store) == Held(k, st))
  }

  lemma IssueCounts(k: Counter, st: Store, op: Op, c: Choice)
    requires IsIssue(op)
    ensures Counts(k, st, op, c, IssueStep(st, op, c))
  {
  }

  lemma RefreshCounts(k: Counter, d: Option<Time>, st: Store, op: Op, c: Choice)
    requires IsRefresh(op)
    ensures Counts(k, st, op, c, RefreshStep(d, st, op, c))
  {
  }

  lemma CodeCounts(k: Counter, st: Store, op: Op, c: Choice)
    requires IsCode(op)
    ensures Counts(k, st, op, c, CodeStep(st, op, c))
  {
  }

  lemma CommandCounts(k: Counter, d: Option<Time>, st: Store, op: Op, c: Choice)
    ensures Counts(k, st, op, c, OpStep(d, st, op, c))
  {
    if IsIssue(op) {
      IssueCounts(k, st, op, c);
    } else if IsRefresh(op) {
      RefreshCounts(k, d, st, op, c);
    } else if IsCode(op) {
      CodeCounts(k, st, op, c);
    }
  }

  /** What is answered is what is asked, but perhaps for the last value; with that refused the call ends. */
  lemma AnsweredAreAsked(k: Counter, d: Option<Time>, st: Store, op: Op, c: Choice)
    ensures var e := OpStep(d, st, op, c);
            var answered, asked := UsagesOf(DrawsOf(k, e)), AskedWith(k, st, op, c);
            answered == asked || (asked != [] && answered == asked[..|asked| - 1] && e.op == Done(Failed))
  {
  }

  // -------------------------------------------------------------------- runs

  function StepDraws(k: Counter, d: Option<Time>, s: Sys, l: Label): seq<Draw> {
    if l.Exec? && l.pid in s.ops then DrawsOf(k, OpStep(d, s.store, s.ops[l.pid], l.choice)) else []
  }

  /** Everything the tagger of this counter answers in a run, in order. */
  function RunDraws(k: Counter, d: Option<Time>, s: Sys, ls: seq<Label>): seq<Draw>
    decreases |ls|
  {
    if ls == [] then [] else StepDraws(k, d, s, ls[0]) + RunDraws(k, d, Step(d, s, ls[0]), ls[1..])
  }

  function StepValues(k: Counter, d: Option<Time>, s: Sys, l: Label): seq<u64> {
    if l.Exec? && l.pid in s.ops then
      ValuesOf(k, s.store, s.ops[l.pid], l.choice, OpStep(d, s.store, s.ops[l.pid], l.choice))
    else []
  }

  /** The usage values that count in a run, in order. */
  function RunValues(k: Counter, d: Option<Time>, s: Sys, ls: seq<Label>): seq<u64>
    decreases |ls|
  {
    if ls == [] then [] else StepValues(k, d, s, ls[0]) + RunValues(k, d, Step(d, s, ls[0]), ls[1..])
  }

  lemma UsagesOfConcat(a: seq<Draw>, b: seq<Draw>)
    ensures UsagesOf(a + b) == UsagesOf(a) + UsagesOf(b)
  {
  }

  lemma AnsweredStep(k: Counter, d: Option<Time>, s: Sys, l: Label)
    requires !k.refused
    ensures StepValues(k, d, s, l) == UsagesOf(StepDraws(k, d, s, l))
  {
  }

  lemma {:induction false} AnsweredRun(k: Counter, d: Option<Time>, s: Sys, ls: seq<Label>)
    requires !k.refused
    ensures RunValues(k, d, s, ls) == UsagesOf(RunDraws(k, d, s, ls))
    decreases |ls|
  {
    if ls != [] {
      AnsweredStep(k, d, s, ls[0]);
      AnsweredRun(k, d, Step(d, s, ls[0]), ls[1..]);
      UsagesOfConcat(StepDraws(k, d, s, ls[0]), RunDraws(k, d, Step(d, s, ls[0]), ls[1..]));
    }
  }

  /** Nobody has drawn and not written back, and the GET yields what the counter holds. */
  predicate OrderlyStep(k: Counter, d: Option<Time>, s: Sys, l: Label, open: Option<Pid>) {
    StepValues(k, d, s, l) != [] ==> open.None? && (l.choice.fault.Healthy? || Held(k, s.store) == 0)
  }

  /** The call that drew last and has not written the counter back. */
  function OpenAfter(k: Counter, d: Option<Time>, s: Sys, l: Label, open: Option<Pid>): Option<Pid> {
    if StepValues(k, d, s, l) != [] then Some(l.pid)
    else if l.Exec? && open == Some(l.pid) && l.pid in s.ops && Sets(k, s.ops[l.pid], l.choice) then None
    else open
  }

  /** Every drawing GET yields the counter, and its call writes it back before the next drawing GET. */
  predicate Orderly(k: Counter, d: Option<Time>, s: Sys, ls: seq<Label>, open: Option<Pid>)
    decreases |ls|
  {
    ls != [] ==>
      && OrderlyStep(k, d, s, ls[0], open)
      && Orderly(k, d, Step(d, s, ls[0]), ls[1..], OpenAfter(k, d, s, ls[0], open))
  }

  predicate DistinctValues(values: seq<u64>) {
    forall i, j :: 0 <= i < j < |values| ==> values[i] != values[j]
  }

  // --------------------------------------------------------------- invariant

  /** `next` is the value to present next, `seen` the values presented so far. */
  predicate Counted(k: Counter, next: u64, seen: set<u64>, s: Sys, open: Option<Pid>) {
    && (forall p :: p in s.ops && NextOf(k, s.ops[p]).Some? ==> open == Some(p) && NextOf(k, s.ops[p]).value == next)
    && (if open.None? then Held(k, s.store) == next else Held(k, s.store) in seen)
  }

  function Seen(values: seq<u64>): set<u64> {
    set v | v in values
  }

  /** At most two values in a row, beginning with `next`. */
  predicate StartsAt(next: u64, values: seq<u64>) {
    && |values| <= 2
    && (|values| >= 1 ==> values[0] == next)
    && (|values| == 2 ==> values[1] == WrappingAdd(next, 1))
  }

  lemma DrawingKeepsCount(k: Counter, next: u64, seen: set<u64>, s: Sys, t: Sys, p: Pid, c: Choice, e: Effect)
    requires Counted(k, next, seen, s, None) && p in s.ops && Counts(k, s.store, s.ops[p], c, e)
    requires ValuesOf(k, s.store, s.ops[p], c, e) != [] && (c.fault.Healthy? || Held(k, s.store) == 0)
    requires t.ops == s.ops[p := e.op] && t.store == e.store
    ensures var values := ValuesOf(k, s.store, s.ops[p], c, e);
            && Counted(k, WrappingAdd(next, |values|), seen + Seen(values), t, Some(p))
            && StartsAt(next, values)
  {
    var values := ValuesOf(k, s.store, s.ops[p], c, e);
    assert Read(k, s.store, c) == next;
    assert values[0] in values;
  }

  lemma OtherwiseKeepsCount(k: Counter, next: u64, seen: set<u64>, s: Sys, t: Sys, p: Pid, c: Choice, e: Effect,
                            open: Option<Pid>)
    requires Counted(k, next, seen, s, open) && p in s.ops && Counts(k, s.store, s.ops[p], c, e)
    requires ValuesOf(k, s.store, s.ops[p], c, e) == []
    requires t.ops == s.ops[p := e.op] && t.store == e.store
    ensures Counted(k, next, seen, t, if open == Some(p) && Sets(k, s.ops[p], c) then None else open)
  {
  }

  lemma ExecKeepsCount(k: Counter, d: Option<Time>, next: u64, seen: set<u64>, s: Sys, p: Pid, c: Choice,
                       open: Option<Pid>)
    requires Counted(k, next, seen, s, open) && OrderlyStep(k, d, s, Exec(p, c), open) && p in s.ops
    ensures var l := Exec(p, c);
            var values := StepValues(k, d, s, l);
            && StartsAt(next, values)
            && Counted(k, WrappingAdd(next, |values|), seen + Seen(values), ExecStep(d, s, p, c),
                       OpenAfter(k, d, s, l, open))
  {
    var e := OpStep(d, s.store, s.ops[p], c);
    CommandCounts(k, d, s.store, s.ops[p], c);
    if ValuesOf(k, s.store, s.ops[p], c, e) != [] {
      DrawingKeepsCount(k, next, seen, s, ExecStep(d, s, p, c), p, c, e);
    } else {
      OtherwiseKeepsCount(k, next, seen, s, ExecStep(d, s, p, c), p, c, e, open);
      assert seen + Seen([]) == seen;
    }
  }

  lemma IdleKeepsCount(k: Counter, next: u64, seen: set<u64>, s: Sys, t: Sys, p: Pid, open: Option<Pid>)
    requires Counted(k, next, seen, s, open) && t.store == s.store
    requires t.ops == s.ops || (p in t.ops && t.ops == s.ops[p := t.ops[p]] && NextOf(k, t.ops[p]).None?)
    ensures Counted(k, next, seen + Seen([]), t, open)
  {
    assert seen + Seen([]) == seen;
  }

  lemma StepKeepsCount(k: Counter, d: Option<Time>, next: u64, seen: set<u64>, s: Sys, l: Label, open: Option<Pid>)
    requires Counted(k, next, seen, s, open) && OrderlyStep(k, d, s, l, open)
    ensures var values := StepValues(k, d, s, l);
            && StartsAt(next, values)
            && Counted(k, WrappingAdd(next, |values|), seen + Seen(values), Step(d, s, l), OpenAfter(k, d, s, l, open))
  {
    if l.Exec? && l.pid in s.ops {
      ExecKeepsCount(k, d, next, seen, s, l.pid, l.choice, open);
    } else {
      IdleKeepsCount(k, next, seen, s, Step(d, s, l), l.pid, open);
    }
  }

  // ----------------------------------------------------------- orderly: distinct

  /** Draw number `i` presents the `i`-th value from `next` on. */
  predicate ValuesFrom(next: u64, values: seq<u64>) {
    forall i :: 0 <= i < |values| ==> values[i] == At(next, i)
  }

  lemma AtShift(next: u64, m: nat, i: nat)
    requires m <= 2
    ensures At(WrappingAdd(next, m), i) == At(next, m + i)
  {
  }

  lemma ValuesConcat(next: u64, a: seq<u64>, b: seq<u64>)
    requires StartsAt(next, a) && ValuesFrom(WrappingAdd(next, |a|), b)
    ensures ValuesFrom(next, a + b)
  {
    var all := a + b;
    AtStep(next, 0);
    forall i | 0 <= i < |all| ensures all[i] == At(next, i) {
      if i >= |a| {
        assert all[i] == b[i - |a|];
        AtShift(next, |a|, i - |a|);
      }
    }
  }

  lemma {:induction false} OrderlyRunCounts(k: Counter, d: Option<Time>, next: u64, seen: set<u64>, s: Sys,
                                            ls: seq<Label>, open: Option<Pid>)
    requires Counted(k, next, seen, s, open) && Orderly(k, d, s, ls, open)
    ensures ValuesFrom(next, RunValues(k, d, s, ls))
    decreases |ls|
  {
    if ls != [] {
      var first := StepValues(k, d, s, ls[0]);
      StepKeepsCount(k, d, next, seen, s, ls[0], open);
      OrderlyRunCounts(k, d, WrappingAdd(next, |first|), seen + Seen(first), Step(d, s, ls[0]), ls[1..],
                       OpenAfter(k, d, s, ls[0], open));
      ValuesConcat(next, first, RunValues(k, d, Step(d, s, ls[0]), ls[1..]));
    }
  }

  lemma ValuesDiffer(start: u64, values: seq<u64>)
    requires ValuesFrom(start, values) && |values| <= U64_SIZE
    ensures DistinctValues(values)
  {
    forall i, j | 0 <= i < j < |values| ensures values[i] != values[j] {
      if values[i] == values[j] { AtInjective(start, i, j); }
    }
  }

  lemma CountedAtFirst(k: Counter, s: Sys)
    requires Init(s)
    ensures Counted(k, Held(k, s.store), {}, s, None)
  {
  }

  /** Orderly runs with at most 2^64 draws never present a value twice, whatever the counter began with. */
  lemma OrderlyRunsDrawDistinctValues(k: Counter, d: Option<Time>, s: Sys, ls: seq<Label>)
    requires Init(s) && Orderly(k, d, s, ls, None) && |RunValues(k, d, s, ls)| <= U64_SIZE
    ensures DistinctValues(RunValues(k, d, s, ls))
  {
    CountedAtFirst(k, s);
    OrderlyRunCounts(k, d, Held(k, s.store), {}, s, ls, None);
    ValuesDiffer(Held(k, s.store), RunValues(k, d, s, ls));
  }

  // ------------------------------------------------------- distinct: orderly

  /** Once anything was drawn from a counter that began at 0, the value 0 was. */
  predicate FromZero(next: u64, seen: set<u64>) {
    if seen == {} then next == 0 else 0 in seen
  }

  /** The first draw out of order presents a value that was presented before. */
  lemma DisorderRepeats(k: Counter, d: Option<Time>, next: u64, seen: set<u64>, s: Sys, l: Label, open: Option<Pid>)
    requires Counted(k, next, seen, s, open) && FromZero(next, seen) && !OrderlyStep(k, d, s, l, open)
    ensures StepValues(k, d, s, l) != [] && StepValues(k, d, s, l)[0] in seen
  {
    CommandCounts(k, d, s.store, s.ops[l.pid], l.choice);
  }

  lemma ZeroComesFirst(next: u64, seen: set<u64>, values: seq<u64>)
    requires FromZero(next, seen) && StartsAt(next, values)
    ensures FromZero(WrappingAdd(next, |values|), seen + Seen(values))
  {
    if values != [] {
      assert values[0] in values;
      assert next in seen + Seen(values);
    } else {
      assert seen + Seen(values) == seen;
    }
  }

  lemma RepeatedValue(before: seq<u64>, first: seq<u64>, rest: seq<u64>)
    requires first != [] && first[0] in Seen(before)
    ensures !DistinctValues(before + (first + rest))
  {
    var m :| 0 <= m < |before| && before[m] == first[0];
    var all := before + (first + rest);
    assert all[m] == all[|before|];
  }

  lemma Regroup(a: seq<u64>, b: seq<u64>, c: seq<u64>)
    ensures (a + b) + c == a + (b + c)
  {
  }

  lemma SeenConcat(a: seq<u64>, b: seq<u64>)
    ensures Seen(a + b) == Seen(a) + Seen(b)
  {
    assert forall v :: v in a + b <==> v in a || v in b;
  }

  lemma OrderlyPrefix(k: Counter, d: Option<Time>, next: u64, s: Sys, l: Label, open: Option<Pid>, before: seq<u64>)
    requires Counted(k, next, Seen(before), s, open) && FromZero(next, Seen(before)) && OrderlyStep(k, d, s, l, open)
    ensures var first := StepValues(k, d, s, l);
            && StartsAt(next, first)
            && Counted(k, WrappingAdd(next, |first|), Seen(before + first), Step(d, s, l), OpenAfter(k, d, s, l, open))
            && FromZero(WrappingAdd(next, |first|), Seen(before + first))
  {
    var first := StepValues(k, d, s, l);
    StepKeepsCount(k, d, next, Seen(before), s, l, open);
    ZeroComesFirst(next, Seen(before), first);
    SeenConcat(before, first);
  }

  lemma {:induction false} DisorderlyRunRepeats(k: Counter, d: Option<Time>, next: u64, s: Sys, ls: seq<Label>,
                                                open: Option<Pid>, before: seq<u64>)
    requires Counted(k, next, Seen(before), s, open) && FromZero(next, Seen(before)) && !Orderly(k, d, s, ls, open)
    ensures !DistinctValues(before + RunValues(k, d, s, ls))
    decreases |ls|
  {
    var first, rest := StepValues(k, d, s, ls[0]), RunValues(k, d, Step(d, s, ls[0]), ls[1..]);
    if OrderlyStep(k, d, s, ls[0], open) {
      OrderlyPrefix(k, d, next, s, ls[0], open, before);
      DisorderlyRunRepeats(k, d, WrappingAdd(next, |first|), Step(d, s, ls[0]), ls[1..],
                           OpenAfter(k, d, s, ls[0], open), before + first);
      Regroup(before, first, rest);
    } else {
      DisorderRepeats(k, d, next, Seen(before), s, ls[0], open);
      RepeatedValue(before, first, rest);
    }
  }

  /**
   * Over every interleaved, faulty run from a counter at 0 with at most 2^64 draws: the usage values presented
   * to the tagger are pairwise distinct if and only if every drawing GET yields the counter and its call
   * writes it back before the next drawing GET. A GET that is not answered yields the counter only at 0. This
   * holds for all values presented, and also for those that were answered.
   */
  lemma UsageValuesDistinctIff(k: Counter, d: Option<Time>, s: Sys, ls: seq<Label>)
    requires Init(s) && Held(k, s.store) == 0 && |RunValues(k, d, s, ls)| <= U64_SIZE
    ensures DistinctValues(RunValues(k, d, s, ls)) <==> Orderly(k, d, s, ls, None)
  {
    if Orderly(k, d, s, ls, None) {
      OrderlyRunsDrawDistinctValues(k, d, s, ls);
    } else {
      CountedAtFirst(k, s);
      assert Seen([]) == {};
      DisorderlyRunRepeats(k, d, 0, s, ls, None, []);
      assert [] + RunValues(k, d, s, ls) == RunValues(k, d, s, ls);
    }
  }
}
