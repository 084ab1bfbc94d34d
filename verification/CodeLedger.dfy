/** Authorization codes as a ledger: created as often as taken, dropped or present, and redeemed at most once. */
module CodeLedger {
  import opened Prelude
  import opened Grants
  import opened Stores
  import opened Interleaving

  datatype Fact = Created | Taken | Dropped

  predicate Shows(e: Event, k: Tag, f: Fact) {
    match f
    case Created => e.CodeCreated? && e.code == k
    case Taken => e.CodeTaken? && e.code == k
    case Dropped => e.CodeDropped? && e.code == k
  }

  function Count(log: seq<Entry>, k: Tag, f: Fact): nat {
    if log == [] then 0
    else Count(log[..|log| - 1], k, f) + (if Shows(log[|log| - 1].event, k, f) then 1 else 0)
  }

  /** The `extract(k)` calls that have returned a grant. */
  function Redeemers(s: Sys, k: Tag): set<Pid> {
    set p | p in s.ops && RedeemedCode(s.ops[p]) == Some(k)
  }

  function RedeemedCode(op: Op): Option<Tag> {
    if op.Done? && op.outcome.Extracted? && op.outcome.grant.Some? then Some(op.outcome.code) else None
  }

  // ---------------------------------------------------------------- conservation

  predicate Balanced(s: Sys, k: Tag) {
    && Count(s.log, k, Created)
       == Count(s.log, k, Taken) + Count(s.log, k, Dropped) + (if k in s.store.codes then 1 else 0)
    && |Redeemers(s, k)| == Count(s.log, k, Taken)
  }

  lemma CountAppend(log: seq<Entry>, pid: Pid, events: seq<Event>, k: Tag, f: Fact)
    requires |events| <= 1
    ensures Count(log + Entries(pid, events), k, f)
            == Count(log, k, f) + (if |events| == 1 && Shows(events[0], k, f) then 1 else 0)
  {
    var all := log + Entries(pid, events);
    if |events| == 1 {
      assert all[..|all| - 1] == log;
    } else {
      assert all == log;
    }
  }

  /** What one command does to the codes, its own answer and the log. */
  predicate CodeTransition(st: Store, op: Op, e: Effect) {
    && |e.events| <= 1
    && if e.events == [] || e.events[0].Minted? then
         e.store.codes.Keys == st.codes.Keys && (if op.Done? then e.op == op && e.events == []
                                                 else RedeemedCode(e.op).None?)
       else if e.events[0].CodeCreated? then
         && e.events[0].code !in st.codes && e.store.codes.Keys == st.codes.Keys + {e.events[0].code}
         && RedeemedCode(e.op).None? && !op.Done?
       else
         && e.events[0].code in st.codes && e.store.codes.Keys == st.codes.Keys - {e.events[0].code} && !op.Done?
         && RedeemedCode(e.op) == (if e.events[0].CodeTaken? then Some(e.events[0].code) else None)
  }

  lemma CodeCommandTransition(st: Store, op: Op, c: Choice)
    requires IsCode(op)
    ensures CodeTransition(st, op, CodeStep(st, op, c))
  {
  }

  lemma TokenCommandTransition(duration: Option<Time>, st: Store, op: Op, c: Choice)
    requires IsIssue(op) || IsRefresh(op)
    ensures CodeTransition(st, op, if IsIssue(op) then IssueStep(st, op, c) else RefreshStep(duration, st, op, c))
  {
  }

  lemma CommandOnCodes(duration: Option<Time>, st: Store, op: Op, c: Choice)
    ensures CodeTransition(st, op, OpStep(duration, st, op, c))
  {
    if IsCode(op) {
      CodeCommandTransition(st, op, c);
    } else if IsIssue(op) || IsRefresh(op) {
      TokenCommandTransition(duration, st, op, c);
    }
  }

  lemma RedeemersChange(s: Sys, t: Sys, p: Pid, k: Tag)
    requires p in t.ops && t.ops == s.ops[p := t.ops[p]]
    requires p in s.ops ==> RedeemedCode(s.ops[p]).None?
    ensures |Redeemers(t, k)| == |Redeemers(s, k)| + (if RedeemedCode(t.ops[p]) == Some(k) then 1 else 0)
  {
    if RedeemedCode(t.ops[p]) == Some(k) {
      assert Redeemers(t, k) == Redeemers(s, k) + {p};
      assert p !in Redeemers(s, k);
    } else {
      assert Redeemers(t, k) == Redeemers(s, k);
    }
  }

  lemma CommandKeepsBalance(duration: Option<Time>, s: Sys, p: Pid, c: Choice, k: Tag)
    requires Balanced(s, k) && p in s.ops
    ensures Balanced(ExecStep(duration, s, p, c), k)
  {
    var e := OpStep(duration, s.store, s.ops[p], c);
    var t := ExecStep(duration, s, p, c);
    CommandOnCodes(duration, s.store, s.ops[p], c);
    CountAppend(s.log, p, e.events, k, Created);
    CountAppend(s.log, p, e.events, k, Taken);
    CountAppend(s.log, p, e.events, k, Dropped);
    if s.ops[p].Done? {
      assert t.ops == s.ops;
    } else {
      RedeemersChange(s, t, p, k);
    }
  }

  lemma StepKeepsBalance(duration: Option<Time>, s: Sys, l: Label, k: Tag)
    requires Balanced(s, k)
    ensures Balanced(Step(duration, s, l), k)
  {
    match l {
      case Start(p, op) => if CanStart(s, p, op) { RedeemersChange(s, StartStep(s, p, op), p, k); }
      case Crash(p) =>
        if p in s.ops && !s.ops[p].Done? { RedeemersChange(s, s.(ops := s.ops[p := Done(Failed)]), p, k); }
      case Exec(p, c) => if p in s.ops { CommandKeepsBalance(duration, s, p, c, k); }
    }
  }

  lemma {:induction false} RunKeepsBalance(duration: Option<Time>, s: Sys, ls: seq<Label>, k: Tag)
    requires Balanced(s, k)
    ensures Balanced(Run(duration, s, ls), k)
    decreases |ls|
  {
    if ls != [] {
      StepKeepsBalance(duration, s, ls[0], k);
      RunKeepsBalance(duration, Step(duration, s, ls[0]), ls[1..], k);
    }
  }

  /**
   * Conservation, whatever the interleaving, faults and collisions: every creation of a code is
   * accounted for exactly once, so `extract` never hands out more grants than were created.
   */
  lemma CodesAreConserved(duration: Option<Time>, s: Sys, ls: seq<Label>, k: Tag)
    requires Init(s)
    ensures var t := Run(duration, s, ls);
            && |Redeemers(t, k)| + Count(t.log, k, Dropped) + (if k in t.store.codes then 1 else 0)
               == Count(t.log, k, Created)
            && |Redeemers(t, k)| <= Count(t.log, k, Created)
  {
    assert Redeemers(s, k) == {};
    RunKeepsBalance(duration, s, ls, k);
  }

  // --------------------------------------------------------- one code, one grant

  predicate CreatedIn(log: seq<Entry>, k: Tag, g: Grant) {
    exists i :: 0 <= i < |log| && log[i].event == CodeCreated(k, g)
  }

  predicate NeverCreated(log: seq<Entry>, k: Tag) {
    forall i :: 0 <= i < |log| ==> !Shows(log[i].event, k, Created)
  }

  /** A code drawn by `authorize` and not stored yet. */
  function PendingCode(op: Op): Option<Tag> {
    if op.AuthorizeHset? then Some(op.code) else None
  }

  predicate LogOk(log: seq<Entry>, spent: set<Tag>) {
    && (forall i :: 0 <= i < |log| && log[i].event.CodeCreated? ==> log[i].event.code in spent)
    && (forall i, j :: (0 <= i < |log| && 0 <= j < |log| && log[i].event.CodeCreated?
                        && Shows(log[j].event, log[i].event.code, Created)) ==> i == j)
    && (forall j :: 0 <= j < |log| && log[j].event.CodeTaken? ==>
                      CreatedIn(log[..j], log[j].event.code, log[j].event.grant))
  }

  predicate CodeOpOk(s: Sys, op: Op) {
    && (op.AuthorizeHset? ==> op.code in s.spentCodes && NeverCreated(s.log, op.code))
    && (op.ExtractHdel? ==> CreatedIn(s.log, op.code, op.grant))
  }

  predicate CodeInv(s: Sys) {
    && LogOk(s.log, s.spentCodes)
    && (forall k :: k in s.store.codes ==> CreatedIn(s.log, k, s.store.codes[k]))
    && (forall p :: p in s.ops ==> CodeOpOk(s, s.ops[p]))
    && (forall p, q :: p in s.ops && q in s.ops && p != q && PendingCode(s.ops[p]).Some?
                       ==> PendingCode(s.ops[p]) != PendingCode(s.ops[q]))
  }

  lemma CreatedGrows(log: seq<Entry>, more: seq<Entry>, k: Tag, g: Grant)
    requires CreatedIn(log, k, g)
    ensures CreatedIn(log + more, k, g)
  {
    var i :| 0 <= i < |log| && log[i].event == CodeCreated(k, g);
    assert (log + more)[i] == log[i];
  }

  lemma LogGrows(log: seq<Entry>, entry: Entry, spent: set<Tag>)
    requires LogOk(log, spent)
    requires entry.event.CodeCreated? ==> entry.event.code in spent && NeverCreated(log, entry.event.code)
    requires entry.event.CodeTaken? ==> CreatedIn(log, entry.event.code, entry.event.grant)
    ensures LogOk(log + [entry], spent)
  {
    var all := log + [entry];
    forall j | 0 <= j < |all| && all[j].event.CodeTaken?
      ensures CreatedIn(all[..j], all[j].event.code, all[j].event.grant)
    {
      assert all[..j] == log[..j];
      assert log[..|log|] == log;
    }
  }

  lemma QuietCommand(s: Sys, t: Sys, p: Pid)
    requires CodeInv(s) && p in t.ops && t.ops == s.ops[p := t.ops[p]]
    requires t.log == s.log && t.spentCodes >= s.spentCodes && t.store.codes == s.store.codes
    requires PendingCode(t.ops[p]).Some? ==>
               t.ops[p].code !in s.spentCodes && t.ops[p].code in t.spentCodes
    requires t.ops[p].ExtractHdel? ==>
               t.ops[p].code in s.store.codes && s.store.codes[t.ops[p].code] == t.ops[p].grant
    ensures CodeInv(t)
  {
  }

  lemma LoggedCommand(s: Sys, t: Sys, p: Pid, event: Event)
    requires CodeInv(s) && p in s.ops && p in t.ops && t.ops == s.ops[p := t.ops[p]]
    requires t.log == s.log + [Entry(p, event)] && t.spentCodes == s.spentCodes
    requires PendingCode(t.ops[p]).None? && !t.ops[p].ExtractHdel?
    requires event.CodeCreated? ==> PendingCode(s.ops[p]) == Some(event.code)
                                    && t.store.codes == s.store.codes[event.code := event.grant]
    requires event.CodeTaken? ==> s.ops[p] == ExtractHdel(event.code, event.grant)
    requires !event.CodeCreated? ==> forall k :: k in t.store.codes ==>
        k in s.store.codes && t.store.codes[k] == s.store.codes[k]
    ensures CodeInv(t)
  {
    var entry := Entry(p, event);
    assert CodeOpOk(s, s.ops[p]);
    LogGrows(s.log, entry, s.spentCodes);
    forall k | k in t.store.codes ensures CreatedIn(t.log, k, t.store.codes[k]) {
      if event.CodeCreated? && k == event.code {
        assert t.log[|s.log|] == entry;
      } else {
        CreatedGrows(s.log, [entry], k, t.store.codes[k]);
      }
    }
    forall q | q in t.ops ensures CodeOpOk(t, t.ops[q]) {
      if q != p {
        assert CodeOpOk(s, s.ops[q]);
        if t.ops[q].ExtractHdel? { CreatedGrows(s.log, [entry], t.ops[q].code, t.ops[q].grant); }
      }
    }
  }

  lemma CreatedOrNever(log: seq<Entry>, k: Tag, g: Grant)
    requires CreatedIn(log, k, g)
    ensures !NeverCreated(log, k)
  {
    var i :| 0 <= i < |log| && log[i].event == CodeCreated(k, g);
    assert Shows(log[i].event, k, Created);
  }

  /** With fresh tags the code about to be stored is not there yet. */
  lemma PendingIsAbsent(s: Sys, p: Pid)
    requires CodeInv(s) && p in s.ops && s.ops[p].AuthorizeHset?
    ensures s.ops[p].code !in s.store.codes
  {
    var k := s.ops[p].code;
    if k in s.store.codes {
      CreatedOrNever(s.log, k, s.store.codes[k]);
    }
    assert CodeOpOk(s, s.ops[p]);
  }

  /** The shape of every command as far as codes are concerned. */
  lemma CodeShape(duration: Option<Time>, st: Store, op: Op, c: Choice)
    ensures var e := OpStep(duration, st, op, c);
            && |e.events| <= 1
            && (e.events == [] && !op.AuthorizeHset? ==> e.store.codes == st.codes)
            && (e.events == [] && op.AuthorizeHset? && op.code !in st.codes ==> e.store.codes == st.codes)
            && (PendingCode(e.op).Some? ==>
                  op.AuthorizeGetUsage? && |e.codeDraws| == 1 && e.codeDraws[0].tag == e.op.code && e.events == [])
            && (e.op.ExtractHdel? ==>
                  op.ExtractHget? && e.events == [] && e.op.code in st.codes && st.codes[e.op.code] == e.op.grant)
            && (|e.events| == 1 ==> e.codeDraws == [])
            && (|e.events| == 1 && e.events[0].Minted? ==> e.store.codes == st.codes)
            && (|e.events| == 1 && e.events[0].CodeCreated? ==>
                  op.AuthorizeHset? && op.code == e.events[0].code
                  && e.store.codes == st.codes[op.code := e.events[0].grant])
            && (|e.events| == 1 && e.events[0].CodeTaken? ==>
                  op == ExtractHdel(e.events[0].code, e.events[0].grant) && e.store.codes == st.codes - {op.code})
            && (|e.events| == 1 && e.events[0].CodeDropped? ==>
                  op.ExtractHdel? && e.store.codes == st.codes - {op.code})
  {
  }

  lemma CommandKeepsCodes(duration: Option<Time>, s: Sys, p: Pid, c: Choice)
    requires CodeInv(s) && p in s.ops && FreshStep(duration, s, Exec(p, c))
    ensures CodeInv(ExecStep(duration, s, p, c))
  {
    var e := OpStep(duration, s.store, s.ops[p], c);
    var t := ExecStep(duration, s, p, c);
    CodeShape(duration, s.store, s.ops[p], c);
    if s.ops[p].AuthorizeHset? { PendingIsAbsent(s, p); }
    if e.events == [] {
      assert t.log == s.log;
      assert PendingCode(e.op).Some? ==> e.codeDraws[0] in e.codeDraws;
      QuietCommand(s, t, p);
    } else {
      assert Entries(p, e.events) == [Entry(p, e.events[0])];
      assert Tags(e.codeDraws) == {};
      LoggedCommand(s, t, p, e.events[0]);
    }
  }

  lemma StepKeepsCodes(duration: Option<Time>, s: Sys, l: Label)
    requires CodeInv(s) && FreshStep(duration, s, l)
    ensures CodeInv(Step(duration, s, l))
  {
    match l {
      case Start(p, op) => if CanStart(s, p, op) { QuietCommand(s, StartStep(s, p, op), p); }
      case Exec(p, c) => if p in s.ops { CommandKeepsCodes(duration, s, p, c); }
      case Crash(p) => if p in s.ops { QuietCommand(s, s.(ops := s.ops[p := Done(Failed)]), p); }
    }
  }

  lemma {:induction false} RunKeepsCodes(duration: Option<Time>, s: Sys, ls: seq<Label>)
    requires CodeInv(s) && FreshRun(duration, s, ls)
    ensures CodeInv(Run(duration, s, ls))
    decreases |ls|
  {
    if ls != [] {
      StepKeepsCodes(duration, s, ls[0]);
      RunKeepsCodes(duration, Step(duration, s, ls[0]), ls[1..]);
    }
  }

  lemma {:induction false} CountAtMostOnce(log: seq<Entry>, k: Tag)
    requires forall i, j :: (0 <= i < |log| && 0 <= j < |log|
                             && Shows(log[i].event, k, Created) && Shows(log[j].event, k, Created)) ==> i == j
    ensures Count(log, k, Created) <= 1
    ensures NeverCreated(log, k) ==> Count(log, k, Created) == 0
  {
    if log != [] {
      var init := log[..|log| - 1];
      forall i, j | 0 <= i < |init| && 0 <= j < |init|
                    && Shows(init[i].event, k, Created) && Shows(init[j].event, k, Created) ensures i == j
      {
        assert Shows(log[i].event, k, Created) && Shows(log[j].event, k, Created);
      }
      CountAtMostOnce(init, k);
      if Shows(log[|log| - 1].event, k, Created) {
        assert NeverCreated(init, k);
      }
    }
  }

  /** With non-repeating tags, at most one `extract` call ever returns a grant for a given code. */
  lemma CodeRedeemedAtMostOnce(duration: Option<Time>, s: Sys, ls: seq<Label>, k: Tag)
    requires Init(s) && FreshRun(duration, s, ls)
    ensures |Redeemers(Run(duration, s, ls), k)| <= 1
  {
    RunKeepsCodes(duration, s, ls);
    CodesAreConserved(duration, s, ls, k);
    CountAtMostOnce(Run(duration, s, ls).log, k);
  }

  /** And what it returns is the grant of the earlier `authorize` call that created the code. */
  lemma RedeemedGrantWasAuthorized(duration: Option<Time>, s: Sys, ls: seq<Label>, j: nat)
    requires Init(s) && FreshRun(duration, s, ls)
    requires j < |Run(duration, s, ls).log| && Run(duration, s, ls).log[j].event.CodeTaken?
    ensures var log := Run(duration, s, ls).log;
            exists i :: 0 <= i < j && log[i].event == CodeCreated(log[j].event.code, log[j].event.grant)
  {
    RunKeepsCodes(duration, s, ls);
    var log := Run(duration, s, ls).log;
    var i :| 0 <= i < j && log[..j][i].event == CodeCreated(log[j].event.code, log[j].event.grant);
    assert log[i] == log[..j][i];
  }
}
