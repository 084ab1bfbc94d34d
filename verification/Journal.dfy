/**
 * Every call leaves at most one entry in the log, whatever the interleaving and the faults: it mints
 * one token, creates one code, or removes one code.
 */
module Journal {
  import opened Prelude
  import opened Stores
  import opened Interleaving

  /** The call has its one event still ahead of it. */
  predicate MayLog(op: Op) {
    || op.IssueGetUsage? || op.IssueHsetAccess?
    || (IsRefresh(op) && !op.RefreshHsetRefresh? && !op.RefreshSetUsage?)
    || op.ImportHset? || op.AuthorizeGetUsage? || op.AuthorizeHset? || op.ExtractHget? || op.ExtractHdel?
  }

  predicate OncePerCall(log: seq<Entry>) {
    forall i, j :: 0 <= i < |log| && 0 <= j < |log| && log[i].pid == log[j].pid ==> i == j
  }

  predicate JournalInv(s: Sys) {
    && OncePerCall(s.log)
    && (forall i :: 0 <= i < |s.log| ==> s.log[i].pid in s.ops && !MayLog(s.ops[s.log[i].pid]))
  }

  lemma CommandLogsOnce(duration: Option<Time>, st: Store, op: Op, c: Choice)
    ensures var e := OpStep(duration, st, op, c);
            && |e.events| <= 1
            && (e.events != [] ==> MayLog(op) && !MayLog(e.op))
            && (MayLog(e.op) ==> MayLog(op))
  {
  }

  lemma StepKeepsJournal(duration: Option<Time>, s: Sys, l: Label)
    requires JournalInv(s)
    ensures JournalInv(Step(duration, s, l))
  {
    if l.Exec? && l.pid in s.ops {
      var e := OpStep(duration, s.store, s.ops[l.pid], l.choice);
      CommandLogsOnce(duration, s.store, s.ops[l.pid], l.choice);
      assert Entries(l.pid, e.events) == if e.events == [] then [] else [Entry(l.pid, e.events[0])];
    }
  }
}
