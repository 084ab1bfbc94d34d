/**
 * Any number of processes sharing one store: every step starts a call, runs one Redis command of one
 * call, or kills a call.
 */
module Interleaving {
  import opened Prelude
  import opened Stores

  type Pid = nat

  datatype Entry = Entry(pid: Pid, event: Event)

  /**
   * `spentTokens` and `spentCodes` hold every tag the two taggers have handed out, `minted` the token
   * last written under each access tag, and `log` what happened, oldest first. They are history
   * only: no step reads them.
   */
  datatype Sys = Sys(
    store: Store,
    ops: map<Pid, Op>,
    spentTokens: set<Tag>,
    spentCodes: set<Tag>,
    minted: map<Tag, Token>,
    log: seq<Entry>)

  datatype Label =
    | Start(pid: Pid, op: Op)
    | Exec(pid: Pid, choice: Choice)
    | Crash(pid: Pid)

  /** An empty store; the counters may hold any value left over from earlier. */
  predicate Init(s: Sys) {
    && s.store.access == map[] && s.store.refresh == map[] && s.store.codes == map[]
    && s.ops == map[] && s.spentTokens == {} && s.spentCodes == {} && s.minted == map[] && s.log == []
  }

  function Tags(draws: seq<Draw>): set<Tag> {
    set d | d in draws :: d.tag
  }

  function Mint(minted: map<Tag, Token>, events: seq<Event>): map<Tag, Token> {
    if |events| == 1 && events[0].Minted? then minted[events[0].token.access := events[0].token] else minted
  }

  function Entries(pid: Pid, events: seq<Event>): seq<Entry> {
    seq(|events|, i requires 0 <= i < |events| => Entry(pid, events[i]))
  }

  predicate CanStart(s: Sys, pid: Pid, op: Op) {
    pid !in s.ops && IsStart(op)
  }

  function ExecStep(duration: Option<Time>, s: Sys, pid: Pid, c: Choice): Sys
    requires pid in s.ops
  {
    var e := OpStep(duration, s.store, s.ops[pid], c);
    Sys(e.store, s.ops[pid := e.op],
        s.spentTokens + Tags(e.tokenDraws), s.spentCodes + Tags(e.codeDraws),
        Mint(s.minted, e.events), s.log + Entries(pid, e.events))
  }

  function StartStep(s: Sys, pid: Pid, op: Op): Sys {
    s.(ops := s.ops[pid := op],
       spentTokens := if op.ImportHset? then s.spentTokens + {op.key} else s.spentTokens)
  }

  function Step(duration: Option<Time>, s: Sys, l: Label): Sys {
    match l
    case Start(pid, op) => if CanStart(s, pid, op) then StartStep(s, pid, op) else s
    case Exec(pid, c) => if pid in s.ops then ExecStep(duration, s, pid, c) else s
    case Crash(pid) => if pid in s.ops && !s.ops[pid].Done? then s.(ops := s.ops[pid := Done(Failed)]) else s
  }

  /** The tags drawn in one step are new, and so is the key of an imported token. */
  predicate FreshStep(duration: Option<Time>, s: Sys, l: Label) {
    match l
    case Start(pid, op) => op.ImportHset? ==> op.key !in s.spentTokens
    case Exec(pid, c) =>
      pid in s.ops ==>
        var e := OpStep(duration, s.store, s.ops[pid], c);
        && FreshDraws(e.tokenDraws, s.spentTokens)
        && FreshDraws(e.codeDraws, s.spentCodes)
    case Crash(pid) => true
  }

  predicate FreshDraws(draws: seq<Draw>, spent: set<Tag>) {
    && (forall i :: 0 <= i < |draws| ==> draws[i].tag !in spent)
    && (forall i, j :: 0 <= i < j < |draws| ==> draws[i].tag != draws[j].tag)
  }

  function Run(duration: Option<Time>, s: Sys, ls: seq<Label>): Sys
    decreases |ls|
  {
    if ls == [] then s else Run(duration, Step(duration, s, ls[0]), ls[1..])
  }

  /** "Tags never repeat", over a whole run. */
  predicate FreshRun(duration: Option<Time>, s: Sys, ls: seq<Label>)
    decreases |ls|
  {
    ls != [] ==> FreshStep(duration, s, ls[0]) && FreshRun(duration, Step(duration, s, ls[0]), ls[1..])
  }
}
