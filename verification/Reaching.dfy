/**
 * Building runs of the whole server step by step. A view is what of a state later steps depend on: the flows, the
 * running calls, the store and the tags drawn so far. What can be reached from a view is closed under single steps,
 * and the witnesses are built from those steps alone; runs in which tags never repeat give such a closed relation.
 */
module Reaching {
  import opened Prelude
  import opened Registrars
  import opened Stores
  import opened Interleaving
  import opened Flows
  import Redeem = AccessTokenMachine
  import Renew = RefreshMachine

  /** Everything but the log and the minted tokens. */
  datatype View = View(flows: map<FlowId, Flow>, ops: map<Pid, Op>, store: Store, spentTokens: set<Tag>,
                       spentCodes: set<Tag>)

  function ViewOf(w: World): View {
    View(w.flows, w.sys.ops, w.sys.store, w.sys.spentTokens, w.sys.spentCodes)
  }

  const NOTHING := View(map[], map[], EMPTY_STORE, {}, {})

  const EMPTY_WORLD := World(Sys(EMPTY_STORE, map[], {}, {}, map[], []), map[], map[], map[])

  lemma CommandView(cfg: Config, w: World, pid: Pid, c: Choice, e: Effect)
    requires ValidRegistry(cfg.reg) && pid in w.sys.ops && e == OpStep(cfg.duration, w.sys.store, w.sys.ops[pid], c)
    requires FreshDraws(e.tokenDraws, w.sys.spentTokens) && FreshDraws(e.codeDraws, w.sys.spentCodes)
    ensures var v := NextWorld(cfg, w, Command(pid, c));
            && ViewOf(v) == View(w.flows, w.sys.ops[pid := e.op], e.store,
                                 w.sys.spentTokens + Tags(e.tokenDraws), w.sys.spentCodes + Tags(e.codeDraws))
            && v.sys.log == w.sys.log + Entries(pid, e.events) && FreshAction(cfg, w, Command(pid, c))
  {
  }

  lemma LocalView(cfg: Config, w: World, f: FlowId, now: Time)
    requires ValidRegistry(cfg.reg) && f in w.flows
    ensures var v := NextWorld(cfg, w, Local(f, now));
            var call := CallOf(cfg, w.sys.ops, f, w.flows[f], now);
            && ViewOf(v) == ViewOf(w).(flows := w.flows[f := LocalFlow(cfg, w.sys.ops, f, w.flows[f], now)],
                                       ops := if call.Some? then w.sys.ops[call.value.0 := call.value.1] else w.sys.ops)
            && v.sys.log == w.sys.log && FreshAction(cfg, w, Local(f, now))
  {
    LocalShape(cfg, w, f, now);
  }

  /** `v` is reached from `w` by some fresh run. */
  ghost predicate Reaches(cfg: Config, w: World, v: World)
    requires ValidRegistry(cfg.reg)
  {
    exists acts :: FreshActions(cfg, w, acts) && RunWorld(cfg, w, acts) == v
  }

  lemma {:induction false} ReachesConcat(cfg: Config, w: World, xs: seq<Action>, ys: seq<Action>)
    requires ValidRegistry(cfg.reg) && FreshActions(cfg, w, xs) && FreshActions(cfg, RunWorld(cfg, w, xs), ys)
    ensures FreshActions(cfg, w, xs + ys) && RunWorld(cfg, w, xs + ys) == RunWorld(cfg, RunWorld(cfg, w, xs), ys)
    decreases |xs|
  {
    if xs == [] {
      assert xs + ys == ys;
    } else {
      assert (xs + ys)[1..] == xs[1..] + ys;
      ReachesConcat(cfg, NextWorld(cfg, w, xs[0]), xs[1..], ys);
    }
  }

  lemma OneStep(cfg: Config, w: World, v: World, a: Action)
    requires ValidRegistry(cfg.reg) && Reaches(cfg, w, v) && FreshAction(cfg, v, a)
    ensures Reaches(cfg, w, NextWorld(cfg, v, a))
  {
    var acts :| FreshActions(cfg, w, acts) && RunWorld(cfg, w, acts) == v;
    var next := [a];
    assert next[1..] == [];
    ReachesConcat(cfg, w, acts, next);
    assert RunWorld(cfg, w, acts + next) == NextWorld(cfg, v, a);
  }

  /** Some fresh run from `base` leads to this view and this log. */
  ghost predicate Reachable(cfg: Config, base: World, view: View, log: seq<Entry>)
    requires ValidRegistry(cfg.reg)
  {
    exists w :: Reaches(cfg, base, w) && ViewOf(w) == view && w.sys.log == log
  }

  lemma StartHere(cfg: Config, base: World)
    requires ValidRegistry(cfg.reg)
    ensures Reachable(cfg, base, ViewOf(base), base.sys.log)
  {
    var none: seq<Action> := [];
    assert RunWorld(cfg, base, none) == base && FreshActions(cfg, base, none);
  }

  // ---------------------------------------------------------- steps on views

  predicate FreshFor(d: Option<Time>, v: View, pid: Pid, c: Choice) {
    && pid in v.ops
    && var e := OpStep(d, v.store, v.ops[pid], c);
    FreshDraws(e.tokenDraws, v.spentTokens) && FreshDraws(e.codeDraws, v.spentCodes)
  }

  function CommandTo(d: Option<Time>, v: View, pid: Pid, c: Choice): View
    requires pid in v.ops
  {
    var e := OpStep(d, v.store, v.ops[pid], c);
    View(v.flows, v.ops[pid := e.op], e.store, v.spentTokens + Tags(e.tokenDraws), v.spentCodes + Tags(e.codeDraws))
  }

  function CommandLog(d: Option<Time>, v: View, pid: Pid, c: Choice): seq<Entry>
    requires pid in v.ops
  {
    Entries(pid, OpStep(d, v.store, v.ops[pid], c).events)
  }

  function LocalTo(cfg: Config, v: View, f: FlowId, now: Time): View
    requires f in v.flows
  {
    var call := CallOf(cfg, v.ops, f, v.flows[f], now);
    v.(flows := v.flows[f := LocalFlow(cfg, v.ops, f, v.flows[f], now)],
       ops := if call.Some? then v.ops[call.value.0 := call.value.1] else v.ops)
  }

  /** A new flow, with its first call if it makes one at once. */
  predicate Begins(cfg: Config, v: View, a: Action)
    requires ValidRegistry(cfg.reg)
  {
    && (a.BeginConsent? || a.BeginRedeem? || a.BeginRenew? || a.BeginOther?)
    && a.flow !in v.flows && First(a.flow) !in v.ops
    && (a.BeginConsent? ==> Consented(cfg, a.authRequest, a.owner, a.now).Some?)
    && (a.BeginOther? ==> OtherOp(a.op) && !a.op.ImportHset?)
  }

  function BeginTo(cfg: Config, v: View, a: Action): View
    requires ValidRegistry(cfg.reg) && Begins(cfg, v, a)
  {
    match a
    case BeginConsent(f, request, owner, now) =>
      var g := Consented(cfg, request, owner, now).value;
      v.(flows := v.flows[f := Consenting(request, owner, g)], ops := v.ops[First(f) := AuthorizeGetUsage(g)])
    case BeginRedeem(f, request) =>
      v.(flows := v.flows[f := Redeeming(request, Redeem.Validate(cfg.reg.parseUrl, request))])
    case BeginRenew(f, request) => v.(flows := v.flows[f := Renewing(request, Renew.Initialize(request))])
    case BeginOther(f, op) => v.(flows := v.flows[f := Other], ops := v.ops[First(f) := op])
  }

  /** A property of views and logs that every fresh step keeps. */
  type Reach = (View, seq<Entry>) -> bool

  ghost predicate Closed(cfg: Config, reach: Reach)
    requires ValidRegistry(cfg.reg)
  {
    && (forall v, log, pid, c :: reach(v, log) && FreshFor(cfg.duration, v, pid, c) ==>
          reach(CommandTo(cfg.duration, v, pid, c), log + CommandLog(cfg.duration, v, pid, c)))
    && (forall v, log, f, now :: reach(v, log) && f in v.flows ==> reach(LocalTo(cfg, v, f, now), log))
    && (forall v, log, a :: reach(v, log) && Begins(cfg, v, a) ==> reach(BeginTo(cfg, v, a), log))
  }

  lemma ReachableCommand(cfg: Config, base: World, v: View, log: seq<Entry>, pid: Pid, c: Choice)
    requires ValidRegistry(cfg.reg) && Reachable(cfg, base, v, log) && FreshFor(cfg.duration, v, pid, c)
    ensures Reachable(cfg, base, CommandTo(cfg.duration, v, pid, c), log + CommandLog(cfg.duration, v, pid, c))
  {
    var w :| Reaches(cfg, base, w) && ViewOf(w) == v && w.sys.log == log;
    CommandView(cfg, w, pid, c, OpStep(cfg.duration, v.store, v.ops[pid], c));
    OneStep(cfg, base, w, Command(pid, c));
  }

  lemma ReachableLocal(cfg: Config, base: World, v: View, log: seq<Entry>, f: FlowId, now: Time)
    requires ValidRegistry(cfg.reg) && Reachable(cfg, base, v, log) && f in v.flows
    ensures Reachable(cfg, base, LocalTo(cfg, v, f, now), log)
  {
    var w :| Reaches(cfg, base, w) && ViewOf(w) == v && w.sys.log == log;
    LocalView(cfg, w, f, now);
    OneStep(cfg, base, w, Local(f, now));
  }

  lemma BeginView(cfg: Config, w: World, a: Action)
    requires ValidRegistry(cfg.reg) && Begins(cfg, ViewOf(w), a)
    ensures var v := NextWorld(cfg, w, a);
            ViewOf(v) == BeginTo(cfg, ViewOf(w), a) && v.sys.log == w.sys.log && FreshAction(cfg, w, a)
  {
  }

  lemma ReachableBegin(cfg: Config, base: World, v: View, log: seq<Entry>, a: Action)
    requires ValidRegistry(cfg.reg) && Reachable(cfg, base, v, log) && Begins(cfg, v, a)
    ensures Reachable(cfg, base, BeginTo(cfg, v, a), log)
  {
    var w :| Reaches(cfg, base, w) && ViewOf(w) == v && w.sys.log == log;
    BeginView(cfg, w, a);
    OneStep(cfg, base, w, a);
  }

  ghost function FromBase(cfg: Config, base: World): Reach
    requires ValidRegistry(cfg.reg)
  {
    (v: View, log: seq<Entry>) => Reachable(cfg, base, v, log)
  }

  lemma ReachableIsClosed(cfg: Config, base: World)
    requires ValidRegistry(cfg.reg)
    ensures Closed(cfg, FromBase(cfg, base))
  {
    var reach := FromBase(cfg, base);
    forall v, log, pid, c | reach(v, log) && FreshFor(cfg.duration, v, pid, c)
      ensures reach(CommandTo(cfg.duration, v, pid, c), log + CommandLog(cfg.duration, v, pid, c))
    {
      ReachableCommand(cfg, base, v, log, pid, c);
    }
    forall v, log, f, now | reach(v, log) && f in v.flows ensures reach(LocalTo(cfg, v, f, now), log) {
      ReachableLocal(cfg, base, v, log, f, now);
    }
    forall v, log, a | reach(v, log) && Begins(cfg, v, a) ensures reach(BeginTo(cfg, v, a), log) {
      ReachableBegin(cfg, base, v, log, a);
    }
  }

  // ------------------------------------------------------ single steps by hand

  lemma CommandStep(cfg: Config, reach: Reach, view: View, log: seq<Entry>, pid: Pid, c: Choice, e: Effect)
    requires ValidRegistry(cfg.reg) && Closed(cfg, reach) && reach(view, log)
    requires pid in view.ops && e == OpStep(cfg.duration, view.store, view.ops[pid], c)
    requires FreshDraws(e.tokenDraws, view.spentTokens) && FreshDraws(e.codeDraws, view.spentCodes)
    ensures reach(View(view.flows, view.ops[pid := e.op], e.store, view.spentTokens + Tags(e.tokenDraws),
                       view.spentCodes + Tags(e.codeDraws)), log + Entries(pid, e.events))
  {
    assert FreshFor(cfg.duration, view, pid, c);
    assert reach(CommandTo(cfg.duration, view, pid, c), log + CommandLog(cfg.duration, view, pid, c));
  }

  /** A command that asks the tagger nothing and logs at most one event. */
  lemma PlainStep(cfg: Config, reach: Reach, view: View, log: seq<Entry>, pid: Pid, c: Choice, e: Effect,
                  more: seq<Entry>)
    requires ValidRegistry(cfg.reg) && Closed(cfg, reach) && reach(view, log)
    requires pid in view.ops && e == OpStep(cfg.duration, view.store, view.ops[pid], c)
    requires e.tokenDraws == [] && e.codeDraws == [] && Entries(pid, e.events) == more
    ensures reach(view.(ops := view.ops[pid := e.op], store := e.store), log + more)
  {
    CommandStep(cfg, reach, view, log, pid, c, e);
    assert view.spentTokens + Tags([]) == view.spentTokens && view.spentCodes + Tags([]) == view.spentCodes;
  }

  lemma LocalStep(cfg: Config, reach: Reach, view: View, log: seq<Entry>, f: FlowId, now: Time)
    requires ValidRegistry(cfg.reg) && Closed(cfg, reach) && reach(view, log) && f in view.flows
    ensures reach(LocalTo(cfg, view, f, now), log)
  {
  }

  lemma BeginStep(cfg: Config, reach: Reach, view: View, log: seq<Entry>, a: Action)
    requires ValidRegistry(cfg.reg) && Closed(cfg, reach) && reach(view, log) && Begins(cfg, view, a)
    ensures reach(BeginTo(cfg, view, a), log)
  {
  }

  lemma Overwrite<V>(m: map<Pid, V>, p: Pid, x: V, y: V)
    ensures m[p := x][p := y] == m[p := y]
  {
  }
}
