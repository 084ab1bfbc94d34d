/** The whole server without an assumption on tags: injective taggers, and calls that draw one after the other. */
module OrderlyServer {
  import opened Prelude
  import opened Registrars
  import opened Stores
  import opened Interleaving
  import opened Taggers
  import opened Counters
  import opened Freshness
  import opened Flows
  import B = Backing
  import P = Provenance
  import F = Families
  import L = Lineage

  /** What an action means to the stores, as a run of at most one step. */
  function LabelOf(cfg: Config, w: World, a: Action): seq<Label>
    requires ValidRegistry(cfg.reg)
  {
    var move := SysMove(cfg, w, a);
    if move.Some? then [move.value] else []
  }

  /** What a run of the server means to the stores. */
  function Labels(cfg: Config, w: World, acts: seq<Action>): seq<Label>
    requires ValidRegistry(cfg.reg)
    decreases |acts|
  {
    if acts == [] then [] else LabelOf(cfg, w, acts[0]) + Labels(cfg, NextWorld(cfg, w, acts[0]), acts[1..])
  }

  /** A server run is a run of the stores, and tags never repeat in the one exactly if they do not in the other. */
  lemma {:induction false} ServerRunIsAStoreRun(cfg: Config, w: World, acts: seq<Action>)
    requires ValidRegistry(cfg.reg)
    ensures RunWorld(cfg, w, acts).sys == Run(cfg.duration, w.sys, Labels(cfg, w, acts))
    ensures FreshActions(cfg, w, acts) <==> FreshRun(cfg.duration, w.sys, Labels(cfg, w, acts))
    decreases |acts|
  {
    if acts != [] {
      var rest := Labels(cfg, NextWorld(cfg, w, acts[0]), acts[1..]);
      ServerRunIsAStoreRun(cfg, NextWorld(cfg, w, acts[0]), acts[1..]);
      if SysMove(cfg, w, acts[0]).Some? {
        assert Labels(cfg, w, acts)[1..] == rest;
      } else {
        assert Labels(cfg, w, acts) == rest;
      }
    }
  }

  /**
   * Injective taggers answer the server, imported keys are new, the calls that draw do so one after the other,
   * and each counter is drawn from at most 2^64 times. Otherwise flows may overlap and commands may fail at will.
   */
  ghost predicate OrderlyRun(cfg: Config, w: World, acts: seq<Action>, token: TotalTagger, code: TotalTagger)
    requires ValidRegistry(cfg.reg)
  {
    var ls := Labels(cfg, w, acts);
    && Tagged(cfg.duration, w.sys, ls, token, code) && ImportsApart(cfg.duration, w.sys, ls)
    && Orderly(TOKENS, cfg.duration, w.sys, ls, None) && Orderly(CODES, cfg.duration, w.sys, ls, None)
    && WithinBounds(cfg.duration, w.sys, ls)
  }

  /** Then tags never repeat in any run of the server. */
  lemma OrderlyActionsAreFresh(cfg: Config, w: World, acts: seq<Action>, token: TotalTagger, code: TotalTagger)
    requires ValidRegistry(cfg.reg) && InitWorld(w) && OrderlyRun(cfg, w, acts, token, code)
    ensures FreshActions(cfg, w, acts)
  {
    ServerRunIsAStoreRun(cfg, w, acts);
    OrderlyRunsAreFresh(cfg.duration, w.sys, Labels(cfg, w, acts), token, code);
  }

  /** No redemption minted a token for consent `c` but at entry `i`. */
  ghost predicate OnlyTokenOf(w: World, c: FlowId, i: nat) {
    forall j: nat, g ::
      (j < |w.sys.log| && B.Issues(w, w.sys.log[j].pid, g) && B.Traced(w, g, c, j)) ==> j == i
  }

  /** So a token minted by a redemption goes back to a consent, and no other token does to the same one. */
  lemma OrderlyTokensTraceToConsent(cfg: Config, w: World, acts: seq<Action>, i: nat, f: FlowId, token: TotalTagger,
                                    code: TotalTagger)
    requires ValidRegistry(cfg.reg) && InitWorld(w) && OrderlyRun(cfg, w, acts, token, code)
    requires i < |RunWorld(cfg, w, acts).sys.log| && RunWorld(cfg, w, acts).sys.log[i].event.Minted?
    requires B.Issues(RunWorld(cfg, w, acts), RunWorld(cfg, w, acts).sys.log[i].pid, f)
    ensures var v := RunWorld(cfg, w, acts);
            exists c :: B.BackedBy(cfg, v, f, v.sys.log[i].event.token.grant, c, i) && OnlyTokenOf(v, c, i)
  {
    OrderlyActionsAreFresh(cfg, w, acts, token, code);
    P.TokensTraceToConsent(cfg, w, acts, i, f);
    var v := RunWorld(cfg, w, acts);
    var c :| B.BackedBy(cfg, v, f, v.sys.log[i].event.token.grant, c, i);
    forall j: nat, g | j < |v.sys.log| && B.Issues(v, v.sys.log[j].pid, g) && B.Traced(v, g, c, j) ensures j == i {
      P.NoConsentServesTwice(cfg, w, acts, i, f, j, g, c);
    }
  }

  /** And every token with a refresh tag, however often refreshed, descends from a consent or began elsewhere. */
  lemma OrderlyTokensDescendFromConsent(cfg: Config, w: World, acts: seq<Action>, i: nat, r: Tag, token: TotalTagger,
                                        code: TotalTagger)
    requires ValidRegistry(cfg.reg) && InitWorld(w) && OrderlyRun(cfg, w, acts, token, code)
    requires i < |RunWorld(cfg, w, acts).sys.log| && F.NamedBy(RunWorld(cfg, w, acts).sys.log[i].event, r)
    ensures var v := RunWorld(cfg, w, acts);
            exists j: nat :: j <= i && L.Descends(cfg, v, r, v.sys.log[i].event.token, j)
  {
    OrderlyActionsAreFresh(cfg, w, acts, token, code);
    L.TokensDescendFromConsent(cfg, w, acts, i, r);
  }
}
