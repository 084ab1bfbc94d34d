/** The token store before it moved to Redis (primitives/issuer.rs): two maps that share one cell per pair. */
module TwoMaps {
  import opened Prelude
  import opened Grants
  import opened Stores
  import opened FailureFree

  /** The tagger of one call: it is told the usage value and the grant, and may fail. */
  type Tagger = (u64, Grant) -> Option<Tag>

  datatype Call =
    | Issue(grant: Grant, now: Time, tagger: Tagger)
    | Refresh(key: Tag, grant: Grant, now: Time, tagger: Tagger)
    | RecoverToken(key: Tag)
    | RecoverRefresh(key: Tag)

  // ------------------------------------------------------------ on Redis

  function OutcomeOf(after: (Store, Op)): (Store, Outcome) {
    (after.0, if after.1.Done? then after.1.outcome else Failed)
  }

  function RedisCall(d: Option<Time>, st: Store, call: Call): (Store, Outcome) {
    var usage := UsageOf(st);
    match call
    case Issue(grant, now, tagger) =>
      var g := SetDuration(d, now, grant);
      OutcomeOf(RunAlone(d, st, BeginIssue(d, now, grant),
                         HealthyRun(4, 0, tagger(usage, g), tagger(WrappingAdd(usage, 1), g), now)))
    case Refresh(key, grant, now, tagger) =>
      OutcomeOf(RunAlone(d, st, RefreshHgetRefresh(key, grant),
                         HealthyRun(8, 2, tagger(usage, SetDuration(d, now, grant)), None, now)))
    case RecoverToken(key) => OutcomeOf(RunAlone(d, st, RecoverTokenHget(key), HealthyRun(1, 0, None, None, 0)))
    case RecoverRefresh(key) => OutcomeOf(RunAlone(d, st, RecoverRefreshHget(key), HealthyRun(1, 0, None, None, 0)))
  }

  lemma RedisIssues(d: Option<Time>, st: Store, grant: Grant, now: Time, tagger: Tagger, a: Tag, r: Tag)
    requires a !in st.access && r !in st.refresh
    requires tagger(UsageOf(st), SetDuration(d, now, grant)) == Some(a)
    requires tagger(WrappingAdd(UsageOf(st), 1), SetDuration(d, now, grant)) == Some(r)
    ensures var g := SetDuration(d, now, grant);
            RedisCall(d, st, Issue(grant, now, tagger)) == (AfterIssue(st, a, r, g), IssuedOk(a, r, g.until))
  {
    IssueSucceeds(d, st, SetDuration(d, now, grant), a, r, now);
  }

  lemma RedisRefreshes(d: Option<Time>, st: Store, key: Tag, grant: Grant, now: Time, tagger: Tagger, a: Tag)
    requires Linked(st, key) && st.tokenUsage.Some? && (a in st.access ==> a == st.refresh[key].access)
    requires tagger(UsageOf(st), SetDuration(d, now, grant)) == Some(a)
    ensures var g := SetDuration(d, now, grant);
            RedisCall(d, st, Refresh(key, grant, now, tagger)) == (AfterRefresh(st, key, a, g), RefreshedOk(a, g.until))
  {
    RefreshSucceeds(d, st, key, grant, a, now);
  }

  lemma RedisRefreshesNothing(d: Option<Time>, st: Store, key: Tag, grant: Grant, now: Time, tagger: Tagger)
    requires key !in st.refresh
    ensures RedisCall(d, st, Refresh(key, grant, now, tagger)) == (st, Failed)
  {
    RefreshFindsNothing(d, st, key, grant, tagger(UsageOf(st), SetDuration(d, now, grant)), now);
  }

  // ----------------------------------------------------------- in memory

  type Cell = nat

  /** `cells` are the shared tokens, which both maps point to. */
  datatype Memory = Memory(
    cells: map<Cell, Token>,
    next: Cell,
    access: map<Tag, Cell>,
    refresh: map<Tag, Cell>,
    usage: u64)

  const EMPTY_MEMORY := Memory(map[], 0, map[], map[], 0)

  function MemoryIssue(m: Memory, g: Grant, tagger: Tagger): (Memory, Outcome) {
    match (tagger(m.usage, g), tagger(WrappingAdd(m.usage, 1), g))
    case (Some(a), Some(r)) => (MemoryAfterIssue(m, a, r, g), IssuedOk(a, r, g.until))
    case _ => (m, Failed)
  }

  function MemoryAfterIssue(m: Memory, a: Tag, r: Tag, g: Grant): Memory {
    Memory(m.cells[m.next := Token(a, Some(r), g)], m.next + 1, m.access[a := m.next], m.refresh[r := m.next],
           WrappingAdd(m.usage, 2))
  }

  /** `Arc::get_mut` after both entries were removed: nothing else may point to the cell. */
  predicate Exclusive(m: Memory, cell: Cell) {
    && (forall k :: k in m.access ==> m.access[k] != cell)
    && (forall r :: r in m.refresh ==> m.refresh[r] != cell)
  }

  /** A cell that is not there, a foreign cell or a shared cell would be a panic. */
  function MemoryRefresh(m: Memory, key: Tag, g: Grant, tagger: Tagger): (Memory, Outcome) {
    if key !in m.refresh then (m, Failed)
    else if m.refresh[key] !in m.cells then (m, Panicked(AssertionFailed))
    else
      var cell := m.refresh[key];
      var token := m.cells[cell];
      var m1 := m.(refresh := m.refresh - {key});
      if token.refresh != Some(key) then (m1, Panicked(AssertionFailed))
      else
        match tagger(m.usage, g)
        case None => (m1, Failed)
        case Some(a) =>
          if token.access in m1.access && m1.access[token.access] != cell then (m1, Panicked(AssertionFailed))
          else
            var m2 := m1.(access := m1.access - {token.access});
            if !Exclusive(m2, cell) then (m2, Panicked(AssertionFailed))
            else
              (m2.(cells := m.cells[cell := token.(access := a, grant := g)],
                   access := m2.access[a := cell], refresh := m2.refresh[key := cell],
                       usage := WrappingAdd(m.usage, 1)),
               RefreshedOk(a, g.until))
  }

  function GrantAt(m: Memory, index: map<Tag, Cell>, key: Tag): Option<Grant> {
    if key in index && index[key] in m.cells then Some(m.cells[index[key]].grant) else None
  }

  function MemoryCall(d: Option<Time>, m: Memory, call: Call): (Memory, Outcome) {
    match call
    case Issue(grant, now, tagger) => MemoryIssue(m, SetDuration(d, now, grant), tagger)
    case Refresh(key, grant, now, tagger) => MemoryRefresh(m, key, SetDuration(d, now, grant), tagger)
    case RecoverToken(key) => (m, TokenRecovered(GrantAt(m, m.access, key)))
    case RecoverRefresh(key) => (m, RefreshRecovered(key, GrantAt(m, m.refresh, key)))
  }

  // ---------------------------------------------------------- simulation

  /** An index points to exactly the tokens of a hash. */
  predicate Represents(m: Memory, index: map<Tag, Cell>, hash: map<Tag, Token>) {
    && index.Keys == hash.Keys
    && forall k :: k in index ==> index[k] in m.cells && index[k] < m.next && m.cells[index[k]] == hash[k]
  }

  predicate Mirrors(st: Store, m: Memory) {
    && Represents(m, m.access, st.access) && Represents(m, m.refresh, st.refresh)
    && UsageOf(st) == m.usage
    && (forall k :: k in st.access ==> st.access[k].access == k)
    && (forall r :: r in st.refresh ==>
          && st.tokenUsage.Some? && st.refresh[r].refresh == Some(r)
          && st.refresh[r].access in m.access && m.access[st.refresh[r].access] == m.refresh[r])
  }

  /** The tags this call draws are not in use. Tags that never repeat are never in use. */
  predicate Unused(d: Option<Time>, st: Store, call: Call) {
    var usage := UsageOf(st);
    match call
    case Issue(grant, now, tagger) =>
      var g := SetDuration(d, now, grant);
      tagger(usage, g).Some? && tagger(WrappingAdd(usage, 1), g).Some? ==>
        tagger(usage, g).value !in st.access && tagger(WrappingAdd(usage, 1), g).value !in st.refresh
    case Refresh(key, grant, now, tagger) =>
      var a := tagger(usage, SetDuration(d, now, grant));
      key in st.refresh && a.Some? && a.value in st.access ==> a.value == st.refresh[key].access
    case _ => true
  }

  lemma IndexGrows(m: Memory, m': Memory, index: map<Tag, Cell>, hash: map<Tag, Token>, k: Tag, token: Token)
    requires Represents(m, index, hash)
    requires m'.cells == m.cells[m.next := token] && m'.next == m.next + 1
    ensures Represents(m', index[k := m.next], hash[k := token])
  {
  }

  lemma PairAdded(st: Store, m: Memory, a: Tag, r: Tag, g: Grant)
    requires Mirrors(st, m) && a !in st.access && r !in st.refresh
    ensures Mirrors(AfterIssue(st, a, r, g), MemoryAfterIssue(m, a, r, g))
  {
    var st', m', token := AfterIssue(st, a, r, g), MemoryAfterIssue(m, a, r, g), Token(a, Some(r), g);
    IndexGrows(m, m', m.access, st.access, a, token);
    IndexGrows(m, m', m.refresh, st.refresh, r, token);
    forall s | s in st'.refresh
      ensures st'.refresh[s].refresh == Some(s) && st'.refresh[s].access in m'.access
              && m'.access[st'.refresh[s].access] == m'.refresh[s]
    {
      assert s == r || st.refresh[s].access in m.access;
    }
  }

  predicate SameAnswer(redis: (Store, Outcome), memory: (Memory, Outcome)) {
    redis.1 == memory.1 && Mirrors(redis.0, memory.0)
  }

  lemma IssueMirrors(d: Option<Time>, st: Store, m: Memory, grant: Grant, now: Time, tagger: Tagger)
    requires Mirrors(st, m) && Unused(d, st, Issue(grant, now, tagger))
    ensures var call := Issue(grant, now, tagger); SameAnswer(RedisCall(d, st, call), MemoryCall(d, m, call))
  {
    var g := SetDuration(d, now, grant);
    var first, second := tagger(m.usage, g), tagger(WrappingAdd(m.usage, 1), g);
    if first.Some? && second.Some? {
      RedisIssues(d, st, grant, now, tagger, first.value, second.value);
      PairAdded(st, m, first.value, second.value, g);
    } else {
      IssueUntagged(d, st, g, first, second, now);
    }
  }

  /** Removing both entries leaves the cell unshared. */
  lemma CellIsExclusive(st: Store, m: Memory, key: Tag)
    requires Mirrors(st, m) && key in st.refresh
    ensures Linked(st, key)
    ensures Exclusive(m.(refresh := m.refresh - {key}, access := m.access - {st.refresh[key].access}), m.refresh[key])
  {
  }

  lemma EntryDropped(st: Store, m: Memory, key: Tag)
    requires Mirrors(st, m)
    ensures Mirrors(st.(refresh := st.refresh - {key}), m.(refresh := m.refresh - {key}))
  {
  }

  function MemoryAfterRefresh(m: Memory, key: Tag, a: Tag, g: Grant): Memory
    requires key in m.refresh && m.refresh[key] in m.cells
  {
    var cell := m.refresh[key];
    var token := m.cells[cell];
    m.(cells := m.cells[cell := token.(access := a, grant := g)],
       access := (m.access - {token.access})[a := cell], refresh := m.refresh[key := cell],
           usage := WrappingAdd(m.usage, 1))
  }

  lemma MemoryRefreshSucceeds(st: Store, m: Memory, key: Tag, g: Grant, tagger: Tagger, a: Tag)
    requires Mirrors(st, m) && key in st.refresh && tagger(m.usage, g) == Some(a)
    ensures MemoryRefresh(m, key, g, tagger) == (MemoryAfterRefresh(m, key, a, g), RefreshedOk(a, g.until))
  {
    CellIsExclusive(st, m, key);
    assert (m.refresh - {key})[key := m.refresh[key]] == m.refresh[key := m.refresh[key]];
  }

  lemma PairRenewed(st: Store, m: Memory, key: Tag, a: Tag, g: Grant)
    requires Mirrors(st, m) && key in st.refresh && (a in st.access ==> a == st.refresh[key].access)
    ensures Mirrors(AfterRefresh(st, key, a, g), MemoryAfterRefresh(m, key, a, g))
  {
    CellIsExclusive(st, m, key);
    var st', m' := AfterRefresh(st, key, a, g), MemoryAfterRefresh(m, key, a, g);
    assert Represents(m', m'.access, st'.access);
    assert Represents(m', m'.refresh, st'.refresh);
  }

  lemma RefreshMirrors(d: Option<Time>, st: Store, m: Memory, key: Tag, grant: Grant, now: Time, tagger: Tagger)
    requires Mirrors(st, m) && Unused(d, st, Refresh(key, grant, now, tagger))
    ensures var call := Refresh(key, grant, now, tagger); SameAnswer(RedisCall(d, st, call), MemoryCall(d, m, call))
  {
    var g := SetDuration(d, now, grant);
    var first := tagger(m.usage, g);
    if key !in st.refresh {
      RedisRefreshesNothing(d, st, key, grant, now, tagger);
    } else if first.None? {
      CellIsExclusive(st, m, key);
      RefreshUntagged(d, st, key, grant, now);
      EntryDropped(st, m, key);
    } else {
      CellIsExclusive(st, m, key);
      RedisRefreshes(d, st, key, grant, now, tagger, first.value);
      MemoryRefreshSucceeds(st, m, key, g, tagger, first.value);
      PairRenewed(st, m, key, first.value, g);
    }
  }

  lemma CallMirrors(d: Option<Time>, st: Store, m: Memory, call: Call)
    requires Mirrors(st, m) && Unused(d, st, call)
    ensures SameAnswer(RedisCall(d, st, call), MemoryCall(d, m, call))
  {
    match call {
      case Issue(grant, now, tagger) => IssueMirrors(d, st, m, grant, now, tagger);
      case Refresh(key, grant, now, tagger) => RefreshMirrors(d, st, m, key, grant, now, tagger);
      case RecoverToken(key) => RecoverAnswers(d, st, key, 0);
      case RecoverRefresh(key) => RecoverAnswers(d, st, key, 0);
    }
  }

  // ---------------------------------------------------------- whole runs

  type Server<!S> = (S, Call) -> (S, Outcome)

  function OnRedis(d: Option<Time>): Server<Store> {
    (st: Store, call: Call) => RedisCall(d, st, call)
  }

  function InMemory(d: Option<Time>): Server<Memory> {
    (m: Memory, call: Call) => MemoryCall(d, m, call)
  }

  /** The answers a server gives to one call after the other. */
  function Results<S>(server: Server<S>, s: S, calls: seq<Call>): seq<Outcome>
    decreases |calls|
  {
    if calls == [] then []
    else
      var (s', outcome) := server(s, calls[0]);
      [outcome] + Results(server, s', calls[1..])
  }

  predicate UnusedThroughout(d: Option<Time>, server: Server<Store>, st: Store, calls: seq<Call>)
    decreases |calls|
  {
    calls != [] ==> Unused(d, st, calls[0]) && UnusedThroughout(d, server, server(st, calls[0]).0, calls[1..])
  }

  ghost predicate Simulates(d: Option<Time>, redis: Server<Store>, memory: Server<Memory>) {
    forall st, m, call :: Mirrors(st, m) && Unused(d, st, call) ==> SameAnswer(redis(st, call), memory(m, call))
  }

  lemma {:induction false} RunsMirror(d: Option<Time>, redis: Server<Store>, memory: Server<Memory>, st: Store,
                                      m: Memory, calls: seq<Call>)
    requires Simulates(d, redis, memory) && Mirrors(st, m) && UnusedThroughout(d, redis, st, calls)
    ensures Results(redis, st, calls) == Results(memory, m, calls)
    decreases |calls|
  {
    if calls != [] {
      assert SameAnswer(redis(st, calls[0]), memory(m, calls[0]));
      RunsMirror(d, redis, memory, redis(st, calls[0]).0, memory(m, calls[0]).0, calls[1..]);
    }
  }

  /** From the empty store, the Redis version and the two-map version cannot be told apart. */
  lemma RedisRefinesTwoMaps(d: Option<Time>, calls: seq<Call>)
    requires UnusedThroughout(d, OnRedis(d), EMPTY_STORE, calls)
    ensures Results(OnRedis(d), EMPTY_STORE, calls) == Results(InMemory(d), EMPTY_MEMORY, calls)
  {
    forall st, m, call | Mirrors(st, m) && Unused(d, st, call)
      ensures SameAnswer(OnRedis(d)(st, call), InMemory(d)(m, call))
    {
      CallMirrors(d, st, m, call);
    }
    RunsMirror(d, OnRedis(d), InMemory(d), EMPTY_STORE, EMPTY_MEMORY, calls);
  }
}
