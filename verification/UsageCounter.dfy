/** Sequential calls: the usage counter hands out consecutive values, so tags do not repeat. */
module UsageCounter {
  import opened Prelude
  import opened Grants
  import opened Stores
  import opened Taggers
  import opened FailureFree
  import opened TwoMaps

  ghost predicate Tagged(tag: TotalTagger, call: Call) {
    call.Issue? || call.Refresh? ==> forall u, g :: call.tagger(u, g) == Some(tag(u, g))
  }

  // ---------------------------------------------------------------- one call

  /** What a call gets from the tagger, run on its own without failing commands. */
  function CallDraws(d: Option<Time>, st: Store, call: Call): seq<Draw> {
    var usage := UsageOf(st);
    match call
    case Issue(grant, now, tagger) =>
      var g := SetDuration(d, now, grant);
      DrawsFrom(d, st, BeginIssue(d, now, grant),
                HealthyRun(4, 0, tagger(usage, g), tagger(WrappingAdd(usage, 1), g), now), 0)
    case Refresh(key, grant, now, tagger) =>
      DrawsFrom(d, st, RefreshHgetRefresh(key, grant),
                HealthyRun(8, 2, tagger(usage, SetDuration(d, now, grant)), None, now), 0)
    case RecoverToken(key) => DrawsFrom(d, st, RecoverTokenHget(key), HealthyRun(1, 0, None, None, 0), 0)
    case RecoverRefresh(key) => DrawsFrom(d, st, RecoverRefreshHget(key), HealthyRun(1, 0, None, None, 0), 0)
  }

  /** The values a call presents to the tagger, by what it finds. */
  function Presented(st: Store, call: Call): seq<u64> {
    match call
    case Issue(_, _, _) => [UsageOf(st), WrappingAdd(UsageOf(st), 1)]
    case Refresh(key, _, _, _) => if key in st.refresh then [UsageOf(st)] else []
    case _ => []
  }

  predicate Intact(st: Store) {
    forall r :: r in st.refresh ==> Linked(st, r) && st.tokenUsage.Some?
  }

  lemma CallPresents(d: Option<Time>, st: Store, call: Call, tag: TotalTagger, usageOf: Tag -> u64)
    requires Intact(st) && Tagged(tag, call) && Tells(tag, usageOf)
    ensures |CallDraws(d, st, call)| == |Presented(st, call)|
    ensures forall i :: 0 <= i < |Presented(st, call)| ==>
              CallDraws(d, st, call)[i].usage == Presented(st, call)[i]
              && usageOf(CallDraws(d, st, call)[i].tag) == Presented(st, call)[i]
  {
    var usage := UsageOf(st);
    match call {
      case Issue(grant, now, tagger) =>
        var g := SetDuration(d, now, grant);
        var a, r := tag(usage, g), tag(WrappingAdd(usage, 1), g);
        IssueDraws(d, st, g, HealthyRun(4, 0, Some(a), Some(r), now), a, r);
      case Refresh(key, grant, now, tagger) =>
        var g := SetDuration(d, now, grant);
        var a := tag(usage, g);
        if key in st.refresh {
          RefreshDraws(d, st, key, grant, HealthyRun(8, 2, Some(a), None, now), a);
        } else {
          NothingDrawn(d, st, key, grant, HealthyRun(8, 2, Some(a), None, now));
        }
      case RecoverToken(_) =>
      case RecoverRefresh(_) =>
    }
  }

  lemma NothingDrawn(d: Option<Time>, st: Store, key: Tag, g: Grant, cs: seq<Choice>)
    requires |cs| == 8 && key !in st.refresh
    ensures DrawsFrom(d, st, RefreshHgetRefresh(key, g), cs, 0) == []
  {
    assert RefreshStep(d, st, RefreshHgetRefresh(key, g), cs[0]) == Quiet(st, Done(Failed));
  }

  // -------------------------------------------------------------- whole runs

  /** After `n` values: the counter is there, and every live tag came from one of them. */
  ghost predicate FromEarlier(start: u64, n: nat, usage: u64) {
    exists j: nat :: j < n && At(start, j) == usage
  }

  ghost predicate Spent(usageOf: Tag -> u64, start: u64, n: nat, st: Store) {
    && Intact(st) && UsageOf(st) == At(start, n)
    && TagsFrom(usageOf, start, n, st.access) && TagsFrom(usageOf, start, n, st.refresh)
  }

  ghost predicate TagsFrom(usageOf: Tag -> u64, start: u64, n: nat, hash: map<Tag, Token>) {
    forall k :: k in hash ==> FromEarlier(start, n, usageOf(k))
  }

  /** A value not presented before belongs to no earlier tag. */
  lemma NewValue(start: u64, n: nat, m: nat)
    requires n <= m < U64_SIZE
    ensures !FromEarlier(start, n, At(start, m))
  {
    if FromEarlier(start, n, At(start, m)) {
      var j: nat :| j < n && At(start, j) == At(start, m);
      AtInjective(start, j, m);
    }
  }

  lemma IssueKeepsLinks(st: Store, a: Tag, r: Tag, g: Grant)
    requires Intact(st) && a !in st.access && r !in st.refresh
    ensures Intact(AfterIssue(st, a, r, g))
  {
    var st' := AfterIssue(st, a, r, g);
    forall k | k in st'.refresh ensures Linked(st', k) {
      assert k == r || Linked(st, k);
    }
  }

  lemma TagsSpent(usageOf: Tag -> u64, start: u64, n: nat, m: nat, before: map<Tag, Token>, after: map<Tag, Token>,
                  t: Tag)
    requires TagsFrom(usageOf, start, n, before)
    requires after.Keys <= before.Keys + {t} && n <= m && FromEarlier(start, m, usageOf(t))
    ensures TagsFrom(usageOf, start, m, after)
  {
  }

  lemma IssueSpends(usageOf: Tag -> u64, start: u64, n: nat, st: Store, g: Grant, a: Tag, r: Tag)
    requires Spent(usageOf, start, n, st) && n + 2 <= U64_SIZE
    requires usageOf(a) == UsageOf(st) && usageOf(r) == WrappingAdd(UsageOf(st), 1)
    ensures a !in st.access && r !in st.refresh && Spent(usageOf, start, n + 2, AfterIssue(st, a, r, g))
  {
    AtStep(start, n);
    NewValue(start, n, n);
    NewValue(start, n, n + 1);
    var st' := AfterIssue(st, a, r, g);
    IssueKeepsLinks(st, a, r, g);
    assert FromEarlier(start, n + 2, usageOf(a)) && FromEarlier(start, n + 2, usageOf(r));
    TagsSpent(usageOf, start, n, n + 2, st.access, st'.access, a);
    TagsSpent(usageOf, start, n, n + 2, st.refresh, st'.refresh, r);
  }

  lemma RefreshKeepsLinks(st: Store, key: Tag, a: Tag, g: Grant)
    requires Intact(st) && key in st.refresh && a !in st.access
    ensures Intact(AfterRefresh(st, key, a, g))
  {
    var st' := AfterRefresh(st, key, a, g);
    assert Linked(st, key);
    forall k | k in st'.refresh ensures Linked(st', k) {
      assert Linked(st, k);
    }
  }

  lemma RefreshSpends(usageOf: Tag -> u64, start: u64, n: nat, st: Store, key: Tag, g: Grant, a: Tag)
    requires Spent(usageOf, start, n, st) && n + 1 <= U64_SIZE && key in st.refresh && usageOf(a) == UsageOf(st)
    ensures a !in st.access && Spent(usageOf, start, n + 1, AfterRefresh(st, key, a, g))
  {
    AtStep(start, n);
    NewValue(start, n, n);
    var st' := AfterRefresh(st, key, a, g);
    RefreshKeepsLinks(st, key, a, g);
    assert FromEarlier(start, n + 1, usageOf(a));
    TagsSpent(usageOf, start, n, n + 1, st.access, st'.access, a);
    TagsSpent(usageOf, start, n, n + 1, st.refresh, st'.refresh, a);
  }

  /** A call presents the next values, draws unused tags, and leaves the counter after them. */
  ghost predicate Spends(d: Option<Time>, usageOf: Tag -> u64, start: u64, n: nat, m: nat, st: Store, call: Call) {
    && Unused(d, st, call)
    && m == n + |Presented(st, call)| && Spent(usageOf, start, m, RedisCall(d, st, call).0)
    && (call.Issue? ==> Presented(st, call) == [At(start, n), At(start, n + 1)])
    && (call.Refresh? && call.key in st.refresh ==> Presented(st, call) == [At(start, n)])
  }

  lemma IssueCallSpends(d: Option<Time>, usageOf: Tag -> u64, start: u64, n: nat, st: Store, call: Call, g: Grant,
                        a: Tag, r: Tag)
    requires Spent(usageOf, start, n, st) && call.Issue? && n + 2 <= U64_SIZE
    requires g == SetDuration(d, call.now, call.grant)
    requires call.tagger(UsageOf(st), g) == Some(a) && usageOf(a) == UsageOf(st)
    requires call.tagger(WrappingAdd(UsageOf(st), 1), g) == Some(r) && usageOf(r) == WrappingAdd(UsageOf(st), 1)
    ensures Spends(d, usageOf, start, n, n + 2, st, call)
  {
    AtStep(start, n);
    IssueSpends(usageOf, start, n, st, g, a, r);
    RedisIssues(d, st, call.grant, call.now, call.tagger, a, r);
  }

  lemma RefreshCallSpends(d: Option<Time>, usageOf: Tag -> u64, start: u64, n: nat, st: Store,
                          key: Tag, grant: Grant, now: Time, tagger: Tagger, a: Tag)
    requires Spent(usageOf, start, n, st) && n + 1 <= U64_SIZE && key in st.refresh
    requires tagger(UsageOf(st), SetDuration(d, now, grant)) == Some(a) && usageOf(a) == UsageOf(st)
    ensures Spends(d, usageOf, start, n, n + 1, st, Refresh(key, grant, now, tagger))
  {
    var g := SetDuration(d, now, grant);
    var st' := AfterRefresh(st, key, a, g);
    assert a !in st.access && Spent(usageOf, start, n + 1, st') by { RefreshSpends(usageOf, start, n, st, key, g, a); }
    assert RedisCall(d, st, Refresh(key, grant, now, tagger)).0 == st' by {
      assert Linked(st, key);
      RedisRefreshes(d, st, key, grant, now, tagger, a);
    }
  }

  lemma CallSpends(d: Option<Time>, tag: TotalTagger, usageOf: Tag -> u64, start: u64, n: nat, st: Store, call: Call)
    requires Spent(usageOf, start, n, st) && Tells(tag, usageOf) && Tagged(tag, call)
    requires n + |Presented(st, call)| <= U64_SIZE
    ensures Spends(d, usageOf, start, n, n + |Presented(st, call)|, st, call)
  {
    match call {
      case Issue(grant, now, _) =>
        var g := SetDuration(d, now, grant);
        IssueCallSpends(d, usageOf, start, n, st, call, g, tag(UsageOf(st), g), tag(WrappingAdd(UsageOf(st), 1), g));
      case Refresh(key, grant, now, tagger) =>
        var g := SetDuration(d, now, grant);
        if key in st.refresh {
          RefreshCallSpends(d, usageOf, start, n, st, key, grant, now, tagger, tag(UsageOf(st), g));
        } else {
          RedisRefreshesNothing(d, st, key, grant, now, tagger);
        }
      case RecoverToken(key) => RecoverAnswers(d, st, key, 0);
      case RecoverRefresh(key) => RecoverAnswers(d, st, key, 0);
    }
  }

  type Drawer = (Store, Call) -> seq<Draw>

  function RedisDrawer(d: Option<Time>): Drawer {
    (st: Store, call: Call) => CallDraws(d, st, call)
  }

  /** Everything the tagger answers while one call follows the other. */
  function RunDraws(server: Server<Store>, drawer: Drawer, st: Store, calls: seq<Call>): seq<Draw>
    decreases |calls|
  {
    if calls == [] then []
    else drawer(st, calls[0]) + RunDraws(server, drawer, server(st, calls[0]).0, calls[1..])
  }

  ghost predicate AllTagged(tag: TotalTagger, calls: seq<Call>) {
    forall i :: 0 <= i < |calls| ==> Tagged(tag, calls[i])
  }

  /** Draw number `i` presented value number `n + i`, and its tag tells so. */
  predicate Consecutive(usageOf: Tag -> u64, start: u64, n: nat, draws: seq<Draw>) {
    forall i :: 0 <= i < |draws| ==> draws[i].usage == At(start, n + i) && usageOf(draws[i].tag) == draws[i].usage
  }

  lemma CallIsConsecutive(d: Option<Time>, tag: TotalTagger, usageOf: Tag -> u64, start: u64, n: nat, st: Store,
                          call: Call)
    requires Spent(usageOf, start, n, st) && Tells(tag, usageOf) && Tagged(tag, call)
    requires n + |CallDraws(d, st, call)| <= U64_SIZE
    ensures Consecutive(usageOf, start, n, CallDraws(d, st, call))
    ensures Unused(d, st, call) && Spent(usageOf, start, n + |CallDraws(d, st, call)|, RedisCall(d, st, call).0)
  {
    CallPresents(d, st, call, tag, usageOf);
    CallSpends(d, tag, usageOf, start, n, st, call);
    TwoConsecutive(usageOf, start, n, Presented(st, call), CallDraws(d, st, call));
  }

  lemma TwoConsecutive(usageOf: Tag -> u64, start: u64, n: nat, values: seq<u64>, draws: seq<Draw>)
    requires |draws| == |values| <= 2 && values <= [At(start, n), At(start, n + 1)]
    requires forall i :: 0 <= i < |draws| ==> draws[i].usage == values[i] && usageOf(draws[i].tag) == values[i]
    ensures Consecutive(usageOf, start, n, draws)
  {
    forall i | 0 <= i < |draws| ensures draws[i].usage == At(start, n + i) && usageOf(draws[i].tag) == draws[i].usage {
      assert i == 0 || i == 1;
    }
  }

  lemma NothingSpent(usageOf: Tag -> u64, st: Store)
    requires st.access == map[] && st.refresh == map[]
    ensures Spent(usageOf, UsageOf(st), 0, st)
  {
  }

  lemma ConsecutiveConcat(usageOf: Tag -> u64, start: u64, n: nat, first: seq<Draw>, rest: seq<Draw>)
    requires Consecutive(usageOf, start, n, first) && Consecutive(usageOf, start, n + |first|, rest)
    ensures Consecutive(usageOf, start, n, first + rest)
  {
    var all := first + rest;
    forall i | 0 <= i < |all| ensures all[i].usage == At(start, n + i) && usageOf(all[i].tag) == all[i].usage {
      if i >= |first| { assert all[i] == rest[i - |first|]; }
    }
  }

  /** Each call takes the next values, whatever came before. */
  ghost predicate TakesNext(d: Option<Time>, tag: TotalTagger, usageOf: Tag -> u64, start: u64, server: Server<Store>,
                            drawer: Drawer) {
    forall n: nat, st, call ::
      (Spent(usageOf, start, n, st) && Tagged(tag, call) && n + |drawer(st, call)| <= U64_SIZE) ==>
      && Consecutive(usageOf, start, n, drawer(st, call)) && Unused(d, st, call)
      && Spent(usageOf, start, n + |drawer(st, call)|, server(st, call).0)
  }

  lemma RedisTakesNext(d: Option<Time>, tag: TotalTagger, usageOf: Tag -> u64, start: u64)
    requires Tells(tag, usageOf)
    ensures TakesNext(d, tag, usageOf, start, OnRedis(d), RedisDrawer(d))
  {
    forall n: nat, st, call |
      Spent(usageOf, start, n, st) && Tagged(tag, call) && n + |RedisDrawer(d)(st, call)| <= U64_SIZE
      ensures Consecutive(usageOf, start, n, RedisDrawer(d)(st, call)) && Unused(d, st, call)
              && Spent(usageOf, start, n + |RedisDrawer(d)(st, call)|, OnRedis(d)(st, call).0)
    {
      CallIsConsecutive(d, tag, usageOf, start, n, st, call);
    }
  }

  lemma {:induction false} RunSpends(d: Option<Time>, tag: TotalTagger, usageOf: Tag -> u64, start: u64, n: nat,
                                     server: Server<Store>, drawer: Drawer, st: Store, calls: seq<Call>)
    requires TakesNext(d, tag, usageOf, start, server, drawer)
    requires Spent(usageOf, start, n, st) && AllTagged(tag, calls)
    requires n + |RunDraws(server, drawer, st, calls)| <= U64_SIZE
    ensures Consecutive(usageOf, start, n, RunDraws(server, drawer, st, calls))
    ensures UnusedThroughout(d, server, st, calls)
    decreases |calls|
  {
    if calls != [] {
      var first, st' := drawer(st, calls[0]), server(st, calls[0]).0;
      assert Tagged(tag, calls[0]);
      RunSpends(d, tag, usageOf, start, n + |first|, server, drawer, st', calls[1..]);
      ConsecutiveConcat(usageOf, start, n, first, RunDraws(server, drawer, st', calls[1..]));
    }
  }

  lemma ConsecutiveDiffer(usageOf: Tag -> u64, start: u64, draws: seq<Draw>, i: nat, j: nat)
    requires Consecutive(usageOf, start, 0, draws) && |draws| <= U64_SIZE && i < j < |draws|
    ensures draws[i].usage != draws[j].usage && draws[i].tag != draws[j].tag
  {
    if draws[i].usage == draws[j].usage { AtInjective(start, i, j); }
  }

  lemma RedisRunIsConsecutive(d: Option<Time>, tag: TotalTagger, usageOf: Tag -> u64, st: Store, calls: seq<Call>)
    requires st.access == map[] && st.refresh == map[] && Tells(tag, usageOf) && AllTagged(tag, calls)
    requires |RunDraws(OnRedis(d), RedisDrawer(d), st, calls)| <= U64_SIZE
    ensures Consecutive(usageOf, UsageOf(st), 0, RunDraws(OnRedis(d), RedisDrawer(d), st, calls))
    ensures UnusedThroughout(d, OnRedis(d), st, calls)
  {
    RedisTakesNext(d, tag, usageOf, UsageOf(st));
    NothingSpent(usageOf, st);
    RunSpends(d, tag, usageOf, UsageOf(st), 0, OnRedis(d), RedisDrawer(d), st, calls);
  }

  /**
   * From a store without entries and with any counter value, sequential calls that spend at most 2^64
   * tags never present the same usage value twice, so an injective tagger never repeats a tag.
   */
  lemma TagsNeverRepeat(d: Option<Time>, tag: TotalTagger, st: Store, calls: seq<Call>, i: nat, j: nat)
    requires st.access == map[] && st.refresh == map[] && UsageInjective(tag) && AllTagged(tag, calls)
    requires |RunDraws(OnRedis(d), RedisDrawer(d), st, calls)| <= U64_SIZE
    requires i < j < |RunDraws(OnRedis(d), RedisDrawer(d), st, calls)|
    ensures var draws := RunDraws(OnRedis(d), RedisDrawer(d), st, calls);
            draws[i].usage != draws[j].usage && draws[i].tag != draws[j].tag
  {
    var usageOf := InjectiveTells(tag);
    RedisRunIsConsecutive(d, tag, usageOf, st, calls);
    ConsecutiveDiffer(usageOf, UsageOf(st), RunDraws(OnRedis(d), RedisDrawer(d), st, calls), i, j);
  }

  /** So the refinement of the two-map store needs nothing but an injective tagger. */
  lemma InjectiveTaggerRefines(d: Option<Time>, tag: TotalTagger, calls: seq<Call>)
    requires UsageInjective(tag) && AllTagged(tag, calls)
    requires |RunDraws(OnRedis(d), RedisDrawer(d), EMPTY_STORE, calls)| <= U64_SIZE
    ensures Results(OnRedis(d), EMPTY_STORE, calls) == Results(InMemory(d), EMPTY_MEMORY, calls)
  {
    var usageOf := InjectiveTells(tag);
    RedisRunIsConsecutive(d, tag, usageOf, EMPTY_STORE, calls);
    RedisRefinesTwoMaps(d, calls);
  }

  // ------------------------------------------------------- the code counter

  datatype CodeCall = Authorize(grant: Grant) | Extract(code: Tag)

  function CodeServer(tag: TotalTagger, st: Store, call: CodeCall): (Store, Outcome) {
    match call
    case Authorize(grant) =>
      OutcomeOf(RunAlone(None, st, AuthorizeGetUsage(grant),
                         HealthyRun(3, 0, Some(tag(CodeUsageOf(st), grant)), None, 0)))
    case Extract(code) => OutcomeOf(RunAlone(None, st, ExtractHget(code), HealthyRun(2, 0, None, None, 0)))
  }

  lemma AuthorizeAnswers(tag: TotalTagger, st: Store, grant: Grant)
    requires CodeUsageOf(st) + 1 < U64_SIZE && tag(CodeUsageOf(st), grant) !in st.codes
    ensures var code := tag(CodeUsageOf(st), grant);
            CodeServer(tag, st, Authorize(grant))
            == (st.(codes := st.codes[code := grant], codeUsage := Some(CodeUsageOf(st) + 1)), CodeIssued(code))
  {
    AuthorizeSucceeds(st, grant, tag(CodeUsageOf(st), grant), CodeUsageOf(st) + 1);
  }

  /** The counter at its last value: `next_usage - 1` underflows. */
  lemma AuthorizeOverflows(tag: TotalTagger, st: Store, grant: Grant)
    requires CodeUsageOf(st) == U64_SIZE - 1
    ensures CodeServer(tag, st, Authorize(grant)) == (st, Panicked(ArithmeticOverflow))
  {
    var cs := HealthyRun(3, 0, Some(tag(CodeUsageOf(st), grant)), None, 0);
    UnrollCode(None, st, AuthorizeGetUsage(grant), cs, 0, st, Done(Panicked(ArithmeticOverflow)));
  }

  lemma ExtractAnswers(tag: TotalTagger, st: Store, code: Tag)
    ensures CodeServer(tag, st, Extract(code))
            == (st.(codes := st.codes - {code}), Extracted(code, if code in st.codes then Some(st.codes[code])
                                                           else None))
  {
    if code in st.codes {
      ExtractSucceeds(st, code, 0);
    } else {
      UnrollCode(None, st, ExtractHget(code), HealthyRun(2, 0, None, None, 0), 0, st, Done(Extracted(code, None)));
      assert st.codes - {code} == st.codes;
    }
  }

  /** One code map in memory, the reference: the counter only grows, and each code is usable once. */
  datatype CodeBook = CodeBook(codes: map<Tag, Grant>, usage: u64)

  function BookCall(tag: TotalTagger, b: CodeBook, call: CodeCall): (CodeBook, Outcome) {
    match call
    case Authorize(grant) =>
      if b.usage == U64_SIZE - 1 then (b, Panicked(ArithmeticOverflow))
      else
        var code := tag(b.usage, grant);
        (CodeBook(b.codes[code := grant], b.usage + 1), CodeIssued(code))
    case Extract(code) =>
      (b.(codes := b.codes - {code}), Extracted(code, if code in b.codes then Some(b.codes[code]) else None))
  }

  function CodeResults(tag: TotalTagger, st: Store, calls: seq<CodeCall>): seq<Outcome>
    decreases |calls|
  {
    if calls == [] then []
    else
      var (st', outcome) := CodeServer(tag, st, calls[0]);
      [outcome] + CodeResults(tag, st', calls[1..])
  }

  function BookResults(tag: TotalTagger, b: CodeBook, calls: seq<CodeCall>): (r: seq<Outcome>)
    ensures |r| == |calls|
    decreases |calls|
  {
    if calls == [] then []
    else
      var (b', outcome) := BookCall(tag, b, calls[0]);
      [outcome] + BookResults(tag, b', calls[1..])
  }

  /** Live codes were made with smaller counter values. */
  ghost predicate SameBook(usageOf: Tag -> u64, st: Store, b: CodeBook) {
    st.codes == b.codes && CodeUsageOf(st) == b.usage && forall k :: k in b.codes ==> usageOf(k) < b.usage
  }

  lemma CodeCallMatches(tag: TotalTagger, usageOf: Tag -> u64, st: Store, b: CodeBook, call: CodeCall)
    requires Tells(tag, usageOf) && SameBook(usageOf, st, b)
    ensures var (st', o) := CodeServer(tag, st, call);
            var (b', p) := BookCall(tag, b, call);
            o == p && SameBook(usageOf, st', b')
  {
    match call {
      case Authorize(grant) =>
        if b.usage == U64_SIZE - 1 { AuthorizeOverflows(tag, st, grant); } else { AuthorizeAnswers(tag, st, grant); }
      case Extract(code) => ExtractAnswers(tag, st, code);
    }
  }

  lemma {:induction false} CodeRunsMatch(tag: TotalTagger, usageOf: Tag -> u64, st: Store, b: CodeBook,
                                         calls: seq<CodeCall>)
    requires Tells(tag, usageOf) && SameBook(usageOf, st, b)
    ensures CodeResults(tag, st, calls) == BookResults(tag, b, calls)
    decreases |calls|
  {
    if calls != [] {
      CodeCallMatches(tag, usageOf, st, b, calls[0]);
      CodeRunsMatch(tag, usageOf, CodeServer(tag, st, calls[0]).0, BookCall(tag, b, calls[0]).0, calls[1..]);
    }
  }

  /** No authorization repeats an earlier code, however many calls are made. */
  lemma {:induction false} CodesNeverRepeat(tag: TotalTagger, usageOf: Tag -> u64, b: CodeBook, calls: seq<CodeCall>,
                                            i: nat, j: nat)
    requires Tells(tag, usageOf) && i < j < |calls| && BookResults(tag, b, calls)[i].CodeIssued?
    requires BookResults(tag, b, calls)[j].CodeIssued?
    ensures BookResults(tag, b, calls)[i] != BookResults(tag, b, calls)[j]
    decreases |calls|
  {
    var b' := BookCall(tag, b, calls[0]).0;
    if i > 0 {
      CodesNeverRepeat(tag, usageOf, b', calls[1..], i - 1, j - 1);
    } else {
      CodesAboveCounter(tag, usageOf, b', calls[1..], j - 1);
    }
  }

  lemma {:induction false} CodesAboveCounter(tag: TotalTagger, usageOf: Tag -> u64, b: CodeBook, calls: seq<CodeCall>,
                                             j: nat)
    requires Tells(tag, usageOf) && j < |calls| && BookResults(tag, b, calls)[j].CodeIssued?
    ensures usageOf(BookResults(tag, b, calls)[j].code) >= b.usage
    decreases |calls|
  {
    if j > 0 {
      CodesAboveCounter(tag, usageOf, BookCall(tag, b, calls[0]).0, calls[1..], j - 1);
    }
  }

  /**
   * `AuthMap` on Redis, one call after the other: it answers like the code book, and with an injective
   * tagger all codes differ. It stops with a panic when the counter is exhausted, never by wrapping.
   */
  lemma AuthMapRefinesCodeBook(tag: TotalTagger, st: Store, calls: seq<CodeCall>)
    requires UsageInjective(tag) && st.codes == map[]
    ensures CodeResults(tag, st, calls) == BookResults(tag, CodeBook(map[], CodeUsageOf(st)), calls)
    ensures forall i, j :: (0 <= i < j < |CodeResults(tag, st, calls)|
                            && CodeResults(tag, st, calls)[i].CodeIssued? && CodeResults(tag, st, calls)[j].CodeIssued?)
                           ==> CodeResults(tag, st, calls)[i] != CodeResults(tag, st, calls)[j]
  {
    var usageOf := InjectiveTells(tag);
    var b := CodeBook(map[], CodeUsageOf(st));
    CodeRunsMatch(tag, usageOf, st, b, calls);
    forall i, j | 0 <= i < j < |calls| && BookResults(tag, b, calls)[i].CodeIssued?
        && BookResults(tag, b, calls)[j].CodeIssued?
      ensures BookResults(tag, b, calls)[i] != BookResults(tag, b, calls)[j]
    {
      CodesNeverRepeat(tag, usageOf, b, calls, i, j);
    }
  }
}
