/**
 * The cross links between the two token hashes at every command boundary of every interleaving in which tags
 * never repeat, and the lock that deleting a refresh entry is.
 */
module TokenIndex {
  import opened Prelude
  import opened Grants
  import opened Stores
  import opened Interleaving

  // ------------------------------------------------- what a running call claims

  /**
   * The part of a call's local state that matters to the others. `r` is a refresh tag and `token` the
   * token the call carries for it.
   */
  datatype Claim =
    | Nothing
    | Reader(r: Tag, token: Token)                    // has read refresh[r], perhaps stale by now
    | Locked(r: Tag, token: Token)                    // has deleted refresh[r]
    | Replacing(r: Tag, token: Token, drawn: Tag)     // and drawn a new access tag
    | Arriving(r: Tag, token: Token)                  // about to write the token to the access hash
    | Seated(r: Tag, token: Token)                    // has written it, refresh[r] comes next
    | Importing(drawn: Tag)
  {
    /** The refresh tag this call alone may insert next. */
    function Holds(): Option<Tag> {
      if Locked? || Replacing? || Arriving? || Seated? then Some(r) else None
    }

    /** The access tag this call alone may insert next. */
    function Draws(): Option<Tag> {
      if Replacing? || Importing? then Some(drawn)
      else if Arriving? then Some(token.access)
      else None
    }
  }

  function ClaimOf(op: Op): Claim {
    match op
    case IssueHsetAccess(key, token, _) => Arriving(key, token)
    case IssueHsetRefresh(key, token, _) => Seated(key, token)
    case RefreshHdelRefresh(key, _, token) => Reader(key, token)
    case RefreshGetUsage(key, _, token) => Locked(key, token)
    case RefreshHgetAccess(key, _, token, tag, _) => Replacing(key, token, tag)
    case RefreshHdelAccess(key, _, token, tag, _, _) => Replacing(key, token, tag)
    case RefreshHsetAccess(key, token, _) => Arriving(key, token)
    case RefreshHsetRefresh(key, token, _) => Seated(key, token)
    case ImportHset(key, _) => Importing(key)
    case _ => Nothing
  }

  type Claims = map<Pid, Claim>

  function ClaimsOf(ops: map<Pid, Op>): Claims {
    map p | p in ops :: ClaimOf(ops[p])
  }

  // ---------------------------------------------------------------- invariant

  predicate Names(token: Token, r: Tag) { token.refresh == Some(r) }

  /** The token that was minted under its access tag, belonging to refresh tag `r`. */
  predicate Known(minted: map<Tag, Token>, r: Tag, token: Token) {
    token.access in minted && minted[token.access] == token && Names(token, r)
  }

  /** Every refresh entry is backed by the very same token in the access hash. */
  predicate RefreshBacked(st: Store) {
    forall r :: r in st.refresh ==>
                  st.refresh[r].access in st.access && st.access[st.refresh[r].access] == st.refresh[r]
  }

  /** No two live access entries name the same refresh tag. */
  predicate UniqueNames(st: Store) {
    forall j, k :: (j in st.access && k in st.access && st.access[j].refresh.Some?
                    && st.access[j].refresh == st.access[k].refresh) ==> j == k
  }

  predicate Unnamed(st: Store, r: Tag) {
    forall k :: k in st.access ==> !Names(st.access[k], r)
  }

  predicate StoreOk(st: Store, minted: map<Tag, Token>, spent: set<Tag>) {
    && (forall k :: k in st.access ==> k in minted && st.access[k] == minted[k])
    && (forall k :: k in minted ==>
          && k in spent && minted[k].access == k
          && (minted[k].refresh.Some? ==> minted[k].refresh.value in spent))
    && (forall r :: r in st.refresh ==> r in spent && Known(minted, r, st.refresh[r]))
    && RefreshBacked(st)
    && UniqueNames(st)
  }

  predicate ClaimOk(st: Store, c: Claim, minted: map<Tag, Token>, spent: set<Tag>) {
    && (c.Holds().Some? ==> c.r in spent && c.r !in st.refresh)
    && (c.Draws().Some? ==> c.Draws().value in spent && c.Draws().value !in minted)
    && (c.Reader? || c.Locked? || c.Replacing? || c.Seated? ==> Known(minted, c.r, c.token))
    && (c.Arriving? ==> Names(c.token, c.r) && Unnamed(st, c.r))
    && (c.Seated? ==> c.token.access in st.access)
  }

  predicate Apart(a: Claim, b: Claim) {
    && (a.Holds().Some? ==> a.Holds() != b.Holds())
    && (a.Draws().Some? ==> a.Draws() != b.Draws())
  }

  predicate Indexed(st: Store, cs: Claims, minted: map<Tag, Token>, spent: set<Tag>) {
    && StoreOk(st, minted, spent)
    && (forall p :: p in cs ==> ClaimOk(st, cs[p], minted, spent))
    && (forall p, q :: p in cs && q in cs && p != q ==> Apart(cs[p], cs[q]))
  }

  predicate IndexInv(s: Sys) {
    Indexed(s.store, ClaimsOf(s.ops), s.minted, s.spentTokens)
  }

  // ----------------------------------------------------------------- the moves

  /** Only call `p` moved; everything it still claims it claimed before. */
  lemma Reassemble(st: Store, cs: Claims, minted: map<Tag, Token>, spent: set<Tag>,
                   p: Pid, c: Claim, st': Store, minted': map<Tag, Token>, spent': set<Tag>)
    requires Indexed(st, cs, minted, spent) && p in cs
    requires StoreOk(st', minted', spent') && ClaimOk(st', c, minted', spent')
    requires forall q :: q in cs && q != p ==> ClaimOk(st', cs[q], minted', spent')
    requires c.Holds().Some? ==> c.Holds() == cs[p].Holds()
    requires c.Draws().Some? ==> c.Draws() == cs[p].Draws()
    ensures Indexed(st', cs[p := c], minted', spent')
  {
    forall q | q in cs && q != p ensures Apart(c, cs[q]) && Apart(cs[q], c) {
      assert Apart(cs[p], cs[q]) && Apart(cs[q], cs[p]);
    }
  }

  /** A call gives up its claim. */
  lemma Retire(st: Store, cs: Claims, minted: map<Tag, Token>, spent: set<Tag>, p: Pid, st': Store, spent': set<Tag>)
    requires Indexed(st, cs, minted, spent)
    requires st'.access == st.access && st'.refresh == st.refresh && spent <= spent'
    ensures Indexed(st', cs[p := Nothing], minted, spent')
  {
  }

  /** `issue` draws two fresh tags. */
  lemma Reserve(st: Store, cs: Claims, minted: map<Tag, Token>, spent: set<Tag>, p: Pid, r: Tag, token: Token)
    requires Indexed(st, cs, minted, spent) && Names(token, r)
    requires token.access !in spent && r !in spent
    ensures Indexed(st, cs[p := Arriving(r, token)], minted, spent + {token.access, r})
  {
  }

  lemma Import(st: Store, cs: Claims, minted: map<Tag, Token>, spent: set<Tag>, p: Pid, key: Tag)
    requires Indexed(st, cs, minted, spent) && key !in spent
    ensures Indexed(st, cs[p := Importing(key)], minted, spent + {key})
  {
  }

  lemma Read(st: Store, cs: Claims, minted: map<Tag, Token>, spent: set<Tag>, p: Pid, r: Tag)
    requires Indexed(st, cs, minted, spent) && r in st.refresh
    ensures Indexed(st, cs[p := Reader(r, st.refresh[r])], minted, spent)
  {
  }

  lemma Draw(st: Store, cs: Claims, minted: map<Tag, Token>, spent: set<Tag>, p: Pid, tag: Tag)
    requires Indexed(st, cs, minted, spent) && p in cs && cs[p].Locked? && tag !in spent
    ensures Indexed(st, cs[p := Replacing(cs[p].r, cs[p].token, tag)], minted, spent + {tag})
  {
  }

  /** Only a present entry can be deleted, and then nobody else holds its tag. */
  lemma Lock(st: Store, cs: Claims, minted: map<Tag, Token>, spent: set<Tag>, p: Pid, c: Claim)
    requires Indexed(st, cs, minted, spent) && p in cs && cs[p].Reader? && cs[p].r in st.refresh
    requires c == Nothing || c == Locked(cs[p].r, cs[p].token)
    ensures Indexed(st.(refresh := st.refresh - {cs[p].r}), cs[p := c], minted, spent)
  {
    var st' := st.(refresh := st.refresh - {cs[p].r});
    assert StoreOk(st', minted, spent);
    forall q | q in cs && q != p
      ensures ClaimOk(st', cs[q], minted, spent) && Apart(c, cs[q]) && Apart(cs[q], c)
    {
      assert ClaimOk(st, cs[q], minted, spent);
    }
    assert ClaimOk(st, cs[p], minted, spent);
  }

  /** Deleting an access entry whose refresh tag is held by the deleting call. */
  lemma DeleteFromStore(st: Store, minted: map<Tag, Token>, spent: set<Tag>, token: Token, r: Tag)
    requires StoreOk(st, minted, spent) && Known(minted, r, token) && token.access in st.access
    requires r !in st.refresh
    ensures StoreOk(st.(access := st.access - {token.access}), minted, spent)
    ensures Unnamed(st.(access := st.access - {token.access}), r)
  {
    assert st.access[token.access] == token;
  }

  lemma DeleteForOther(st: Store, minted: map<Tag, Token>, spent: set<Tag>, token: Token, r: Tag, c: Claim)
    requires ClaimOk(st, c, minted, spent) && Known(minted, r, token) && c.Holds() != Some(r)
    ensures ClaimOk(st.(access := st.access - {token.access}), c, minted, spent)
  {
  }

  /** Deleting the old access entry leaves its refresh tag unnamed, and breaks no other pair. */
  lemma Replace(st: Store, cs: Claims, minted: map<Tag, Token>, spent: set<Tag>, p: Pid, c: Claim, grant: Grant)
    requires Indexed(st, cs, minted, spent) && p in cs && cs[p].Replacing? && cs[p].token.access in st.access
    requires c == Nothing || c == Arriving(cs[p].r, cs[p].token.(access := cs[p].drawn, grant := grant))
    ensures Indexed(st.(access := st.access - {cs[p].token.access}), cs[p := c], minted, spent)
  {
    var st' := st.(access := st.access - {cs[p].token.access});
    assert ClaimOk(st, cs[p], minted, spent);
    DeleteFromStore(st, minted, spent, cs[p].token, cs[p].r);
    forall q | q in cs && q != p ensures ClaimOk(st', cs[q], minted, spent) {
      assert Apart(cs[q], cs[p]);
      DeleteForOther(st, minted, spent, cs[p].token, cs[p].r, cs[q]);
    }
    Reassemble(st, cs, minted, spent, p, c, st', minted, spent);
  }

  /** Writing an access entry under a tag never written before, naming a refresh tag nobody names. */
  lemma WriteToStore(st: Store, minted: map<Tag, Token>, spent: set<Tag>, token: Token)
    requires StoreOk(st, minted, spent) && token.access in spent && token.access !in minted
    requires token.refresh.Some? ==> token.refresh.value in spent && Unnamed(st, token.refresh.value)
    ensures StoreOk(st.(access := st.access[token.access := token]), minted[token.access := token], spent)
  {
  }

  lemma WriteForOther(st: Store, minted: map<Tag, Token>, spent: set<Tag>, token: Token, c: Claim)
    requires ClaimOk(st, c, minted, spent) && token.access !in minted && c.Draws() != Some(token.access)
    requires token.refresh.Some? ==> c.Holds() != token.refresh
    ensures ClaimOk(st.(access := st.access[token.access := token]), c, minted[token.access := token], spent)
  {
  }

  lemma Arrive(st: Store, cs: Claims, minted: map<Tag, Token>, spent: set<Tag>, p: Pid, token: Token, c: Claim)
    requires Indexed(st, cs, minted, spent) && p in cs
    requires (cs[p].Arriving? && cs[p].token == token) || (cs[p] == Importing(token.access) && token.refresh.None?)
    requires c == Nothing || (cs[p].Arriving? && c == Seated(cs[p].r, token))
    ensures Indexed(st.(access := st.access[token.access := token]), cs[p := c], minted[token.access := token], spent)
  {
    var st' := st.(access := st.access[token.access := token]);
    var minted' := minted[token.access := token];
    assert ClaimOk(st, cs[p], minted, spent);
    WriteToStore(st, minted, spent, token);
    forall q | q in cs && q != p ensures ClaimOk(st', cs[q], minted', spent) {
      assert Apart(cs[p], cs[q]);
      WriteForOther(st, minted, spent, token, cs[q]);
    }
    Reassemble(st, cs, minted, spent, p, c, st', minted', spent);
  }

  /** Publishing the refresh entry of a token that already sits in the access hash. */
  lemma Publish(st: Store, cs: Claims, minted: map<Tag, Token>, spent: set<Tag>, p: Pid)
    requires Indexed(st, cs, minted, spent) && p in cs && cs[p].Seated?
    ensures Indexed(st.(refresh := st.refresh[cs[p].r := cs[p].token]), cs[p := Nothing], minted, spent)
  {
    var st' := st.(refresh := st.refresh[cs[p].r := cs[p].token]);
    assert ClaimOk(st, cs[p], minted, spent);
    assert StoreOk(st', minted, spent);
    forall q | q in cs && q != p ensures ClaimOk(st', cs[q], minted, spent) {
      assert Apart(cs[q], cs[p]);
    }
    Reassemble(st, cs, minted, spent, p, Nothing, st', minted, spent);
  }

  // -------------------------------------------------- every command is a move

  lemma ClaimsUpdate(ops: map<Pid, Op>, p: Pid, op: Op)
    ensures ClaimsOf(ops[p := op]) == ClaimsOf(ops)[p := ClaimOf(op)]
  {
  }

  datatype Move =
    Quitting | Staying | Reserving | Reading | Locking | Drawing | Removing | Writing(token: Token) | Publishing

  /** What one command does to the token hashes, and to the claim of its call. */
  predicate Performs(m: Move, st: Store, c: Claim, e: Effect) {
    var c' := ClaimOf(e.op);
    && (!m.Writing? ==> |e.events| == 1 ==> !e.events[0].Minted?)
    && (!m.Quitting? && !m.Reserving? && !m.Drawing? ==> e.tokenDraws == [])
    && match m
       case Quitting => c' == Nothing && e.store.access == st.access && e.store.refresh == st.refresh
       case Staying => c' == c && e.store == st
       case Reserving =>
         && e.store == st && |e.tokenDraws| == 2 && c'.Arriving? && Names(c'.token, c'.r)
         && c'.token.access == e.tokenDraws[0].tag && c'.r == e.tokenDraws[1].tag
       case Reading => e.store == st && c'.Reader? && c'.r in st.refresh && c'.token == st.refresh[c'.r]
       case Locking =>
         && c.Reader? && c.r in st.refresh && e.store == st.(refresh := st.refresh - {c.r})
         && (c' == Nothing || c' == Locked(c.r, c.token))
       case Drawing =>
         c.Locked? && e.store == st && |e.tokenDraws| == 1 && c' == Replacing(c.r, c.token, e.tokenDraws[0].tag)
       case Removing =>
         && c.Replacing? && c.token.access in st.access && e.store == st.(access := st.access - {c.token.access})
         && (c' == Nothing || (c'.Arriving? && c' == Arriving(c.r,
                                                              c.token.(access := c.drawn, grant := c'.token.grant))))
       case Writing(token) =>
         && e.events == [Minted(token)] && e.store == st.(access := st.access[token.access := token])
         && ((c.Arriving? && c.token == token) || (c == Importing(token.access) && token.refresh.None?))
         && (c' == Nothing || (c.Arriving? && c' == Seated(c.r, token)))
       case Publishing => c.Seated? && c' == Nothing && e.store == st.(refresh := st.refresh[c.r := c.token])
  }

  lemma IssueCommandIsAMove(st: Store, op: Op, c: Choice) returns (m: Move)
    requires IsIssue(op)
    ensures Performs(m, st, ClaimOf(op), IssueStep(st, op, c))
  {
    match op {
      case IssueGetUsage(_) => m := if IssueStep(st, op, c).op.Done? then Quitting else Reserving;
      case IssueHsetAccess(_, token, _) => m := if c.fault.Executed() then Writing(token) else Quitting;
      case IssueHsetRefresh(_, _, _) => m := if c.fault.Executed() then Publishing else Quitting;
      case IssueSetUsage(_, _, _) => m := Quitting;
    }
  }

  lemma RefreshCommandIsAMove(duration: Option<Time>, st: Store, op: Op, c: Choice) returns (m: Move)
    requires IsRefresh(op)
    ensures Performs(m, st, ClaimOf(op), RefreshStep(duration, st, op, c))
  {
    var next := RefreshStep(duration, st, op, c).op;
    match op {
      case RefreshHgetRefresh(_, _) => m := if next.Done? then Quitting else Reading;
      case RefreshHdelRefresh(key, _, _) =>
        assert key in st.refresh || st.refresh - {key} == st.refresh;
        m := if c.fault.Executed() && key in st.refresh then Locking else Quitting;
      case RefreshGetUsage(_, _, _) => m := if next.Done? then Quitting else Drawing;
      case RefreshHgetAccess(_, _, _, _, _) => m := if next.Done? then Quitting else Staying;
      case RefreshHdelAccess(_, _, token, _, _, _) =>
        assert token.access in st.access || st.access - {token.access} == st.access;
        m := if c.fault.Executed() && token.access in st.access then Removing else Quitting;
      case RefreshHsetAccess(_, token, _) => m := if c.fault.Executed() then Writing(token) else Quitting;
      case RefreshHsetRefresh(_, _, _) => m := if c.fault.Executed() then Publishing else Quitting;
      case RefreshSetUsage(_, _, _) => m := Quitting;
    }
  }

  lemma CodeCommandIsAMove(st: Store, op: Op, c: Choice)
    requires IsCode(op)
    ensures Performs(Quitting, st, ClaimOf(op), CodeStep(st, op, c))
  {
  }

  lemma EveryCommandIsAMove(duration: Option<Time>, st: Store, op: Op, c: Choice) returns (m: Move)
    ensures Performs(m, st, ClaimOf(op), OpStep(duration, st, op, c))
  {
    if IsIssue(op) {
      m := IssueCommandIsAMove(st, op, c);
    } else if IsRefresh(op) {
      m := RefreshCommandIsAMove(duration, st, op, c);
    } else if IsCode(op) {
      m := Quitting;
      CodeCommandIsAMove(st, op, c);
    } else {
      m := if op.ImportHset? && c.fault.Executed() then Writing(Token(op.key, None, op.grant)) else Quitting;
    }
  }

  lemma MoveKeepsIndex(m: Move, st: Store, cs: Claims, minted: map<Tag, Token>, spent: set<Tag>, p: Pid, e: Effect)
    requires Indexed(st, cs, minted, spent) && p in cs && Performs(m, st, cs[p], e)
    requires FreshDraws(e.tokenDraws, spent)
    ensures Indexed(e.store, cs[p := ClaimOf(e.op)], Mint(minted, e.events), spent + Tags(e.tokenDraws))
  {
    var c := ClaimOf(e.op);
    var draws := e.tokenDraws;
    assert draws == [] ==> spent + Tags(draws) == spent;
    match m {
      case Quitting => Retire(st, cs, minted, spent, p, e.store, spent + Tags(draws));
      case Staying => assert cs[p := c] == cs;
      case Reserving =>
        assert Tags(draws) == {draws[0].tag, draws[1].tag};
        Reserve(st, cs, minted, spent, p, c.r, c.token);
      case Reading => Read(st, cs, minted, spent, p, c.r);
      case Locking => Lock(st, cs, minted, spent, p, c);
      case Drawing =>
        assert Tags(draws) == {draws[0].tag};
        Draw(st, cs, minted, spent, p, draws[0].tag);
      case Removing => Replace(st, cs, minted, spent, p, c, if c.Arriving? then c.token.grant else cs[p].token.grant);
      case Writing(token) => Arrive(st, cs, minted, spent, p, token, c);
      case Publishing => Publish(st, cs, minted, spent, p);
    }
  }

  lemma CommandKeepsIndex(duration: Option<Time>, s: Sys, p: Pid, c: Choice)
    requires IndexInv(s) && p in s.ops && FreshStep(duration, s, Exec(p, c))
    ensures IndexInv(ExecStep(duration, s, p, c))
  {
    var e := OpStep(duration, s.store, s.ops[p], c);
    ClaimsUpdate(s.ops, p, e.op);
    var m := EveryCommandIsAMove(duration, s.store, s.ops[p], c);
    MoveKeepsIndex(m, s.store, ClaimsOf(s.ops), s.minted, s.spentTokens, p, e);
  }

  lemma StartKeepsIndex(s: Sys, p: Pid, op: Op)
    requires IndexInv(s) && CanStart(s, p, op)
    requires op.ImportHset? ==> op.key !in s.spentTokens
    ensures IndexInv(StartStep(s, p, op))
  {
    ClaimsUpdate(s.ops, p, op);
    if op.ImportHset? {
      Import(s.store, ClaimsOf(s.ops), s.minted, s.spentTokens, p, op.key);
    } else {
      Retire(s.store, ClaimsOf(s.ops), s.minted, s.spentTokens, p, s.store, s.spentTokens);
    }
  }

  lemma CrashKeepsIndex(s: Sys, p: Pid)
    requires IndexInv(s)
    ensures IndexInv(s.(ops := s.ops[p := Done(Failed)]))
  {
    ClaimsUpdate(s.ops, p, Done(Failed));
    Retire(s.store, ClaimsOf(s.ops), s.minted, s.spentTokens, p, s.store, s.spentTokens);
  }

  lemma StepKeepsIndex(duration: Option<Time>, s: Sys, l: Label)
    requires IndexInv(s) && FreshStep(duration, s, l)
    ensures IndexInv(Step(duration, s, l))
  {
    match l {
      case Start(p, op) => if CanStart(s, p, op) { StartKeepsIndex(s, p, op); }
      case Exec(p, c) => if p in s.ops { CommandKeepsIndex(duration, s, p, c); }
      case Crash(p) => CrashKeepsIndex(s, p);
    }
  }

  // -------------------------------------------------------------- whole runs

  lemma {:induction false} RunKeepsIndex(duration: Option<Time>, s: Sys, ls: seq<Label>)
    requires IndexInv(s) && FreshRun(duration, s, ls)
    ensures IndexInv(Run(duration, s, ls))
    decreases |ls|
  {
    if ls != [] {
      StepKeepsIndex(duration, s, ls[0]);
      RunKeepsIndex(duration, Step(duration, s, ls[0]), ls[1..]);
    }
  }

  /**
   * In every state of every interleaved, faulty run with non-repeating tags, each refresh entry is
   * backed by the same token in the access hash and no refresh tag is named twice.
   */
  lemma TokenHashesStayLinked(duration: Option<Time>, s: Sys, ls: seq<Label>)
    requires Init(s) && FreshRun(duration, s, ls)
    ensures RefreshBacked(Run(duration, s, ls).store)
    ensures UniqueNames(Run(duration, s, ls).store)
  {
    RunKeepsIndex(duration, s, ls);
  }

  /** Calls that removed the refresh entry `r`, or drew `r`, and have neither returned nor inserted it. */
  function LockHolders(s: Sys, r: Tag): set<Pid> {
    set p | p in s.ops && ClaimOf(s.ops[p]).Holds() == Some(r)
  }

  lemma AtMostOne(ps: set<Pid>)
    requires forall p, q :: p in ps && q in ps ==> p == q
    ensures |ps| <= 1
  {
    if ps != {} {
      var p :| p in ps;
      assert ps == {p};
    }
  }

  /** HDEL on the refresh hash is a lock: holders of `r`, plus one if `r` is present, never exceed one. */
  lemma RefreshTagIsALock(duration: Option<Time>, s: Sys, ls: seq<Label>, r: Tag)
    requires Init(s) && FreshRun(duration, s, ls)
    ensures var t := Run(duration, s, ls);
            |LockHolders(t, r)| + (if r in t.store.refresh then 1 else 0) <= 1
  {
    RunKeepsIndex(duration, s, ls);
    var t := Run(duration, s, ls);
    var cs := ClaimsOf(t.ops);
    forall p, q | p in LockHolders(t, r) && q in LockHolders(t, r) ensures p == q {
      assert p in cs && q in cs;
      assert p == q || Apart(cs[p], cs[q]);
    }
    AtMostOne(LockHolders(t, r));
    assert forall p :: p in LockHolders(t, r) ==> p in cs && ClaimOk(t.store, cs[p], t.minted, t.spentTokens);
    assert r in t.store.refresh ==> LockHolders(t, r) == {};
  }
}
