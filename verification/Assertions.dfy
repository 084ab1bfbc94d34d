/** Signed tokens that carry their grant (primitives/generator.rs, `TokenSigner` in primitives/issuer.rs). */
module Assertions {
  import opened Prelude
  import opened Scopes
  import opened Grants
  import S = Stores

  type Bytes = seq<bv8>

  /** The grant as it is serialised: text, whole seconds, and public extensions only. */
  datatype SerdeGrant = SerdeGrant(
    owner: string,
    client: string,
    scope: string,
    redirect: string,
    until: int,
    publicExtensions: map<string, Option<string>>)

  datatype Claims = Claims(counter: u64, grant: SerdeGrant, tag: string)

  /**
   * MessagePack, base64, HMAC with the signing key, url parsing and the order in which a hash set is
   * printed: arbitrary functions, of which only the laws below are used.
   */
  datatype Suite = Suite(
    packClaims: Claims -> Bytes,
    unpackClaims: Bytes -> Option<Claims>,
    packCounted: (SerdeGrant, u64) -> Bytes,
    packAssert: (Bytes, Bytes) -> Bytes,
    unpackAssert: Bytes -> Option<(Bytes, Bytes)>,
    encode: Bytes -> string,
    decode: string -> Option<Bytes>,
    hmac: Bytes -> Bytes,
    parseUrl: string -> Option<Url>,
    order: Scope -> seq<string>)

  /** Decoding undoes encoding; nothing is assumed about the HMAC. */
  ghost predicate Lawful(s: Suite) {
    && (forall c :: s.unpackClaims(s.packClaims(c)) == Some(c))
    && (forall a, b :: s.unpackAssert(s.packAssert(a, b)) == Some((a, b)))
    && (forall b :: s.decode(s.encode(b)) == Some(b))
    && (forall scope :: Enumerates(s.order(scope), scope))
  }

  /** The url was made by the parser, so its text parses to it again. */
  predicate Parsed(s: Suite, url: Url) {
    s.parseUrl(url.text) == Some(url)
  }

  // -------------------------------------------------------------- wire format

  predicate HasPrivate(grant: Grant) {
    exists k :: k in grant.extensions && grant.extensions[k].Private?
  }

  function Serialised(s: Suite, grant: Grant): SerdeGrant {
    SerdeGrant(grant.owner, grant.client, Join(s.order(grant.scope)), grant.redirect.text, grant.until / SECOND,
               map k | k in grant.extensions :: grant.extensions[k].content)
  }

  /** `SerdeAssertionGrant::try_from`: refuse private extensions, copy the public ones one by one. */
  method TryFrom(s: Suite, grant: Grant) returns (r: Option<SerdeGrant>)
    ensures r == if HasPrivate(grant) then None else Some(Serialised(s, grant))
  {
    if exists k :: k in grant.extensions && grant.extensions[k].Private? {
      return None;
    }
    var public: map<string, Option<string>> := map[];
    var todo := grant.extensions.Keys;
    while todo != {}
      invariant todo <= grant.extensions.Keys && public.Keys == grant.extensions.Keys - todo
      invariant forall k :: k in public ==> public[k] == grant.extensions[k].content
      decreases todo
    {
      var k :| k in todo;
      public := public[k := grant.extensions[k].content];
      todo := todo - {k};
    }
    var serialised := SerdeGrant(grant.owner, grant.client, Join(s.order(grant.scope)), grant.redirect.text,
                                 grant.until / SECOND, public);
    assert serialised.publicExtensions == Serialised(s, grant).publicExtensions;
    return Some(serialised);
  }

  function Deserialised(s: Suite, g: SerdeGrant): Option<Grant> {
    match (Parse(g.scope), s.parseUrl(g.redirect))
    case (Ok(scope), Some(url)) =>
      Some(Grant(g.owner, g.client, scope, url, g.until * SECOND,
                 map k | k in g.publicExtensions :: Public(g.publicExtensions[k])))
    case _ => None
  }

  /** `SerdeAssertionGrant::grant`: put the public extensions back one by one. */
  method IntoGrant(s: Suite, g: SerdeGrant) returns (r: Option<Grant>)
    ensures r == Deserialised(s, g)
    ensures r.Some? <==> Parse(g.scope).Ok? && s.parseUrl(g.redirect).Some?
    ensures r.Some? ==>
              && r.value.owner == g.owner && r.value.client == g.client && r.value.until == g.until * SECOND
              && Ok(r.value.scope) == Parse(g.scope) && Some(r.value.redirect) == s.parseUrl(g.redirect)
              && r.value.extensions.Keys == g.publicExtensions.Keys
              && forall k :: k in g.publicExtensions ==> r.value.extensions[k] == Public(g.publicExtensions[k])
  {
    var scope, url := Parse(g.scope), s.parseUrl(g.redirect);
    if scope.Err? || url.None? { return None; }
    var extensions: Extensions := map[];
    var todo := g.publicExtensions.Keys;
    while todo != {}
      invariant todo <= g.publicExtensions.Keys && extensions.Keys == g.publicExtensions.Keys - todo
      invariant forall k :: k in extensions ==> extensions[k] == Public(g.publicExtensions[k])
      decreases todo
    {
      var k :| k in todo;
      extensions := extensions[k := Public(g.publicExtensions[k])];
      todo := todo - {k};
    }
    assert extensions == map k | k in g.publicExtensions :: Public(g.publicExtensions[k]);
    return Some(Grant(g.owner, g.client, scope.value, url.value, g.until * SECOND, extensions));
  }

  /** The expiry cut to whole seconds. */
  function Floored(grant: Grant): Grant {
    grant.(until := grant.until / SECOND * SECOND)
  }

  /** The wire format keeps everything but fractions of a second, exactly for well-formed scopes. */
  lemma WireRoundTrip(s: Suite, grant: Grant)
    requires Lawful(s) && !HasPrivate(grant) && Parsed(s, grant.redirect)
    ensures Deserialised(s, Serialised(s, grant)) == Some(Floored(grant)) <==> WellFormed(grant.scope)
    ensures Floored(grant).until <= grant.until < Floored(grant).until + SECOND
  {
    var g := Serialised(s, grant);
    RoundTripIffWellFormed(grant.scope, s.order(grant.scope));
    assert (map k | k in g.publicExtensions :: Public(g.publicExtensions[k])) == grant.extensions by {
      assert forall k :: k in grant.extensions ==> Public(grant.extensions[k].content) == grant.extensions[k];
    }
  }

  // --------------------------------------------------------- sign and extract

  function Sign(s: Suite, counter: u64, grant: Grant, tag: string): Option<string> {
    if HasPrivate(grant) then None
    else
      var data := s.packClaims(Claims(counter, Serialised(s, grant), tag));
      Some(s.encode(s.packAssert(data, s.hmac(data))))
  }

  /** Checks the signature, then returns the grant and the tag it was signed for. */
  function ExtractAny(s: Suite, token: string): Option<(Grant, string)> {
    match s.decode(token)
    case None => None
    case Some(bytes) =>
      match s.unpackAssert(bytes)
      case None => None
      case Some((data, signature)) =>
        if signature != s.hmac(data) then None
        else
          match s.unpackClaims(data)
          case None => None
          case Some(claims) =>
            match Deserialised(s, claims.grant)
            case None => None
            case Some(grant) => Some((grant, claims.tag))
  }

  function Extract(s: Suite, token: string, tag: string): Option<Grant> {
    match ExtractAny(s, token)
    case Some((grant, found)) => if found == tag then Some(grant) else None
    case None => None
  }

  lemma ExtractSigned(s: Suite, counter: u64, grant: Grant, tag: string)
    requires Lawful(s) && !HasPrivate(grant)
    ensures var found := ExtractAny(s, Sign(s, counter, grant, tag).value);
            var back := Deserialised(s, Serialised(s, grant));
            found == if back.Some? then Some((back.value, tag)) else None
  {
    var claims := Claims(counter, Serialised(s, grant), tag);
    var data := s.packClaims(claims);
    var bytes := s.packAssert(data, s.hmac(data));
    assert s.decode(s.encode(bytes)) == Some(bytes);
    assert s.unpackAssert(bytes) == Some((data, s.hmac(data)));
    assert s.unpackClaims(data) == Some(claims);
  }

  /** Extracting with the same tag gives back the grant to the second; any other tag is rejected. */
  lemma SignThenExtract(s: Suite, counter: u64, grant: Grant, tag: string, other: string)
    requires Lawful(s) && !HasPrivate(grant) && Parsed(s, grant.redirect)
    ensures Extract(s, Sign(s, counter, grant, tag).value, tag) == Some(Floored(grant)) <==> WellFormed(grant.scope)
    ensures other != tag ==> Extract(s, Sign(s, counter, grant, tag).value, other) == None
  {
    ExtractSigned(s, counter, grant, tag);
    WireRoundTrip(s, grant);
  }

  /** The string decodes to claims together with their own HMAC, and the claims carry this grant and this tag. */
  ghost predicate SignedFor(s: Suite, token: string, tag: string, grant: Grant) {
    exists bytes, data, claims ::
      && s.decode(token) == Some(bytes) && s.unpackAssert(bytes) == Some((data, s.hmac(data)))
      && s.unpackClaims(data) == Some(claims) && claims.tag == tag && Deserialised(s, claims.grant) == Some(grant)
  }

  /** Whatever string is offered, a grant comes out exactly if it is properly signed for this tag. */
  lemma AcceptedIffSigned(s: Suite, token: string, tag: string, grant: Grant)
    ensures Extract(s, token, tag) == Some(grant) <==> SignedFor(s, token, tag, grant)
  {
    if Extract(s, token, tag) == Some(grant) {
      var bytes := s.decode(token).value;
      var data := s.unpackAssert(bytes).value.0;
      var claims := s.unpackClaims(data).value;
      assert s.unpackAssert(bytes) == Some((data, s.hmac(data)));
    }
  }

  /** Whatever string is offered, a grant that comes out has public extensions only. */
  lemma ExtractedIsPublic(s: Suite, token: string, tag: string)
    ensures Extract(s, token, tag).Some? ==> !HasPrivate(Extract(s, token, tag).value)
  {
  }

  /**
   * Signing refuses no more than it must: it fails exactly for the grants that no string whatsoever, under no
   * tag, could carry, and these are the ones with private data.
   */
  lemma SignFailsIffUncarriable(s: Suite, counter: u64, grant: Grant, tag: string)
    requires Lawful(s) && Parsed(s, grant.redirect) && WellFormed(grant.scope)
    ensures Sign(s, counter, grant, tag).None?
            <==> forall token, other :: Extract(s, token, other) != Some(Floored(grant))
    ensures Sign(s, counter, grant, tag).None? <==> exists k :: k in grant.extensions && grant.extensions[k].Private?
  {
    if HasPrivate(grant) {
      assert HasPrivate(Floored(grant));
      forall token, other ensures Extract(s, token, other) != Some(Floored(grant)) {
        ExtractedIsPublic(s, token, other);
      }
    } else {
      SignThenExtract(s, counter, grant, tag, tag);
    }
  }

  /** No string whatsoever, signed here or made up, is accepted under two tags. */
  lemma OneTagPerToken(s: Suite, token: string, tag: string, other: string)
    requires Extract(s, token, tag).Some? && Extract(s, token, other).Some?
    ensures tag == other
  {
  }

  /** Tokens that differ in counter or tag differ. */
  lemma SignIsInjective(s: Suite, c: u64, g: Grant, t: string, c': u64, g': Grant, t': string)
    requires Lawful(s) && !HasPrivate(g) && !HasPrivate(g')
    requires Sign(s, c, g, t) == Sign(s, c', g', t')
    ensures c == c' && t == t' && Serialised(s, g) == Serialised(s, g')
  {
    var x, y := Claims(c, Serialised(s, g), t), Claims(c', Serialised(s, g'), t');
    var dx, dy := s.packClaims(x), s.packClaims(y);
    assert s.decode(s.encode(s.packAssert(dx, s.hmac(dx)))) == Some(s.packAssert(dx, s.hmac(dx)));
    assert s.decode(s.encode(s.packAssert(dy, s.hmac(dy)))) == Some(s.packAssert(dy, s.hmac(dy)));
    assert s.unpackAssert(s.packAssert(dx, s.hmac(dx))) == Some((dx, s.hmac(dx)));
    assert s.unpackAssert(s.packAssert(dy, s.hmac(dy))) == Some((dy, s.hmac(dy)));
    assert s.unpackClaims(dx) == Some(x) && s.unpackClaims(dy) == Some(y);
  }

  // ------------------------------------------------------------- token signer

  datatype Issued = Issued(token: string, refresh: Option<string>, until: Time)

  class TokenSigner {
    const suite: Suite
    var duration: Option<Time>
    var counter: u64
    var haveRefresh: bool

    constructor (suite: Suite)
      ensures this.suite == suite && duration == None && counter == 0 && !haveRefresh
    {
      this.suite := suite;
      duration, counter, haveRefresh := None, 0, false;
    }

    method ValidFor(d: Time)
      modifies this`duration
      ensures duration == Some(d)
    {
      duration := Some(d);
    }

    method GenerateRefreshTokens(refresh: bool)
      modifies this`haveRefresh
      ensures haveRefresh == refresh
    {
      haveRefresh := refresh;
    }

    method NextCounter() returns (value: u64)
      modifies this`counter
      ensures value == old(counter) && counter == WrappingAdd(old(counter), 1)
    {
      value := counter;
      counter := WrappingAdd(counter, 1);
    }

    /** Counters are spent even when signing fails. */
    method Issue(grant: Grant, now: Time) returns (r: Option<Issued>)
      modifies this`counter
      ensures counter == WrappingAdd(old(counter), if haveRefresh then 2 else 1)
      ensures var g := S.SetDuration(duration, now, grant);
              r == if HasPrivate(g) then None
                   else Some(Issued(Sign(suite, old(counter), g, "token").value,
                                    if haveRefresh then Sign(suite, WrappingAdd(old(counter), 1), g, "refresh")
                                        else None,
                                    g.until))
    {
      var g := S.SetDuration(duration, now, grant);
      if haveRefresh {
        var first := NextCounter();
        var second := NextCounter();
        var token := Sign(suite, first, g, "token");
        if token.None? { return None; }
        var refresh := Sign(suite, second, g, "refresh");
        if refresh.None? { return None; }
        r := Some(Issued(token.value, refresh, g.until));
      } else {
        var first := NextCounter();
        var token := Sign(suite, first, g, "token");
        if token.None? { return None; }
        r := Some(Issued(token.value, None, g.until));
      }
    }

    method RecoverToken(token: string) returns (grant: Option<Grant>)
      ensures grant == Extract(suite, token, "token")
    {
      grant := Extract(suite, token, "token");
    }

    method RecoverRefresh(token: string) returns (grant: Option<Grant>)
      ensures grant == if haveRefresh then Extract(suite, token, "refresh") else None
    {
      if !haveRefresh { return None; }
      grant := Extract(suite, token, "refresh");
    }
  }

  // ------------------------------------------------------ threads on one signer

  /** One `issue` call: what it signs, and the counter values it has drawn so far. */
  datatype Issuing = Issuing(grant: Grant, withRefresh: bool, drawn: seq<u64>)

  /** The shared counter and any number of calls; `log` remembers who drew, for which of its tokens. */
  datatype Signer = Signer(counter: u64, calls: map<nat, Issuing>, log: seq<(nat, nat)>)

  /** A call begins, or takes its next counter value in one atomic step. */
  datatype SignerStep = Begin(id: nat, grant: Grant, withRefresh: bool) | DrawCounter(id: nat)

  function Needed(call: Issuing): nat {
    if call.withRefresh then 2 else 1
  }

  function AfterStep(signer: Signer, step: SignerStep): Signer {
    match step
    case Begin(id, grant, withRefresh) =>
      if id in signer.calls then signer
      else signer.(calls := signer.calls[id := Issuing(grant, withRefresh, [])])
    case DrawCounter(id) =>
      if id in signer.calls && |signer.calls[id].drawn| < Needed(signer.calls[id]) then
        var call := signer.calls[id];
        Signer(WrappingAdd(signer.counter, 1), signer.calls[id := call.(drawn := call.drawn + [signer.counter])],
               signer.log + [(id, |call.drawn|)])
      else signer
  }

  function AfterSteps(signer: Signer, steps: seq<SignerStep>): Signer
    decreases |steps|
  {
    if steps == [] then signer else AfterSteps(AfterStep(signer, steps[0]), steps[1..])
  }

  /** The access token is number 0 of a call, the refresh token number 1. */
  function TokenOf(s: Suite, call: Issuing, i: nat): Option<string>
    requires i < |call.drawn|
  {
    Sign(s, call.drawn[i], call.grant, if i == 0 then "token" else "refresh")
  }

  /** Value `i` of call `id` was drawn by it, at the position the log says. */
  ghost predicate Logged(start: u64, log: seq<(nat, nat)>, id: nat, i: nat, value: u64) {
    exists j: nat :: j < |log| && log[j] == (id, i) && value == At(start, j)
  }

  ghost predicate DrawnAsLogged(start: u64, signer: Signer) {
    && signer.counter == At(start, |signer.log|)
    && forall id: nat, i: nat :: id in signer.calls && i < |signer.calls[id].drawn| ==>
         Logged(start, signer.log, id, i, signer.calls[id].drawn[i])
  }

  lemma LoggedGrows(start: u64, log: seq<(nat, nat)>, entry: (nat, nat), id: nat, i: nat, value: u64)
    requires Logged(start, log, id, i, value)
    ensures Logged(start, log + [entry], id, i, value)
  {
    var j: nat :| j < |log| && log[j] == (id, i) && value == At(start, j);
    assert (log + [entry])[j] == (id, i);
  }

  lemma StepKeepsLog(start: u64, signer: Signer, step: SignerStep)
    requires DrawnAsLogged(start, signer)
    ensures DrawnAsLogged(start, AfterStep(signer, step))
  {
    var after := AfterStep(signer, step);
    if after.log != signer.log {
      var entry := (step.id, |signer.calls[step.id].drawn|);
      assert after.log == signer.log + [entry] && after.log[|signer.log|] == entry;
      forall id: nat, i: nat | id in after.calls && i < |after.calls[id].drawn|
        ensures Logged(start, after.log, id, i, after.calls[id].drawn[i])
      {
        if (id, i) != entry { LoggedGrows(start, signer.log, entry, id, i, signer.calls[id].drawn[i]); }
      }
    }
  }

  lemma {:induction false} StepsKeepLog(start: u64, signer: Signer, steps: seq<SignerStep>)
    requires DrawnAsLogged(start, signer)
    ensures DrawnAsLogged(start, AfterSteps(signer, steps))
    decreases |steps|
  {
    if steps != [] {
      StepKeepsLog(start, signer, steps[0]);
      StepsKeepLog(start, AfterStep(signer, steps[0]), steps[1..]);
    }
  }

  /**
   * However many threads issue at once, and however their steps interleave: up to 2^64 signatures of one
   * signer, access and refresh tokens together, are all different.
   */
  lemma SignaturesDiffer(s: Suite, start: u64, steps: seq<SignerStep>, p: nat, i: nat, q: nat, k: nat)
    requires Lawful(s) && |AfterSteps(Signer(start, map[], []), steps).log| <= U64_SIZE && (p != q || i != k)
    requires var calls := AfterSteps(Signer(start, map[], []), steps).calls;
             p in calls && i < |calls[p].drawn| && q in calls && k < |calls[q].drawn|
    ensures var calls := AfterSteps(Signer(start, map[], []), steps).calls;
            TokenOf(s, calls[p], i).Some? ==> TokenOf(s, calls[p], i) != TokenOf(s, calls[q], k)
  {
    StepsKeepLog(start, Signer(start, map[], []), steps);
    var t := AfterSteps(Signer(start, map[], []), steps);
    var a, b := t.calls[p], t.calls[q];
    if TokenOf(s, a, i).Some? && TokenOf(s, a, i) == TokenOf(s, b, k) {
      SignIsInjective(s, a.drawn[i], a.grant, if i == 0 then "token" else "refresh",
                      b.drawn[k], b.grant, if k == 0 then "token" else "refresh");
      var j: nat :| j < |t.log| && t.log[j] == (p, i) && a.drawn[i] == At(start, j);
      var l: nat :| l < |t.log| && t.log[l] == (q, k) && b.drawn[k] == At(start, l);
      AtInjective(start, j, l);
    }
  }

  /** A call that runs alone draws the values that `TokenSigner.Issue` signs with. */
  lemma IssueAlone(signer: Signer, id: nat, grant: Grant, withRefresh: bool)
    requires id !in signer.calls
    ensures var t := AfterSteps(signer, [Begin(id, grant, withRefresh), DrawCounter(id), DrawCounter(id)]);
            && t.counter == WrappingAdd(signer.counter, if withRefresh then 2 else 1) && id in t.calls
            && t.calls[id].drawn
               == [signer.counter] + if withRefresh then [WrappingAdd(signer.counter, 1)] else []
  {
    var steps := [Begin(id, grant, withRefresh), DrawCounter(id), DrawCounter(id)];
    var s1 := AfterStep(signer, steps[0]);
    var s2 := AfterStep(s1, steps[1]);
    var s3 := AfterStep(s2, steps[2]);
    assert steps[1..] == [DrawCounter(id), DrawCounter(id)] && steps[1..][1..] == [DrawCounter(id)]
        && steps[1..][1..][1..] == [];
    assert AfterSteps(s2, [DrawCounter(id)]) == s3 by { assert [DrawCounter(id)][1..] == []; }
    assert AfterSteps(s1, steps[1..]) == s3;
  }

  /** What a signer issues comes back, and only as what it was issued for. */
  lemma IssuedTokensComeBack(s: Suite, counter: u64, grant: Grant)
    requires Lawful(s) && !HasPrivate(grant) && Parsed(s, grant.redirect) && WellFormed(grant.scope)
    ensures var token, refresh := Sign(s, counter, grant,
                                       "token").value, Sign(s, WrappingAdd(counter, 1), grant, "refresh").value;
            && Extract(s, token, "token") == Some(Floored(grant)) && Extract(s, token, "refresh") == None
            && Extract(s, refresh, "refresh") == Some(Floored(grant)) && Extract(s, refresh, "token") == None
            && token != refresh
  {
    assert "token"[0] != "refresh"[0];
    SignThenExtract(s, counter, grant, "token", "refresh");
    SignThenExtract(s, WrappingAdd(counter, 1), grant, "refresh", "token");
  }

  /** In no state of any signer is a string both an access token and a refresh token. */
  lemma NeverBothKinds(s: Suite, token: string)
    ensures Extract(s, token, "token").None? || Extract(s, token, "refresh").None?
  {
    assert "token"[0] != "refresh"[0];
    if Extract(s, token, "token").Some? && Extract(s, token, "refresh").Some? {
      OneTagPerToken(s, token, "token", "refresh");
    }
  }

  // -------------------------------------------------------- assertion as tagger

  function CountedSignature(s: Suite, counter: u64, grant: Grant): Option<string> {
    if HasPrivate(grant) then None else Some(s.encode(s.hmac(s.packCounted(Serialised(s, grant), counter))))
  }

  /** An idealisation: packing, HMAC and encoding never give the same result for different inputs. */
  ghost predicate Distinguishing(s: Suite) {
    && (forall g, u, h, v :: s.packCounted(g, u) == s.packCounted(h, v) ==> g == h && u == v)
    && (forall a, b :: s.hmac(a) == s.hmac(b) ==> a == b)
    && (forall a, b :: s.encode(a) == s.encode(b) ==> a == b)
  }

  /** Then the counter can be told from the signature, and so can everything that is serialised of the grant. */
  lemma CountedSignatureTells(s: Suite, u: u64, g: Grant, v: u64, h: Grant)
    requires Distinguishing(s) && CountedSignature(s, u, g).Some?
    ensures CountedSignature(s, u, g) == CountedSignature(s, v, h) ==> u == v && Serialised(s, g) == Serialised(s, h)
  {
    if CountedSignature(s, u, g) == CountedSignature(s, v, h) {
      var a, b := s.packCounted(Serialised(s, g), u), s.packCounted(Serialised(s, h), v);
      assert s.encode(s.hmac(a)) == s.encode(s.hmac(b));
      assert s.hmac(a) == s.hmac(b);
    }
  }

  /**
   * An assertion cannot tag a grant with private data, which is what the proof key extension stores:
   * with it as tagger, `authorize` and `issue` fail for such a grant and change nothing.
   */
  lemma PrivateDataCannotBeTagged(s: Suite, st: S.Store, grant: Grant, c: S.Choice, counter: u64)
    requires HasPrivate(grant) && c.first == CountedSignature(s, counter, grant)
    ensures S.CodeStep(st, S.AuthorizeGetUsage(grant), c).op.Done?
    ensures !S.CodeStep(st, S.AuthorizeGetUsage(grant), c).op.outcome.CodeIssued?
    ensures S.CodeStep(st, S.AuthorizeGetUsage(grant), c).store == st
    ensures S.IssueStep(st, S.IssueGetUsage(grant), c) == S.Quiet(st, S.Done(S.Failed))
  {
  }
}
