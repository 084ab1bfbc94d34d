/**
 * Proof key for code exchange, and the addon list that carries its data from the authorization
 * request to the token request (code_grant/extensions/pkce.rs, frontends/simple/extensions).
 */
module PkceAddons {
  import opened Prelude
  import opened Grants
  import Auth = AuthorizationMachine
  import Token = AccessTokenMachine

  // ------------------------------------------------------------------- pkce

  datatype Pkce = Pkce(required: bool, allowPlain: bool)

  datatype Method = Plain(challenge: string) | Sha256(challenge: string)

  /** Base64 of SHA-256; any function will do. */
  type Digest = string -> string

  function FromParameter(name: string, challenge: string): Option<Method> {
    if name == "plain" then Some(Plain(challenge))
    else if name == "S256" then Some(Sha256(challenge))
    else None
  }

  function AssertSupported(m: Method, allowPlain: bool): Option<Method> {
    if allowPlain || m.Sha256? then Some(m) else None
  }

  function Encode(m: Method): string {
    match m
    case Plain(challenge) => challenge + "p"
    case Sha256(challenge) => challenge + "S"
  }

  function Decode(encoded: string): Option<Method> {
    if encoded == "" then None
    else
      var rest, last := encoded[..|encoded| - 1], encoded[|encoded| - 1];
      if last == 'p' then Some(Plain(rest)) else if last == 'S' then Some(Sha256(rest)) else None
  }

  lemma DecodeEncode(m: Method)
    ensures Decode(Encode(m)) == Some(m)
  {
    assert Encode(m)[..|Encode(m)| - 1] == m.challenge;
  }

  predicate MethodVerifies(digest: Digest, m: Method, verifier: string) {
    match m
    case Plain(challenge) => challenge == verifier
    case Sha256(challenge) => challenge == digest(verifier)
  }

  /** `challenge`: `Err` refuses the request, `Ok(None)` stores nothing. */
  function Challenge(pkce: Pkce, name: Option<string>, challenge: Option<string>): Result<Option<Value>, Unit> {
    match challenge
    case None => if pkce.required then Err(Unit) else Ok(None)
    case Some(text) =>
      match FromParameter(if name.Some? then name.value else "plain", text)
      case None => Err(Unit)
      case Some(m) =>
        match AssertSupported(m, pkce.allowPlain)
        case None => Err(Unit)
        case Some(supported) => Ok(Some(Private(Some(Encode(supported)))))
  }

  function Verify(digest: Digest, pkce: Pkce, data: Option<Value>, verifier: Option<string>): bool {
    match (data, verifier)
    case (None, _) => !pkce.required
    case (Some(_), None) => false
    case (Some(value), Some(text)) =>
      if value.Private? && value.content.Some? then
        var m := Decode(value.content.value);
        m.Some? && MethodVerifies(digest, m.value, text)
      else false
  }

  /**
   * The verify step on any stored data: only private data that the challenge step may have written for this very
   * verifier passes; without data it passes where no challenge is required.
   */
  lemma VerifyIff(digest: Digest, pkce: Pkce, data: Option<Value>, verifier: Option<string>)
    ensures Verify(digest, pkce, data, verifier)
            <==> if data.None? then !pkce.required
                 else && verifier.Some?
                      && (|| data.value == Private(Some(verifier.value + "p"))
                          || data.value == Private(Some(digest(verifier.value) + "S")))
  {
    if data.Some? && verifier.Some? {
      DecodeEncode(Plain(verifier.value));
      DecodeEncode(Sha256(digest(verifier.value)));
      if data.value.content.Some? { EncodeDecode(data.value.content.value); }
    }
  }

  lemma EncodeDecode(encoded: string)
    ensures Decode(encoded).Some? ==> Encode(Decode(encoded).value) == encoded
  {
    if encoded != "" { assert encoded == encoded[..|encoded| - 1] + [encoded[|encoded| - 1]]; }
  }

  // ----------------------------------------------------------------- addons

  datatype AddonResult = Fine | Data(value: Value) | Refuse

  /** The pkce addon, or any other addon under its own identifier. */
  datatype Addon =
    | PkceAddon(pkce: Pkce)
    | OtherAddon(
        id: string,
        onAuthorization: Auth.Request -> AddonResult,
        onToken: (Token.Request, Option<Value>) -> AddonResult)
  {
    function Identifier(): string {
      if PkceAddon? then "pkce" else id
    }
  }

  function AuthParameter(request: Auth.Request, key: string): Option<string> {
    if key in request.extension then Some(request.extension[key]) else None
  }

  function ExecuteAuthorization(addon: Addon, request: Auth.Request): AddonResult {
    match addon
    case OtherAddon(_, f, _) => f(request)
    case PkceAddon(pkce) =>
      match Challenge(pkce, AuthParameter(request, "code_challenge_method"), AuthParameter(request, "code_challenge"))
      case Err(_) => Refuse
      case Ok(None) => Fine
      case Ok(Some(value)) => Data(value)
  }

  function ExecuteToken(digest: Digest, addon: Addon, request: Token.Request, data: Option<Value>): AddonResult {
    match addon
    case OtherAddon(_, _, f) => f(request, data)
    case PkceAddon(pkce) =>
      if Verify(digest, pkce, data, Token.Parameter(request, "code_verifier")) then Fine else Refuse
  }

  function Get(data: Extensions, key: string): Option<Value> {
    if key in data then Some(data[key]) else None
  }

  function Put(data: Extensions, addon: Addon, result: AddonResult): Extensions {
    if result.Data? then data[addon.Identifier() := result.value] else data
  }

  /** The data gathered from the first `n` addons, or a refusal. */
  function AuthorizationData(addons: seq<Addon>, request: Auth.Request, n: nat): Option<Extensions>
    requires n <= |addons|
  {
    if n == 0 then Some(map[])
    else
      var before := AuthorizationData(addons, request, n - 1);
      var result := ExecuteAuthorization(addons[n - 1], request);
      if before.None? || result.Refuse? then None else Some(Put(before.value, addons[n - 1], result))
  }

  /** What is left of `data` after the first `n` addons each took theirs. */
  function Remaining(addons: seq<Addon>, data: Extensions, n: nat): Extensions
    requires n <= |addons|
  {
    if n == 0 then data else Remaining(addons, data, n - 1) - {addons[n - 1].Identifier()}
  }

  function TokenData(digest: Digest, addons: seq<Addon>, request: Token.Request, data: Extensions,
                     n: nat): Option<Extensions>
    requires n <= |addons|
  {
    if n == 0 then Some(map[])
    else
      var before := TokenData(digest, addons, request, data, n - 1);
      var own := Get(Remaining(addons, data, n - 1), addons[n - 1].Identifier());
      var result := ExecuteToken(digest, addons[n - 1], request, own);
      if before.None? || result.Refuse? then None else Some(Put(before.value, addons[n - 1], result))
  }

  // ------------------------------------------------ what the loops come to, by index

  function AuthorizationAnswers(addons: seq<Addon>, request: Auth.Request): (answers: seq<AddonResult>)
    ensures |answers| == |addons|
    ensures forall i :: 0 <= i < |addons| ==> answers[i] == ExecuteAuthorization(addons[i], request)
  {
    seq(|addons|, i requires 0 <= i < |addons| => ExecuteAuthorization(addons[i], request))
  }

  /** The stored data goes to the first addon with its identifier; the others see nothing. */
  function SeenBy(addons: seq<Addon>, data: Extensions, i: nat): Option<Value>
    requires i < |addons|
  {
    var k := addons[i].Identifier();
    if k in data && forall j :: 0 <= j < i ==> addons[j].Identifier() != k then Some(data[k]) else None
  }

  function TokenAnswers(digest: Digest, addons: seq<Addon>, request: Token.Request,
                        data: Extensions): (answers: seq<AddonResult>)
    ensures |answers| == |addons|
    ensures forall i :: 0 <= i < |addons| ==>
              answers[i] == ExecuteToken(digest, addons[i], request, SeenBy(addons, data, i))
  {
    seq(|addons|, i requires 0 <= i < |addons| => ExecuteToken(digest, addons[i], request, SeenBy(addons, data, i)))
  }

  /** Of the first `n` addons, the one at `i` is the last under identifier `k` to answer with data. */
  predicate LastData(addons: seq<Addon>, answers: seq<AddonResult>, n: nat, k: string, i: nat)
    requires n <= |addons| == |answers|
  {
    && i < n && addons[i].Identifier() == k && answers[i].Data?
    && forall j :: i < j < n && addons[j].Identifier() == k ==> !answers[j].Data?
  }

  /**
   * What the first `n` answers come to: a refusal if one of them is; else under each identifier the last data
   * answered for it, and nothing under any other key.
   */
  ghost predicate Gathered(addons: seq<Addon>, answers: seq<AddonResult>, n: nat, result: Option<Extensions>)
    requires n <= |addons| == |answers|
  {
    && (result.None? <==> exists i :: 0 <= i < n && answers[i].Refuse?)
    && (result.Some? ==>
          && (forall k, i: nat :: LastData(addons, answers, n, k, i) ==>
                k in result.value && result.value[k] == answers[i].value)
          && (forall k :: k in result.value ==> exists i: nat :: LastData(addons, answers, n, k, i)))
  }

  lemma GatherOne(addons: seq<Addon>, answers: seq<AddonResult>, n: nat, before: Option<Extensions>,
                  after: Option<Extensions>)
    requires n < |addons| == |answers| && Gathered(addons, answers, n, before)
    requires after == if before.None? || answers[n].Refuse? then None
                      else Some(Put(before.value, addons[n], answers[n]))
    ensures Gathered(addons, answers, n + 1, after)
  {
    if after.Some? {
      var id, m := addons[n].Identifier(), n + 1;
      forall k | k in after.value ensures exists i: nat :: LastData(addons, answers, m, k, i) {
        if k == id && answers[n].Data? {
          assert LastData(addons, answers, m, k, n);
        } else {
          var i: nat :| LastData(addons, answers, n, k, i);
          assert LastData(addons, answers, m, k, i);
        }
      }
      forall k, i: nat | LastData(addons, answers, m, k, i)
        ensures k in after.value && after.value[k] == answers[i].value
      {
        if i < n { assert LastData(addons, answers, n, k, i); }
      }
    }
  }

  lemma {:induction false} AuthorizationGathers(addons: seq<Addon>, request: Auth.Request, n: nat)
    requires n <= |addons|
    ensures Gathered(addons, AuthorizationAnswers(addons, request), n, AuthorizationData(addons, request, n))
  {
    if n > 0 {
      AuthorizationGathers(addons, request, n - 1);
      GatherOne(addons, AuthorizationAnswers(addons, request), n - 1, AuthorizationData(addons, request, n - 1),
                AuthorizationData(addons, request, n));
    }
  }

  lemma {:induction false} RemainingIff(addons: seq<Addon>, data: Extensions, n: nat, k: string)
    requires n <= |addons|
    ensures var left := Remaining(addons, data, n);
            && (k in left <==> k in data && forall j :: 0 <= j < n ==> addons[j].Identifier() != k)
            && (k in left ==> left[k] == data[k])
  {
    if n > 0 { RemainingIff(addons, data, n - 1, k); }
  }

  lemma {:induction false} TokenGathers(digest: Digest, addons: seq<Addon>, request: Token.Request, data: Extensions,
                                        n: nat)
    requires n <= |addons|
    ensures Gathered(addons, TokenAnswers(digest, addons, request, data), n,
                     TokenData(digest, addons, request, data, n))
  {
    if n > 0 {
      TokenGathers(digest, addons, request, data, n - 1);
      RemainingIff(addons, data, n - 1, addons[n - 1].Identifier());
      GatherOne(addons, TokenAnswers(digest, addons, request, data), n - 1,
                TokenData(digest, addons, request, data, n - 1), TokenData(digest, addons, request, data, n));
    }
  }

  lemma DistinctGather(addons: seq<Addon>, answers: seq<AddonResult>, result: Extensions, i: nat)
    requires i < |addons| == |answers| && Gathered(addons, answers, |addons|, Some(result))
    requires forall j :: 0 <= j < |addons| && j != i ==> addons[j].Identifier() != addons[i].Identifier()
    ensures var k := addons[i].Identifier();
            && !answers[i].Refuse? && (k in result <==> answers[i].Data?)
            && (k in result ==> result[k] == answers[i].value)
  {
    if answers[i].Data? { assert LastData(addons, answers, |addons|, addons[i].Identifier(), i); }
  }

  /** An addon that shares its identifier with none is asked with its own stored data, and its answer is kept. */
  lemma DistinctAddonsKeepTheirs(digest: Digest, addons: seq<Addon>, request: Token.Request, data: Extensions, i: nat)
    requires i < |addons| && TokenData(digest, addons, request, data, |addons|).Some?
    requires forall j :: 0 <= j < |addons| && j != i ==> addons[j].Identifier() != addons[i].Identifier()
    ensures var k := addons[i].Identifier();
            var answer := ExecuteToken(digest, addons[i], request, if k in data then Some(data[k]) else None);
            var result := TokenData(digest, addons, request, data, |addons|).value;
            && !answer.Refuse? && (k in result <==> answer.Data?) && (k in result ==> result[k] == answer.value)
  {
    TokenGathers(digest, addons, request, data, |addons|);
    DistinctGather(addons, TokenAnswers(digest, addons, request, data),
                   TokenData(digest, addons, request, data, |addons|).value, i);
  }

  datatype Addons = Addons(authorization: seq<Addon>, accessToken: seq<Addon>)

  function ExtendAuthorization(addons: Addons, request: Auth.Request): Option<Extensions> {
    AuthorizationData(addons.authorization, request, |addons.authorization|)
  }

  function ExtendToken(digest: Digest, addons: Addons, request: Token.Request, data: Extensions): Option<Extensions> {
    TokenData(digest, addons.accessToken, request, data, |addons.accessToken|)
  }

  /** `AddonList`: two vectors that grow, and two loops over them. */
  class AddonList {
    var authorization: seq<Addon>
    var accessToken: seq<Addon>

    function Value(): Addons
      reads this
    {
      Addons(authorization, accessToken)
    }

    constructor ()
      ensures Value() == Addons([], [])
    {
      authorization, accessToken := [], [];
    }

    method PushAuthorization(addon: Addon)
      modifies this
      ensures Value() == Addons(old(authorization) + [addon], old(accessToken))
    {
      authorization := authorization + [addon];
    }

    method PushAccessToken(addon: Addon)
      modifies this
      ensures Value() == Addons(old(authorization), old(accessToken) + [addon])
    {
      accessToken := accessToken + [addon];
    }

    method PushCode(addon: Addon)
      modifies this
      ensures Value() == Addons(old(authorization) + [addon], old(accessToken) + [addon])
    {
      authorization := authorization + [addon];
      accessToken := accessToken + [addon];
    }

    method RunAuthorization(request: Auth.Request) returns (result: Option<Extensions>)
      ensures result == ExtendAuthorization(Value(), request)
      ensures Gathered(authorization, AuthorizationAnswers(authorization, request), |authorization|, result)
    {
      var data: Extensions := map[];
      for i := 0 to |authorization|
        invariant AuthorizationData(authorization, request, i) == Some(data)
      {
        var addon := authorization[i];
        match ExecuteAuthorization(addon, request) {
          case Fine =>
          case Data(value) => data := data[addon.Identifier() := value];
          case Refuse =>
            RefusedAuthorization(authorization, request, i + 1, |authorization|);
            AuthorizationGathers(authorization, request, |authorization|);
            return None;
        }
      }
      AuthorizationGathers(authorization, request, |authorization|);
      return Some(data);
    }

    method RunToken(digest: Digest, request: Token.Request, input: Extensions) returns (result: Option<Extensions>)
      ensures result == ExtendToken(digest, Value(), request, input)
      ensures Gathered(accessToken, TokenAnswers(digest, accessToken, request, input), |accessToken|, result)
    {
      var data := input;
      var gathered: Extensions := map[];
      for i := 0 to |accessToken|
        invariant data == Remaining(accessToken, input, i)
        invariant TokenData(digest, accessToken, request, input, i) == Some(gathered)
      {
        var addon := accessToken[i];
        var own := Get(data, addon.Identifier());
        data := data - {addon.Identifier()};
        match ExecuteToken(digest, addon, request, own) {
          case Fine =>
          case Data(value) => gathered := gathered[addon.Identifier() := value];
          case Refuse =>
            RefusedToken(digest, accessToken, request, input, i + 1, |accessToken|);
            TokenGathers(digest, accessToken, request, input, |accessToken|);
            return None;
        }
      }
      TokenGathers(digest, accessToken, request, input, |accessToken|);
      return Some(gathered);
    }
  }

  lemma {:induction false} RefusedAuthorization(addons: seq<Addon>, request: Auth.Request, n: nat, m: nat)
    requires n <= m <= |addons| && AuthorizationData(addons, request, n).None?
    ensures AuthorizationData(addons, request, m).None?
    decreases m
  {
    if n < m { RefusedAuthorization(addons, request, n, m - 1); }
  }

  lemma {:induction false} RefusedToken(digest: Digest, addons: seq<Addon>, request: Token.Request, data: Extensions,
                                        n: nat, m: nat)
    requires n <= m <= |addons| && TokenData(digest, addons, request, data, n).None?
    ensures TokenData(digest, addons, request, data, m).None?
    decreases m
  {
    if n < m { RefusedToken(digest, addons, request, data, n, m - 1); }
  }

  // ------------------------------------------------- from challenge to verifier

  /** One pkce addon sits at index `i`, and no other addon shares its identifier. */
  predicate OnlyPkceAt(addons: seq<Addon>, pkce: Pkce, i: nat) {
    && i < |addons| && addons[i] == PkceAddon(pkce)
    && forall j :: 0 <= j < |addons| && j != i ==> addons[j].Identifier() != "pkce"
  }

  /** The transformation a client announced: section 4.3 of RFC 7636, `plain` by default. */
  function Announced(request: Auth.Request): string {
    var name := AuthParameter(request, "code_challenge_method");
    if name.Some? then name.value else "plain"
  }

  /** Section 4.6 of RFC 7636, on the two requests themselves. */
  predicate VerifierMatches(digest: Digest, a: Auth.Request, t: Token.Request) {
    && AuthParameter(a, "code_challenge").Some? && Token.Parameter(t, "code_verifier").Some?
    && var challenge := AuthParameter(a, "code_challenge").value;
    && var verifier := Token.Parameter(t, "code_verifier").value;
    && ((Announced(a) == "S256" && digest(verifier) == challenge)
        || (Announced(a) == "plain" && verifier == challenge))
  }

  /** The stored data of the addon at `i`, as seen after `n` addons. */
  lemma {:induction false} ChallengeIsStored(addons: seq<Addon>, request: Auth.Request, pkce: Pkce, i: nat, n: nat)
    requires OnlyPkceAt(addons, pkce, i) && n <= |addons| && AuthorizationData(addons, request, n).Some?
    ensures i < n ==>
              var c := Challenge(pkce, AuthParameter(request, "code_challenge_method"),
                                 AuthParameter(request, "code_challenge"));
              c.Ok? && Get(AuthorizationData(addons, request, n).value, "pkce") == c.value
    ensures n <= i ==> "pkce" !in AuthorizationData(addons, request, n).value
  {
    if n > 0 { ChallengeIsStored(addons, request, pkce, i, n - 1); }
  }

  lemma {:induction false} DataReachesPkce(addons: seq<Addon>, data: Extensions, pkce: Pkce, i: nat, n: nat)
    requires OnlyPkceAt(addons, pkce, i) && n <= i
    ensures Get(Remaining(addons, data, n), "pkce") == Get(data, "pkce")
  {
    if n > 0 { DataReachesPkce(addons, data, pkce, i, n - 1); }
  }

  lemma {:induction false} VerifierIsChecked(digest: Digest, addons: seq<Addon>, request: Token.Request,
                                             data: Extensions, pkce: Pkce, i: nat, n: nat)
    requires OnlyPkceAt(addons, pkce, i) && i < n <= |addons| && TokenData(digest, addons, request, data, n).Some?
    ensures Verify(digest, pkce, Get(data, "pkce"), Token.Parameter(request, "code_verifier"))
    decreases n
  {
    if n == i + 1 {
      DataReachesPkce(addons, data, pkce, i, i);
    } else {
      VerifierIsChecked(digest, addons, request, data, pkce, i, n - 1);
    }
  }

  /** What it takes for both extension loops to be set up with this pkce addon. */
  predicate PkceInstalled(addons: Addons, pkce: Pkce) {
    && (exists i :: 0 <= i < |addons.authorization| && OnlyPkceAt(addons.authorization, pkce, i))
    && (exists j :: 0 <= j < |addons.accessToken| && OnlyPkceAt(addons.accessToken, pkce, j))
  }

  /**
   * If both loops accept and the token request sees the data the authorization request stored, then
   * the verifier matches the challenge. Only without a challenge, and only when none is required,
   * can the verifier be missing.
   */
  lemma AcceptedVerifierMatches(digest: Digest, addons: Addons, pkce: Pkce, a: Auth.Request, t: Token.Request)
    requires PkceInstalled(addons, pkce)
    requires ExtendAuthorization(addons, a).Some?
    requires ExtendToken(digest, addons, t, ExtendAuthorization(addons, a).value).Some?
    ensures VerifierMatches(digest, a, t) || (AuthParameter(a, "code_challenge").None? && !pkce.required)
    ensures VerifierMatches(digest, a, t) && !pkce.allowPlain ==> Announced(a) == "S256"
  {
    var i :| 0 <= i < |addons.authorization| && OnlyPkceAt(addons.authorization, pkce, i);
    var j :| 0 <= j < |addons.accessToken| && OnlyPkceAt(addons.accessToken, pkce, j);
    var data := ExtendAuthorization(addons, a).value;
    ChallengeIsStored(addons.authorization, a, pkce, i, |addons.authorization|);
    VerifierIsChecked(digest, addons.accessToken, t, data, pkce, j, |addons.accessToken|);
    var challenge := AuthParameter(a, "code_challenge");
    if challenge.Some? {
      var m := FromParameter(Announced(a), challenge.value).value;
      DecodeEncode(m);
    }
  }

  /** A later addon that stores a challenge of its own under the same identifier. */
  function Planted(): Addons {
    var pkce := PkceAddon(Pkce(true, true));
    var other := OtherAddon("pkce", (r: Auth.Request) => Data(Private(Some("xp"))),
                            (r: Token.Request, d: Option<Value>) => Fine);
    Addons([pkce, other], [pkce])
  }

  /** It replaces the client's challenge, so the condition on identifiers is needed. */
  lemma SharedIdentifierDefeatsPkce(digest: Digest)
    ensures var a := Auth.Request(true, None, None, None, None, None, map["code_challenge" := "y"]);
            var t := Token.Request(true, None, None, None, None, None, map["code_verifier" := "x"], false);
            && ExtendAuthorization(Planted(), a).Some?
            && ExtendToken(digest, Planted(), t, ExtendAuthorization(Planted(), a).value).Some?
            && !VerifierMatches(digest, a, t)
  {
    var a := Auth.Request(true, None, None, None, None, None, map["code_challenge" := "y"]);
    var t := Token.Request(true, None, None, None, None, None, map["code_verifier" := "x"], false);
    var auth, access := Planted().authorization, Planted().accessToken;
    assert AuthorizationData(auth, a, 1).Some?;
    assert ExecuteAuthorization(auth[1], a) == Data(Private(Some("xp")));
    var data := AuthorizationData(auth, a, 2).value;
    assert Get(data, "pkce") == Some(Private(Some("xp")));
    assert "xp"[..1] == "x";
    assert Remaining(access, data, 0) == data;
    assert TokenData(digest, access, t, data, 1).Some?;
    assert "x"[0] != "y"[0];
  }
}
