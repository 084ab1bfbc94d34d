/** Scopes: parsing, printing and the order computed from set sizes (primitives/scope.rs). */
module Scopes {
  import opened Prelude

  datatype Scope = Scope(tokens: set<string>)

  datatype ParseScopeErr = InvalidCharacter(ch: char)

  datatype Ordering = Less | Equal | Greater

  // ---------------------------------------------------------------- parsing

  predicate InvalidScopeChar(ch: char) {
    !(ch == '!' || '#' <= ch <= '[' || ']' <= ch <= '~' || ch == ' ')
  }

  /** The first invalid character, as `chars().find` reports it. */
  function FindInvalid(s: string): (r: Option<char>)
    ensures r.None? <==> forall i :: 0 <= i < |s| ==> !InvalidScopeChar(s[i])
    ensures r.Some? ==> exists i ::
                          && 0 <= i < |s| && s[i] == r.value && InvalidScopeChar(s[i])
                          && forall j :: 0 <= j < i ==> !InvalidScopeChar(s[j])
  {
    if s == [] then None
    else if InvalidScopeChar(s[0]) then Some(s[0])
    else
      var rest := FindInvalid(s[1..]);
      assert s == [s[0]] + s[1..];
      assert rest.Some? ==> exists i :: 0 <= i < |s| && s[i] == rest.value && InvalidScopeChar(s[i])
                                        && forall j :: 0 <= j < i ==> !InvalidScopeChar(s[j]) by {
        if rest.Some? {
          var i :| 0 <= i < |s[1..]| && s[1..][i] == rest.value && InvalidScopeChar(s[1..][i])
                   && forall j :: 0 <= j < i ==> !InvalidScopeChar(s[1..][j]);
          assert s[i + 1] == rest.value;
          assert forall j :: 0 <= j < i + 1 ==> j == 0 || s[j] == s[1..][j - 1];
        }
      }
      rest
  }

  /** Pieces between single spaces; never empty, like `str::split`. */
  function Split(s: string): (r: seq<string>)
    ensures |r| > 0
  {
    if s == [] then [""]
    else if s[0] == ' ' then [""] + Split(s[1..])
    else
      var rest := Split(s[1..]);
      [[s[0]] + rest[0]] + rest[1..]
  }

  function Parse(s: string): Result<Scope, ParseScopeErr> {
    match FindInvalid(s)
    case Some(ch) => Err(InvalidCharacter(ch))
    case None => Ok(Scope(set t | t in Split(s) && t != ""))
  }

  // --------------------------------------------------------------- printing

  function Join(tokens: seq<string>): string {
    if tokens == [] then ""
    else if |tokens| == 1 then tokens[0]
    else tokens[0] + " " + Join(tokens[1..])
  }

  /** `order` is some order in which the hash set may list its tokens. */
  predicate Enumerates(order: seq<string>, scope: Scope) {
    && (set t | t in order) == scope.tokens
    && forall i, j :: 0 <= i < j < |order| ==> order[i] != order[j]
  }

  /** Section 3.3 of RFC 6749: a non-empty run of the allowed characters, space excluded. */
  predicate ScopeToken(t: string) {
    t != "" && forall i :: 0 <= i < |t| ==> t[i] != ' ' && !InvalidScopeChar(t[i])
  }

  predicate WellFormed(scope: Scope) {
    forall t :: t in scope.tokens ==> ScopeToken(t)
  }

  // --------------------------------------------------- what parsing accepts

  /** Section 3.3 of RFC 6749: the characters of scope tokens, and the space between them. */
  predicate Permitted(ch: char) {
    var code := ch as int;
    code == 0x20 || code == 0x21 || 0x23 <= code <= 0x5b || 0x5d <= code <= 0x7e
  }

  /** Parsing refuses exactly the texts with a character that is not permitted, and names the first one. */
  lemma ParseRefusesIff(s: string)
    ensures Parse(s).Err? <==> exists i :: 0 <= i < |s| && !Permitted(s[i])
    ensures forall i :: 0 <= i < |s| && !Permitted(s[i]) && (forall j :: 0 <= j < i ==> Permitted(s[j])) ==>
              Parse(s) == Err(InvalidCharacter(s[i]))
  {
    assert forall ch :: InvalidScopeChar(ch) <==> !Permitted(ch);
  }

  /** `s[i..j]` is not empty, holds no space, and cannot be made longer. */
  predicate Stretch(s: string, i: nat, j: nat) {
    && i < j <= |s| && (forall k :: i <= k < j ==> s[k] != ' ')
    && (i == 0 || s[i - 1] == ' ') && (j == |s| || s[j] == ' ')
  }

  /** The first piece ends at the first space. */
  lemma {:induction false} FirstPiece(s: string)
    ensures var n := |Split(s)[0]|;
            && n <= |s| && Split(s)[0] == s[..n] && (forall k :: 0 <= k < n ==> s[k] != ' ')
            && (n == |s| || s[n] == ' ')
  {
    if s != [] && s[0] != ' ' {
      FirstPiece(s[1..]);
      var n := |Split(s[1..])[0]|;
      assert s[..n + 1] == [s[0]] + s[1..][..n];
    }
  }

  lemma ShiftStretch(s: string, i: nat, j: nat)
    requires s != [] && Stretch(s[1..], i, j) && (i > 0 || s[0] == ' ')
    ensures Stretch(s, i + 1, j + 1) && s[i + 1..j + 1] == s[1..][i..j]
  {
    forall k | i + 1 <= k < j + 1 ensures s[k] != ' ' { assert s[k] == s[1..][k - 1]; }
    assert s == [s[0]] + s[1..];
  }

  /** Every later piece is a stretch further on. */
  lemma {:induction false} LaterPiece(s: string, t: string) returns (i: nat, j: nat)
    requires t != "" && t in Split(s)[1..]
    ensures 0 < i && Stretch(s, i, j) && t == s[i..j]
  {
    FirstPiece(s[1..]);
    if s[0] == ' ' && t == Split(s[1..])[0] {
      i, j := 0, |t|;
    } else {
      assert t in Split(s[1..])[1..];
      i, j := LaterPiece(s[1..], t);
    }
    ShiftStretch(s, i, j);
    i, j := i + 1, j + 1;
  }

  /** And every stretch further on is a later piece. */
  lemma {:induction false} LaterStretch(s: string, i: nat, j: nat)
    requires 0 < i && Stretch(s, i, j)
    ensures s[i..j] in Split(s)[1..]
  {
    if i > 1 {
      assert s[1..][i - 1..j - 1] == s[i..j];
      LaterStretch(s[1..], i - 1, j - 1);
    } else {
      assert s[0] == ' ' && Split(s)[1..] == Split(s[1..]);
      FirstPiece(s[1..]);
      assert |Split(s[1..])[0]| == j - 1;
      assert s[1..][..j - 1] == s[i..j];
    }
  }

  /** Of a text that is accepted, the tokens are exactly the stretches between the spaces. */
  lemma ParseFindsStretches(s: string, t: string)
    requires Parse(s).Ok?
    ensures t in Parse(s).value.tokens <==> exists i: nat, j: nat :: Stretch(s, i, j) && t == s[i..j]
  {
    FirstPiece(s);
    var pieces := Split(s);
    if t in Parse(s).value.tokens {
      if t == pieces[0] {
        assert Stretch(s, 0, |t|) && t == s[0..|t|];
      } else {
        assert t in pieces[1..];
        var i, j := LaterPiece(s, t);
      }
    }
    if i: nat, j: nat :| Stretch(s, i, j) && t == s[i..j] {
      if i == 0 {
        assert j == |pieces[0]|;
      } else {
        LaterStretch(s, i, j);
      }
    }
  }

  // ------------------------------------------------------- parse and print

  lemma {:induction false} SplitPieces(s: string, t: string)
    requires t in Split(s)
    ensures forall i :: 0 <= i < |t| ==> t[i] != ' ' && t[i] in s
  {
    if s != [] {
      var rest := Split(s[1..]);
      if s[0] == ' ' {
        if t != "" { SplitPieces(s[1..], t); }
      } else if t == [s[0]] + rest[0] {
        SplitPieces(s[1..], rest[0]);
      } else {
        assert t in rest[1..];
        SplitPieces(s[1..], t);
      }
    }
  }

  /** Every scope that parsing can produce consists of proper scope tokens. */
  lemma ParsedIsWellFormed(s: string)
    ensures Parse(s).Ok? ==> WellFormed(Parse(s).value)
  {
    if Parse(s).Ok? {
      forall t | t in Parse(s).value.tokens ensures ScopeToken(t) {
        SplitPieces(s, t);
      }
    }
  }

  lemma {:induction false} SplitWord(t: string, rest: string)
    requires forall i :: 0 <= i < |t| ==> t[i] != ' '
    ensures Split(t) == [t]
    ensures Split(t + " " + rest) == [t] + Split(rest)
  {
    if t == [] {
      assert t + " " + rest == " " + rest;
      assert (" " + rest)[1..] == rest;
    } else {
      SplitWord(t[1..], rest);
      assert (t + " " + rest)[1..] == t[1..] + " " + rest;
      assert t == [t[0]] + t[1..];
    }
  }

  lemma {:induction false} SplitJoin(order: seq<string>)
    requires order != []
    requires forall t :: t in order ==> ScopeToken(t)
    ensures Split(Join(order)) == order
  {
    if |order| == 1 {
      assert order[0] in order;
      SplitWord(order[0], "");
    } else {
      assert order[0] in order;
      SplitJoin(order[1..]);
      SplitWord(order[0], Join(order[1..]));
    }
  }

  lemma {:induction false} JoinChars(order: seq<string>)
    requires forall t :: t in order ==> ScopeToken(t)
    ensures forall i :: 0 <= i < |Join(order)| ==> !InvalidScopeChar(Join(order)[i])
  {
    if |order| == 1 {
      assert order[0] in order;
    } else if |order| > 1 {
      assert order[0] in order;
      JoinChars(order[1..]);
    }
  }

  /** Printing in any token order and parsing again gives back a well-formed scope. */
  lemma PrintThenParse(scope: Scope, order: seq<string>)
    requires WellFormed(scope) && Enumerates(order, scope)
    ensures Parse(Join(order)) == Ok(scope)
  {
    assert forall t :: t in order ==> t in scope.tokens;
    JoinChars(order);
    if order == [] {
      assert Split("") == [""];
    } else {
      SplitJoin(order);
    }
    assert (set t | t in Split(Join(order)) && t != "") == scope.tokens;
  }

  /** The round trip holds exactly for the scopes made of proper tokens, the ones parsing can produce. */
  lemma RoundTripIffWellFormed(scope: Scope, order: seq<string>)
    requires Enumerates(order, scope)
    ensures Parse(Join(order)) == Ok(scope) <==> WellFormed(scope)
  {
    if WellFormed(scope) {
      PrintThenParse(scope, order);
    } else if Parse(Join(order)) == Ok(scope) {
      ParsedIsWellFormed(Join(order));
    }
  }

  // -------------------------------------------------------------- the order

  /** `partial_cmp`: three comparisons of set sizes. */
  function PartialCmp(a: Scope, b: Scope): Option<Ordering> {
    var common := |a.tokens * b.tokens|;
    if common == |a.tokens| && common == |b.tokens| then Some(Equal)
    else if common == |a.tokens| then Some(Less)
    else if common == |b.tokens| then Some(Greater)
    else None
  }

  /** The derived `<=`. */
  predicate Le(a: Scope, b: Scope) {
    PartialCmp(a, b) == Some(Less) || PartialCmp(a, b) == Some(Equal)
  }

  predicate PriviledgedTo(self: Scope, rhs: Scope) {
    Le(rhs, self)
  }

  predicate AllowAccess(self: Scope, rhs: Scope) {
    Le(self, rhs)
  }

  lemma SubsetBySize<T>(a: set<T>, b: set<T>)
    ensures |a * b| == |a| <==> a <= b
  {
    if a <= b {
      assert a * b == a;
    } else {
      var x :| x in a && x !in b;
      assert a * b <= a - {x};
      SizeMonotone(a * b, a - {x});
    }
  }

  lemma {:induction false} SizeMonotone<T>(a: set<T>, b: set<T>)
    requires a <= b
    ensures |a| <= |b|
  {
    if a != {} {
      var x :| x in a;
      SizeMonotone(a - {x}, b - {x});
    }
  }

  /** The size comparison computes the subset order, in all four outcomes. */
  lemma PartialCmpIsSubsetOrder(a: Scope, b: Scope)
    ensures PartialCmp(a, b) == Some(Equal) <==> a == b
    ensures PartialCmp(a, b) == Some(Less) <==> a.tokens < b.tokens
    ensures PartialCmp(a, b) == Some(Greater) <==> b.tokens < a.tokens
    ensures PartialCmp(a, b) == None <==> !(a.tokens <= b.tokens) && !(b.tokens <= a.tokens)
    ensures Le(a, b) <==> a.tokens <= b.tokens
  {
    SubsetBySize(a.tokens, b.tokens);
    SubsetBySize(b.tokens, a.tokens);
    assert a.tokens * b.tokens == b.tokens * a.tokens;
  }

  /** `<=` on scopes is a partial order, and `>=` mirrors it. */
  lemma ScopeOrderLaws(a: Scope, b: Scope, c: Scope)
    ensures Le(a, a)
    ensures Le(a, b) && Le(b, a) ==> a == b
    ensures Le(a, b) && Le(b, c) ==> Le(a, c)
    ensures PartialCmp(a, b) == Some(Less) <==> PartialCmp(b, a) == Some(Greater)
  {
    PartialCmpIsSubsetOrder(a, a);
    PartialCmpIsSubsetOrder(a, b);
    PartialCmpIsSubsetOrder(b, a);
    PartialCmpIsSubsetOrder(b, c);
    PartialCmpIsSubsetOrder(a, c);
  }
}
