/** Signatures as tags: an assertion that tags what two stores draw keeps all their tags apart. */
module Signatures {
  import opened Prelude
  import opened Grants
  import opened Stores
  import opened Interleaving
  import opened Taggers
  import opened Counters
  import opened Freshness
  import A = Assertions

  /** The draw was answered with a counted signature over its usage value and some grant. */
  ghost predicate Signed(suite: A.Suite, draw: Draw) {
    exists g :: A.CountedSignature(suite, draw.usage, g) == Some(draw.tag)
  }

  ghost predicate SignedDraws(suite: A.Suite, draws: seq<Draw>) {
    forall i :: 0 <= i < |draws| ==> Signed(suite, draws[i])
  }

  /** The signature as a tagger that answers for every grant; it agrees with the assertion where that answers. */
  ghost function SomeSignature(suite: A.Suite, u: u64, g: Grant): Tag {
    if A.CountedSignature(suite, u, g).Some? then A.CountedSignature(suite, u, g).value
    else A.CountedSignature(suite, u, g.(extensions := map[])).value
  }

  ghost function Tagger(suite: A.Suite): TotalTagger {
    (u: u64, g: Grant) => SomeSignature(suite, u, g)
  }

  lemma TaggerIsInjective(suite: A.Suite)
    requires A.Distinguishing(suite)
    ensures UsageInjective(Tagger(suite))
  {
    forall u, g, v, h | Tagger(suite)(u, g) == Tagger(suite)(v, h) ensures u == v {
      var g' := if A.CountedSignature(suite, u, g).Some? then g else g.(extensions := map[]);
      var h' := if A.CountedSignature(suite, v, h).Some? then h else h.(extensions := map[]);
      assert A.CountedSignature(suite, u, g') == A.CountedSignature(suite, v, h');
      A.CountedSignatureTells(suite, u, g', v, h');
    }
  }

  lemma SignedDrawsAreTagged(suite: A.Suite, draws: seq<Draw>)
    requires SignedDraws(suite, draws)
    ensures FromTagger(Tagger(suite), draws)
  {
    forall i | 0 <= i < |draws| ensures Gives(Tagger(suite), draws[i]) {
      assert Signed(suite, draws[i]);
      var g :| A.CountedSignature(suite, draws[i].usage, g) == Some(draws[i].tag);
      assert Tagger(suite)(draws[i].usage, g) == SomeSignature(suite, draws[i].usage, g) == draws[i].tag;
    }
  }

  /** So stores whose draws are orderly never repeat a tag, if assertions do the tagging. */
  lemma SignedRunsAreFresh(d: Option<Time>, s: Sys, ls: seq<Label>, token: A.Suite, code: A.Suite)
    requires Init(s) && ImportsApart(d, s, ls) && WithinBounds(d, s, ls)
    requires A.Distinguishing(token) && SignedDraws(token, RunDraws(TOKENS, d, s, ls))
    requires A.Distinguishing(code) && SignedDraws(code, RunDraws(CODES, d, s, ls))
    requires Orderly(TOKENS, d, s, ls, None) && Orderly(CODES, d, s, ls, None)
    ensures FreshRun(d, s, ls)
  {
    TaggerIsInjective(token);
    TaggerIsInjective(code);
    SignedDrawsAreTagged(token, RunDraws(TOKENS, d, s, ls));
    SignedDrawsAreTagged(code, RunDraws(CODES, d, s, ls));
    OrderlyRunsAreFresh(d, s, ls, Tagger(token), Tagger(code));
  }
}
