/** Taggers from whose tags the usage value can be told. */
module Taggers {
  import opened Prelude
  import opened Grants
  import opened Stores

  /** A tagger that never fails and whose tags tell the usage value. */
  type TotalTagger = (u64, Grant) -> Tag

  ghost predicate UsageInjective(tag: TotalTagger) {
    forall u, g, v, h :: tag(u, g) == tag(v, h) ==> u == v
  }

  /** `usageOf` reads the usage value off a tag. */
  ghost predicate Tells(tag: TotalTagger, usageOf: Tag -> u64) {
    forall u, g :: usageOf(tag(u, g)) == u
  }

  ghost function SomeUsage(tag: TotalTagger, t: Tag): u64 {
    if exists u: u64, g: Grant :: tag(u, g) == t then
      var u: u64, g: Grant :| tag(u, g) == t; u
    else 0
  }

  lemma InjectiveTells(tag: TotalTagger) returns (usageOf: Tag -> u64)
    requires UsageInjective(tag)
    ensures Tells(tag, usageOf)
  {
    usageOf := t => SomeUsage(tag, t);
  }

  /** The tag is what `tag` gives for the usage value it was asked with, and some grant. */
  ghost predicate Gives(tag: TotalTagger, draw: Draw) {
    exists g :: draw.tag == tag(draw.usage, g)
  }

  ghost predicate FromTagger(tag: TotalTagger, draws: seq<Draw>) {
    forall i :: 0 <= i < |draws| ==> Gives(tag, draws[i])
  }

  /** The usage value of every draw can be read off its tag. */
  predicate Told(usageOf: Tag -> u64, draws: seq<Draw>) {
    forall i :: 0 <= i < |draws| ==> usageOf(draws[i].tag) == draws[i].usage
  }

  lemma FromTaggerIsTold(tag: TotalTagger, usageOf: Tag -> u64, draws: seq<Draw>)
    requires Tells(tag, usageOf) && FromTagger(tag, draws)
    ensures Told(usageOf, draws)
  {
    forall i | 0 <= i < |draws| ensures usageOf(draws[i].tag) == draws[i].usage {
      assert Gives(tag, draws[i]);
      var g :| draws[i].tag == tag(draws[i].usage, g);
    }
  }
}
