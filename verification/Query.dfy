/**
 * Query and body parameters, each of which must occur at most once (endpoint/query.rs; section 3.1 of
 * RFC 6749).
 */
module Query {
  import opened Prelude

  type Pairs = seq<(string, string)>

  // ---------------------------------------------------------- what is meant

  /** All values given for `key`, in order. */
  function Values(pairs: Pairs, key: string): seq<string> {
    if pairs == [] then []
    else
      var last := pairs[|pairs| - 1];
      Values(pairs[..|pairs| - 1], key) + if last.0 == key then [last.1] else []
  }

  function Sole(values: seq<string>): Option<string> {
    if |values| == 1 then Some(values[0]) else None
  }

  lemma ValuesPrefix(pairs: Pairs, key: string, i: nat)
    requires i < |pairs|
    ensures Values(pairs[..i + 1], key) == Values(pairs[..i], key) + if pairs[i].0 == key then [pairs[i].1] else []
  {
    assert pairs[..i + 1][..i] == pairs[..i];
  }

  lemma {:induction false} ValuesGrow(pairs: Pairs, key: string, i: nat)
    requires i <= |pairs|
    ensures |Values(pairs[..i], key)| <= |Values(pairs, key)|
    decreases |pairs| - i
  {
    if i == |pairs| {
      assert pairs[..i] == pairs;
    } else {
      ValuesPrefix(pairs, key, i);
      ValuesGrow(pairs, key, i + 1);
    }
  }

  // ----------------------------------------------------------- list of pairs

  /** `unique_value` on a vector: one scan that gives up at the second match. */
  method UniqueValue(pairs: Pairs, key: string) returns (value: Option<string>)
    ensures value == Sole(Values(pairs, key))
  {
    value := None;
    for i := 0 to |pairs|
      invariant value == Sole(Values(pairs[..i], key)) && |Values(pairs[..i], key)| <= 1
    {
      ValuesPrefix(pairs, key, i);
      if pairs[i].0 == key {
        if value.Some? {
          ValuesGrow(pairs, key, i + 1);
          return None;
        }
        value := Some(pairs[i].1);
      }
    }
    assert pairs[..|pairs|] == pairs;
  }

  // ------------------------------------------------------------- normal form

  /** `None` marks a key that was given more than once. */
  type Normal = map<string, Option<string>>

  function Lookup(inner: Normal, key: string): Option<string> {
    if key in inner then inner[key] else None
  }

  function Poisoned(inner: Normal, key: string, value: string): Normal {
    inner[key := if key in inner then None else Some(value)]
  }

  class NormalizedParameter {
    var inner: Normal

    constructor ()
      ensures inner == map[]
    {
      inner := map[];
    }

    method InsertOrPoison(key: string, value: string)
      modifies this
      ensures inner == Poisoned(old(inner), key, value)
    {
      if key in inner {
        inner := inner[key := None];
      } else {
        inner := inner[key := Some(value)];
      }
    }

    /** `normalize` on a vector and `from_iter`: the normal form says of each key whether it was unique. */
    method InsertAll(pairs: Pairs)
      requires inner == map[]
      modifies this
      ensures inner == Folded(pairs)
    {
      for i := 0 to |pairs|
        invariant inner == Folded(pairs[..i])
      {
        assert pairs[..i + 1][..i] == pairs[..i];
        InsertOrPoison(pairs[i].0, pairs[i].1);
      }
      assert pairs[..|pairs|] == pairs;
    }
  }

  function Folded(pairs: Pairs): Normal {
    if pairs == [] then map[]
    else Poisoned(Folded(pairs[..|pairs| - 1]), pairs[|pairs| - 1].0, pairs[|pairs| - 1].1)
  }

  /** A key is present when it was given at all, and poisoned when it was given twice. */
  lemma {:induction false} FoldedMeaning(pairs: Pairs, key: string)
    ensures key in Folded(pairs) <==> Values(pairs, key) != []
    ensures key in Folded(pairs) ==> Folded(pairs)[key] == Sole(Values(pairs, key))
  {
    if pairs != [] { FoldedMeaning(pairs[..|pairs| - 1], key); }
  }

  /** Looking up in the folded map is the same as scanning the list. */
  lemma FoldedAgreesWithScan(pairs: Pairs, key: string)
    ensures Lookup(Folded(pairs), key) == Sole(Values(pairs, key))
  {
    FoldedMeaning(pairs, key);
  }

  // ------------------------------------------------------- order is immaterial

  /** The values of a key, counted. */
  lemma {:induction false} ValuesCounted(pairs: Pairs, key: string, v: string)
    ensures multiset(Values(pairs, key))[v] == multiset(pairs)[(key, v)]
  {
    if pairs != [] {
      var front, last := pairs[..|pairs| - 1], pairs[|pairs| - 1];
      ValuesCounted(front, key, v);
      assert pairs == front + [last];
      assert multiset(pairs) == multiset(front) + multiset([last]);
    }
  }

  lemma SameValues(p: Pairs, q: Pairs, key: string)
    requires multiset(p) == multiset(q)
    ensures multiset(Values(p, key)) == multiset(Values(q, key))
  {
    forall v | true ensures multiset(Values(p, key))[v] == multiset(Values(q, key))[v] {
      ValuesCounted(p, key, v);
      ValuesCounted(q, key, v);
    }
  }

  lemma SoleByMultiset(a: seq<string>, b: seq<string>)
    requires multiset(a) == multiset(b)
    ensures |a| == |b| && Sole(a) == Sole(b)
  {
    assert |multiset(a)| == |multiset(b)|;
    if |a| == 1 {
      assert a[0] in multiset(b);
    }
  }

  /** Neither the scan nor the normal form depends on the order of the pairs. */
  lemma OrderDoesNotMatter(p: Pairs, q: Pairs)
    requires multiset(p) == multiset(q)
    ensures forall key :: Sole(Values(p, key)) == Sole(Values(q, key))
    ensures Folded(p) == Folded(q)
  {
    forall key ensures Sole(Values(p, key)) == Sole(Values(q, key)) && |Values(p, key)| == |Values(q, key)| {
      SameValues(p, q, key);
      SoleByMultiset(Values(p, key), Values(q, key));
    }
    forall key ensures (key in Folded(p) <==> key in Folded(q))
        && (key in Folded(p) ==> Folded(p)[key] == Folded(q)[key]) {
      FoldedMeaning(p, key);
      FoldedMeaning(q, key);
    }
  }

  /** A value comes out exactly when its pair is there once and no other pair has the key. */
  lemma UniqueIff(pairs: Pairs, key: string, v: string)
    ensures Sole(Values(pairs, key)) == Some(v)
            <==> multiset(pairs)[(key, v)] == 1 && forall w :: w != v ==> (key, w) !in pairs
  {
    var vs := Values(pairs, key);
    forall w ensures w in vs <==> (key, w) in pairs {
      ValuesCounted(pairs, key, w);
    }
    ValuesCounted(pairs, key, v);
    if Sole(vs) == Some(v) {
      assert vs == [v];
    }
    if multiset(pairs)[(key, v)] == 1 && forall w :: w != v ==> (key, w) !in pairs {
      SameThroughout(vs, v);
      assert vs[0] in vs;
    }
  }

  lemma {:induction false} SameThroughout(vs: seq<string>, v: string)
    requires forall w :: w in vs ==> w == v
    ensures multiset(vs)[v] == |vs|
  {
    if vs != [] {
      assert vs == [vs[0]] + vs[1..];
      forall w | w in vs[1..] ensures w == v { assert w in vs; }
      SameThroughout(vs[1..], v);
      assert vs[0] in vs;
      assert vs == [v] + vs[1..];
    }
  }

  // --------------------------------------------------------------- hash maps

  /** The types with `UniqueValue`: text, owning pointers, optional values, and lists of them. */
  datatype Nested = Text(text: string) | Pointer(to: Nested) | Maybe(value: Option<Nested>) | Many(items: seq<Nested>)

  function GetUnique(n: Nested): Option<string> {
    match n
    case Text(t) => Some(t)
    case Pointer(to) => GetUnique(to)
    case Maybe(None) => None
    case Maybe(Some(v)) => GetUnique(v)
    case Many(items) => if |items| == 1 then GetUnique(items[0]) else None
  }

  /** Every text inside, from left to right. */
  function Texts(n: Nested): seq<string>
    decreases n, 0
  {
    match n
    case Text(t) => [t]
    case Pointer(to) => Texts(to)
    case Maybe(None) => []
    case Maybe(Some(v)) => Texts(v)
    case Many(items) => AllTexts(items)
  }

  function AllTexts(items: seq<Nested>): seq<string>
    decreases items, 1
  {
    if items == [] then [] else Texts(items[0]) + AllTexts(items[1..])
  }

  /** What comes out is the only text there is. */
  lemma {:induction false} UniqueIsOnlyText(n: Nested)
    requires GetUnique(n).Some?
    ensures Texts(n) == [GetUnique(n).value]
  {
    match n {
      case Text(_) =>
      case Pointer(to) => UniqueIsOnlyText(to);
      case Maybe(value) => UniqueIsOnlyText(value.value);
      case Many(items) =>
        UniqueIsOnlyText(items[0]);
        assert items[1..] == [];
        assert AllTexts(items[1..]) == [];
    }
  }

  /** The value itself and all values nested in it, at any depth. */
  function Inside(n: Nested): set<Nested>
    decreases n, 0
  {
    {n} + match n
          case Text(_) => {}
          case Pointer(to) => Inside(to)
          case Maybe(None) => {}
          case Maybe(Some(v)) => Inside(v)
          case Many(items) => AllInside(items)
  }

  function AllInside(items: seq<Nested>): set<Nested>
    decreases items, 1
  {
    if items == [] then {} else Inside(items[0]) + AllInside(items[1..])
  }

  /** Neither an absent value, nor a list with no item or with several. */
  predicate Single(n: Nested) {
    n != Maybe(None) && (n.Many? ==> |n.items| == 1)
  }

  /** A value comes out exactly if nothing inside, at any depth, is absent or a list of other than one item. */
  lemma {:induction false} ComesOutIff(n: Nested)
    ensures GetUnique(n).Some? <==> forall m :: m in Inside(n) ==> Single(m)
  {
    assert n in Inside(n);
    match n {
      case Text(_) =>
      case Pointer(to) => ComesOutIff(to);
      case Maybe(None) => assert !Single(n);
      case Maybe(Some(v)) => ComesOutIff(v);
      case Many(items) =>
        if |items| == 1 {
          ComesOutIff(items[0]);
          assert items[1..] == [];
          assert AllInside(items) == Inside(items[0]);
        } else {
          assert !Single(n);
        }
    }
  }

  function HashUnique(h: map<string, Nested>, key: string): Option<string> {
    if key in h then GetUnique(h[key]) else None
  }

  function HashNormalize(h: map<string, Nested>): Normal {
    map key | key in h && GetUnique(h[key]).Some? :: GetUnique(h[key])
  }

  function AsTexts(values: seq<string>): Nested {
    Many(seq(|values|, i requires 0 <= i < |values| => Text(values[i])))
  }

  lemma AsTextsUnique(values: seq<string>)
    ensures GetUnique(AsTexts(values)) == Sole(values)
  {
    if |values| == 1 { assert AsTexts(values).items[0] == Text(values[0]); }
  }

  /** Collecting a list into lists per key, as web frameworks do. */
  function Grouped(pairs: Pairs): map<string, Nested> {
    map pair | pair in pairs :: pair.0 := AsTexts(Values(pairs, pair.0))
  }

  /** Normalising a hash map keeps every unique value, and poisons nothing. */
  lemma NormalizeKeepsUniqueValues(h: map<string, Nested>, key: string)
    ensures Lookup(HashNormalize(h), key) == HashUnique(h, key)
    ensures key in HashNormalize(h) ==> HashNormalize(h)[key].Some? && Texts(h[key]) == [HashNormalize(h)[key].value]
  {
    if key in HashNormalize(h) { UniqueIsOnlyText(h[key]); }
  }

  /** The list, its normal form, the grouped map and the normal form of that: all four agree. */
  lemma AllFormsAgree(pairs: Pairs, key: string)
    ensures HashUnique(Grouped(pairs), key) == Sole(Values(pairs, key))
    ensures Lookup(HashNormalize(Grouped(pairs)), key) == Lookup(Folded(pairs), key)
  {
    NormalizeKeepsUniqueValues(Grouped(pairs), key);
    FoldedAgreesWithScan(pairs, key);
    if key in Grouped(pairs) {
      assert Grouped(pairs)[key] == AsTexts(Values(pairs, key));
      AsTextsUnique(Values(pairs, key));
    } else {
      NoPairNoValue(pairs, key);
    }
  }

  lemma {:induction false} NoPairNoValue(pairs: Pairs, key: string)
    requires forall p :: p in pairs ==> p.0 != key
    ensures Values(pairs, key) == []
  {
    if pairs != [] { NoPairNoValue(pairs[..|pairs| - 1], key); }
  }
}
