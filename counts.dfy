/**
 * The insertion-ordered dictionary from thing kinds to integers that the
 * tracker builds at every step (C#'s Dictionary<ThingDef, int> never has an
 * entry removed here, so it enumerates its keys in order of first insertion).
 */
module Counts {

  import opened Defs

  /** Math.Max on integers. */
  function Max(a: int, b: int): (m: int)
    ensures m >= a && m >= b && (m == a || m == b)
  {
    if a >= b then a else b
  }

  /** `order` is the enumeration order of the keys, `amounts` the entries. */
  datatype ThingCounts = ThingCounts(order: seq<ThingDef>, amounts: map<ThingDef, int>)

  const Empty := ThingCounts([], map[])

  predicate Distinct(s: seq<ThingDef>)
  {
    forall i, j :: 0 <= i < j < |s| ==> s[i] != s[j]
  }

  /** Every key is listed exactly once in the enumeration order. */
  ghost predicate WellFormed(d: ThingCounts)
  {
    Distinct(d.order) && (forall k :: k in d.amounts <==> k in d.order)
  }

  /** TryGetValue with the default it leaves in its out parameter: 0 for a missing key. */
  function GetOrZero(m: map<ThingDef, int>, k: ThingDef): int
  {
    if k in m then m[k] else 0
  }

  /** The same lookup on an ordered dictionary. */
  function TryGet(d: ThingCounts, k: ThingDef): int
  {
    GetOrZero(d.amounts, k)
  }

  /** The indexer assignment `d[k] = v`: a new key goes to the end of the
      enumeration order, an existing key keeps its place. */
  function Put(d: ThingCounts, k: ThingDef, v: int): (r: ThingCounts)
    ensures r.amounts.Keys == d.amounts.Keys + {k}
    ensures TryGet(r, k) == v
    ensures forall j :: j != k ==> TryGet(r, j) == TryGet(d, j)
  {
    ThingCounts(if k in d.amounts then d.order else d.order + [k], d.amounts[k := v])
  }

  /** Putting keeps every key listed exactly once; an existing key keeps the
      order, and a new key is appended to it. */
  lemma PutWellFormed(d: ThingCounts, k: ThingDef, v: int)
    requires WellFormed(d)
    ensures WellFormed(Put(d, k, v))
    ensures k in d.amounts ==> Put(d, k, v).order == d.order
    ensures k !in d.amounts ==> Put(d, k, v).order == d.order + [k]
  {
  }

  /** The reference enumeration order: a dictionary enumerated as `order` into
      which the keys `s` are written one after another enumerates as this, each
      key not yet present appended at its first write. */
  function AppendNew(order: seq<ThingDef>, s: seq<ThingDef>): seq<ThingDef>
  {
    if |s| == 0 then order
    else
      var prev := AppendNew(order, s[..|s| - 1]);
      if s[|s| - 1] in prev then prev else prev + [s[|s| - 1]]
  }

  /** Writing more keys never moves the keys already there, and adds exactly
      the keys written. */
  lemma {:induction false} AppendNewPrefix(order: seq<ThingDef>, s: seq<ThingDef>)
    ensures order <= AppendNew(order, s)
    ensures forall x :: x in AppendNew(order, s) <==> x in order || x in s
  {
    if |s| > 0 {
      var prefix := s[..|s| - 1];
      AppendNewPrefix(order, prefix);
      assert s == prefix + [s[|s| - 1]];
    }
  }

  /** Writing `a` and then `b` leaves the order writing `a + b` leaves. */
  lemma {:induction false} AppendNewAppend(order: seq<ThingDef>, a: seq<ThingDef>, b: seq<ThingDef>)
    ensures AppendNew(order, a + b) == AppendNew(AppendNew(order, a), b)
  {
    if |b| == 0 {
      assert a + b == a;
    } else {
      assert (a + b)[..|a + b| - 1] == a + b[..|b| - 1];
      AppendNewAppend(order, a, b[..|b| - 1]);
    }
  }

  ghost predicate AllZero(d: ThingCounts)
  {
    forall k :: k in d.amounts ==> d.amounts[k] == 0
  }

  /** `a` has the same keys, in the same order, as `b`, and no entry above `b`'s. */
  ghost predicate Below(a: ThingCounts, b: ThingCounts)
  {
    a.order == b.order && a.amounts.Keys == b.amounts.Keys &&
    forall k :: k in a.amounts ==> a.amounts[k] <= b.amounts[k]
  }

  lemma BelowPut(a: ThingCounts, b: ThingCounts, k: ThingDef, v: int, w: int)
    requires Below(a, b) && v <= w
    ensures Below(Put(a, k, v), Put(b, k, w))
  {
  }

  lemma BelowTryGet(a: ThingCounts, b: ThingCounts, k: ThingDef)
    requires Below(a, b)
    ensures TryGet(a, k) <= TryGet(b, k)
  {
  }
}
