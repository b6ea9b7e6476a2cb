/** The array operations the client and server code use on lists:
    `filter`, `map` with a conditional replacement, `findIndex`, `find`,
    and the remove- and upsert-by-key idioms built from them. */
module Lists {
  import opened Wrappers

  /** Filtering: the elements satisfying `keep`, in their original order. */
  function Filter<T>(s: seq<T>, keep: T -> bool): (r: seq<T>)
    ensures |r| <= |s|
    ensures forall i :: 0 <= i < |r| ==> r[i] in s && keep(r[i])
    ensures forall j :: 0 <= j < |s| && keep(s[j]) ==> s[j] in r
  {
    if s == [] then []
    else if keep(s[0]) then [s[0]] + Filter(s[1..], keep)
    else Filter(s[1..], keep)
  }

  /** Filtering distributes over concatenation: the elements kept from `a`
      all come before those kept from `b`, so filtering preserves order. */
  lemma {:induction false} FilterConcat<T>(a: seq<T>, b: seq<T>, keep: T -> bool)
    ensures Filter(a + b, keep) == Filter(a, keep) + Filter(b, keep)
  {
    if a == [] {
      assert a + b == b;
    } else {
      assert (a + b)[1..] == a[1..] + b;
      FilterConcat(a[1..], b, keep);
    }
  }

  /** A filter that rejects nothing returns its input unchanged. */
  lemma {:induction false} FilterKeepsAll<T>(s: seq<T>, keep: T -> bool)
    requires forall i :: 0 <= i < |s| ==> keep(s[i])
    ensures Filter(s, keep) == s
  {
    if s != [] {
      FilterKeepsAll(s[1..], keep);
    }
  }

  /** A filter that keeps nothing returns the empty list. */
  lemma {:induction false} FilterKeepsNone<T>(s: seq<T>, keep: T -> bool)
    requires forall i :: 0 <= i < |s| ==> !keep(s[i])
    ensures Filter(s, keep) == []
  {
    if s != [] {
      FilterKeepsNone(s[1..], keep);
    }
  }

  /** Two predicates that agree on every element filter alike. */
  lemma {:induction false} FilterSameKeep<T>(s: seq<T>, keep1: T -> bool, keep2: T -> bool)
    requires forall i :: 0 <= i < |s| ==> keep1(s[i]) == keep2(s[i])
    ensures Filter(s, keep1) == Filter(s, keep2)
  {
    if s != [] {
      FilterSameKeep(s[1..], keep1, keep2);
    }
  }

  /** Filtering a second time with the same predicate changes nothing. */
  lemma FilterIdempotent<T>(s: seq<T>, keep: T -> bool)
    ensures Filter(Filter(s, keep), keep) == Filter(s, keep)
  {
    FilterKeepsAll(Filter(s, keep), keep);
  }

  /** The predicate `x => key(x) !== k`. */
  function KeyIsNot<T, K(==)>(key: T -> K, k: K): T -> bool {
    x => key(x) != k
  }

  /** The predicate `x => x !== v`. */
  function Differs<T(==)>(v: T): T -> bool {
    x => x != v
  }

  /** Removal by id: every entry with key `k` dropped, the rest in order. */
  function RemoveByKey<T, K(==)>(s: seq<T>, key: T -> K, k: K): (r: seq<T>)
    ensures forall i :: 0 <= i < |r| ==> r[i] in s && key(r[i]) != k
    ensures forall j :: 0 <= j < |s| && key(s[j]) != k ==> s[j] in r
  {
    Filter(s, KeyIsNot(key, k))
  }

  /** Replacement by id: every entry with the key of `v` becomes `v`. */
  function ReplaceByKey<T, K(==)>(s: seq<T>, key: T -> K, v: T): (r: seq<T>)
    ensures |r| == |s|
    ensures forall i :: 0 <= i < |s| && key(s[i]) == key(v) ==> r[i] == v
    ensures forall i :: 0 <= i < |s| && key(s[i]) != key(v) ==> r[i] == s[i]
  {
    if s == [] then []
    else [if key(s[0]) == key(v) then v else s[0]] + ReplaceByKey(s[1..], key, v)
  }

  /** Upsert by id: entries with the key of `v` dropped, then `v` appended. */
  function UpsertByKey<T, K(==)>(s: seq<T>, key: T -> K, v: T): (r: seq<T>)
    ensures |r| >= 1 && r[|r| - 1] == v
    ensures forall i :: 0 <= i < |r| - 1 ==> key(r[i]) != key(v)
    ensures forall i :: 0 <= i < |r| - 1 ==> r[i] in s
    ensures forall j :: 0 <= j < |s| && key(s[j]) != key(v) ==> s[j] in r
  {
    RemoveByKey(s, key, key(v)) + [v]
  }

  /** An upsert does not reorder the entries with other keys. */
  lemma UpsertKeepsOthersInOrder<T, K>(s: seq<T>, key: T -> K, v: T)
    ensures RemoveByKey(UpsertByKey(s, key, v), key, key(v)) == RemoveByKey(s, key, key(v))
  {
    var rest := RemoveByKey(s, key, key(v));
    FilterConcat(rest, [v], KeyIsNot(key, key(v)));
    FilterKeepsAll(rest, KeyIsNot(key, key(v)));
    assert Filter([v], KeyIsNot(key, key(v))) == [];
  }

  /** The first index whose element satisfies `p`, or -1. */
  function FirstIndex<T>(s: seq<T>, p: T -> bool): (i: int)
    ensures -1 <= i < |s|
    ensures i == -1 <==> forall j :: 0 <= j < |s| ==> !p(s[j])
    ensures 0 <= i ==> p(s[i]) && forall j :: 0 <= j < i ==> !p(s[j])
  {
    if s == [] then -1
    else if p(s[0]) then 0
    else
      var k := FirstIndex(s[1..], p);
      if k == -1 then -1 else k + 1
  }

  /** The first element satisfying `p`, if any. */
  function Find<T>(s: seq<T>, p: T -> bool): (r: Option<T>)
    ensures r.None? <==> forall j :: 0 <= j < |s| ==> !p(s[j])
    ensures r.Some? ==> exists i :: 0 <= i < |s| && s[i] == r.value && p(s[i]) && forall j :: 0 <= j < i ==> !p(s[j])
  {
    var i := FirstIndex(s, p);
    if i == -1 then None else Some(s[i])
  }

  /** The last element (`s[s.length - 1]`), or nothing for an empty list. */
  function Last<T>(s: seq<T>): (r: Option<T>)
    ensures r.None? <==> s == []
    ensures r.Some? ==> r.value == s[|s| - 1]
  {
    if s == [] then None else Some(s[|s| - 1])
  }

  /** No value occurs twice. */
  ghost predicate NoDup<T>(s: seq<T>) {
    forall i, j :: 0 <= i < j < |s| ==> s[i] != s[j]
  }
}
