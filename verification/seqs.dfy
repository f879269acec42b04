/**
 * Sequence helpers that stand for the PHP array functions the chart code calls:
 * `array_search` (first hit), `array_unique` (first appearance wins), a list repeated
 * by a doubled loop, and `array_column($rows, $v, $k)` / property assignment in a loop
 * (the last write for a key wins).
 */
module Seqs {

  predicate NoDup<T(==)>(s: seq<T>) {
    forall i, j :: 0 <= i < j < |s| ==> s[i] != s[j]
  }

  /** `array_search(x, s)` with strict equality: the index of the first `x`. */
  function IndexOf<T(==)>(s: seq<T>, x: T): (k: nat)
    requires x in s
    ensures k < |s| && s[k] == x
    ensures forall j :: 0 <= j < k ==> s[j] != x
  {
    if s[0] == x then 0 else 1 + IndexOf(s[1..], x)
  }

  lemma {:induction false} IndexOfPrefix<T>(s: seq<T>, t: seq<T>, x: T)
    requires x in s
    ensures IndexOf(s + t, x) == IndexOf(s, x)
  {
    var k := IndexOf(s, x);
    assert (s + t)[k] == x;
    assert forall j :: 0 <= j < k ==> (s + t)[j] != x;
  }

  /** In a list without duplicates the position of `s[i]` is `i`. */
  lemma IndexOfNoDup<T>(s: seq<T>, i: nat)
    requires NoDup(s) && i < |s|
    ensures IndexOf(s, s[i]) == i
  {
  }

  /** `array_unique`: the distinct elements of `s`, in order of first appearance. */
  function Distinct<T(==)>(s: seq<T>): (r: seq<T>)
    ensures NoDup(r)
    ensures forall x :: x in r ==> x in s
    ensures forall x :: x in s ==> x in r
    ensures |r| <= |s|
  {
    if |s| == 0 then []
    else
      var d := Distinct(s[..|s| - 1]);
      assert s == s[..|s| - 1] + [s[|s| - 1]];
      if s[|s| - 1] in d then d else d + [s[|s| - 1]]
  }

  /** `Distinct` keeps the order in which the values first appear in `s`. */
  lemma {:induction false} DistinctFirstAppearance<T>(s: seq<T>)
    ensures forall i, j :: 0 <= i < j < |Distinct(s)| ==>
              IndexOf(s, Distinct(s)[i]) < IndexOf(s, Distinct(s)[j])
  {
    if |s| > 0 {
      var p := s[..|s| - 1];
      var x := s[|s| - 1];
      assert s == p + [x];
      DistinctFirstAppearance(p);
      var d := Distinct(p);
      forall y | y in p
        ensures IndexOf(s, y) == IndexOf(p, y)
      {
        IndexOfPrefix(p, [x], y);
      }
      if x !in d {
        assert x !in p;
        assert IndexOf(s, x) == |p|;
      }
    }
  }

  /** A list without duplicates is its own `array_unique`. */
  lemma {:induction false} DistinctOfNoDup<T>(s: seq<T>)
    requires NoDup(s)
    ensures Distinct(s) == s
  {
    if |s| > 0 {
      var p := s[..|s| - 1];
      DistinctOfNoDup(p);
      assert s[|s| - 1] !in p;
      assert s == p + [s[|s| - 1]];
    }
  }

  /** The list `s`, `n` times over: what a loop nested inside a loop over `s` appends. */
  function Repeat<T>(s: seq<T>, n: nat): (r: seq<T>)
    ensures |r| == n * |s|
    ensures forall x :: x in r ==> x in s
  {
    if n == 0 then [] else s + Repeat(s, n - 1)
  }

  /** A search in a repeated list finds the first copy. */
  lemma RepeatIndexOf<T>(s: seq<T>, n: nat, x: T)
    requires n > 0 && x in s
    ensures x in Repeat(s, n) && IndexOf(Repeat(s, n), x) == IndexOf(s, x)
  {
    IndexOfPrefix(s, Repeat(s, n - 1), x);
  }

  /** True when no pair after position `i` has the key of pair `i`. */
  predicate LastKeyAt<K(==), V>(pairs: seq<(K, V)>, i: nat)
    requires i < |pairs|
  {
    forall j :: i < j < |pairs| ==> pairs[j].0 != pairs[i].0
  }

  /**
   * The map a PHP loop builds by assigning `$m[key] = value` for each pair in turn:
   * exactly the keys that occur are present (`AssocLastValue` gives their values).
   */
  function AssocLast<K(==), V>(pairs: seq<(K, V)>): (m: map<K, V>)
    ensures forall k :: k in m ==> exists i :: 0 <= i < |pairs| && pairs[i].0 == k
    ensures forall i :: 0 <= i < |pairs| ==> pairs[i].0 in m
  {
    if |pairs| == 0 then map[]
    else
      var p := pairs[..|pairs| - 1];
      var last := pairs[|pairs| - 1];
      var m := AssocLast(p);
      assert forall i :: 0 <= i < |p| ==> p[i] == pairs[i];
      m[last.0 := last.1]
  }

  /** A key holds the value of its last pair: later assignments overwrite earlier ones. */
  lemma {:induction false} AssocLastValue<K, V>(pairs: seq<(K, V)>, i: nat)
    requires i < |pairs| && LastKeyAt(pairs, i)
    ensures pairs[i].0 in AssocLast(pairs) && AssocLast(pairs)[pairs[i].0] == pairs[i].1
  {
    if i < |pairs| - 1 {
      var p := pairs[..|pairs| - 1];
      assert LastKeyAt(p, i);
      AssocLastValue(p, i);
    }
  }
}
