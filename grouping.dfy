/** The `$group` stages of the dashboard pipelines as spec functions: the distinct keys
    that occur (in order of first occurrence), and per key the `$sum: 1` count and the
    `$sum: '$total'` amount. */
module Grouping {
  import opened Common
  import opened SaleModel

  /** `rows.find(row => row._id === id)`: the first row whose id is `id`, if any. */
  function FindById<T(==), K(==)>(rows: seq<T>, idOf: T -> K, id: K): (r: Option<T>)
    ensures r.Some? <==> exists g :: g in rows && idOf(g) == id
    ensures r.Some? ==> exists i :: 0 <= i < |rows| && rows[i] == r.value && idOf(r.value) == id &&
                                    forall j :: 0 <= j < i ==> idOf(rows[j]) != id
  {
    if rows == [] then None
    else if idOf(rows[0]) == id then Some(rows[0])
    else
      var r := FindById(rows[1..], idOf, id);
      assert forall g :: g in rows ==> g == rows[0] || g in rows[1..];
      if r.Some? then
        var i :| 0 <= i < |rows[1..]| && rows[1..][i] == r.value && idOf(r.value) == id &&
                 forall j :: 0 <= j < i ==> idOf(rows[1..][j]) != id;
        assert rows[i + 1] == r.value;
        assert forall j :: 0 <= j < i + 1 ==> idOf(rows[j]) != id by {
          forall j | 0 <= j < i + 1 ensures idOf(rows[j]) != id {
            if j > 0 { assert rows[j] == rows[1..][j - 1]; }
          }
        }
        r
      else r
  }

  /** Some document has key `k`. */
  ghost predicate HasKey<K(!new)>(docs: seq<SaleDoc>, key: SaleDoc -> K, k: K)
  {
    exists i :: 0 <= i < |docs| && key(docs[i]) == k
  }

  /** The group ids: each key that occurs, once. */
  function GroupKeys<K(==,!new)>(docs: seq<SaleDoc>, key: SaleDoc -> K): (r: seq<K>)
    ensures forall k :: k in r <==> HasKey(docs, key, k)
    ensures forall i, j :: 0 <= i < j < |r| ==> r[i] != r[j]
  {
    if docs == [] then []
    else
      var init := docs[..|docs| - 1];
      var k := key(docs[|docs| - 1]);
      var r := GroupKeys(init, key);
      assert forall c :: HasKey(init, key, c) ==> HasKey(docs, key, c) by {
        forall c | HasKey(init, key, c) ensures HasKey(docs, key, c) {
          var i :| 0 <= i < |init| && key(init[i]) == c;
          assert key(docs[i]) == c;
        }
      }
      assert forall c :: HasKey(docs, key, c) ==> HasKey(init, key, c) || c == k by {
        forall c | HasKey(docs, key, c) ensures HasKey(init, key, c) || c == k {
          var i :| 0 <= i < |docs| && key(docs[i]) == c;
          if i < |init| { assert key(init[i]) == c; }
        }
      }
      if k in r then r else r + [k]
  }

  /** `$sum: 1` over the documents with key `k`. */
  function CountWith<K(==,!new)>(docs: seq<SaleDoc>, key: SaleDoc -> K, k: K): nat
  {
    if docs == [] then 0
    else CountWith(docs[..|docs| - 1], key, k) + (if key(docs[|docs| - 1]) == k then 1 else 0)
  }

  /** `$sum: '$total'` over the documents with key `k`. */
  function AmountWith<K(==,!new)>(docs: seq<SaleDoc>, key: SaleDoc -> K, k: K): int
  {
    if docs == [] then 0
    else AmountWith(docs[..|docs| - 1], key, k) + (if key(docs[|docs| - 1]) == k then docs[|docs| - 1].sale.total else 0)
  }

  /** A key that occurs nowhere has no group: nothing is counted or summed for it. */
  lemma {:induction false} AbsentKey<K(!new)>(docs: seq<SaleDoc>, key: SaleDoc -> K, k: K)
    requires !HasKey(docs, key, k)
    ensures CountWith(docs, key, k) == 0 && AmountWith(docs, key, k) == 0
  {
    if docs != [] {
      AbsentKey(docs[..|docs| - 1], key, k);
    }
  }

  /** A key that occurs has a positive count. */
  lemma {:induction false} PresentKey<K(!new)>(docs: seq<SaleDoc>, key: SaleDoc -> K, k: K)
    requires HasKey(docs, key, k)
    ensures CountWith(docs, key, k) > 0
  {
    var init := docs[..|docs| - 1];
    if key(docs[|docs| - 1]) != k {
      var i :| 0 <= i < |docs| && key(docs[i]) == k;
      assert key(init[i]) == k;
      PresentKey(init, key, k);
    }
  }
}
