/**
  Listing a map in arbitrary order and then sorting: what `for k, v := range m { append }` followed by
  `sort.Strings` or `sort.Slice` yields.  The result does not depend on the order of the range loop.
*/
module Sorting {
  import opened Text

  ghost predicate SortedBy<T>(items: seq<T>, name: T -> string)
  {
    forall i, j | 0 <= i < j < |items| :: Leq(name(items[i]), name(items[j]))
  }

  function Insert<T>(x: T, items: seq<T>, name: T -> string): (r: seq<T>)
    ensures multiset(r) == multiset(items) + multiset{x}
  {
    if items == [] then [x]
    else
      assert items == [items[0]] + items[1..];
      if Leq(name(x), name(items[0])) then [x] + items
      else [items[0]] + Insert(x, items[1..], name)
  }

  function SortBy<T>(items: seq<T>, name: T -> string): (r: seq<T>)
    ensures multiset(r) == multiset(items)
    ensures |r| == |items|
  {
    if items == [] then []
    else
      assert items == [items[0]] + items[1..];
      var r := Insert(items[0], SortBy(items[1..], name), name);
      assert |multiset(r)| == |multiset(items)|;
      r
  }

  lemma {:induction false} InsertSorted<T>(x: T, items: seq<T>, name: T -> string)
    requires SortedBy(items, name)
    ensures SortedBy(Insert(x, items, name), name)
  {
    if items != [] {
      LeqTotal(name(x), name(items[0]));
      if Leq(name(x), name(items[0])) {
        forall j | 0 <= j < |items| ensures Leq(name(x), name(items[j])) {
          HeadIsLeast(items, name, j);
          LeqTransitive(name(x), name(items[0]), name(items[j]));
        }
      } else {
        InsertSorted(x, items[1..], name);
        InsertedAbove(x, items, name);
      }
    }
  }

  lemma InsertedAbove<T>(x: T, items: seq<T>, name: T -> string)
    requires items != [] && SortedBy(items, name) && Leq(name(items[0]), name(x))
    ensures forall y | y in Insert(x, items[1..], name) :: Leq(name(items[0]), name(y))
  {
    var rest := Insert(x, items[1..], name);
    forall y | y in rest ensures Leq(name(items[0]), name(y)) {
      assert y in multiset(rest);
      assert y == x || y in items[1..];
    }
  }

  lemma {:induction false} SortBySorted<T>(items: seq<T>, name: T -> string)
    ensures SortedBy(SortBy(items, name), name)
  {
    if items != [] {
      SortBySorted(items[1..], name);
      InsertSorted(items[0], SortBy(items[1..], name), name);
    }
  }

  /** No two different elements carry the same name. */
  ghost predicate NamesDetermine<T(!new)>(items: multiset<T>, name: T -> string)
  {
    forall x, y | x in items && y in items && name(x) == name(y) :: x == y
  }

  /** A multiset has one sorted listing: the order in which a map was traversed does not matter. */
  lemma {:induction false} SortedListingUnique<T(!new)>(a: seq<T>, b: seq<T>, name: T -> string)
    requires SortedBy(a, name) && SortedBy(b, name)
    requires multiset(a) == multiset(b) && NamesDetermine(multiset(a), name)
    ensures a == b
    decreases |a|
  {
    if a == [] {
      assert |multiset(b)| == 0;
    } else {
      SameHead(a, b, name);
      WithoutHead(a);
      WithoutHead(b);
      SortedListingUnique(a[1..], b[1..], name);
    }
  }

  lemma WithoutHead<T>(a: seq<T>)
    requires a != []
    ensures a == [a[0]] + a[1..] && multiset(a[1..]) == multiset(a) - multiset{a[0]}
  {
    assert a == [a[0]] + a[1..];
  }

  lemma SameHead<T(!new)>(a: seq<T>, b: seq<T>, name: T -> string)
    requires a != [] && SortedBy(a, name) && SortedBy(b, name)
    requires multiset(a) == multiset(b) && NamesDetermine(multiset(a), name)
    ensures b != [] && a[0] == b[0]
  {
    assert a[0] in multiset(b);
    assert b[0] in multiset(a);
    var i :| 0 <= i < |b| && b[i] == a[0];
    var j :| 0 <= j < |a| && a[j] == b[0];
    HeadIsLeast(a, name, j);
    HeadIsLeast(b, name, i);
    LeqAntisymmetric(name(a[0]), name(b[0]));
  }

  lemma HeadIsLeast<T>(items: seq<T>, name: T -> string, i: nat)
    requires i < |items| && SortedBy(items, name)
    ensures Leq(name(items[0]), name(items[i]))
  {
    LeqTotal(name(items[0]), name(items[0]));
  }

  /** Sorting absorbs any permutation of its input. */
  lemma SortByPermutation<T(!new)>(a: seq<T>, b: seq<T>, name: T -> string)
    requires multiset(a) == multiset(b) && NamesDetermine(multiset(a), name)
    ensures SortBy(a, name) == SortBy(b, name)
  {
    SortBySorted(a, name);
    SortBySorted(b, name);
    SortedListingUnique(SortBy(a, name), SortBy(b, name), name);
  }

  /** Nothing occurs twice. */
  predicate Distinct<K(==)>(order: seq<K>)
  {
    forall i, j | 0 <= i < j < |order| :: order[i] != order[j]
  }

  /** Some order in which a range loop may visit the keys of a map. */
  ghost predicate Lists<K(!new)>(order: seq<K>, keys: set<K>)
  {
    Distinct(order) && forall k :: k in order <==> k in keys
  }

  /** Every set of keys can be visited. */
  lemma {:induction false} ListKeys<K(!new)>(keys: set<K>) returns (order: seq<K>)
    ensures Lists(order, keys)
  {
    if keys == {} {
      order := [];
    } else {
      var k :| k in keys;
      order := ListKeys(keys - {k});
      order := order + [k];
    }
  }

  lemma Position<K(!new)>(order: seq<K>, k: K, keys: set<K>) returns (i: nat)
    requires Lists(order, keys) && k in keys
    ensures i < |order| && order[i] == k
  {
    assert k in order;
    i :| 0 <= i < |order| && order[i] == k;
  }

  lemma ListsWithout<K(!new)>(order: seq<K>, keys: set<K>, i: nat)
    requires Lists(order, keys) && i < |order|
    ensures Lists(order[..i] + order[i + 1..], keys - {order[i]})
  {
    var rest := order[..i] + order[i + 1..];
    forall k | k in keys - {order[i]} ensures k in rest {
      var j :| 0 <= j < |order| && order[j] == k;
      assert rest[if j < i then j else j - 1] == k;
    }
  }

  lemma {:induction false} ListsLength<K(!new)>(order: seq<K>, keys: set<K>)
    requires Lists(order, keys)
    ensures |order| == |keys|
    decreases |order|
  {
    if order == [] {
      assert forall k :: k !in keys;
    } else {
      assert order[0] in order;
      ListsWithout(order, keys, 0);
      ListsLength(order[..0] + order[1..], keys - {order[0]});
    }
  }

  function Mapped<K, T>(order: seq<K>, f: K -> T): (r: seq<T>)
    ensures |r| == |order| && forall i | 0 <= i < |r| :: r[i] == f(order[i])
  {
    seq(|order|, i requires 0 <= i < |order| => f(order[i]))
  }

  lemma MappedWithout<K, T>(order: seq<K>, f: K -> T, i: nat)
    requires i < |order|
    ensures multiset(Mapped(order, f)) == multiset(Mapped(order[..i] + order[i + 1..], f)) + multiset{f(order[i])}
  {
    var all := Mapped(order, f);
    assert Mapped(order[..i] + order[i + 1..], f) == all[..i] + all[i + 1..];
    assert all == all[..i] + [f(order[i])] + all[i + 1..];
  }

  /** Two visiting orders of the same keys produce the same collection of rendered entries. */
  lemma {:induction false} OrdersProduceSame<K(!new), T>(a: seq<K>, b: seq<K>, keys: set<K>, f: K -> T)
    requires Lists(a, keys) && Lists(b, keys)
    ensures multiset(Mapped(a, f)) == multiset(Mapped(b, f))
    decreases |a|
  {
    if a == [] {
      ListsLength(a, keys);
      ListsLength(b, keys);
    } else {
      var i := Position(b, a[0], keys);
      var a', b' := a[..0] + a[1..], b[..i] + b[i + 1..];
      ListsWithout(a, keys, 0);
      ListsWithout(b, keys, i);
      OrdersProduceSame(a', b', keys - {a[0]}, f);
      MappedWithout(a, f, 0);
      MappedWithout(b, f, i);
    }
  }
}
