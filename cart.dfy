/**
 * The cart as a value: an ordered list of items, each a copy of a service's
 * fields plus the identifier of that one addition.
 */
module Cart {
  import opened Catalog

  datatype CartItem = CartItem(service: Service, uid: int)

  /** The total behind `subtotal()`: the prices added up from the front, starting at zero. */
  function Sum(items: seq<CartItem>): int {
    if items == [] then 0 else Sum(items[..|items| - 1]) + items[|items| - 1].service.price
  }

  /** The sum of two carts laid end to end is the sum of their sums. */
  lemma {:induction false} SumAppend(a: seq<CartItem>, b: seq<CartItem>)
    ensures Sum(a + b) == Sum(a) + Sum(b)
    decreases |b|
  {
    if b != [] {
      var b' := b[..|b| - 1];
      assert (a + b)[..|a + b| - 1] == a + b';
      SumAppend(a, b');
    } else {
      assert a + b == a;
    }
  }

  /** Adding one item raises the sum by exactly that item's price. */
  lemma SumPush(items: seq<CartItem>, x: CartItem)
    ensures Sum(items + [x]) == Sum(items) + x.service.price
  {
    assert (items + [x])[..|items|] == items;
  }

  predicate PricesPositive(items: seq<CartItem>) {
    forall x :: x in items ==> x.service.price > 0
  }

  /** With positive prices the sum is never negative, and zero only for the empty cart. */
  lemma {:induction false} SumSign(items: seq<CartItem>)
    ensures PricesPositive(items) ==> Sum(items) >= 0
    ensures PricesPositive(items) ==> (Sum(items) == 0 <==> items == [])
  {
    if items != [] {
      var init := items[..|items| - 1];
      assert forall x :: x in init ==> x in items;
      SumSign(init);
      assert items[|items| - 1] in items;
    }
  }

  /** The list `removeFromCart` keeps: the items whose uid differs from `u`, in their order. */
  function RemoveUid(items: seq<CartItem>, u: int): (r: seq<CartItem>)
    ensures |r| <= |items|
    ensures forall i :: 0 <= i < |r| ==> r[i].uid != u
  {
    if items == [] then []
    else if items[0].uid != u then [items[0]] + RemoveUid(items[1..], u)
    else RemoveUid(items[1..], u)
  }

  /** The filter keeps exactly the items whose uid differs from `u`. */
  lemma {:induction false} RemoveUidMembers(items: seq<CartItem>, u: int)
    ensures forall x :: x in RemoveUid(items, u) <==> x in items && x.uid != u
  {
    if items != [] {
      RemoveUidMembers(items[1..], u);
      assert forall x :: x in items <==> x == items[0] || x in items[1..];
    }
  }

  /** Filtering a concatenation filters each part and keeps them in order. */
  lemma {:induction false} RemoveUidAppend(a: seq<CartItem>, b: seq<CartItem>, u: int)
    ensures RemoveUid(a + b, u) == RemoveUid(a, u) + RemoveUid(b, u)
  {
    if a != [] {
      assert (a + b)[0] == a[0];
      assert (a + b)[1..] == a[1..] + b;
      RemoveUidAppend(a[1..], b, u);
    } else {
      assert a + b == b;
    }
  }

  function Uids(items: seq<CartItem>): set<int> {
    set x | x in items :: x.uid
  }

  /** Removing a uid that no item carries leaves the cart as it was. */
  lemma {:induction false} RemoveAbsent(items: seq<CartItem>, u: int)
    requires u !in Uids(items)
    ensures RemoveUid(items, u) == items
  {
    if items != [] {
      assert items[0] in items;
      assert Uids(items[1..]) <= Uids(items) by {
        forall v | v in Uids(items[1..]) ensures v in Uids(items) {
          var x :| x in items[1..] && x.uid == v;
          assert x in items;
        }
      }
      RemoveAbsent(items[1..], u);
    }
  }

  /** Removing the same uid twice is the same as removing it once. */
  lemma RemoveIdempotent(items: seq<CartItem>, u: int)
    ensures RemoveUid(RemoveUid(items, u), u) == RemoveUid(items, u)
  {
    var r := RemoveUid(items, u);
    assert u !in Uids(r) by {
      forall x | x in r ensures x.uid != u {
        var i :| 0 <= i < |r| && r[i] == x;
      }
    }
    RemoveAbsent(r, u);
  }

  /** No two items of the cart share a uid. */
  predicate DistinctUids(items: seq<CartItem>) {
    forall i, j :: 0 <= i < j < |items| ==> items[i].uid != items[j].uid
  }

  /** Filtering keeps the uids of the remaining items distinct. */
  lemma {:induction false} RemoveKeepsDistinct(items: seq<CartItem>, u: int)
    requires DistinctUids(items)
    ensures DistinctUids(RemoveUid(items, u))
  {
    if items != [] {
      var rest := RemoveUid(items[1..], u);
      RemoveKeepsDistinct(items[1..], u);
      RemoveUidMembers(items[1..], u);
      if items[0].uid != u {
        forall x | x in rest ensures x.uid != items[0].uid {
          var k :| 0 <= k < |items[1..]| && items[1..][k] == x;
          assert items[k + 1] == x;
        }
        var r := [items[0]] + rest;
        forall i, j | 0 <= i < j < |r| ensures r[i].uid != r[j].uid {
          if i == 0 {
            assert r[j] == rest[j - 1];
            assert r[j] in rest;
          } else {
            assert r[i] == rest[i - 1] && r[j] == rest[j - 1];
          }
        }
      }
    }
  }

  /** With distinct uids, the uid at position `k` occurs nowhere before or after it. */
  lemma UidOnlyAt(items: seq<CartItem>, k: nat)
    requires DistinctUids(items) && k < |items|
    ensures items[k].uid !in Uids(items[..k])
    ensures items[k].uid !in Uids(items[k + 1..])
  {
    var u := items[k].uid;
    forall x | x in items[..k] ensures x.uid != u {
      var i :| 0 <= i < k && items[..k][i] == x;
    }
    forall x | x in items[k + 1..] ensures x.uid != u {
      var i :| 0 <= i < |items| - k - 1 && items[k + 1..][i] == x;
      assert items[k + 1 + i] == x;
    }
  }

  lemma RemoveSkipsMatch(x: CartItem, rest: seq<CartItem>, u: int)
    requires x.uid == u
    ensures RemoveUid([x] + rest, u) == RemoveUid(rest, u)
  {
    assert ([x] + rest)[1..] == rest;
  }

  /** Filtering out the uid of the middle item, found nowhere else, leaves the two sides. */
  lemma RemoveMiddle(before: seq<CartItem>, x: CartItem, after: seq<CartItem>)
    requires x.uid !in Uids(before) && x.uid !in Uids(after)
    ensures RemoveUid(before + [x] + after, x.uid) == before + after
  {
    var u := x.uid;
    RemoveAbsent(before, u);
    RemoveAbsent(after, u);
    RemoveSkipsMatch(x, after, u);
    assert before + [x] + after == before + ([x] + after);
    RemoveUidAppend(before, [x] + after, u);
  }

  /**
   * When uids are distinct, removing the uid of the item at position `k`
   * removes that item and nothing else.
   */
  lemma RemoveExactlyOne(items: seq<CartItem>, k: nat)
    requires DistinctUids(items) && k < |items|
    ensures RemoveUid(items, items[k].uid) == items[..k] + items[k + 1..]
  {
    UidOnlyAt(items, k);
    assert items == items[..k] + [items[k]] + items[k + 1..];
    RemoveMiddle(items[..k], items[k], items[k + 1..]);
  }

  /** Removing one item by its uid lowers the sum by exactly that item's price. */
  lemma SumAfterRemove(items: seq<CartItem>, k: nat)
    requires DistinctUids(items) && k < |items|
    ensures Sum(RemoveUid(items, items[k].uid)) == Sum(items) - items[k].service.price
  {
    var before, after := items[..k], items[k + 1..];
    RemoveExactlyOne(items, k);
    assert items == (before + [items[k]]) + after;
    SumAppend(before + [items[k]], after);
    SumPush(before, items[k]);
    SumAppend(before, after);
  }

  /** With distinct uids, removing a uid that sits at position `k` drops that one item and its price. */
  lemma RemoveFound(items: seq<CartItem>, u: int)
    requires DistinctUids(items)
    ensures forall k :: 0 <= k < |items| && items[k].uid == u ==>
      RemoveUid(items, u) == items[..k] + items[k + 1..] &&
      Sum(RemoveUid(items, u)) == Sum(items) - items[k].service.price
  {
    forall k | 0 <= k < |items| && items[k].uid == u
      ensures RemoveUid(items, u) == items[..k] + items[k + 1..]
      ensures Sum(RemoveUid(items, u)) == Sum(items) - items[k].service.price
    {
      RemoveExactlyOne(items, k);
      SumAfterRemove(items, k);
    }
  }
}
