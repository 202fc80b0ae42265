/**
 * The cart as the cart page holds it, and the two array operations that
 * `removeCartItem` applies to a copy of it: `findIndex` on the product id and
 * `splice(index, 1)`. Both follow the ECMAScript definitions of
 * `Array.prototype.findIndex` and `Array.prototype.splice`, including the
 * negative start that `splice` counts from the end of the array.
 */
module Cart {

  /** A product reference held in the cart; `id` is the product's `_id`. */
  datatype Item = Item(id: string, name: string, description: string, price: string)

  /** Some item of the cart carries the product id `pid`. */
  predicate HasId(cart: seq<Item>, pid: string) {
    exists i :: 0 <= i < |cart| && cart[i].id == pid
  }

  /** `cart.findIndex((item) => item._id === pid)`: the first matching index, or -1. */
  function FindIndex(cart: seq<Item>, pid: string): (r: int)
    ensures -1 <= r < |cart|
    ensures r == -1 <==> !HasId(cart, pid)
    ensures 0 <= r ==> cart[r].id == pid && forall i :: 0 <= i < r ==> cart[i].id != pid
  {
    if |cart| == 0 then -1
    else if cart[0].id == pid then 0
    else
      var r := FindIndex(cart[1..], pid);
      assert forall i :: 1 <= i < |cart| ==> cart[i] == cart[1..][i - 1];
      if r == -1 then -1 else r + 1
  }

  /** Where `splice(start, ...)` begins on an array of length `len`: a negative
      start counts back from the end, and both ends are clamped. */
  function SpliceStart(len: nat, start: int): (s: nat)
    ensures s <= len
    ensures 0 <= start <= len ==> s == start
    ensures -(len as int) <= start < 0 ==> s == len + start
  {
    if start < 0 then (if len + start < 0 then 0 else len + start)
    else if start > len then len
    else start
  }

  /** How many elements `splice(start, deleteCount)` removes: `deleteCount`
      clamped to what lies between the actual start and the end. */
  function SpliceCount(len: nat, start: int, deleteCount: int): (c: nat)
    ensures SpliceStart(len, start) + c <= len
    ensures 0 <= deleteCount && SpliceStart(len, start) + deleteCount <= len ==> c == deleteCount
  {
    var s := SpliceStart(len, start);
    if deleteCount < 0 then 0
    else if deleteCount > len - s then len - s
    else deleteCount
  }

  /** The array left behind by `a.splice(start, deleteCount)` (no items inserted). */
  function SpliceDelete<T>(a: seq<T>, start: int, deleteCount: int): (r: seq<T>)
    ensures |r| == |a| - SpliceCount(|a|, start, deleteCount)
    ensures r[..SpliceStart(|a|, start)] == a[..SpliceStart(|a|, start)]
  {
    var s := SpliceStart(|a|, start);
    a[..s] + a[s + SpliceCount(|a|, start, deleteCount)..]
  }

  /** The cart that `removeCartItem(pid)` leaves: `splice(findIndex(...), 1)`. */
  function RemovedCart(cart: seq<Item>, pid: string): seq<Item> {
    SpliceDelete(cart, FindIndex(cart, pid), 1)
  }

  /** The index that `removeCartItem(pid)` drops from a non-empty cart: the
      first match, or the last item when no item matches. */
  function RemovedIndex(cart: seq<Item>, pid: string): (k: nat)
    requires |cart| > 0
    ensures k < |cart|
    ensures HasId(cart, pid) ==> cart[k].id == pid && forall i :: 0 <= i < k ==> cart[i].id != pid
    ensures !HasId(cart, pid) ==> k == |cart| - 1
  {
    var r := FindIndex(cart, pid);
    if r == -1 then |cart| - 1 else r
  }

  /** Reference meaning of "remove the first item whose id is `pid`". */
  function DeleteFirst(cart: seq<Item>, pid: string): seq<Item> {
    if |cart| == 0 then []
    else if cart[0].id == pid then cart[1..]
    else [cart[0]] + DeleteFirst(cart[1..], pid)
  }

  /** The number of items of the cart whose id is `pid`. */
  function CountId(cart: seq<Item>, pid: string): nat {
    if |cart| == 0 then 0
    else (if cart[0].id == pid then 1 else 0) + CountId(cart[1..], pid)
  }

  /** Splicing one element at a valid index drops exactly that element. */
  lemma SpliceOneAt<T>(a: seq<T>, k: int)
    requires 0 <= k < |a|
    ensures SpliceDelete(a, k, 1) == a[..k] + a[k + 1..]
  {
  }

  /** `splice(-1, 1)` drops the last element of a non-empty array. */
  lemma SpliceMinusOne<T>(a: seq<T>)
    requires |a| > 0
    ensures SpliceDelete(a, -1, 1) == a[..|a| - 1]
  {
  }

  /** Splicing an empty array leaves it empty, whatever the arguments. */
  lemma SpliceOnEmpty<T>(a: seq<T>, start: int, deleteCount: int)
    requires a == []
    ensures SpliceDelete(a, start, deleteCount) == []
  {
  }

  /** Removal drops exactly one item from a non-empty cart, at `RemovedIndex`,
      and keeps every other item in its relative order. */
  lemma RemoveDropsOne(cart: seq<Item>, pid: string)
    requires |cart| > 0
    ensures RemovedCart(cart, pid) == cart[..RemovedIndex(cart, pid)] + cart[RemovedIndex(cart, pid) + 1..]
  {
    var r := FindIndex(cart, pid);
    if r == -1 {
      SpliceMinusOne(cart);
      assert cart[|cart|..] == [];
    } else {
      SpliceOneAt(cart, r);
    }
  }

  /** When some item has id `pid`, exactly the first such item is removed. */
  lemma RemoveFirstMatch(cart: seq<Item>, pid: string, k: nat)
    requires k < |cart| && cart[k].id == pid
    requires forall i :: 0 <= i < k ==> cart[i].id != pid
    ensures RemovedCart(cart, pid) == cart[..k] + cart[k + 1..]
  {
    assert HasId(cart, pid);
    RemoveDropsOne(cart, pid);
  }

  /** When no item has id `pid`, a non-empty cart loses its last item:
      `findIndex` yields -1 and `splice(-1, 1)` counts from the end. */
  lemma RemoveAbsentDropsLast(cart: seq<Item>, pid: string)
    requires |cart| > 0 && !HasId(cart, pid)
    ensures FindIndex(cart, pid) == -1
    ensures RemovedCart(cart, pid) == cart[..|cart| - 1]
  {
    RemoveDropsOne(cart, pid);
    assert cart[|cart|..] == [];
  }

  /** A non-empty cart shrinks by one; an empty cart stays empty. */
  lemma RemoveLength(cart: seq<Item>, pid: string)
    ensures |RemovedCart(cart, pid)| == if |cart| == 0 then 0 else |cart| - 1
    ensures cart == [] ==> RemovedCart(cart, pid) == []
  {
    if |cart| > 0 {
      RemoveDropsOne(cart, pid);
    } else {
      SpliceOnEmpty(cart, FindIndex(cart, pid), 1);
    }
  }

  /** Dropping the first match at `k` is what `DeleteFirst` does. */
  lemma {:induction false} DeleteFirstAt(cart: seq<Item>, pid: string, k: nat)
    requires k < |cart| && cart[k].id == pid
    requires forall i :: 0 <= i < k ==> cart[i].id != pid
    ensures DeleteFirst(cart, pid) == cart[..k] + cart[k + 1..]
  {
    if k > 0 {
      var tail := cart[1..];
      assert forall i :: 0 <= i < k - 1 ==> tail[i] == cart[i + 1];
      DeleteFirstAt(tail, pid, k - 1);
      assert cart[..k] == [cart[0]] + tail[..k - 1];
      assert cart[k + 1..] == tail[k..];
    }
  }

  /** `DeleteFirst` changes nothing when no item has id `pid`. */
  lemma {:induction false} DeleteFirstAbsent(cart: seq<Item>, pid: string)
    requires !HasId(cart, pid)
    ensures DeleteFirst(cart, pid) == cart
  {
    if |cart| > 0 {
      var tail := cart[1..];
      assert !HasId(tail, pid) by {
        forall i | 0 <= i < |tail| ensures tail[i].id != pid {
          assert tail[i] == cart[i + 1];
        }
      }
      DeleteFirstAbsent(tail, pid);
      assert cart == [cart[0]] + tail;
    }
  }

  /** With a matching item present, `removeCartItem` agrees with the reference
      "delete the first occurrence"; with none present it does not: it drops
      the last item where the reference removes nothing. */
  lemma RemoveAgreesWithReference(cart: seq<Item>, pid: string)
    ensures HasId(cart, pid) ==> RemovedCart(cart, pid) == DeleteFirst(cart, pid)
    ensures !HasId(cart, pid) ==> DeleteFirst(cart, pid) == cart
    ensures !HasId(cart, pid) && |cart| > 0 ==> RemovedCart(cart, pid) != DeleteFirst(cart, pid)
  {
    if HasId(cart, pid) {
      var k := FindIndex(cart, pid);
      RemoveFirstMatch(cart, pid, k);
      DeleteFirstAt(cart, pid, k);
    } else {
      DeleteFirstAbsent(cart, pid);
      if |cart| > 0 {
        RemoveLength(cart, pid);
      }
    }
  }

  /** Counting distributes over concatenation. */
  lemma {:induction false} CountIdAppend(a: seq<Item>, b: seq<Item>, pid: string)
    ensures CountId(a + b, pid) == CountId(a, pid) + CountId(b, pid)
  {
    if |a| == 0 {
      assert a + b == b;
    } else {
      assert (a + b)[0] == a[0];
      assert (a + b)[1..] == a[1..] + b;
      CountIdAppend(a[1..], b, pid);
    }
  }

  /** Dropping the item at `k` lowers the count by one exactly when it matches. */
  lemma CountIdDrop(cart: seq<Item>, pid: string, k: nat)
    requires k < |cart|
    ensures CountId(cart[..k] + cart[k + 1..], pid) + (if cart[k].id == pid then 1 else 0) == CountId(cart, pid)
  {
    assert cart == cart[..k] + ([cart[k]] + cart[k + 1..]);
    CountIdAppend(cart[..k], [cart[k]] + cart[k + 1..], pid);
    assert ([cart[k]] + cart[k + 1..])[1..] == cart[k + 1..];
    CountIdAppend(cart[..k], cart[k + 1..], pid);
  }

  /** A cart without a matching item counts none. */
  lemma {:induction false} CountIdAbsent(cart: seq<Item>, pid: string)
    requires !HasId(cart, pid)
    ensures CountId(cart, pid) == 0
  {
    if |cart| > 0 {
      var tail := cart[1..];
      assert !HasId(tail, pid) by {
        forall i | 0 <= i < |tail| ensures tail[i].id != pid {
          assert tail[i] == cart[i + 1];
        }
      }
      CountIdAbsent(tail, pid);
    }
  }

  /** Only one item with id `pid` is removed: later duplicates stay in the cart. */
  lemma RemoveCountsOne(cart: seq<Item>, pid: string)
    ensures HasId(cart, pid) ==> CountId(RemovedCart(cart, pid), pid) == CountId(cart, pid) - 1
    ensures !HasId(cart, pid) ==> CountId(RemovedCart(cart, pid), pid) == 0
  {
    if |cart| > 0 {
      var k := RemovedIndex(cart, pid);
      RemoveDropsOne(cart, pid);
      CountIdDrop(cart, pid, k);
      if !HasId(cart, pid) {
        CountIdAbsent(cart, pid);
      }
    }
  }

  /** The removed cart together with the dropped item is the original multiset
      of items: removal loses one item and invents none. */
  lemma RemovePermutes(cart: seq<Item>, pid: string)
    requires |cart| > 0
    ensures multiset(RemovedCart(cart, pid)) + multiset{cart[RemovedIndex(cart, pid)]} == multiset(cart)
  {
    var k := RemovedIndex(cart, pid);
    RemoveDropsOne(cart, pid);
    assert cart == cart[..k] + [cart[k]] + cart[k + 1..];
  }
}
