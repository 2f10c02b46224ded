/** The shopping-cart ledger: a list of cart lines, one per book, each with a
    quantity; adding, removing and clearing replace the list as a whole. */
module Cart {
  import opened Js

  /** The book fields the cart relies on; the price is the base price in cents. */
  datatype Product = Product(id: string, title: string, price: int)

  /** A line of the cart: the book's fields together with a quantity. */
  datatype CartItem = CartItem(id: string, title: string, price: int, quantity: int)

  /** The line a book gets when it enters the cart. */
  function NewLine(book: Product): CartItem {
    CartItem(book.id, book.title, book.price, 1)
  }

  predicate HasId(items: seq<CartItem>, id: string) {
    exists i :: 0 <= i < |items| && items[i].id == id
  }

  /** `items.find(item => item.id === id)`: the first line with the id. */
  function Find(items: seq<CartItem>, id: string): (r: Option<CartItem>)
    ensures r.None? <==> !HasId(items, id)
  {
    if items == [] then None
    else if items[0].id == id then Some(items[0])
    else
      var r := Find(items[1..], id);
      assert forall i :: 1 <= i < |items| ==> items[i] == items[1..][i - 1];
      r
  }

  /** Every line with the id has its quantity changed by `delta`; the others stay. */
  function Bump(items: seq<CartItem>, id: string, delta: int): (r: seq<CartItem>)
    ensures |r| == |items|
    ensures forall i :: 0 <= i < |items| ==>
      r[i] == if items[i].id == id then items[i].(quantity := items[i].quantity + delta) else items[i]
  {
    if items == [] then []
    else
      var head := if items[0].id == id then items[0].(quantity := items[0].quantity + delta) else items[0];
      [head] + Bump(items[1..], id, delta)
  }

  /** `items.filter(item => item.id !== id)`. */
  function Without(items: seq<CartItem>, id: string): (r: seq<CartItem>)
    ensures |r| <= |items|
    ensures forall i :: 0 <= i < |r| ==> r[i].id != id
  {
    if items == [] then []
    else if items[0].id == id then Without(items[1..], id)
    else [items[0]] + Without(items[1..], id)
  }

  /** `Without` keeps exactly the lines that do not carry the id. */
  lemma {:induction false} WithoutMembers(items: seq<CartItem>, id: string, x: CartItem)
    ensures x in Without(items, id) <==> x in items && x.id != id
  {
    if items != [] {
      WithoutMembers(items[1..], id, x);
      assert x in items <==> x == items[0] || x in items[1..];
    }
  }

  /** `Without` preserves the order of what it keeps: it works piecewise. */
  lemma {:induction false} WithoutAppend(a: seq<CartItem>, b: seq<CartItem>, id: string)
    ensures Without(a + b, id) == Without(a, id) + Without(b, id)
  {
    if a == [] {
      assert a + b == b;
    } else {
      assert (a + b)[1..] == a[1..] + b;
      WithoutAppend(a[1..], b, id);
    }
  }

  /** Filtering out an id no line carries keeps the list as it is. */
  lemma {:induction false} WithoutAbsent(items: seq<CartItem>, id: string)
    requires !HasId(items, id)
    ensures Without(items, id) == items
  {
    if items != [] {
      assert !HasId(items[1..], id) by {
        forall i | 0 <= i < |items[1..]| ensures items[1..][i].id != id {
          assert items[1..][i] == items[i + 1];
        }
      }
      WithoutAbsent(items[1..], id);
    }
  }

  /** `addToCart`: a book already in the cart gets one more copy on every line
      with its id; otherwise a new line with quantity 1 goes at the end. */
  function AddToCart(items: seq<CartItem>, book: Product): (r: seq<CartItem>)
    ensures |r| == |items| + (if HasId(items, book.id) then 0 else 1)
    ensures forall i :: 0 <= i < |items| && items[i].id != book.id ==> r[i] == items[i]
    ensures HasId(r, book.id)
  {
    if Find(items, book.id).Some? then
      var r := Bump(items, book.id, 1);
      assert HasId(r, book.id) by {
        var i :| 0 <= i < |items| && items[i].id == book.id;
        assert r[i].id == book.id;
      }
      r
    else
      var r := items + [NewLine(book)];
      assert r[|items|].id == book.id;
      r
  }

  /** `removeFromCart`: when the first line with the id holds more than one copy,
      every such line loses one; otherwise every line with the id is dropped. */
  function RemoveFromCart(items: seq<CartItem>, id: string): (r: seq<CartItem>)
    ensures |r| <= |items|
    ensures Find(items, id).None? || Find(items, id).value.quantity <= 1 ==>
      forall i :: 0 <= i < |r| ==> r[i].id != id
  {
    var existing := Find(items, id);
    if existing.Some? && existing.value.quantity > 1 then Bump(items, id, -1)
    else Without(items, id)
  }

  /** What one line contributes to the total. */
  function Amount(item: CartItem): int {
    item.price * item.quantity
  }

  /** `cartTotal`: the sum of price times quantity, folded from the left from 0. */
  function Total(items: seq<CartItem>): (r: int)
    ensures (forall i :: 0 <= i < |items| ==> items[i].price >= 0 && items[i].quantity >= 0) ==> r >= 0
  {
    if items == [] then 0
    else Total(items[..|items| - 1]) + Amount(items[|items| - 1])
  }

  /** One copy more or less on a line changes its amount by one price. */
  lemma AmountStep(item: CartItem, delta: int)
    ensures Amount(item.(quantity := item.quantity + delta)) == Amount(item) + delta * item.price
  {
  }

  // ---------------------------------------------------------------- invariant of the ledger

  /** No two lines share an id. */
  predicate UniqueIds(items: seq<CartItem>) {
    forall i, j :: 0 <= i < j < |items| ==> items[i].id != items[j].id
  }

  /** The ledger invariant: one line per book, each with at least one copy. */
  predicate Valid(items: seq<CartItem>) {
    UniqueIds(items) && forall i :: 0 <= i < |items| ==> items[i].quantity >= 1
  }

  /** `Find` returns the line at the first position carrying the id. */
  lemma {:induction false} FindFirst(items: seq<CartItem>, id: string) returns (k: nat)
    requires HasId(items, id)
    ensures k < |items| && items[k].id == id && Find(items, id) == Some(items[k])
    ensures forall i :: 0 <= i < k ==> items[i].id != id
  {
    if items[0].id == id {
      k := 0;
    } else {
      var j :| 0 <= j < |items| && items[j].id == id;
      assert items[1..][j - 1].id == id;
      var k' := FindFirst(items[1..], id);
      k := k' + 1;
      forall i | 0 <= i < k ensures items[i].id != id {
        if i > 0 { assert items[i] == items[1..][i - 1]; }
      }
    }
  }

  // ---------------------------------------------------------------- what each operation does

  /** Adding a book not yet in the cart appends exactly one line, with quantity 1,
      and leaves the existing lines as they were. */
  lemma AddAbsent(items: seq<CartItem>, book: Product)
    requires !HasId(items, book.id)
    ensures AddToCart(items, book) == items + [CartItem(book.id, book.title, book.price, 1)]
  {
  }

  /** Adding a book already in the cart keeps the length, raises the quantity of
      its line(s) by one and leaves every other line unchanged. */
  lemma AddPresent(items: seq<CartItem>, book: Product)
    requires HasId(items, book.id)
    ensures |AddToCart(items, book)| == |items|
    ensures forall i :: 0 <= i < |items| && items[i].id == book.id ==>
      AddToCart(items, book)[i] == items[i].(quantity := items[i].quantity + 1)
    ensures forall i :: 0 <= i < |items| && items[i].id != book.id ==> AddToCart(items, book)[i] == items[i]
  {
  }

  /** Removing an id whose first line holds more than one copy keeps the length
      and takes one copy off the line(s) with that id, and nothing else changes. */
  lemma RemoveDecrements(items: seq<CartItem>, id: string, k: nat)
    requires k < |items| && items[k].id == id && items[k].quantity > 1
    requires forall i :: 0 <= i < k ==> items[i].id != id
    ensures |RemoveFromCart(items, id)| == |items|
    ensures forall i :: 0 <= i < |items| && items[i].id == id ==>
      RemoveFromCart(items, id)[i] == items[i].(quantity := items[i].quantity - 1)
    ensures forall i :: 0 <= i < |items| && items[i].id != id ==> RemoveFromCart(items, id)[i] == items[i]
  {
    var f := FindFirst(items, id);
    if f < k {
    } else if f > k {
    }
  }

  /** Removing an id whose first line holds at most one copy drops every line with
      that id and keeps the others in their order. */
  lemma RemoveDeletes(items: seq<CartItem>, id: string, k: nat)
    requires k < |items| && items[k].id == id && items[k].quantity <= 1
    requires forall i :: 0 <= i < k ==> items[i].id != id
    ensures RemoveFromCart(items, id) == Without(items, id)
    ensures !HasId(RemoveFromCart(items, id), id)
  {
    var f := FindFirst(items, id);
    if f < k {
    } else if f > k {
    }
  }

  /** Removing an id the cart does not hold changes nothing. */
  lemma RemoveAbsent(items: seq<CartItem>, id: string)
    requires !HasId(items, id)
    ensures RemoveFromCart(items, id) == items
  {
    WithoutAbsent(items, id);
  }

  /** Adding a book that was not in the cart and then removing it gives back the
      original list exactly. */
  lemma AddThenRemove(items: seq<CartItem>, book: Product)
    requires !HasId(items, book.id)
    ensures RemoveFromCart(AddToCart(items, book), book.id) == items
  {
    var added := items + [NewLine(book)];
    assert added[|items|].id == book.id;
    assert forall i :: 0 <= i < |items| ==> added[i] == items[i];
    var k := FindFirst(added, book.id);
    assert k == |items|;
    WithoutAppend(items, [NewLine(book)], book.id);
    WithoutAbsent(items, book.id);
  }

  // ---------------------------------------------------------------- the invariant is kept

  lemma AddKeepsValid(items: seq<CartItem>, book: Product)
    requires Valid(items)
    ensures Valid(AddToCart(items, book))
  {
    if !HasId(items, book.id) {
      var r := items + [NewLine(book)];
      forall i, j | 0 <= i < j < |r| ensures r[i].id != r[j].id {
        if j == |items| { assert r[i] == items[i]; }
      }
    }
  }

  lemma RemoveKeepsValid(items: seq<CartItem>, id: string)
    requires Valid(items)
    ensures Valid(RemoveFromCart(items, id))
  {
    if !HasId(items, id) {
      RemoveAbsent(items, id);
    } else {
      var k := FindFirst(items, id);
      if items[k].quantity > 1 {
        forall i | 0 <= i < |items| && items[i].id == id ensures i == k {
          if i < k { } else if i > k { }
        }
      } else {
        WithoutKeepsValid(items, id);
      }
    }
  }

  /** A list is valid exactly when its head has a copy, its id does not come back
      later, and the rest is valid. */
  lemma ValidCons(h: CartItem, t: seq<CartItem>)
    ensures Valid([h] + t) <==> h.quantity >= 1 && !HasId(t, h.id) && Valid(t)
  {
    if Valid([h] + t) {
      ValidTail(h, t);
    }
    if h.quantity >= 1 && !HasId(t, h.id) && Valid(t) {
      ValidPrepend(h, t);
    }
  }

  lemma ValidTail(h: CartItem, t: seq<CartItem>)
    requires Valid([h] + t)
    ensures h.quantity >= 1 && !HasId(t, h.id) && Valid(t)
  {
    var r := [h] + t;
    assert r[0] == h;
    forall i | 0 <= i < |t| ensures t[i].id != h.id && t[i].quantity >= 1 {
      assert t[i] == r[i + 1];
    }
    forall i, j | 0 <= i < j < |t| ensures t[i].id != t[j].id {
      assert t[i] == r[i + 1] && t[j] == r[j + 1];
    }
  }

  lemma ValidPrepend(h: CartItem, t: seq<CartItem>)
    requires h.quantity >= 1 && !HasId(t, h.id) && Valid(t)
    ensures Valid([h] + t)
  {
    var r := [h] + t;
    forall i | 0 < i < |r| ensures r[i] == t[i - 1] { }
  }

  /** Filtering introduces no id that was not there. */
  lemma WithoutHasId(items: seq<CartItem>, id: string, other: string)
    requires HasId(Without(items, id), other)
    ensures HasId(items, other)
  {
    var r := Without(items, id);
    var i :| 0 <= i < |r| && r[i].id == other;
    WithoutMembers(items, id, r[i]);
    var j :| 0 <= j < |items| && items[j] == r[i];
  }

  /** Filtering keeps a list valid. */
  lemma {:induction false} WithoutKeepsValid(items: seq<CartItem>, id: string)
    requires Valid(items)
    ensures Valid(Without(items, id))
  {
    if items != [] {
      var tail := items[1..];
      assert items == [items[0]] + tail;
      ValidCons(items[0], tail);
      WithoutKeepsValid(tail, id);
      if items[0].id != id {
        if HasId(Without(tail, id), items[0].id) {
          WithoutHasId(tail, id, items[0].id);
        }
        ValidCons(items[0], Without(tail, id));
      }
    }
  }

  /** Filtering out the id of a line that stands between two lists without it
      leaves just those two lists. */
  lemma WithoutMiddle(pre: seq<CartItem>, x: CartItem, post: seq<CartItem>)
    requires !HasId(pre, x.id) && !HasId(post, x.id)
    ensures Without(pre + [x] + post, x.id) == pre + post
  {
    WithoutAppend(pre + [x], post, x.id);
    WithoutAppend(pre, [x], x.id);
    assert [x][1..] == [];
    WithoutAbsent(pre, x.id);
    WithoutAbsent(post, x.id);
  }

  /** With unique ids, the id of line `k` occurs on no other line. */
  lemma OnlyLine(items: seq<CartItem>, k: nat)
    requires UniqueIds(items) && k < |items|
    ensures !HasId(items[..k], items[k].id) && !HasId(items[k + 1..], items[k].id)
  {
    var pre, post := items[..k], items[k + 1..];
    forall i | 0 <= i < |pre| ensures pre[i].id != items[k].id { }
    forall i | 0 <= i < |post| ensures post[i].id != items[k].id {
      assert post[i] == items[k + 1 + i];
    }
  }

  /** With unique ids, filtering out the id of line `k` removes exactly that line. */
  lemma WithoutSingle(items: seq<CartItem>, k: nat)
    requires UniqueIds(items) && k < |items|
    ensures Without(items, items[k].id) == items[..k] + items[k + 1..]
  {
    SplitAt(items, k);
    OnlyLine(items, k);
    WithoutMiddle(items[..k], items[k], items[k + 1..]);
  }

  /** A list is the lines before `k`, line `k`, and the lines after it. */
  lemma SplitAt(items: seq<CartItem>, k: nat)
    requires k < |items|
    ensures items == items[..k] + [items[k]] + items[k + 1..]
  {
  }

  // ---------------------------------------------------------------- the total

  /** The total of a concatenation is the sum of the totals. */
  lemma {:induction false} TotalAppend(a: seq<CartItem>, b: seq<CartItem>)
    ensures Total(a + b) == Total(a) + Total(b)
    decreases |b|
  {
    if b == [] {
      assert a + b == a;
    } else {
      var b' := b[..|b| - 1];
      assert (a + b)[..|a + b| - 1] == a + b';
      TotalAppend(a, b');
    }
  }

  /** Replacing one line with another changes the total by the difference. */
  lemma {:induction false} TotalReplace(items: seq<CartItem>, k: nat, x: CartItem)
    requires k < |items|
    ensures Total(items[k := x]) == Total(items) - Amount(items[k]) + Amount(x)
  {
    var pre, post := items[..k], items[k + 1..];
    assert items == pre + [items[k]] + post;
    assert items[k := x] == pre + [x] + post;
    TotalAppend(pre + [items[k]], post);
    TotalAppend(pre + [x], post);
    TotalAppend(pre, [items[k]]);
    TotalAppend(pre, [x]);
  }

  /** When only line `k` carries the id, `Bump` changes only that line. */
  lemma BumpSingle(items: seq<CartItem>, id: string, delta: int, k: nat)
    requires UniqueIds(items) && k < |items| && items[k].id == id
    ensures Bump(items, id, delta) == items[k := items[k].(quantity := items[k].quantity + delta)]
  {
    var r := Bump(items, id, delta);
    forall i | 0 <= i < |items| ensures r[i] == items[k := items[k].(quantity := items[k].quantity + delta)][i] {
      if i < k { } else if i > k { }
    }
  }

  /** Adding one more copy of a book on its only line raises the total by the
      price that line holds. */
  lemma TotalAfterIncrement(items: seq<CartItem>, book: Product, k: nat)
    requires UniqueIds(items) && k < |items| && items[k].id == book.id && Find(items, book.id) == Some(items[k])
    ensures Total(AddToCart(items, book)) == Total(items) + items[k].price
  {
    BumpSingle(items, book.id, 1, k);
    BumpTotal(items, k, 1);
  }

  /** Changing the quantity of line `k` by `delta` changes the total by `delta` prices. */
  lemma BumpTotal(items: seq<CartItem>, k: nat, delta: int)
    requires k < |items|
    ensures Total(items[k := items[k].(quantity := items[k].quantity + delta)]) == Total(items) + delta * items[k].price
  {
    TotalReplace(items, k, items[k].(quantity := items[k].quantity + delta));
    AmountStep(items[k], delta);
  }

  /** Adding a book raises the total by its price, or by the price the cart already
      holds for it. */
  lemma TotalAfterAdd(items: seq<CartItem>, book: Product)
    requires Valid(items)
    ensures !HasId(items, book.id) ==> Total(AddToCart(items, book)) == Total(items) + book.price
    ensures HasId(items, book.id) ==>
      Total(AddToCart(items, book)) == Total(items) + Find(items, book.id).value.price
  {
    if HasId(items, book.id) {
      var k := FindFirst(items, book.id);
      TotalAfterIncrement(items, book, k);
    } else {
      var line := NewLine(book);
      assert AddToCart(items, book) == items + [line];
      TotalAppend(items, [line]);
      TotalSingle(line);
    }
  }

  lemma TotalSingle(x: CartItem)
    ensures Total([x]) == Amount(x)
  {
    assert [x][..0] == [];
  }

  /** The total splits around line `k`. */
  lemma TotalAround(items: seq<CartItem>, k: nat)
    requires k < |items|
    ensures Total(items) == Total(items[..k]) + Amount(items[k]) + Total(items[k + 1..])
  {
    var pre, post := items[..k], items[k + 1..];
    assert items == (pre + [items[k]]) + post;
    TotalAppend(pre + [items[k]], post);
    TotalAppend(pre, [items[k]]);
    TotalSingle(items[k]);
  }

  /** Dropping line `k` lowers the total by that line's amount. */
  lemma TotalDrop(items: seq<CartItem>, k: nat)
    requires k < |items|
    ensures Total(items[..k] + items[k + 1..]) == Total(items) - Amount(items[k])
  {
    TotalAround(items, k);
    TotalAppend(items[..k], items[k + 1..]);
  }

  /** Taking one copy off the only line of a book lowers the total by its price. */
  lemma TotalAfterDecrement(items: seq<CartItem>, id: string, k: nat)
    requires UniqueIds(items) && k < |items| && items[k].id == id && Find(items, id) == Some(items[k])
    requires items[k].quantity > 1
    ensures Total(RemoveFromCart(items, id)) == Total(items) - items[k].price
  {
    BumpSingle(items, id, -1, k);
    BumpTotal(items, k, -1);
  }

  /** Dropping the only line of a book, which holds one copy, lowers the total by
      its price. */
  lemma TotalAfterDelete(items: seq<CartItem>, id: string, k: nat)
    requires UniqueIds(items) && k < |items| && items[k].id == id && Find(items, id) == Some(items[k])
    requires items[k].quantity == 1
    ensures Total(RemoveFromCart(items, id)) == Total(items) - items[k].price
  {
    assert RemoveFromCart(items, id) == items[..k] + items[k + 1..] by {
      WithoutSingle(items, k);
    }
    TotalDrop(items, k);
  }

  /** Removing a book the valid cart holds lowers the total by its price: one copy
      is either taken off its line or was the whole line. */
  lemma TotalAfterRemove(items: seq<CartItem>, id: string)
    requires Valid(items) && HasId(items, id)
    ensures Total(RemoveFromCart(items, id)) == Total(items) - Find(items, id).value.price
  {
    var k := FindFirst(items, id);
    if items[k].quantity > 1 {
      TotalAfterDecrement(items, id, k);
    } else {
      TotalAfterDelete(items, id, k);
    }
  }

  // ---------------------------------------------------------------- the provider

  /** The cart provider: one state cell holding the cart lines. */
  class CartStore {
    var items: seq<CartItem>

    /** The lines start as the stored cart when there is one, and empty otherwise. */
    constructor (stored: Option<seq<CartItem>>)
      ensures items == if stored.Some? then stored.value else []
    {
      items := if stored.Some? then stored.value else [];
    }

    method Add(book: Product)
      modifies this
      ensures items == AddToCart(old(items), book)
      ensures Valid(old(items)) ==> Valid(items)
    {
      if Valid(items) { AddKeepsValid(items, book); }
      items := AddToCart(items, book);
    }

    method Remove(id: string)
      modifies this
      ensures items == RemoveFromCart(old(items), id)
      ensures Valid(old(items)) ==> Valid(items)
    {
      if Valid(items) { RemoveKeepsValid(items, id); }
      items := RemoveFromCart(items, id);
    }

    method Clear()
      modifies this
      ensures items == [] && Total(items) == 0
    {
      items := [];
    }

    /** The effect run when the signed-in user changes: no user empties the cart. */
    method OnUserChange(userPresent: bool)
      modifies this
      ensures !userPresent ==> items == []
      ensures userPresent ==> items == old(items)
    {
      if !userPresent {
        items := [];
      }
    }

    function CartTotal(): int
      reads this
    {
      Total(items)
    }
  }
}
