/** The shopping cart: an ordered list of captured items, appended with
    `push`, shortened with `splice(idx, 1)`, and re-rendered after every
    change as one row per item plus a displayed total. */
module CartModel {
  import opened JsValues
  import opened Shapes

  /** What a card's "Add to Cart" control captures when the card is rendered. */
  datatype CartItem = CartItem(id: Value, name: Value, price: Value)

  /** A rendered cart row: the item it shows and the index its remove control
      passes to removeFromCart. */
  datatype Row = Row(item: CartItem, removeIndex: nat)

  /** An item's contribution to the total, `Number(it.price || 0)`. */
  function PriceOf(it: CartItem): (r: Number)
    ensures !Truthy(it.price) ==> r == Int(0)
    ensures it.price.Num? && it.price.n.Int? ==> r == it.price.n
  {
    ToNumber(Or(it.price, Num(Int(0))))
  }

  /** `items.reduce((sum, it) => sum + Number(it.price || 0), 0)`, a left fold. */
  function Total(items: seq<CartItem>): (r: Number)
    ensures |items| == 1 ==> r == PriceOf(items[0])
  {
    if items == [] then Int(0)
    else Add(Total(items[..|items| - 1]), PriceOf(items[|items| - 1]))
  }

  /** A cart whose prices are all missing or falsy totals 0. */
  lemma {:induction false} TotalUnpriced(items: seq<CartItem>)
    requires forall k :: 0 <= k < |items| ==> !Truthy(items[k].price)
    ensures Total(items) == Int(0)
  {
    if items != [] {
      var init := items[..|items| - 1];
      assert forall k :: 0 <= k < |init| ==> init[k] == items[k];
      TotalUnpriced(init);
    }
  }

  /** Appending an item raises the total by that item's price. */
  lemma TotalAppend(items: seq<CartItem>, x: CartItem)
    ensures Total(items + [x]) == Add(Total(items), PriceOf(x))
  {
    assert (items + [x])[..|items|] == items;
  }

  /** Removing the item at `i` lowers the total by that item's price, whatever
      its position. */
  lemma {:induction false} TotalRemove(items: seq<CartItem>, i: nat)
    requires i < |items|
    ensures Total(items) == Add(Total(items[..i] + items[i + 1..]), PriceOf(items[i]))
  {
    var n := |items|;
    var init := items[..n - 1];
    if i == n - 1 {
      assert items[..i] + items[i + 1..] == init;
    } else {
      TotalRemove(init, i);
      var rest := init[..i] + init[i + 1..];
      var last := items[n - 1];
      assert items[..i] + items[i + 1..] == rest + [last];
      TotalAppend(rest, last);
      assert init[i] == items[i];
      assert Total(items) == Add(Total(init), PriceOf(last));
      assert Total(init) == Add(Total(rest), PriceOf(items[i]));
      assert Total(rest + [last]) == Add(Total(rest), PriceOf(last));
    }
  }

  /** The total is a number exactly when every item's price converts to one;
      a single NaN price makes the whole total NaN. */
  lemma {:induction false} TotalIsInt(items: seq<CartItem>)
    ensures Total(items).Int? <==> forall k :: 0 <= k < |items| ==> PriceOf(items[k]).Int?
  {
    if items != [] {
      var init := items[..|items| - 1];
      TotalIsInt(init);
      assert forall k :: 0 <= k < |init| ==> init[k] == items[k];
    }
  }

  // ---------------------------------------------------------------------
  // Array.prototype.splice(start, 1)
  // ---------------------------------------------------------------------

  /** The position `splice` starts at: a negative start counts from the end,
      and the result is clamped to `[0, len]`. */
  function SpliceStart(len: nat, start: int): (k: nat)
    ensures k <= len
    ensures 0 <= start <= len ==> k == start
    ensures start > len ==> k == len
    ensures -(len as int) <= start < 0 ==> k == len + start
    ensures start < -(len as int) ==> k == 0
  {
    if start < 0 then (if len + start < 0 then 0 else len + start)
    else if start > len then len
    else start
  }

  /** `s.splice(start, 1)` applied to `s`: the element at the start position is
      removed when there is one. */
  function Splice<T>(s: seq<T>, start: int): (r: seq<T>)
    ensures var k := SpliceStart(|s|, start);
      if k < |s| then |r| == |s| - 1 && (forall j :: 0 <= j < k ==> r[j] == s[j])
                      && (forall j :: k <= j < |r| ==> r[j] == s[j + 1])
      else r == s
  {
    var k := SpliceStart(|s|, start);
    if k < |s| then s[..k] + s[k + 1..] else s
  }

  /** In range, splice removes exactly the element at `i`, keeping the others in order. */
  lemma SpliceInRange<T>(s: seq<T>, i: int)
    requires 0 <= i < |s|
    ensures Splice(s, i) == s[..i] + s[i + 1..]
    ensures multiset(Splice(s, i)) + multiset{s[i]} == multiset(s)
  {
    assert s == s[..i] + [s[i]] + s[i + 1..];
  }

  /** An index at or past the end changes nothing. */
  lemma SpliceOutOfRange<T>(s: seq<T>, i: int)
    requires i >= |s|
    ensures Splice(s, i) == s
  {
  }

  /** Adding the same item twice gives two entries; removing either leaves the other. */
  lemma AddTwiceKeepsBoth(s: seq<CartItem>, x: CartItem)
    ensures var t := s + [x] + [x];
      |t| == |s| + 2 && t[|s|] == x && t[|s| + 1] == x
      && multiset(t)[x] == multiset(s)[x] + 2
      && Splice(t, |s|) == s + [x] && Splice(t, |s| + 1) == s + [x]
  {
    var t := s + [x] + [x];
    assert Splice(t, |s|) == t[..|s|] + t[|s| + 1..];
    assert t[..|s|] == s && t[|s| + 1..] == [x];
    assert t[..|s| + 1] == s + [x];
  }

  /** `rows` is the cart's rendering: one row per item, in cart order, and row
      `i`'s remove control targets index `i`. */
  ghost predicate RowsShow(rows: seq<Row>, items: seq<CartItem>) {
    |rows| == |items| && forall i :: 0 <= i < |rows| ==> rows[i] == Row(items[i], i)
  }

  /** Every index captured by a rendered row is in range and names the row's own item. */
  lemma RowTargetsInRange(rows: seq<Row>, items: seq<CartItem>, r: nat)
    requires RowsShow(rows, items) && r < |rows|
    ensures rows[r].removeIndex < |items| && items[rows[r].removeIndex] == rows[r].item
    ensures Splice(items, rows[r].removeIndex) == items[..r] + items[r + 1..]
  {
    SpliceInRange(items, r);
  }

  /** The cart, its rendered rows and its rendered total. */
  class Cart {
    var items: seq<CartItem>
    var rows: seq<Row>
    var total: Number
    var totalText: string

    /** The rendering matches the cart: rows in order and the sum of prices. */
    ghost predicate Valid()
      reads this
    {
      RowsShow(rows, items) && total == Total(items) && totalText == Money(Num(total))
    }

    /** An empty cart, displayed as such. */
    constructor ()
      ensures Valid() && items == []
    {
      items := [];
      rows := [];
      total := Int(0);
      totalText := Money(Num(Int(0)));
    }

    /** renderCart: rebuild the rows and recompute the total. */
    method RenderCart()
      modifies this`rows, this`total, this`totalText
      ensures Valid()
    {
      rows := [];
      var i := 0;
      while i < |items|
        invariant 0 <= i <= |items|
        invariant RowsShow(rows, items[..i])
      {
        rows := rows + [Row(items[i], i)];
        i := i + 1;
      }
      assert items[..i] == items;
      var sum := Int(0);
      i := 0;
      while i < |items|
        invariant 0 <= i <= |items|
        invariant sum == Total(items[..i])
      {
        assert items[..i + 1][..i] == items[..i];
        sum := Add(sum, PriceOf(items[i]));
        i := i + 1;
      }
      assert items[..i] == items;
      total := sum;
      totalText := Money(Num(total));
    }

    /** addToCart: append the item and re-render. */
    method AddToCart(item: CartItem)
      requires Valid()
      modifies this
      ensures Valid()
      ensures items == old(items) + [item]
      ensures total == Add(old(total), PriceOf(item))
    {
      items := items + [item];
      RenderCart();
      TotalAppend(old(items), item);
    }

    /** removeFromCart: `splice(idx, 1)` and re-render. */
    method RemoveFromCart(idx: int)
      requires Valid()
      modifies this
      ensures Valid()
      ensures items == Splice(old(items), idx)
      ensures 0 <= idx < |old(items)| ==> items == old(items)[..idx] + old(items)[idx + 1..]
                                          && Add(total, PriceOf(old(items)[idx])) == old(total)
      ensures idx >= |old(items)| ==> items == old(items) && total == old(total)
    {
      items := Splice(items, idx);
      RenderCart();
      if 0 <= idx < |old(items)| {
        SpliceInRange(old(items), idx);
        TotalRemove(old(items), idx);
      }
    }

    /** A click on the remove control of rendered row `r`. */
    method ClickRemove(r: nat)
      requires Valid() && r < |rows|
      modifies this
      ensures Valid()
      ensures items == old(items)[..r] + old(items)[r + 1..]
      ensures |items| == |old(items)| - 1
    {
      RowTargetsInRange(rows, items, r);
      RemoveFromCart(rows[r].removeIndex);
    }
  }
}
