/**
 * The line items of the cart and the pure computations over them: looking an
 * item up by title (`Array.prototype.find`), dropping a title
 * (`Array.prototype.filter`), clamping a requested quantity, and the price
 * total and item count shown in the page header.
 */
module CartItems {
  import opened Wrappers

  /**
   * One line of the cart as it is persisted under `cartItems`.
   * `price` is the unit price in paise (hundredths of a rupee), so the
   * displayed "Rs.100.00" is 10000 here. `quantity` is whatever was last
   * stored; the cart's own operations keep it at 1 or more.
   */
  datatype Item = Item(title: string, price: nat, imgSrc: string, quantity: int)

  // ---------------------------------------------------------------------------
  // Invariants of a cart
  // ---------------------------------------------------------------------------

  ghost predicate HasTitle(items: seq<Item>, title: string)
  {
    exists i :: 0 <= i < |items| && items[i].title == title
  }

  /** The title is the key of a line item: no two lines share one. */
  ghost predicate UniqueTitles(items: seq<Item>)
  {
    forall i, j :: 0 <= i < j < |items| ==> items[i].title != items[j].title
  }

  ghost predicate QuantitiesPositive(items: seq<Item>)
  {
    forall i :: 0 <= i < |items| ==> items[i].quantity >= 1
  }

  ghost predicate WellFormed(items: seq<Item>)
  {
    UniqueTitles(items) && QuantitiesPositive(items)
  }

  // ---------------------------------------------------------------------------
  // Lookup by title
  // ---------------------------------------------------------------------------

  /** The position of the first line whose title is `title`, if any. */
  ghost function FirstIndex(items: seq<Item>, title: string): (r: Option<nat>)
    ensures r.None? <==> !HasTitle(items, title)
    ensures r.Some? ==> r.value < |items| && items[r.value].title == title
    ensures r.Some? ==> forall j :: 0 <= j < r.value ==> items[j].title != title
  {
    if items == [] then None
    else if items[0].title == title then Some(0)
    else
      match FirstIndex(items[1..], title)
      case None =>
        assert forall i :: 0 < i < |items| ==> items[i] == items[1..][i - 1];
        None
      case Some(k) => Some(k + 1)
  }

  /** `itemList.find(item => item.title === title)`, as the position of the item found. */
  method Find(items: seq<Item>, title: string) returns (r: Option<nat>)
    ensures r == FirstIndex(items, title)
  {
    var i := 0;
    while i < |items|
      invariant 0 <= i <= |items|
      invariant forall j :: 0 <= j < i ==> items[j].title != title
    {
      if items[i].title == title {
        return Some(i);
      }
      i := i + 1;
    }
    return None;
  }

  // ---------------------------------------------------------------------------
  // Removal by title
  // ---------------------------------------------------------------------------

  /** `itemList.filter(item => item.title !== title)`. */
  function Without(items: seq<Item>, title: string): (r: seq<Item>)
    ensures |r| <= |items|
    ensures forall x :: x in r <==> x in items && x.title != title
  {
    if items == [] then []
    else if items[0].title == title then Without(items[1..], title)
    else [items[0]] + Without(items[1..], title)
  }

  /** Filtering works piecewise, so the surviving lines keep their relative order. */
  lemma {:induction false} WithoutAppend(a: seq<Item>, b: seq<Item>, title: string)
    ensures Without(a + b, title) == Without(a, title) + Without(b, title)
  {
    if a == [] {
      assert a + b == b;
    } else {
      assert (a + b)[1..] == a[1..] + b;
      WithoutAppend(a[1..], b, title);
    }
  }

  /** Removing a title that is not in the cart leaves the cart as it was. */
  lemma {:induction false} WithoutAbsent(items: seq<Item>, title: string)
    requires !HasTitle(items, title)
    ensures Without(items, title) == items
  {
    if items != [] {
      assert !HasTitle(items[1..], title) by {
        forall i | 0 <= i < |items[1..]| ensures items[1..][i].title != title {
          assert items[1..][i] == items[i + 1];
        }
      }
      WithoutAbsent(items[1..], title);
    }
  }

  /** In a cart with unique titles, removing a present title deletes exactly its one line. */
  lemma {:induction false} WithoutDeletesOne(items: seq<Item>, i: nat)
    requires UniqueTitles(items) && i < |items|
    ensures Without(items, items[i].title) == items[..i] + items[i + 1..]
  {
    var title := items[i].title;
    var before, after := items[..i], items[i + 1..];
    TitleOnlyAt(items, i);
    assert items == before + [items[i]] + after;
    calc {
      Without(items, title);
      { WithoutAppend(before + [items[i]], after, title); }
      Without(before + [items[i]], title) + Without(after, title);
      { WithoutAppend(before, [items[i]], title); }
      Without(before, title) + Without([items[i]], title) + Without(after, title);
      { WithoutAbsent(before, title); WithoutAbsent(after, title); }
      before + Without([items[i]], title) + after;
      { assert [items[i]][1..] == []; }
      before + after;
    }
  }

  /** With unique titles, line i's title occurs neither before nor after it. */
  lemma TitleOnlyAt(items: seq<Item>, i: nat)
    requires UniqueTitles(items) && i < |items|
    ensures !HasTitle(items[..i], items[i].title) && !HasTitle(items[i + 1..], items[i].title)
  {
  }

  /** Filtering keeps a cart well formed. */
  lemma {:induction false} WithoutWellFormed(items: seq<Item>, title: string)
    requires WellFormed(items)
    ensures WellFormed(Without(items, title))
  {
    if items != [] {
      var tail := items[1..];
      assert WellFormed(tail) by {
        forall i | 0 <= i < |tail| ensures tail[i] == items[i + 1] { }
      }
      WithoutWellFormed(tail, title);
      if items[0].title != title {
        var r := Without(tail, title);
        forall j | 0 <= j < |r| ensures r[j].title != items[0].title {
          assert r[j] in tail;
          var k :| 0 <= k < |tail| && tail[k] == r[j];
          assert tail[k] == items[k + 1];
        }
        assert Without(items, title) == [items[0]] + r;
      }
    }
  }

  // ---------------------------------------------------------------------------
  // Quantity input
  // ---------------------------------------------------------------------------

  /**
   * The quantity stored for a parsed input: `None` is a `NaN` parse. The
   * result is the larger of 1 and the parsed value, and 1 when nothing parsed.
   */
  function ClampQuantity(parsed: Option<int>): (q: int)
    ensures q >= 1
    ensures parsed.Some? ==> q >= parsed.value
    ensures q == 1 || (parsed.Some? && q == parsed.value)
  {
    if parsed.Some? && parsed.value > 0 then parsed.value else 1
  }

  // ---------------------------------------------------------------------------
  // Total price and item count
  // ---------------------------------------------------------------------------

  /** A line's share of the total, in paise. */
  ghost function LineTotal(x: Item): (share: int)
  {
    x.price * x.quantity
  }

  /** Sum of unit price times quantity, in paise, accumulated front to back. */
  ghost function TotalPrice(items: seq<Item>): (total: int)
  {
    if items == [] then 0
    else TotalPrice(items[..|items| - 1]) + LineTotal(items[|items| - 1])
  }

  /** Sum of the quantities. */
  ghost function ItemCount(items: seq<Item>): (count: int)
  {
    if items == [] then 0
    else ItemCount(items[..|items| - 1]) + items[|items| - 1].quantity
  }

  /**
   * The loop of `updateTotal`: the total, the count written to the badge, and
   * whether the badge is displayed.
   */
  method ComputeTotals(items: seq<Item>) returns (total: int, count: int, badge: bool)
    ensures total == TotalPrice(items) && count == ItemCount(items)
    ensures badge <==> count > 0
  {
    total, count := 0, 0;
    var i := 0;
    while i < |items|
      invariant 0 <= i <= |items|
      invariant total == TotalPrice(items[..i]) && count == ItemCount(items[..i])
    {
      assert items[..i + 1][..i] == items[..i];
      total := total + items[i].price * items[i].quantity;
      count := count + items[i].quantity;
      i := i + 1;
    }
    assert items[..|items|] == items;
    badge := count > 0;
  }

  /** Both sums split over a concatenation. */
  lemma {:induction false} TotalsAppend(a: seq<Item>, b: seq<Item>)
    ensures TotalPrice(a + b) == TotalPrice(a) + TotalPrice(b)
    ensures ItemCount(a + b) == ItemCount(a) + ItemCount(b)
  {
    if b == [] {
      assert a + b == a;
    } else {
      var init := b[..|b| - 1];
      assert (a + b)[..|a + b| - 1] == a + init;
      TotalsAppend(a, init);
    }
  }

  /** Adding a new line with quantity 1 adds its unit price to the total and 1 to the count. */
  lemma TotalsAddLine(items: seq<Item>, x: Item)
    requires x.quantity == 1
    ensures TotalPrice(items + [x]) == TotalPrice(items) + x.price
    ensures ItemCount(items + [x]) == ItemCount(items) + 1
  {
  }

  /** Setting one line's quantity moves the sums by that line's difference only. */
  lemma TotalsSetQuantity(items: seq<Item>, i: nat, q: int)
    requires i < |items|
    ensures var x := items[i];
      var y := x.(quantity := q);
      && TotalPrice(items[i := y]) == TotalPrice(items) - LineTotal(x) + LineTotal(y)
      && ItemCount(items[i := y]) == ItemCount(items) - x.quantity + q
  {
    var x, y := items[i], items[i].(quantity := q);
    var before, after := items[..i], items[i + 1..];
    Splice(items, i, x);
    assert items[i := x] == items;
    Splice(items, i, y);
    TotalsAround(before, x, after);
    TotalsAround(before, y, after);
  }

  /** Replacing line i is splicing a new line between the lines before and after it. */
  lemma Splice(items: seq<Item>, i: nat, y: Item)
    requires i < |items|
    ensures items[i := y] == items[..i] + [y] + items[i + 1..]
  {
  }

  /** The sums of a list split around one of its lines. */
  lemma TotalsAround(before: seq<Item>, x: Item, after: seq<Item>)
    ensures TotalPrice(before + [x] + after) == TotalPrice(before) + LineTotal(x) + TotalPrice(after)
    ensures ItemCount(before + [x] + after) == ItemCount(before) + x.quantity + ItemCount(after)
  {
    TotalsAppend(before + [x], after);
    TotalsAppend(before, [x]);
    assert [x][..0] == [];
  }

  /** Removing a title from a cart with unique titles subtracts exactly that line's share. */
  lemma TotalsRemoveLine(items: seq<Item>, i: nat)
    requires UniqueTitles(items) && i < |items|
    ensures var rest := Without(items, items[i].title);
      && TotalPrice(rest) == TotalPrice(items) - LineTotal(items[i])
      && ItemCount(rest) == ItemCount(items) - items[i].quantity
  {
    var before, after := items[..i], items[i + 1..];
    WithoutDeletesOne(items, i);
    assert items == before + [items[i]] + after;
    TotalsAround(before, items[i], after);
    TotalsAppend(before, after);
  }

  /**
   * With every quantity at least 1, the count is at least the number of
   * lines and the total is never negative; so the badge shows exactly when
   * the cart is not empty.
   */
  lemma {:induction false} CountBounds(items: seq<Item>)
    requires QuantitiesPositive(items)
    ensures ItemCount(items) >= |items| && TotalPrice(items) >= 0
    ensures ItemCount(items) > 0 <==> items != []
  {
    if items != [] {
      var init := items[..|items| - 1];
      assert QuantitiesPositive(init) by {
        forall j | 0 <= j < |init| ensures init[j] == items[j] { }
      }
      CountBounds(init);
    }
  }
}
