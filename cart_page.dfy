/**
 * The cart page's line selection: the selected line keys after loading, the
 * checkbox toggle, select-all / deselect-all, the total of the selected lines,
 * and the checkout guard that sends the selection to the order service.
 * Each updater returns a new selection, as the page's state setters do.
 */
module CartPage {
  import opened Shop
  import OrderService

  /** No key occurs twice. */
  predicate NoDuplicates(s: seq<int>) {
    forall i, j :: 0 <= i < j < |s| ==> s[i] != s[j]
  }

  /** What the page keeps: no key twice, and only keys of the displayed lines. */
  predicate SelectionOk(sel: seq<int>, items: seq<CartItem>) {
    NoDuplicates(sel) && forall x :: x in sel ==> x in LineIds(items)
  }

  /** After the cart's lines are loaded, every line is selected, in cart order. */
  function LoadSelection(items: seq<CartItem>): (sel: seq<int>)
    ensures |sel| == |items|
    ensures forall i :: 0 <= i < |items| ==> sel[i] == items[i].id
    ensures DistinctIds(items) ==> SelectionOk(sel, items)
  {
    LineIds(items)
  }

  /** The selection with every occurrence of `id` removed, the rest in order. */
  function Without(sel: seq<int>, id: int): (r: seq<int>)
    ensures id !in r
    ensures forall x :: x != id ==> (x in r <==> x in sel)
    ensures |r| <= |sel|
  {
    if sel == [] then []
    else (if sel[0] == id then [] else [sel[0]]) + Without(sel[1..], id)
  }

  /** Removing a key takes away all its occurrences and no other key's. */
  lemma {:induction false} WithoutCounts(sel: seq<int>, id: int)
    ensures multiset(Without(sel, id)) == multiset(sel)[id := 0]
  {
    if sel != [] {
      WithoutCounts(sel[1..], id);
      assert sel == [sel[0]] + sel[1..];
    }
  }

  /** The checkbox handler: a selected key is removed, an unselected one appended. */
  function Toggle(sel: seq<int>, id: int): (r: seq<int>)
    ensures id in sel ==> id !in r && multiset(r) == multiset(sel)[id := 0]
    ensures id !in sel ==> r == sel + [id]
    ensures forall x :: x != id ==> (x in r <==> x in sel)
  {
    if id in sel then
      WithoutCounts(sel, id);
      Without(sel, id)
    else sel + [id]
  }

  /** Removing a key that is not there changes nothing. */
  lemma {:induction false} WithoutAbsent(sel: seq<int>, id: int)
    requires id !in sel
    ensures Without(sel, id) == sel
  {
    if sel != [] {
      WithoutAbsent(sel[1..], id);
    }
  }

  /**
   * Toggling twice restores the selection exactly when the key was not
   * selected, and restores it up to order when it was selected once.
   */
  lemma ToggleTwice(sel: seq<int>, id: int)
    ensures id !in sel ==> Toggle(Toggle(sel, id), id) == sel
    ensures multiset(sel)[id] <= 1 ==> multiset(Toggle(Toggle(sel, id), id)) == multiset(sel)
  {
    if id !in sel {
      assert id in sel + [id];
      WithoutAbsent(sel, id);
      assert Without(sel + [id], id) == Without(sel, id) + Without([id], id) by {
        WithoutAppend(sel, [id], id);
      }
    } else {
      assert multiset(Toggle(sel, id)) == multiset(sel)[id := 0];
    }
  }

  lemma {:induction false} WithoutAppend(a: seq<int>, b: seq<int>, id: int)
    ensures Without(a + b, id) == Without(a, id) + Without(b, id)
  {
    if a == [] {
      assert a + b == b;
    } else {
      var head := if a[0] == id then [] else [a[0]];
      calc {
        Without(a + b, id);
        { assert (a + b)[0] == a[0] && (a + b)[1..] == a[1..] + b; }
        head + Without(a[1..] + b, id);
        { WithoutAppend(a[1..], b, id); }
        head + (Without(a[1..], id) + Without(b, id));
        (head + Without(a[1..], id)) + Without(b, id);
      }
    }
  }

  /** Toggling a displayed line's key keeps the selection well formed. */
  lemma ToggleKeepsSelectionOk(sel: seq<int>, items: seq<CartItem>, id: int)
    requires SelectionOk(sel, items) && id in LineIds(items)
    ensures SelectionOk(Toggle(sel, id), items)
  {
    var r := Toggle(sel, id);
    if id in sel {
      forall i, j | 0 <= i < j < |r| ensures r[i] != r[j] {
        if r[i] == r[j] {
          assert multiset(r)[r[i]] >= 2 by {
            assert r == r[..i] + [r[i]] + r[i + 1..j] + [r[j]] + r[j + 1..];
          }
          MultisetAtMostOnce(sel, r[i]);
          assert false;
        }
      }
    }
  }

  /** A key occurs at most once in a selection without duplicates. */
  lemma {:induction false} MultisetAtMostOnce(s: seq<int>, x: int)
    requires NoDuplicates(s)
    ensures multiset(s)[x] <= 1
  {
    if s != [] {
      MultisetAtMostOnce(s[1..], x);
      assert s == [s[0]] + s[1..];
      if s[0] == x {
        assert x !in s[1..];
      }
    }
  }

  /** The select-all button: clear when as many keys as lines are selected, else select all lines. */
  function SelectAll(sel: seq<int>, items: seq<CartItem>): (r: seq<int>)
    ensures |sel| == |items| ==> r == []
    ensures |sel| != |items| ==> r == LoadSelection(items)
  {
    if |sel| == |items| then [] else LoadSelection(items)
  }

  /**
   * On a well-formed selection the length test means "every line is
   * selected", so select-all deselects everything exactly when everything is
   * selected, and otherwise selects every line.
   */
  lemma SelectAllDeselectsIffAllSelected(sel: seq<int>, items: seq<CartItem>)
    requires DistinctIds(items) && SelectionOk(sel, items)
    ensures |sel| == |items| <==> forall l :: l in items ==> l.id in sel
    ensures SelectAll(sel, items) == [] <==> items == [] || forall l :: l in items ==> l.id in sel
  {
    var ids := LineIds(items);
    var s := set x | x in sel;
    var t := set x | x in ids;
    NoDuplicatesCard(sel);
    NoDuplicatesCard(ids);
    assert s <= t;
    if |sel| == |items| {
      SubsetOfSameSize(s, t);
      forall l | l in items ensures l.id in sel {
        var i :| 0 <= i < |items| && items[i] == l;
        assert ids[i] in t;
      }
    }
    if forall l :: l in items ==> l.id in sel {
      forall x | x in t ensures x in s {
        var i :| 0 <= i < |ids| && ids[i] == x;
        assert items[i] in items;
      }
      assert s == t;
    }
  }

  lemma {:induction false} NoDuplicatesCard(s: seq<int>)
    requires NoDuplicates(s)
    ensures |set x | x in s| == |s|
  {
    if s != [] {
      NoDuplicatesCard(s[1..]);
      assert (set x | x in s) == {s[0]} + (set x | x in s[1..]);
      assert s[0] !in s[1..];
    }
  }

  lemma SubsetOfSameSize(s: set<int>, t: set<int>)
    requires s <= t && |s| == |t|
    ensures s == t
  {
    assert t == s + (t - s);
    assert |t| == |s| + |t - s|;
    assert |t - s| == 0;
  }

  /** calculateTotal: price times quantity summed over the lines whose key is selected. */
  function CalculateTotal(items: seq<CartItem>, sel: seq<int>): (total: int)
    ensures total == MaskedTotal(items, sel)
    ensures sel == [] ==> total == 0
  {
    TotalCountsSelectedLinesOnly(items, sel);
    LinesTotal(LinesWithIds(items, sel))
  }

  /** The total line by line: a selected line adds its price times quantity, an unselected line nothing. */
  function MaskedTotal(items: seq<CartItem>, sel: seq<int>): int {
    if items == [] then 0
    else (if items[0].id in sel then LineTotal(items[0]) else 0) + MaskedTotal(items[1..], sel)
  }

  /** The filtered total agrees with the line-by-line total: unselected lines contribute nothing. */
  lemma {:induction false} TotalCountsSelectedLinesOnly(items: seq<CartItem>, sel: seq<int>)
    ensures LinesTotal(LinesWithIds(items, sel)) == MaskedTotal(items, sel)
  {
    if items != [] {
      TotalCountsSelectedLinesOnly(items[1..], sel);
      var head := if items[0].id in sel then [items[0]] else [];
      LinesTotalAppend(head, LinesWithIds(items[1..], sel));
    }
  }

  /** The total only depends on which keys are selected, not on their order or repetition. */
  lemma {:induction false} MaskedTotalBySet(items: seq<CartItem>, a: seq<int>, b: seq<int>)
    requires forall x :: x in a <==> x in b
    ensures MaskedTotal(items, a) == MaskedTotal(items, b)
  {
    if items != [] {
      MaskedTotalBySet(items[1..], a, b);
    }
  }

  /** Right after loading, the total is that of the whole cart. */
  lemma LoadedTotal(items: seq<CartItem>)
    ensures LinesWithIds(items, LoadSelection(items)) == items
    ensures CalculateTotal(items, LoadSelection(items)) == LinesTotal(items)
  {
    var sel := LoadSelection(items);
    forall l | l in items ensures l.id in sel {
      var i :| 0 <= i < |items| && items[i] == l;
    }
    LinesWithAllIds(items, sel);
  }

  /** What the checkout button does. */
  datatype CheckoutAction = Alert(message: string) | PostOrder(cartId: int, ids: seq<int>)

  /** handleCheckout: an empty selection only alerts; otherwise exactly the selection is posted. */
  function Checkout(cartId: int, sel: seq<int>): (a: CheckoutAction)
    ensures a.Alert? <==> sel == []
    ensures a.PostOrder? ==> a.cartId == cartId && a.ids == sel
  {
    if |sel| == 0 then Alert("Please select items to checkout") else PostOrder(cartId, sel)
  }

  /**
   * Checking out from the page orders exactly the selected lines: the posted
   * selection is never empty, so the order service never falls back to the
   * whole cart, and a well-formed non-empty selection always matches a line.
   * The order's total is the total the page showed.
   */
  lemma CheckoutOrdersSelection(cart: Cart, sel: seq<int>, orderId: int)
    requires SelectionOk(sel, cart.items)
    requires Checkout(cart.id, sel).PostOrder?
    ensures var placed := OrderService.PlaceOrder(cart, Some(Checkout(cart.id, sel).ids), orderId);
      placed.Ok? &&
      placed.value.order.items == ToOrderItems(LinesWithIds(cart.items, sel)) &&
      placed.value.order.totalPrice == CalculateTotal(cart.items, sel) &&
      placed.value.remaining == LinesWithoutIds(cart.items, sel)
  {
    var ids := LineIds(cart.items);
    assert sel != [];
    assert sel[0] in sel;
    assert forall x :: x in sel ==> x in ids;
    assert sel[0] in ids;
    var i :| 0 <= i < |ids| && ids[i] == sel[0];
    assert cart.items[i] in LinesWithIds(cart.items, sel);
    OrderTotalOfLines(LinesWithIds(cart.items, sel));
  }
}
