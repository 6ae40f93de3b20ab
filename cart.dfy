/** The checkout cart of the `Alipay` view (frontend/src/App.js): line items,
    the two operations its buttons trigger, and the derived amounts.
    Money is exact (`real`); the floating-point rounding of the browser is
    not modelled. */
module Cart {
  import opened Text

  /** A line item `{ id, name, price, quantity }`. */
  datatype Item = Item(id: int, name: string, price: real, quantity: int)

  /** The cart the view starts with. */
  function InitialCart(): seq<Item>
  {
    [ Item(1, "Cultural Art Video - Kathak Dance", 50.0, 1),
      Item(2, "Traditional Music Collection", 30.0, 2),
      Item(3, "Folk Art Documentary", 75.0, 1) ]
  }

  /** The cart invariant: every item has a positive quantity and a
      non-negative price, and no two items share an id. */
  predicate ValidCart(items: seq<Item>)
  {
    && (forall i :: 0 <= i < |items| ==> items[i].quantity > 0 && items[i].price >= 0.0)
    && (forall i, j :: 0 <= i < j < |items| ==> items[i].id != items[j].id)
  }

  function Max(a: int, b: int): int { if a >= b then a else b }

  /** The `map` callback of `updateQuantity`: the matching item gets
      `Math.max(0, quantity + delta)`, any other item is returned as is. */
  function Adjust(item: Item, id: int, delta: int): Item
  {
    if item.id == id then item.(quantity := Max(0, item.quantity + delta)) else item
  }

  /** `items.map(Adjust)`. */
  function AdjustAll(items: seq<Item>, id: int, delta: int): (r: seq<Item>)
    ensures |r| == |items|
    ensures forall i :: 0 <= i < |items| ==> r[i] == Adjust(items[i], id, delta)
  {
    if items == [] then [] else [Adjust(items[0], id, delta)] + AdjustAll(items[1..], id, delta)
  }

  function HasQuantity(): Item -> bool { (item: Item) => item.quantity > 0 }

  function NotId(id: int): Item -> bool { (item: Item) => item.id != id }

  /** `updateQuantity(id, delta)`: adjust the matching item, then drop every
      item whose quantity is not positive. */
  function UpdateQuantity(items: seq<Item>, id: int, delta: int): (r: seq<Item>)
    ensures forall x :: x in r ==> x.quantity > 0
    ensures forall x :: x in r && x.id != id ==> x in items
  {
    FilterMembers(AdjustAll(items, id, delta), HasQuantity());
    Filter(AdjustAll(items, id, delta), HasQuantity())
  }

  /** `removeItem(id)`: keep exactly the items whose id differs. */
  function RemoveItem(items: seq<Item>, id: int): (r: seq<Item>)
    ensures forall x :: x in r <==> x in items && x.id != id
  {
    FilterMembers(items, NotId(id));
    Filter(items, NotId(id))
  }

  // ---------------------------------------------------------------------
  // updateQuantity and removeItem, item by item
  // ---------------------------------------------------------------------

  /** With no item of that id in a cart of positive quantities,
      `updateQuantity` changes nothing. */
  lemma UpdateQuantityAbsent(items: seq<Item>, id: int, delta: int)
    requires forall i :: 0 <= i < |items| ==> items[i].quantity > 0
    requires forall i :: 0 <= i < |items| ==> items[i].id != id
    ensures UpdateQuantity(items, id, delta) == items
  {
    assert AdjustAll(items, id, delta) == items;
    FilterKeepsAll(items, HasQuantity());
  }

  /** `items.map(Adjust)` when only the item at `k` carries the id. */
  lemma AdjustAllAt(items: seq<Item>, k: nat, delta: int)
    requires k < |items|
    requires forall i :: 0 <= i < |items| && i != k ==> items[i].id != items[k].id
    ensures AdjustAll(items, items[k].id, delta)
            == items[..k] + [Adjust(items[k], items[k].id, delta)] + items[k + 1..]
  {
    var r := AdjustAll(items, items[k].id, delta);
    var s := items[..k] + [Adjust(items[k], items[k].id, delta)] + items[k + 1..];
    assert |r| == |s|;
    forall i | 0 <= i < |r| ensures r[i] == s[i] {
      if i < k {
        assert s[i] == items[i];
      } else if i > k {
        assert s[i] == items[i];
      }
    }
  }

  lemma KeepPositiveOne(x: Item)
    ensures Filter([x], HasQuantity()) == if x.quantity > 0 then [x] else []
  {
    assert [x][1..] == [];
  }

  /** Dropping the non-positive quantities from `pre + [x] + post`, when
      `pre` and `post` have only positive ones, touches `x` alone. */
  lemma KeepPositiveAround(pre: seq<Item>, x: Item, post: seq<Item>)
    requires forall i :: 0 <= i < |pre| ==> pre[i].quantity > 0
    requires forall i :: 0 <= i < |post| ==> post[i].quantity > 0
    ensures Filter(pre + [x] + post, HasQuantity())
            == if x.quantity > 0 then pre + [x] + post else pre + post
  {
    var keep := HasQuantity();
    FilterKeepsAll(pre, keep);
    FilterKeepsAll(post, keep);
    KeepPositiveOne(x);
    FilterAppend(pre, [x], keep);
    FilterAppend(pre + [x], post, keep);
    if x.quantity <= 0 {
      assert Filter(pre + [x], keep) == pre;
    }
  }

  /** In a valid cart, `updateQuantity` on the item at `k` replaces its
      quantity by `quantity + delta` when that is positive and otherwise
      removes the item; the other items and their order are untouched. */
  lemma UpdateQuantityAt(items: seq<Item>, k: nat, delta: int)
    requires ValidCart(items) && k < |items|
    ensures var q := items[k].quantity + delta;
            UpdateQuantity(items, items[k].id, delta)
            == if q > 0 then items[k := items[k].(quantity := q)] else items[..k] + items[k + 1..]
  {
    var q := items[k].quantity + delta;
    var pre, post := items[..k], items[k + 1..];
    var x := Adjust(items[k], items[k].id, delta);
    AdjustAllAt(items, k, delta);
    KeepPositiveAround(pre, x, post);
    if q > 0 {
      assert pre + [x] + post == items[k := items[k].(quantity := q)];
    }
  }

  /** In a valid cart, `removeItem` of the id at `k` removes that one item
      and keeps the rest in order. */
  lemma RemoveItemAt(items: seq<Item>, k: nat)
    requires ValidCart(items) && k < |items|
    ensures RemoveItem(items, items[k].id) == items[..k] + items[k + 1..]
  {
    var id := items[k].id;
    var pre, post := items[..k], items[k + 1..];
    assert items == pre + [items[k]] + post;
    assert forall i :: 0 <= i < |pre| ==> pre[i].id != id by {
      forall i | 0 <= i < |pre| ensures pre[i].id != id {
        assert pre[i] == items[i];
      }
    }
    assert forall i :: 0 <= i < |post| ==> post[i].id != id by {
      forall i | 0 <= i < |post| ensures post[i].id != id {
        assert post[i] == items[k + 1 + i];
      }
    }
    DropOne(pre, items[k], post, id);
  }

  /** Removing an id held only by `x` from `pre + [x] + post`. */
  lemma DropOne(pre: seq<Item>, x: Item, post: seq<Item>, id: int)
    requires x.id == id
    requires forall i :: 0 <= i < |pre| ==> pre[i].id != id
    requires forall i :: 0 <= i < |post| ==> post[i].id != id
    ensures Filter(pre + [x] + post, NotId(id)) == pre + post
  {
    var keep := NotId(id);
    assert forall i :: 0 <= i < |pre| ==> keep(pre[i]);
    assert forall i :: 0 <= i < |post| ==> keep(post[i]);
    FilterKeepsAll(pre, keep);
    FilterKeepsAll(post, keep);
    assert Filter([x], keep) == [] by {
      assert [x][1..] == [];
    }
    FilterAppend(pre, [x], keep);
    assert Filter(pre + [x], keep) == pre;
    FilterAppend(pre + [x], post, keep);
  }

  /** With no item of that id, `removeItem` changes nothing. */
  lemma RemoveItemAbsent(items: seq<Item>, id: int)
    requires forall i :: 0 <= i < |items| ==> items[i].id != id
    ensures RemoveItem(items, id) == items
  {
    FilterKeepsAll(items, NotId(id));
  }

  /** Whatever `updateQuantity(id, delta)` does, it does only to the items
      of that id: forgetting those items, the cart before and after is the
      same sequence (for any cart of positive quantities, ids repeated or not). */
  lemma {:induction false} UpdateQuantityOthersUnchanged(items: seq<Item>, id: int, delta: int)
    requires forall i :: 0 <= i < |items| ==> items[i].quantity > 0
    ensures RemoveItem(UpdateQuantity(items, id, delta), id) == RemoveItem(items, id)
  {
    if items != [] {
      var x, rest := items[0], items[1..];
      var ax := Adjust(x, id, delta);
      assert items == [x] + rest;
      assert AdjustAll(items, id, delta) == [ax] + AdjustAll(rest, id, delta);
      FilterAppend([ax], AdjustAll(rest, id, delta), HasQuantity());
      var kept := Filter([ax], HasQuantity());
      FilterAppend(kept, UpdateQuantity(rest, id, delta), NotId(id));
      FilterAppend([x], rest, NotId(id));
      UpdateQuantityOthersUnchanged(rest, id, delta);
      if x.id == id {
        assert Filter(kept, NotId(id)) == [];
        assert Filter([x], NotId(id)) == [];
      } else {
        assert kept == [x];
      }
    }
  }

  /** Taking one item out of a valid cart leaves a valid cart. */
  lemma ValidWithout(items: seq<Item>, k: nat)
    requires ValidCart(items) && k < |items|
    ensures ValidCart(items[..k] + items[k + 1..])
  {
    var r := items[..k] + items[k + 1..];
    forall i | 0 <= i < |r| ensures r[i] == items[if i < k then i else i + 1] {
    }
  }

  /** Giving one item of a valid cart another positive quantity leaves a
      valid cart. */
  lemma ValidReplaced(items: seq<Item>, k: nat, q: int)
    requires ValidCart(items) && k < |items| && q > 0
    ensures ValidCart(items[k := items[k].(quantity := q)])
  {
  }

  /** Both cart operations keep the cart invariant. */
  lemma UpdateQuantityKeepsValid(items: seq<Item>, id: int, delta: int)
    requires ValidCart(items)
    ensures ValidCart(UpdateQuantity(items, id, delta))
  {
    if k :| 0 <= k < |items| && items[k].id == id {
      UpdateQuantityAt(items, k, delta);
      var q := items[k].quantity + delta;
      if q <= 0 {
        ValidWithout(items, k);
      } else {
        ValidReplaced(items, k, q);
      }
    } else {
      UpdateQuantityAbsent(items, id, delta);
    }
  }

  lemma RemoveItemKeepsValid(items: seq<Item>, id: int)
    requires ValidCart(items)
    ensures ValidCart(RemoveItem(items, id))
  {
    if k :| 0 <= k < |items| && items[k].id == id {
      RemoveItemAt(items, k);
      ValidWithout(items, k);
    } else {
      RemoveItemAbsent(items, id);
    }
  }

  // ---------------------------------------------------------------------
  // Derived amounts
  // ---------------------------------------------------------------------

  function LineTotal(item: Item): real { item.price * item.quantity as real }

  /** `cartItems.reduce((sum, item) => sum + item.price * item.quantity, 0)`,
      folded from the left as `reduce` does. */
  function Subtotal(items: seq<Item>): (r: real)
    ensures (forall i :: 0 <= i < |items| ==> LineTotal(items[i]) >= 0.0) ==> r >= 0.0
  {
    if items == [] then 0.0 else Subtotal(items[..|items| - 1]) + LineTotal(items[|items| - 1])
  }

  /** The subtotal is additive over concatenation. */
  lemma {:induction false} SubtotalAppend(a: seq<Item>, b: seq<Item>)
    ensures Subtotal(a + b) == Subtotal(a) + Subtotal(b)
  {
    if b == [] {
      assert a + b == a;
    } else {
      var b' := b[..|b| - 1];
      assert (a + b)[..|a + b| - 1] == a + b';
      assert (a + b)[|a + b| - 1] == b[|b| - 1];
      SubtotalAppend(a, b');
    }
  }

  /** A valid cart never has a negative subtotal. */
  lemma {:induction false} SubtotalNonNegative(items: seq<Item>)
    requires ValidCart(items)
    ensures Subtotal(items) >= 0.0
  {
    if items != [] {
      var init := items[..|items| - 1];
      assert ValidCart(init) by {
        forall i, j | 0 <= i < j < |init| ensures init[i].id != init[j].id {
          assert init[i] == items[i] && init[j] == items[j];
        }
      }
      SubtotalNonNegative(init);
    }
  }

  lemma SubtotalOne(x: Item)
    ensures Subtotal([x]) == LineTotal(x)
  {
    assert [x][..0] == [];
  }

  /** The subtotal around one line: `pre + [x] + post`. */
  lemma SubtotalAround(pre: seq<Item>, x: Item, post: seq<Item>)
    ensures Subtotal(pre + [x] + post) == Subtotal(pre) + LineTotal(x) + Subtotal(post)
  {
    SubtotalAppend(pre + [x], post);
    SubtotalAppend(pre, [x]);
    SubtotalOne(x);
  }

  /** The subtotal of `pre + post` against that of `pre + [x] + post` with
      the quantity of `x` clamped at zero. */
  lemma SubtotalReplaced(pre: seq<Item>, x: Item, post: seq<Item>, q: int, r: seq<Item>)
    requires r == if q > 0 then pre + [x.(quantity := q)] + post else pre + post
    ensures Subtotal(r) == Subtotal(pre + [x] + post) - LineTotal(x) + LineTotal(x.(quantity := Max(0, q)))
  {
    SubtotalAround(pre, x, post);
    if q > 0 {
      SubtotalAround(pre, x.(quantity := q), post);
    } else {
      SubtotalAppend(pre, post);
      assert LineTotal(x.(quantity := 0)) == 0.0;
    }
  }

  lemma SubtotalReplacedAt(items: seq<Item>, k: nat, q: int, r: seq<Item>)
    requires k < |items|
    requires r == if q > 0 then items[..k] + [items[k].(quantity := q)] + items[k + 1..]
                  else items[..k] + items[k + 1..]
    ensures Subtotal(r) == Subtotal(items) - LineTotal(items[k]) + LineTotal(items[k].(quantity := Max(0, q)))
  {
    assert items == items[..k] + [items[k]] + items[k + 1..];
    SubtotalReplaced(items[..k], items[k], items[k + 1..], q, r);
  }

  lemma UpdateQuantityAround(items: seq<Item>, k: nat, delta: int)
    requires ValidCart(items) && k < |items|
    ensures var x, q := items[k], items[k].quantity + delta;
            UpdateQuantity(items, x.id, delta)
            == if q > 0 then items[..k] + [x.(quantity := q)] + items[k + 1..] else items[..k] + items[k + 1..]
  {
    UpdateQuantityAt(items, k, delta);
    AsSplice(items, k, items[k].quantity + delta, UpdateQuantity(items, items[k].id, delta));
  }

  /** Replacing the element at `k` is splicing a new one in. */
  lemma AsSplice(items: seq<Item>, k: nat, q: int, r: seq<Item>)
    requires k < |items|
    requires r == if q > 0 then items[k := items[k].(quantity := q)] else items[..k] + items[k + 1..]
    ensures r == if q > 0 then items[..k] + [items[k].(quantity := q)] + items[k + 1..] else items[..k] + items[k + 1..]
  {
  }

  /** The subtotal after `updateQuantity` on the item at `k` moves by exactly
      the change of that line's total, its quantity clamped at zero. */
  lemma SubtotalAfterUpdate(items: seq<Item>, k: nat, delta: int)
    requires ValidCart(items) && k < |items|
    ensures Subtotal(UpdateQuantity(items, items[k].id, delta))
            == Subtotal(items) - LineTotal(items[k])
               + LineTotal(items[k].(quantity := Max(0, items[k].quantity + delta)))
  {
    UpdateQuantityAround(items, k, delta);
    SubtotalReplacedAt(items, k, items[k].quantity + delta, UpdateQuantity(items, items[k].id, delta));
  }

  /** The subtotal after `removeItem` of the item at `k` drops by that line's total. */
  lemma SubtotalAfterRemove(items: seq<Item>, k: nat)
    requires ValidCart(items) && k < |items|
    ensures Subtotal(RemoveItem(items, items[k].id)) == Subtotal(items) - LineTotal(items[k])
  {
    RemoveItemAt(items, k);
    SubtotalWithout(items, k);
  }

  /** Leaving out the line at `k` takes its total off the subtotal. */
  lemma SubtotalWithout(items: seq<Item>, k: nat)
    requires k < |items|
    ensures Subtotal(items[..k] + items[k + 1..]) == Subtotal(items) - LineTotal(items[k])
  {
    AroundIndex(items, k);
    SubtotalDrop(items[..k], items[k], items[k + 1..]);
  }

  lemma SubtotalDrop(pre: seq<Item>, x: Item, post: seq<Item>)
    ensures Subtotal(pre + post) == Subtotal(pre + [x] + post) - LineTotal(x)
  {
    SubtotalAround(pre, x, post);
    SubtotalAppend(pre, post);
  }

  function Tax(items: seq<Item>): (r: real)
    ensures Subtotal(items) >= 0.0 ==> 0.0 <= r <= Subtotal(items)
    ensures r * 10.0 == Subtotal(items)
  {
    Subtotal(items) * 0.1
  }

  /** `subtotal + tax`: the total is 110% of the subtotal. */
  function Total(items: seq<Item>): (r: real)
    ensures r == Subtotal(items) * 1.1
  {
    Subtotal(items) + Tax(items)
  }

  /** `Math.round(x)`: the nearest integer, halves rounded up. */
  function JsRound(x: real): (r: int)
    ensures r as real - 0.5 <= x < r as real + 0.5
  {
    (x + 0.5).Floor
  }

  /** `Math.round(total * 100)`: the total in cents sent to the back end. */
  function TotalAmount(items: seq<Item>): (r: int)
    ensures r as real - 0.5 <= Total(items) * 100.0 < r as real + 0.5
  {
    JsRound(Total(items) * 100.0)
  }

  predicate WholePrices(items: seq<Item>)
  {
    forall i :: 0 <= i < |items| ==> items[i].price == items[i].price.Floor as real
  }

  /** With whole-unit prices the subtotal is a whole number. */
  lemma {:induction false} SubtotalWhole(items: seq<Item>)
    requires WholePrices(items)
    ensures Subtotal(items) == Subtotal(items).Floor as real
  {
    if items != [] {
      var init, last := items[..|items| - 1], items[|items| - 1];
      assert WholePrices(init) by {
        forall i | 0 <= i < |init| ensures init[i].price == init[i].price.Floor as real {
          assert init[i] == items[i];
        }
      }
      SubtotalWhole(init);
      var p, n := last.price.Floor, Subtotal(init).Floor;
      assert last.price == p as real;
      assert LineTotal(last) == (p * last.quantity) as real;
      assert Subtotal(items) == (n + p * last.quantity) as real;
    }
  }

  /** With whole-unit prices no rounding happens: the amount sent is exactly
      110 times the subtotal. */
  lemma TotalAmountExact(items: seq<Item>)
    requires WholePrices(items)
    ensures TotalAmount(items) as real == Subtotal(items) * 110.0
  {
    SubtotalWhole(items);
    var s := Subtotal(items).Floor;
    assert Total(items) * 100.0 == (s * 110) as real;
    assert JsRound((s * 110) as real) == s * 110;
  }

  /** The starting cart: subtotal 185, tax 18.5, total 203.5, 20350 cents. */
  lemma InitialCartAmounts()
    ensures ValidCart(InitialCart())
    ensures Subtotal(InitialCart()) == 185.0
    ensures Tax(InitialCart()) == 18.5
    ensures Total(InitialCart()) == 203.5
    ensures TotalAmount(InitialCart()) == 20350
  {
    var c := InitialCart();
    assert c[..2][..1] == [c[0]];
    SubtotalOne(c[0]);
    assert Subtotal(c[..2]) == 50.0 + 60.0;
    assert Subtotal(c) == 110.0 + 75.0;
    assert JsRound(20350.0) == 20350;
  }
}
