/**
 * The cart engine (`src/context/CartContext.tsx`): the line-item list keyed by
 * (product id, weight value), the promo code, the money folds derived from
 * them, and the `CartEngine` object whose operations replace that state and
 * persist it after every change.
 */
module Cart {
  import opened Options
  import opened Seqs
  import opened Text
  import opened Types

  /** A subtotal at or above this amount ships free. */
  const FreeShippingThreshold: real := 499.0
  /** The shipping fee below the threshold. */
  const FlatShipping: real := 49.0

  /** What the cart starts as when nothing usable is stored, and what `clearCart` leaves. */
  const EmptyCart: CartState := CartState([], None, 0.0)

  // ---------------------------------------------------------------------------
  // Line items and their key

  /** The line is the one for `(productId, weightValue)`. */
  predicate Matches(item: CartItem, productId: string, weightValue: string)
  {
    item.product.id == productId && item.selectedWeight.value == weightValue
  }

  predicate SameKey(a: CartItem, b: CartItem)
  {
    Matches(b, a.product.id, a.selectedWeight.value)
  }

  /** No two lines share a `(product id, weight value)` key. */
  predicate UniqueKeys(items: seq<CartItem>)
  {
    forall i, j :: 0 <= i < j < |items| ==> !SameKey(items[i], items[j])
  }

  /** `items.findIndex(...)`: the first line with the key, or -1 when there is none. */
  function FindIndex(items: seq<CartItem>, productId: string, weightValue: string): (r: int)
    ensures -1 <= r < |items|
    ensures r >= 0 ==> Matches(items[r], productId, weightValue)
    ensures forall j :: 0 <= j < |items| && (r < 0 || j < r) ==> !Matches(items[j], productId, weightValue)
  {
    if |items| == 0 then -1
    else if Matches(items[0], productId, weightValue) then 0
    else
      var k := FindIndex(items[1..], productId, weightValue);
      if k < 0 then -1 else k + 1
  }

  /**
   * The list `addToCart` produces: a line already holding the key gets
   * `quantity` more and nothing else changes; otherwise a new line is
   * appended at the end.
   */
  function Added(items: seq<CartItem>, product: Product, weight: Weight, quantity: int): (r: seq<CartItem>)
    ensures var i := FindIndex(items, product.id, weight.value);
      i >= 0 ==>
        && |r| == |items|
        && r[i].product == items[i].product && r[i].selectedWeight == items[i].selectedWeight
        && r[i].quantity == items[i].quantity + quantity
        && forall j :: 0 <= j < |items| && j != i ==> r[j] == items[j]
    ensures FindIndex(items, product.id, weight.value) < 0 ==>
        |r| == |items| + 1 && r[..|items|] == items && r[|items|] == CartItem(product, weight, quantity)
  {
    var i := FindIndex(items, product.id, weight.value);
    if i >= 0 then items[i := items[i].(quantity := items[i].quantity + quantity)]
    else items + [CartItem(product, weight, quantity)]
  }

  /** The list `removeFromCart` produces: every line with the key dropped, the others kept in order. */
  function Removed(items: seq<CartItem>, productId: string, weightValue: string): (r: seq<CartItem>)
    ensures forall i :: 0 <= i < |r| ==> r[i] in items && !Matches(r[i], productId, weightValue)
    ensures forall i :: 0 <= i < |items| && !Matches(items[i], productId, weightValue) ==> items[i] in r
  {
    Filter(items, (item: CartItem) => !Matches(item, productId, weightValue))
  }

  /** The list `updateQuantity` produces for a positive quantity: `items.map(...)`. */
  function WithQuantity(items: seq<CartItem>, productId: string, weightValue: string, quantity: int): (r: seq<CartItem>)
    ensures |r| == |items|
    ensures forall i :: 0 <= i < |items| ==>
      r[i] == if Matches(items[i], productId, weightValue) then items[i].(quantity := quantity) else items[i]
  {
    if |items| == 0 then []
    else
      var head := if Matches(items[0], productId, weightValue) then items[0].(quantity := quantity) else items[0];
      [head] + WithQuantity(items[1..], productId, weightValue, quantity)
  }

  // ---------------------------------------------------------------------------
  // Derived values

  /** One line's contribution to the subtotal: discounted unit price times quantity. */
  function LineTotal(item: CartItem): real
  {
    item.selectedWeight.price * (1.0 - item.product.discount / 100.0) * (item.quantity as real)
  }

  /** `getSubtotal`: the `reduce` of the line totals. */
  function Subtotal(items: seq<CartItem>): real
  {
    SumReal(items, LineTotal)
  }

  /** `getItemCount`: the `reduce` of the quantities. */
  function ItemCount(items: seq<CartItem>): int
  {
    if |items| == 0 then 0 else ItemCount(items[..|items| - 1]) + items[|items| - 1].quantity
  }

  /** `getDiscountAmount`: the promo percentage of the subtotal. */
  function DiscountAmount(cart: CartState): real
  {
    Subtotal(cart.items) * (cart.promoDiscount / 100.0)
  }

  /** `getShippingCost`. */
  function ShippingCost(cart: CartState): (r: real)
    ensures r == 0.0 <==> Subtotal(cart.items) >= FreeShippingThreshold
    ensures r == 0.0 || r == FlatShipping
  {
    if Subtotal(cart.items) >= FreeShippingThreshold then 0.0 else FlatShipping
  }

  /** `getCartTotal`. */
  function CartTotal(cart: CartState): real
  {
    Subtotal(cart.items) - DiscountAmount(cart) + ShippingCost(cart)
  }

  /** The initial state: the stored cart when one was read and parsed, the empty cart otherwise. */
  function Load(stored: Option<CartState>): CartState
  {
    match stored
    case Some(state) => state
    case None => EmptyCart
  }

  /** `promoCodes[code]` is truthy. */
  predicate PromoTruthy(promoCodes: map<string, real>, code: string)
  {
    code in promoCodes && promoCodes[code] != 0.0
  }

  /** The promo fields describe no promo, or exactly the table entry of the applied code. */
  predicate PromoConsistent(cart: CartState, promoCodes: map<string, real>)
  {
    match cart.promoCode
    case None => cart.promoDiscount == 0.0
    case Some(code) => PromoTruthy(promoCodes, code) && cart.promoDiscount == promoCodes[code]
  }

  // ---------------------------------------------------------------------------
  // Properties of the list operations

  /** Adding keeps the keys unique: an existing line keeps its key, a new line has a fresh one. */
  lemma AddedKeepsUniqueKeys(items: seq<CartItem>, product: Product, weight: Weight, quantity: int)
    requires UniqueKeys(items)
    ensures UniqueKeys(Added(items, product, weight, quantity))
  {
    var r := Added(items, product, weight, quantity);
    var i := FindIndex(items, product.id, weight.value);
    if i >= 0 {
      forall a, b | 0 <= a < b < |r| ensures !SameKey(r[a], r[b]) {
        assert SameKey(r[a], r[b]) == SameKey(items[a], items[b]);
      }
    } else {
      forall a, b | 0 <= a < b < |r| ensures !SameKey(r[a], r[b]) {
        if b == |items| {
          assert !Matches(items[a], product.id, weight.value);
        } else {
          assert r[a] == items[a] && r[b] == items[b];
        }
      }
    }
  }

  /** Adding `quantity` of anything raises the item count by exactly `quantity`. */
  lemma AddedItemCount(items: seq<CartItem>, product: Product, weight: Weight, quantity: int)
    ensures ItemCount(Added(items, product, weight, quantity)) == ItemCount(items) + quantity
  {
    var i := FindIndex(items, product.id, weight.value);
    var r := Added(items, product, weight, quantity);
    ItemCountIsSum(items);
    ItemCountIsSum(r);
    if i >= 0 {
      assert r == items[i := items[i].(quantity := items[i].quantity + quantity)];
      SumRealUpdate(items, i, r[i], QuantityOf);
    } else {
      assert r == items + [CartItem(product, weight, quantity)];
      SumRealAppend(items, [CartItem(product, weight, quantity)], QuantityOf);
      assert SumReal([CartItem(product, weight, quantity)], QuantityOf) == quantity as real;
    }
  }

  /**
   * Adding raises the subtotal by the total of a line of `quantity` units; for
   * an existing line those units are priced as the product and weight already
   * in the cart, not as the records passed in.
   */
  lemma AddedSubtotal(items: seq<CartItem>, product: Product, weight: Weight, quantity: int)
    ensures var i := FindIndex(items, product.id, weight.value);
      var added := if i >= 0 then items[i].(quantity := quantity) else CartItem(product, weight, quantity);
      Subtotal(Added(items, product, weight, quantity)) == Subtotal(items) + LineTotal(added)
  {
    var i := FindIndex(items, product.id, weight.value);
    if i >= 0 {
      assert Added(items, product, weight, quantity) == items[i := items[i].(quantity := items[i].quantity + quantity)];
      RaisedSubtotal(items, i, quantity);
    } else {
      var item := CartItem(product, weight, quantity);
      assert Added(items, product, weight, quantity) == items + [item];
      SumRealAppend(items, [item], LineTotal);
      SumRealSingle(item, LineTotal);
    }
  }

  /** Raising line `i` by `k` units raises the subtotal by the total of `k` units of that line. */
  lemma RaisedSubtotal(items: seq<CartItem>, i: int, k: int)
    requires 0 <= i < |items|
    ensures var line := items[i];
      Subtotal(items[i := line.(quantity := line.quantity + k)]) == Subtotal(items) + LineTotal(line.(quantity := k))
  {
    var line := items[i];
    SumRealUpdate(items, i, line.(quantity := line.quantity + k), LineTotal);
    LineTotalAdds(line, k);
  }

  /** Raising a line's quantity by `k` raises its total by the total of `k` units. */
  lemma LineTotalAdds(item: CartItem, k: int)
    ensures LineTotal(item.(quantity := item.quantity + k)) == LineTotal(item) + LineTotal(item.(quantity := k))
  {
    var u := item.selectedWeight.price * (1.0 - item.product.discount / 100.0);
    assert LineTotal(item) == u * (item.quantity as real);
    assert LineTotal(item.(quantity := k)) == u * (k as real);
    assert LineTotal(item.(quantity := item.quantity + k)) == u * ((item.quantity + k) as real);
    assert u * ((item.quantity + k) as real) == u * (item.quantity as real) + u * (k as real);
  }

  /** `n` successive `addToCart` calls for one key, as a list function. */
  function AddedRepeatedly(items: seq<CartItem>, product: Product, weight: Weight, quantities: seq<int>): seq<CartItem>
    decreases |quantities|
  {
    if |quantities| == 0 then items
    else AddedRepeatedly(Added(items, product, weight, quantities[0]), product, weight, quantities[1..])
  }

  function SumInts(xs: seq<int>): int
  {
    if |xs| == 0 then 0 else xs[0] + SumInts(xs[1..])
  }

  /** Repeated adds to a line already in the cart only raise that line's quantity, by their sum. */
  lemma {:induction false} AddedRepeatedlyToExisting(items: seq<CartItem>, product: Product, weight: Weight, quantities: seq<int>)
    requires FindIndex(items, product.id, weight.value) >= 0
    ensures var i := FindIndex(items, product.id, weight.value);
      AddedRepeatedly(items, product, weight, quantities)
        == items[i := items[i].(quantity := items[i].quantity + SumInts(quantities))]
    decreases |quantities|
  {
    var i := FindIndex(items, product.id, weight.value);
    if |quantities| == 0 {
      assert items[i := items[i].(quantity := items[i].quantity + 0)] == items;
    } else {
      var next := Added(items, product, weight, quantities[0]);
      assert next == items[i := items[i].(quantity := items[i].quantity + quantities[0])];
      assert FindIndex(next, product.id, weight.value) == i;
      AddedRepeatedlyToExisting(next, product, weight, quantities[1..]);
    }
  }

  /**
   * Any number (at least one) of `addToCart` calls with the same product and
   * weight, on a cart without that key, leave exactly one line for it, at the
   * end, whose quantity is the sum of the quantities added.
   */
  lemma SameKeyAddsMerge(items: seq<CartItem>, product: Product, weight: Weight, quantities: seq<int>)
    requires |quantities| > 0
    requires FindIndex(items, product.id, weight.value) < 0
    ensures var r := AddedRepeatedly(items, product, weight, quantities);
      && |r| == |items| + 1
      && r[..|items|] == items
      && r[|items|] == CartItem(product, weight, SumInts(quantities))
      && forall j :: 0 <= j < |r| && Matches(r[j], product.id, weight.value) ==> j == |items|
  {
    var first := Added(items, product, weight, quantities[0]);
    assert first == items + [CartItem(product, weight, quantities[0])];
    assert FindIndex(first, product.id, weight.value) == |items|;
    AddedRepeatedlyToExisting(first, product, weight, quantities[1..]);
    var r := AddedRepeatedly(items, product, weight, quantities);
    assert r[..|items|] == items;
  }

  /** With unique keys, no later line shares the first line's key. */
  lemma HeadKeyNotInTail(items: seq<CartItem>, x: CartItem)
    requires UniqueKeys(items) && |items| > 0 && x in items[1..]
    ensures !SameKey(items[0], x)
  {
    var tail := items[1..];
    var k :| 0 <= k < |tail| && tail[k] == x;
    assert items[k + 1] == x;
  }

  /** A filtered list of uniquely keyed lines is uniquely keyed. */
  lemma {:induction false} FilterKeepsUniqueKeys(items: seq<CartItem>, p: CartItem -> bool)
    requires UniqueKeys(items)
    ensures UniqueKeys(Filter(items, p))
  {
    if |items| > 0 {
      var rest := Filter(items[1..], p);
      FilterKeepsUniqueKeys(items[1..], p);
      if p(items[0]) {
        var r := Filter(items, p);
        assert r == [items[0]] + rest;
        forall b | 0 <= b < |rest| ensures !SameKey(items[0], rest[b]) {
          HeadKeyNotInTail(items, rest[b]);
        }
        forall a, b | 0 <= a < b < |r| ensures !SameKey(r[a], r[b]) {
          assert r[b] == rest[b - 1];
          if a > 0 {
            assert r[a] == rest[a - 1];
          }
        }
      }
    }
  }

  /**
   * `removeFromCart` keeps the other lines in order, leaves no line with the
   * key, keeps keys unique, and is a no-op when the key is absent.
   */
  lemma RemovedProperties(items: seq<CartItem>, productId: string, weightValue: string)
    ensures IsSubsequence(Removed(items, productId, weightValue), items)
    ensures FindIndex(Removed(items, productId, weightValue), productId, weightValue) < 0
    ensures UniqueKeys(items) ==> UniqueKeys(Removed(items, productId, weightValue))
    ensures FindIndex(items, productId, weightValue) < 0 ==> Removed(items, productId, weightValue) == items
  {
    var p := (item: CartItem) => !Matches(item, productId, weightValue);
    FilterIsSubsequence(items, p);
    if UniqueKeys(items) {
      FilterKeepsUniqueKeys(items, p);
    }
    if FindIndex(items, productId, weightValue) < 0 {
      FilterAll(items, p);
    }
  }

  /**
   * With unique keys, `updateQuantity` with a positive quantity on a present
   * key sets that one line's quantity to exactly `quantity`, changes nothing
   * else, keeps the keys unique, and moves the item count by the difference.
   */
  lemma WithQuantityProperties(items: seq<CartItem>, productId: string, weightValue: string, quantity: int)
    requires UniqueKeys(items)
    ensures UniqueKeys(WithQuantity(items, productId, weightValue, quantity))
    ensures var i := FindIndex(items, productId, weightValue);
      && (i < 0 ==> WithQuantity(items, productId, weightValue, quantity) == items)
      && (i >= 0 ==>
        && WithQuantity(items, productId, weightValue, quantity) == items[i := items[i].(quantity := quantity)]
        && ItemCount(WithQuantity(items, productId, weightValue, quantity)) == ItemCount(items) - items[i].quantity + quantity)
  {
    var r := WithQuantity(items, productId, weightValue, quantity);
    var i := FindIndex(items, productId, weightValue);
    forall a, b | 0 <= a < b < |r| ensures !SameKey(r[a], r[b]) {
      assert SameKey(r[a], r[b]) == SameKey(items[a], items[b]);
    }
    if i < 0 {
      assert r == items;
    } else {
      forall j | 0 <= j < |items| && j != i ensures !Matches(items[j], productId, weightValue) {
        if j < i {
        } else {
          assert !SameKey(items[i], items[j]);
        }
      }
      assert r == items[i := items[i].(quantity := quantity)];
      ItemCountIsSum(items);
      ItemCountIsSum(r);
      SumRealUpdate(items, i, r[i], QuantityOf);
    }
  }

  // ---------------------------------------------------------------------------
  // Properties of the folds

  function QuantityOf(item: CartItem): real
  {
    item.quantity as real
  }

  /** The item count is the real-valued sum of the quantities. */
  lemma {:induction false} ItemCountIsSum(items: seq<CartItem>)
    ensures ItemCount(items) as real == SumReal(items, QuantityOf)
  {
    if |items| > 0 {
      ItemCountIsSum(items[..|items| - 1]);
    }
  }

  /** Subtotal and item count do not depend on the order of the lines. */
  lemma FoldsArePermutationInvariant(a: seq<CartItem>, b: seq<CartItem>)
    requires multiset(a) == multiset(b)
    ensures Subtotal(a) == Subtotal(b)
    ensures ItemCount(a) == ItemCount(b)
  {
    SumRealPermutation(a, b, LineTotal);
    SumRealPermutation(a, b, QuantityOf);
    ItemCountIsSum(a);
    ItemCountIsSum(b);
  }

  /** The empty cart has nothing in it, costs nothing but pays the flat shipping fee. */
  lemma EmptyCartTotals(promoCode: Option<string>, promoDiscount: real)
    ensures var cart := CartState([], promoCode, promoDiscount);
      && Subtotal(cart.items) == 0.0 && ItemCount(cart.items) == 0
      && DiscountAmount(cart) == 0.0 && ShippingCost(cart) == FlatShipping
      && CartTotal(cart) == FlatShipping
  {
  }

  /** Every line has a non-negative price, a discount of at most 100% and a non-negative quantity. */
  predicate SensiblePrices(items: seq<CartItem>)
  {
    forall i :: 0 <= i < |items| ==>
      items[i].selectedWeight.price >= 0.0 && items[i].product.discount <= 100.0 && items[i].quantity >= 0
  }

  /**
   * Shipping is free exactly from the threshold on, and the total lies between
   * the shipping fee and the subtotal plus shipping, so it is never negative,
   * whenever prices are sensible and the promo is a percentage in [0, 100].
   */
  lemma TotalBounds(cart: CartState)
    requires SensiblePrices(cart.items)
    requires 0.0 <= cart.promoDiscount <= 100.0
    ensures Subtotal(cart.items) >= 0.0
    ensures ShippingCost(cart) == 0.0 <==> Subtotal(cart.items) >= FreeShippingThreshold
    ensures ShippingCost(cart) <= CartTotal(cart) <= Subtotal(cart.items) + ShippingCost(cart)
    ensures CartTotal(cart) >= 0.0
  {
    forall i | 0 <= i < |cart.items| ensures LineTotal(cart.items[i]) >= 0.0 {
      var item := cart.items[i];
      var unit := item.selectedWeight.price * (1.0 - item.product.discount / 100.0);
      assert unit >= 0.0;
      assert LineTotal(item) == unit * (item.quantity as real);
    }
    SumRealNonNegative(cart.items, LineTotal);
    var s := Subtotal(cart.items);
    assert DiscountAmount(cart) == s * (cart.promoDiscount / 100.0);
    assert 0.0 <= s * (cart.promoDiscount / 100.0) <= s;
  }

  /**
   * Removing the promo raises the total by exactly the discount it gave, so
   * applying a code to a cart without one and removing it again restores the total.
   */
  lemma PromoRoundTripTotal(items: seq<CartItem>, code: string, discount: real)
    ensures var plain := CartState(items, None, 0.0);
      var promo := CartState(items, Some(code), discount);
      CartTotal(plain) == CartTotal(promo) + DiscountAmount(promo)
  {
  }

  /**
   * One line at 100 with a 10% product discount, under a 20% promo: subtotal
   * 90, discount 18, shipping 49, total 121.
   */
  lemma WorkedExample(product: Product, weight: Weight)
    requires weight.price == 100.0 && product.discount == 10.0
    ensures var cart := CartState([CartItem(product, weight, 1)], Some("FLAT20"), 20.0);
      && Subtotal(cart.items) == 90.0 && DiscountAmount(cart) == 18.0
      && ShippingCost(cart) == 49.0 && CartTotal(cart) == 121.0
  {
    var items := [CartItem(product, weight, 1)];
    assert items[..0] == [];
    assert SumReal(items[..0], LineTotal) == 0.0;
    assert Subtotal(items) == LineTotal(items[0]);
  }

  // ---------------------------------------------------------------------------
  // The engine

  /**
   * The cart provider's state and operations. Every operation replaces the
   * state and then writes it to storage; `saved` is what storage holds.
   */
  class CartEngine {
    var items: seq<CartItem>
    var promoCode: Option<string>
    var promoDiscount: real
    /** The promo table, upper-case codes to percentages. */
    const promoCodes: map<string, real>
    /** The state last written to storage. */
    ghost var saved: CartState

    function State(): CartState
      reads this
    {
      CartState(items, promoCode, promoDiscount)
    }

    /** Storage holds the current state. */
    ghost predicate Persisted()
      reads this
    {
      saved == State()
    }

    /** The provider's initial state, read from storage (`None`: missing, empty or unparseable). */
    constructor(promoCodes: map<string, real>, stored: Option<CartState>)
      ensures this.promoCodes == promoCodes
      ensures State() == Load(stored)
      ensures stored.None? ==> State() == EmptyCart
      ensures Persisted()
    {
      this.promoCodes := promoCodes;
      var initial := Load(stored);
      items := initial.items;
      promoCode := initial.promoCode;
      promoDiscount := initial.promoDiscount;
      saved := initial;
    }

    /** `addToCart(product, weight, quantity)`. */
    method AddToCart(product: Product, weight: Weight, quantity: int)
      modifies this
      ensures items == Added(old(items), product, weight, quantity)
      ensures promoCode == old(promoCode) && promoDiscount == old(promoDiscount)
      ensures old(UniqueKeys(items)) ==> UniqueKeys(items)
      ensures ItemCount(items) == old(ItemCount(items)) + quantity
      ensures Persisted()
    {
      if UniqueKeys(items) {
        AddedKeepsUniqueKeys(items, product, weight, quantity);
      }
      AddedItemCount(items, product, weight, quantity);
      var i := FindIndex(items, product.id, weight.value);
      if i >= 0 {
        items := items[i := items[i].(quantity := items[i].quantity + quantity)];
      } else {
        items := items + [CartItem(product, weight, quantity)];
      }
      saved := State();
    }

    /** `addToCart(product, weight)`: the quantity defaults to 1. */
    method AddOneToCart(product: Product, weight: Weight)
      modifies this
      ensures items == Added(old(items), product, weight, 1)
      ensures promoCode == old(promoCode) && promoDiscount == old(promoDiscount)
      ensures Persisted()
    {
      AddToCart(product, weight, 1);
    }

    /** `removeFromCart(productId, weightValue)`. */
    method RemoveFromCart(productId: string, weightValue: string)
      modifies this
      ensures items == Removed(old(items), productId, weightValue)
      ensures promoCode == old(promoCode) && promoDiscount == old(promoDiscount)
      ensures old(FindIndex(items, productId, weightValue)) < 0 ==> items == old(items)
      ensures Persisted()
    {
      RemovedProperties(items, productId, weightValue);
      items := Removed(items, productId, weightValue);
      saved := State();
    }

    /** `updateQuantity(productId, weightValue, quantity)`. */
    method UpdateQuantity(productId: string, weightValue: string, quantity: int)
      modifies this
      ensures quantity <= 0 ==> items == Removed(old(items), productId, weightValue)
      ensures quantity > 0 ==> items == WithQuantity(old(items), productId, weightValue, quantity)
      ensures promoCode == old(promoCode) && promoDiscount == old(promoDiscount)
      ensures Persisted()
    {
      if quantity <= 0 {
        RemoveFromCart(productId, weightValue);
        return;
      }
      items := WithQuantity(items, productId, weightValue, quantity);
      saved := State();
    }

    /** `clearCart()`. */
    method ClearCart()
      modifies this
      ensures State() == EmptyCart
      ensures Persisted()
    {
      items, promoCode, promoDiscount := [], None, 0.0;
      saved := State();
    }

    /**
     * `applyPromoCode(code)`: the code is upper-cased and looked up; a truthy
     * entry becomes the active promo, anything else changes nothing.
     */
    method ApplyPromoCode(code: string) returns (applied: bool)
      modifies this
      ensures applied == PromoTruthy(promoCodes, ToUpper(code))
      ensures items == old(items)
      ensures applied ==> promoCode == Some(ToUpper(code)) && promoDiscount == promoCodes[ToUpper(code)]
      ensures applied ==> PromoConsistent(State(), promoCodes) && Persisted()
      ensures !applied ==> State() == old(State()) && saved == old(saved)
    {
      var upperCode := ToUpper(code);
      if PromoTruthy(promoCodes, upperCode) {
        promoCode, promoDiscount := Some(upperCode), promoCodes[upperCode];
        saved := State();
        return true;
      }
      return false;
    }

    /** `removePromoCode()`. */
    method RemovePromoCode()
      modifies this
      ensures items == old(items)
      ensures promoCode == None && promoDiscount == 0.0
      ensures PromoConsistent(State(), promoCodes)
      ensures Persisted()
    {
      promoCode, promoDiscount := None, 0.0;
      saved := State();
    }
  }
}
