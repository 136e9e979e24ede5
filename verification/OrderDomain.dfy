/** Orders and their int64 totals: services/order/internal/domain/order.go. */
module OrderDomain {
  import opened Prelude

  /** Go's int64 arithmetic: two's complement wrap-around. */
  function Wrap64(n: int): (w: int)
    ensures -0x8000_0000_0000_0000 <= w < 0x8000_0000_0000_0000
  {
    (n + 0x8000_0000_0000_0000) % 0x1_0000_0000_0000_0000 - 0x8000_0000_0000_0000
  }

  lemma WrapIsCongruent(n: int)
    ensures exists k: int :: n == Wrap64(n) + k * 0x1_0000_0000_0000_0000
  {
    var m := n + 0x8000_0000_0000_0000;
    assert n == Wrap64(n) + m / 0x1_0000_0000_0000_0000 * 0x1_0000_0000_0000_0000;
  }

  lemma WrapUnique(n: int, k: int)
    ensures Wrap64(n + k * 0x1_0000_0000_0000_0000) == Wrap64(n)
  {
  }

  datatype OrderItem = OrderItem(id: bytes, orderId: bytes, productId: bytes, productName: bytes,
                                 quantity: int, unitPrice: int)
  {
    function Subtotal(): int { Wrap64(unitPrice * quantity) }
  }

  datatype Order = Order(id: bytes, userId: bytes, items: seq<OrderItem>, totalAmount: int, deliveryAddress: bytes,
                         createdAt: bytes)

  /** The loop's accumulator after the first `n` items. */
  function RunningTotal(items: seq<OrderItem>, n: nat): int
    requires n <= |items|
  {
    if n == 0 then 0 else Wrap64(RunningTotal(items, n - 1) + items[n - 1].Subtotal())
  }

  /** The mathematical price x quantity sum. */
  function Sum(items: seq<OrderItem>, n: nat): int
    requires n <= |items|
  {
    if n == 0 then 0 else Sum(items, n - 1) + items[n - 1].unitPrice * items[n - 1].quantity
  }

  /** The int64 total is the mathematical sum wrapped once, for any number of items. */
  lemma {:induction false} TotalIsWrappedSum(items: seq<OrderItem>, n: nat)
    requires n <= |items|
    ensures RunningTotal(items, n) == Wrap64(Sum(items, n))
  {
    if n > 0 {
      TotalIsWrappedSum(items, n - 1);
      var s, p := Sum(items, n - 1), items[n - 1].unitPrice * items[n - 1].quantity;
      WrapIsCongruent(s);
      WrapIsCongruent(p);
      var i: int :| s == Wrap64(s) + i * 0x1_0000_0000_0000_0000;
      var j: int :| p == Wrap64(p) + j * 0x1_0000_0000_0000_0000;
      WrapUnique(Wrap64(s) + Wrap64(p), i + j);
    }
  }

  /** The total is exact precisely when the sum fits an int64. */
  lemma TotalExactIffFits(items: seq<OrderItem>)
    ensures RunningTotal(items, |items|) == Sum(items, |items|) <==>
            -0x8000_0000_0000_0000 <= Sum(items, |items|) < 0x8000_0000_0000_0000
  {
    TotalIsWrappedSum(items, |items|);
  }

  /** One line of price 2^62 and quantity 4: the total is 0, the sum is 2^64. */
  lemma TotalWraps(item: OrderItem)
    requires item.unitPrice == 0x4000_0000_0000_0000 && item.quantity == 4
    ensures RunningTotal([item], 1) == 0 && Sum([item], 1) == 0x1_0000_0000_0000_0000
  {
    assert Sum([item], 0) == 0 && RunningTotal([item], 0) == 0;
  }

  lemma {:induction false} SumBounded(items: seq<OrderItem>, n: nat, price: nat)
    requires n <= |items|
    requires forall i :: 0 <= i < |items| ==> 0 <= items[i].unitPrice <= price && 0 < items[i].quantity <= 0x7FFF_FFFF
    ensures 0 <= Sum(items, n) <= n * (price * 0x7FFF_FFFF)
  {
    if n > 0 {
      SumBounded(items, n - 1, price);
      var it := items[n - 1];
      MulMonotone(it.unitPrice, price, it.quantity, 0x7FFF_FFFF);
      assert n * (price * 0x7FFF_FFFF) == (n - 1) * (price * 0x7FFF_FFFF) + price * 0x7FFF_FFFF;
    }
  }

  lemma MulMonotone(a: nat, a': nat, b: nat, b': nat)
    requires a <= a' && b <= b'
    ensures 0 <= a * b <= a' * b'
  {
    assert a * b <= a' * b <= a' * b';
  }

  /** Prices in [0, P], positive int32 quantities and n * P * (2^31 - 1) <= 2^63 - 1 keep the total exact. */
  lemma TotalExactWithinBounds(items: seq<OrderItem>, price: nat)
    requires forall i :: 0 <= i < |items| ==> 0 <= items[i].unitPrice <= price && 0 < items[i].quantity <= 0x7FFF_FFFF
    requires |items| * (price * 0x7FFF_FFFF) <= 0x7FFF_FFFF_FFFF_FFFF
    ensures RunningTotal(items, |items|) == Sum(items, |items|) >= 0
  {
    SumBounded(items, |items|, price);
    TotalExactIffFits(items);
  }

  /** Items as NewOrder leaves them: own ids and the order's id, everything else as it was. */
  ghost predicate Stamped(before: seq<OrderItem>, after: seq<OrderItem>, ids: seq<bytes>, orderId: bytes)
  {
    |after| == |before| <= |ids| &&
    forall i :: 0 <= i < |before| ==> after[i] == before[i].(id := ids[i], orderId := orderId)
  }

  function Stamp(items: seq<OrderItem>, ids: seq<bytes>, orderId: bytes): (r: seq<OrderItem>)
    requires |items| <= |ids|
    ensures Stamped(items, r, ids, orderId)
  {
    seq(|items|, i requires 0 <= i < |items| => items[i].(id := ids[i], orderId := orderId))
  }

  /** The result of NewOrder: None when there are no items. */
  function Built(id: bytes, ids: seq<bytes>, now: bytes, userId: bytes, address: bytes, items: seq<OrderItem>)
    : Option<Order>
    requires |items| <= |ids|
  {
    if items == [] then None
    else
      var stamped := Stamp(items, ids, id);
      Some(Order(id, userId, stamped, RunningTotal(stamped, |stamped|), address, now))
  }

  /** NewOrder writes the ids in place and accumulates the total; `id`, `ids` and `now` are what the UUID generator and
      the clock return. */
  method NewOrder(id: bytes, ids: seq<bytes>, now: bytes, userId: bytes, address: bytes, items: array<OrderItem>)
    returns (order: Option<Order>)
    requires items.Length <= |ids|
    modifies items
    ensures order == Built(id, ids, now, userId, address, old(items[..]))
    ensures order.Some? ==> items[..] == order.value.items
    ensures order.None? ==> items[..] == old(items[..])
  {
    if items.Length == 0 {
      return None;
    }
    var total := 0;
    ghost var stamped := Stamp(items[..], ids, id);
    for i := 0 to items.Length
      invariant items[..i] == stamped[..i]
      invariant forall k :: i <= k < items.Length ==> items[k] == old(items[k])
      invariant total == RunningTotal(stamped, i)
    {
      items[i] := items[i].(id := ids[i]);
      items[i] := items[i].(orderId := id);
      assert items[i] == stamped[i];
      total := Wrap64(total + items[i].Subtotal());
    }
    assert items[..] == stamped;
    return Some(Order(id, userId, items[..], total, address, now));
  }
}
