/**
 * The stock bookkeeping of an order: reserving the cart's products when an
 * order is placed, releasing the reservation when it is abandoned, and
 * writing the stock off when it is paid. Each runs in one database
 * transaction, so a failure part-way leaves the products as they were.
 *
 * `reserve_items` reads every product afresh before changing it. The other
 * two load the order's lines with their products in one query before the
 * loop, so each write starts from that snapshot of the row.
 */
module Reservation {
  import opened Wrappers
  import opened Models
  import opened CartKb

  /** `InsufficientStockError(product, available, requested)`, or another exception. */
  datatype StockError =
    | InsufficientStock(product: Product, available: int, requested: nat)
    | Raised(e: Crash)

  /** The quantity the cart lines ask of product `id`, summed over the lines. */
  function Requested(lines: seq<CartLine>, id: nat): nat
    decreases |lines|
  {
    if lines == [] then 0
    else (if lines[0].item.product == id then lines[0].item.quantity else 0) + Requested(lines[1..], id)
  }

  /** No two lines name the same product, as the cart's uniqueness constraint ensures. */
  predicate DistinctProducts(lines: seq<CartLine>)
  {
    forall i, j :: 0 <= i < j < |lines| ==> lines[i].item.product != lines[j].item.product
  }

  /** A product whose reservation does not exceed its stock. */
  predicate Covered(p: Product)
  {
    p.reserved <= p.quantity
  }

  // ------------------------------------------------------------ reserve_items

  /**
   * `reserve_items(items)`: line by line, the product is read afresh; when
   * fewer than the line's quantity are available the transaction stops with
   * `InsufficientStockError`, else the quantity is added to `reserved` and
   * only that column is written.
   */
  function Reserve(products: map<nat, Product>, lines: seq<CartLine>): (r: Result<map<nat, Product>, StockError>)
    decreases |lines|
  {
    if lines == [] then Success(products)
    else
      var pk := lines[0].item.product;
      var q := lines[0].item.quantity;
      if pk !in products then Failure(Raised(DoesNotExist))
      else
        var p := products[pk];
        if Available(p) < q then Failure(InsufficientStock(p, Available(p), q))
        else Reserve(products[pk := p.(reserved := p.reserved + q)], lines[1..])
  }

  /**
   * On success every product's reservation grows by exactly what the lines
   * ask of it, nothing else of any row changes, and no row appears or
   * disappears; products no line names are untouched.
   */
  lemma {:induction false} ReserveExact(products: map<nat, Product>, lines: seq<CartLine>)
    requires Reserve(products, lines).Success?
    ensures Reserve(products, lines).value.Keys == products.Keys
    ensures forall id :: id in products ==>
      Reserve(products, lines).value[id] == products[id].(reserved := products[id].reserved + Requested(lines, id))
    decreases |lines|
  {
    if lines != [] {
      var pk := lines[0].item.product;
      var p := products[pk];
      ReserveExact(products[pk := p.(reserved := p.reserved + lines[0].item.quantity)], lines[1..]);
    }
  }

  /** When every product's reservation is covered by its stock before, it still is after. */
  lemma {:induction false} ReserveKeepsCovered(products: map<nat, Product>, lines: seq<CartLine>)
    requires Reserve(products, lines).Success?
    requires forall id :: id in products ==> Covered(products[id])
    ensures forall id :: id in Reserve(products, lines).value ==> Covered(Reserve(products, lines).value[id])
    decreases |lines|
  {
    if lines != [] {
      var pk := lines[0].item.product;
      var p := products[pk];
      ReserveKeepsCovered(products[pk := p.(reserved := p.reserved + lines[0].item.quantity)], lines[1..]);
    }
  }

  /** Every line's product exists and has at least the line's quantity available. */
  ghost predicate AllAvailable(products: map<nat, Product>, lines: seq<CartLine>)
  {
    forall k :: 0 <= k < |lines| ==>
      lines[k].item.product in products && Available(products[lines[k].item.product]) >= lines[k].item.quantity
  }

  /** With one line per product, the reservation succeeds exactly when every line is available. */
  lemma {:induction false} ReserveSucceedsIff(products: map<nat, Product>, lines: seq<CartLine>)
    requires DistinctProducts(lines)
    ensures Reserve(products, lines).Success? <==> AllAvailable(products, lines)
    decreases |lines|
  {
    if lines != [] {
      var pk := lines[0].item.product;
      var q := lines[0].item.quantity;
      if pk in products && Available(products[pk]) >= q {
        var after := products[pk := products[pk].(reserved := products[pk].reserved + q)];
        var rest := lines[1..];
        ReserveSucceedsIff(after, rest);
        forall k | 0 <= k < |rest|
          ensures rest[k].item.product in after <==> rest[k].item.product in products
          ensures rest[k].item.product in products ==> after[rest[k].item.product] == products[rest[k].item.product]
        {
          assert rest[k] == lines[k + 1];
        }
        if AllAvailable(after, rest) {
          forall k | 0 <= k < |lines|
            ensures lines[k].item.product in products && Available(products[lines[k].item.product]) >= lines[k].item.quantity
          {
            if k > 0 {
              assert lines[k] == rest[k - 1];
            }
          }
        }
        if AllAvailable(products, lines) {
          forall k | 0 <= k < |rest|
            ensures rest[k].item.product in after && Available(after[rest[k].item.product]) >= rest[k].item.quantity
          {
            assert rest[k] == lines[k + 1];
          }
        }
      }
    }
  }

  /**
   * With one line per product, a shortage is reported for the first line
   * that is short, with the product as it was, `available` its
   * `quantity - reserved` and `requested` the line's quantity; every earlier
   * line was available.
   */
  lemma {:induction false} ReserveReportsFirstShortage(products: map<nat, Product>, lines: seq<CartLine>)
    requires DistinctProducts(lines)
    requires Reserve(products, lines).Failure? && Reserve(products, lines).error.InsufficientStock?
    ensures var e := Reserve(products, lines).error;
      exists k :: 0 <= k < |lines| && lines[k].item.product in products
        && e == InsufficientStock(products[lines[k].item.product], Available(products[lines[k].item.product]), lines[k].item.quantity)
        && e.available < e.requested
        && AllAvailable(products, lines[..k])
    decreases |lines|
  {
    var e := Reserve(products, lines).error;
    var pk := lines[0].item.product;
    var q := lines[0].item.quantity;
    if Available(products[pk]) < q {
      assert lines[..0] == [];
      assert 0 < |lines| && lines[0].item.product in products;
    } else {
      var after := products[pk := products[pk].(reserved := products[pk].reserved + q)];
      var rest := lines[1..];
      ReserveReportsFirstShortage(after, rest);
      var k :| 0 <= k < |rest| && rest[k].item.product in after
        && e == InsufficientStock(after[rest[k].item.product], Available(after[rest[k].item.product]), rest[k].item.quantity)
        && e.available < e.requested
        && AllAvailable(after, rest[..k]);
      assert rest[k] == lines[k + 1];
      assert after[rest[k].item.product] == products[rest[k].item.product];
      var prefix := lines[..k + 1];
      forall j | 0 <= j < |prefix|
        ensures prefix[j].item.product in products && Available(products[prefix[j].item.product]) >= prefix[j].item.quantity
      {
        if j > 0 {
          assert prefix[j] == rest[..k][j - 1];
          assert rest[..k][j - 1].item.product != pk;
        }
      }
    }
  }

  /**
   * `reserve_items(items)` inside `transaction.atomic()`: the products end
   * as `Reserve` computes, or, when it fails, exactly as they were.
   */
  method ReserveItems(db: Database, lines: seq<CartLine>) returns (r: Outcome<StockError>)
    modifies db
    ensures r.Pass? <==> Reserve(old(db.products), lines).Success?
    ensures r.Pass? ==> db.products == Reserve(old(db.products), lines).value
    ensures r.Fail? ==> r.error == Reserve(old(db.products), lines).error && db.products == old(db.products)
    ensures db.users == old(db.users) && db.categories == old(db.categories)
    ensures db.carts == old(db.carts) && db.orders == old(db.orders)
    ensures old(db.Valid()) ==> db.Valid()
  {
    var before := db.products;
    for i := 0 to |lines|
      invariant Reserve(before, lines) == Reserve(db.products, lines[i..])
      invariant db.users == old(db.users) && db.categories == old(db.categories)
      invariant db.carts == old(db.carts) && db.orders == old(db.orders)
    {
      var line := lines[i];
      var pk := line.item.product;
      assert lines[i..][0] == line && lines[i..][1..] == lines[i + 1..];
      if pk !in db.products {
        db.products := before;
        return Fail(Raised(DoesNotExist));
      }
      var product := db.products[pk];
      var available := product.quantity - product.reserved;
      if available < line.item.quantity {
        db.products := before;
        return Fail(InsufficientStock(product, available, line.item.quantity));
      }
      product := product.(reserved := product.reserved + line.item.quantity);
      db.products := db.products[pk := product];
    }
    assert lines[|lines|..] == [];
    if old(db.Valid()) {
      ReserveExact(before, lines);
    }
    r := Pass;
  }

  // ------------------------------------------------------ cancel_reservation

  /** `reserved -= quantity`, then set to 0 if it went negative. */
  function Release(reserved: nat, quantity: nat): (r: nat)
    ensures r <= reserved
    ensures r == 0 || r + quantity == reserved
  {
    if reserved < quantity then 0 else reserved - quantity
  }

  /** The quantity of the first order line for product `id`, if any. */
  function LineFor(items: seq<OrderItem>, id: nat): Option<nat>
    decreases |items|
  {
    if items == [] then None
    else if items[0].product == id then Some(items[0].quantity)
    else LineFor(items[1..], id)
  }

  predicate DistinctItems(items: seq<OrderItem>)
  {
    forall i, j :: 0 <= i < j < |items| ==> items[i].product != items[j].product
  }

  /**
   * `cancel_reservation(order)`: for each order line whose product is in the
   * snapshot, the row's `reserved` is set to the snapshot's reservation less
   * the line's quantity, clamped at 0; only that column is written.
   */
  function Cancel(current: map<nat, Product>, snapshot: map<nat, Product>, items: seq<OrderItem>): (r: map<nat, Product>)
    ensures r.Keys == current.Keys
    decreases |items|
  {
    if items == [] then current
    else
      var pk := items[0].product;
      if pk in snapshot && pk in current then
        Cancel(current[pk := current[pk].(reserved := Release(snapshot[pk].reserved, items[0].quantity))], snapshot, items[1..])
      else
        Cancel(current, snapshot, items[1..])
  }

  /**
   * Releasing never raises a reservation above the snapshot's, and touches
   * no other column and no other row.
   */
  lemma {:induction false} CancelNeverRaises(current: map<nat, Product>, snapshot: map<nat, Product>, items: seq<OrderItem>)
    requires forall id :: id in current ==> id in snapshot && current[id].reserved <= snapshot[id].reserved
    ensures forall id :: id in current ==>
      var after := Cancel(current, snapshot, items)[id];
      after.reserved <= snapshot[id].reserved && after == current[id].(reserved := after.reserved)
    decreases |items|
  {
    if items != [] {
      var pk := items[0].product;
      if pk in snapshot && pk in current {
        Cancel'Step(current, snapshot, items);
      } else {
        CancelNeverRaises(current, snapshot, items[1..]);
      }
    }
  }

  lemma {:induction false} Cancel'Step(current: map<nat, Product>, snapshot: map<nat, Product>, items: seq<OrderItem>)
    requires items != [] && items[0].product in snapshot && items[0].product in current
    requires forall id :: id in current ==> id in snapshot && current[id].reserved <= snapshot[id].reserved
    ensures forall id :: id in current ==>
      var after := Cancel(current, snapshot, items)[id];
      after.reserved <= snapshot[id].reserved && after == current[id].(reserved := after.reserved)
    decreases |items|, 0
  {
    var pk := items[0].product;
    var next := current[pk := current[pk].(reserved := Release(snapshot[pk].reserved, items[0].quantity))];
    CancelNeverRaises(next, snapshot, items[1..]);
  }

  /**
   * With one line per product, each named product's reservation becomes
   * the snapshot's less the line's quantity, clamped at 0; the other rows
   * stay as they are.
   */
  lemma {:induction false} CancelExact(current: map<nat, Product>, snapshot: map<nat, Product>, items: seq<OrderItem>)
    requires DistinctItems(items) && current.Keys == snapshot.Keys
    ensures forall id :: id in current ==>
      Cancel(current, snapshot, items)[id] ==
        match LineFor(items, id)
        case None => current[id]
        case Some(q) => current[id].(reserved := Release(snapshot[id].reserved, q))
    decreases |items|
  {
    if items != [] {
      var pk := items[0].product;
      var rest := items[1..];
      RestNamesOthers(items);
      if pk in snapshot {
        CancelExact(current[pk := current[pk].(reserved := Release(snapshot[pk].reserved, items[0].quantity))], snapshot, rest);
      } else {
        CancelExact(current, snapshot, rest);
      }
    }
  }

  /** A product has a line exactly when some line names it. */
  lemma {:induction false} LineForNamed(items: seq<OrderItem>, id: nat)
    ensures LineFor(items, id).Some? <==> exists k :: 0 <= k < |items| && items[k].product == id
    decreases |items|
  {
    if items != [] {
      LineForNamed(items[1..], id);
      if exists k :: 0 <= k < |items| && items[k].product == id {
        var k :| 0 <= k < |items| && items[k].product == id;
        if k > 0 {
          assert items[1..][k - 1].product == id;
        }
      }
      if exists k :: 0 <= k < |items[1..]| && items[1..][k].product == id {
        var k :| 0 <= k < |items[1..]| && items[1..][k].product == id;
        assert items[k + 1].product == id;
      }
    }
  }

  /**
   * `cancel_reservation(order)` inside `transaction.atomic()`: the order's
   * lines and their products are loaded first, then each row is written.
   * No reservation grows.
   */
  method CancelReservation(db: Database, items: seq<OrderItem>)
    modifies db
    ensures db.products == Cancel(old(db.products), old(db.products), items)
    ensures forall id :: id in old(db.products) ==> id in db.products && db.products[id].reserved <= old(db.products)[id].reserved
    ensures db.users == old(db.users) && db.categories == old(db.categories)
    ensures db.carts == old(db.carts) && db.orders == old(db.orders)
    ensures old(db.Valid()) ==> db.Valid()
  {
    var snapshot := db.products;
    for i := 0 to |items|
      invariant Cancel(snapshot, snapshot, items) == Cancel(db.products, snapshot, items[i..])
      invariant db.users == old(db.users) && db.categories == old(db.categories)
      invariant db.carts == old(db.carts) && db.orders == old(db.orders)
    {
      var item := items[i];
      assert items[i..][0] == item && items[i..][1..] == items[i + 1..];
      if item.product in snapshot && item.product in db.products {
        var product := db.products[item.product];
        product := product.(reserved := Release(snapshot[item.product].reserved, item.quantity));
        db.products := db.products[item.product := product];
      }
    }
    assert items[|items|..] == [];
    CancelNeverRaises(snapshot, snapshot, items);
  }

  // ------------------------------------------------------------- confirm_order

  /**
   * `confirm_order(order)`: for each order line whose product is in the
   * snapshot, the row's `quantity` and `reserved` become the snapshot's less
   * the line's quantity and `in_stock` becomes `quantity > 0`. Both columns
   * are non-negative in the database, so a write that would make either
   * negative fails with `IntegrityError`.
   */
  function Confirm(current: map<nat, Product>, snapshot: map<nat, Product>, items: seq<OrderItem>): (r: Result<map<nat, Product>, Crash>)
    ensures r.Success? ==> r.value.Keys == current.Keys
    ensures r.Failure? ==> r.error == IntegrityError
    decreases |items|
  {
    if items == [] then Success(current)
    else
      var pk := items[0].product;
      var q := items[0].quantity;
      if pk in snapshot && pk in current then
        var quantity := snapshot[pk].quantity - q;
        var reserved := snapshot[pk].reserved - q;
        if quantity < 0 || reserved < 0 then Failure(IntegrityError)
        else
          Confirm(current[pk := current[pk].(quantity := quantity, reserved := reserved, inStock := quantity > 0)], snapshot, items[1..])
      else
        Confirm(current, snapshot, items[1..])
  }

  /**
   * Writing the stock off keeps every product's `quantity - reserved`: what
   * was available before payment is available after it.
   */
  lemma {:induction false} ConfirmKeepsAvailable(current: map<nat, Product>, snapshot: map<nat, Product>, items: seq<OrderItem>)
    requires Confirm(current, snapshot, items).Success?
    requires forall id :: id in current ==> id in snapshot && Available(current[id]) == Available(snapshot[id])
    ensures forall id :: id in current ==> Available(Confirm(current, snapshot, items).value[id]) == Available(snapshot[id])
    decreases |items|
  {
    if items != [] {
      var pk := items[0].product;
      var q := items[0].quantity;
      if pk in snapshot && pk in current {
        var quantity := snapshot[pk].quantity - q;
        var reserved := snapshot[pk].reserved - q;
        ConfirmKeepsAvailable(current[pk := current[pk].(quantity := quantity, reserved := reserved, inStock := quantity > 0)], snapshot, items[1..]);
      } else {
        ConfirmKeepsAvailable(current, snapshot, items[1..]);
      }
    }
  }

  /** The lines after the first name other products than the first, and each at most once. */
  lemma RestNamesOthers(items: seq<OrderItem>)
    requires items != [] && DistinctItems(items)
    ensures DistinctItems(items[1..])
    ensures forall id :: LineFor(items[1..], id).Some? ==> id != items[0].product
  {
    var rest := items[1..];
    forall id | LineFor(rest, id).Some? ensures id != items[0].product {
      LineForNamed(rest, id);
      var k :| 0 <= k < |rest| && rest[k].product == id;
      assert rest[k] == items[k + 1];
    }
  }

  /**
   * A row after the write-off: untouched without a line; with a line of
   * `q`, `q` less stock and `q` less reservation than the snapshot,
   * `in_stock` saying whether stock is left, and no other column changed.
   */
  predicate Confirmed(before: Product, snap: Product, line: Option<nat>, after: Product)
  {
    match line
    case None => after == before
    case Some(q) =>
      after.quantity + q == snap.quantity && after.reserved + q == snap.reserved
      && (after.inStock <==> after.quantity > 0)
      && after == before.(quantity := after.quantity, reserved := after.reserved, inStock := after.inStock)
  }

  /**
   * With one line per product, a successful write-off takes each line's
   * quantity off both the stock and the reservation of its product, whose
   * `in_stock` then says whether stock is left; the other rows stay.
   */
  lemma {:induction false} ConfirmExact(current: map<nat, Product>, snapshot: map<nat, Product>, items: seq<OrderItem>)
    requires DistinctItems(items) && current.Keys == snapshot.Keys
    requires Confirm(current, snapshot, items).Success?
    ensures forall id :: id in current ==>
      Confirmed(current[id], snapshot[id], LineFor(items, id), Confirm(current, snapshot, items).value[id])
    decreases |items|
  {
    if items != [] {
      var pk := items[0].product;
      RestNamesOthers(items);
      if pk in snapshot {
        ConfirmExactStep(current, snapshot, items);
      } else {
        ConfirmExact(current, snapshot, items[1..]);
        forall id | id in current
          ensures Confirmed(current[id], snapshot[id], LineFor(items, id), Confirm(current, snapshot, items).value[id])
        {
          assert id != pk;
        }
      }
    }
  }

  /** `ConfirmExact` when the first line names a product of the snapshot. */
  lemma {:induction false} ConfirmExactStep(current: map<nat, Product>, snapshot: map<nat, Product>, items: seq<OrderItem>)
    requires items != [] && items[0].product in snapshot
    requires DistinctItems(items) && current.Keys == snapshot.Keys
    requires Confirm(current, snapshot, items).Success?
    ensures forall id :: id in current ==>
      Confirmed(current[id], snapshot[id], LineFor(items, id), Confirm(current, snapshot, items).value[id])
    decreases |items|, 0
  {
    var pk := items[0].product;
    var q := items[0].quantity;
    var rest := items[1..];
    RestNamesOthers(items);
    var quantity := snapshot[pk].quantity - q;
    var reserved := snapshot[pk].reserved - q;
    var next := current[pk := current[pk].(quantity := quantity, reserved := reserved, inStock := quantity > 0)];
    var r := Confirm(next, snapshot, rest);
    assert Confirm(current, snapshot, items) == r;
    ConfirmExact(next, snapshot, rest);
    forall id | id in current
      ensures Confirmed(current[id], snapshot[id], LineFor(items, id), r.value[id])
    {
      if id == pk {
        assert LineFor(rest, id).None?;
        assert LineFor(items, id) == Some(q);
        assert r.value[id] == next[id];
      } else {
        assert next[id] == current[id];
        assert LineFor(items, id) == LineFor(rest, id);
      }
    }
  }

  /**
   * `confirm_order(order)` inside `transaction.atomic()`: the products end
   * as `Confirm` computes, or, when a write fails, exactly as they were.
   * Every product keeps its `quantity - reserved`.
   */
  method ConfirmOrder(db: Database, items: seq<OrderItem>) returns (r: Outcome<Crash>)
    modifies db
    ensures r.Pass? <==> Confirm(old(db.products), old(db.products), items).Success?
    ensures r.Pass? ==> db.products == Confirm(old(db.products), old(db.products), items).value
    ensures r.Pass? ==> forall id :: id in old(db.products) ==> id in db.products && Available(db.products[id]) == Available(old(db.products)[id])
    ensures r.Fail? ==> r.error == IntegrityError && db.products == old(db.products)
    ensures db.users == old(db.users) && db.categories == old(db.categories)
    ensures db.carts == old(db.carts) && db.orders == old(db.orders)
    ensures old(db.Valid()) ==> db.Valid()
  {
    var snapshot := db.products;
    for i := 0 to |items|
      invariant Confirm(snapshot, snapshot, items) == Confirm(db.products, snapshot, items[i..])
      invariant db.users == old(db.users) && db.categories == old(db.categories)
      invariant db.carts == old(db.carts) && db.orders == old(db.orders)
    {
      var item := items[i];
      assert items[i..][0] == item && items[i..][1..] == items[i + 1..];
      if item.product in snapshot && item.product in db.products {
        var quantity := snapshot[item.product].quantity - item.quantity;
        var reserved := snapshot[item.product].reserved - item.quantity;
        if quantity < 0 || reserved < 0 {
          db.products := snapshot;
          return Fail(IntegrityError);
        }
        var product := db.products[item.product].(quantity := quantity, reserved := reserved, inStock := quantity > 0);
        db.products := db.products[item.product := product];
      }
    }
    assert items[|items|..] == [];
    ConfirmKeepsAvailable(snapshot, snapshot, items);
    if old(db.Valid()) {
      ConfirmKeepsKeys(snapshot, snapshot, items);
    }
    r := Pass;
  }

  /** Writing the stock off changes no product's primary key. */
  lemma {:induction false} ConfirmKeepsKeys(current: map<nat, Product>, snapshot: map<nat, Product>, items: seq<OrderItem>)
    requires Confirm(current, snapshot, items).Success?
    requires forall id :: id in current ==> current[id].id == id
    ensures forall id :: id in Confirm(current, snapshot, items).value ==> Confirm(current, snapshot, items).value[id].id == id
    decreases |items|
  {
    if items != [] {
      var pk := items[0].product;
      var q := items[0].quantity;
      if pk in snapshot && pk in current {
        var quantity := snapshot[pk].quantity - q;
        var reserved := snapshot[pk].reserved - q;
        var next := current[pk := current[pk].(quantity := quantity, reserved := reserved, inStock := quantity > 0)];
        ConfirmKeepsKeys(next, snapshot, items[1..]);
      } else {
        ConfirmKeepsKeys(current, snapshot, items[1..]);
      }
    }
  }
}
