/**
 * The cart handlers: reading a product or line id out of callback data,
 * adding an entered quantity of a product to the user's open cart (merging
 * it into an existing line), removing one line, clearing the cart, and
 * listing the open cart's lines.
 *
 * A cart is open while it is not ordered. The model keeps carts in
 * primary-key order, so "the first open cart" is the one with the smallest
 * key, as an unordered `first()` picks it.
 */
module CartHandlers {
  import opened Wrappers
  import opened Text
  import opened Models
  import opened CatalogKb
  import opened CartKb

  // -------------------------------------------------------------- queries

  predicate IsOpenCartOf(c: Cart, chat: nat)
  {
    c.user == Some(chat) && !c.isOrdered
  }

  /** The positions from `from` on that hold open carts of `chat`, in increasing order. */
  function OpenFrom(carts: seq<Cart>, chat: nat, from: nat): (r: seq<nat>)
    requires from <= |carts|
    ensures forall i :: i in r <==> from <= i < |carts| && IsOpenCartOf(carts[i], chat)
    ensures forall a :: 0 <= a < |r| ==> from <= r[a] < |carts|
    ensures forall a, b :: 0 <= a < b < |r| ==> r[a] < r[b]
    decreases |carts| - from
  {
    if from == |carts| then []
    else (if IsOpenCartOf(carts[from], chat) then [from] else []) + OpenFrom(carts, chat, from + 1)
  }

  /** The positions of the open carts of `chat`, in primary-key order. */
  function OpenCarts(carts: seq<Cart>, chat: nat): (r: seq<nat>)
    ensures forall i :: i in r <==> 0 <= i < |carts| && IsOpenCartOf(carts[i], chat)
    ensures forall a :: 0 <= a < |r| ==> r[a] < |carts|
    ensures forall a, b :: 0 <= a < b < |r| ==> r[a] < r[b]
  {
    OpenFrom(carts, chat, 0)
  }

  /** When the cart at `i` is the only open cart of `chat`, it is the whole list. */
  lemma OnlyOpenCart(carts: seq<Cart>, chat: nat, i: nat)
    requires i < |carts| && IsOpenCartOf(carts[i], chat)
    requires forall j :: 0 <= j < |carts| && j != i ==> !IsOpenCartOf(carts[j], chat)
    ensures OpenCarts(carts, chat) == [i]
  {
    var r := OpenCarts(carts, chat);
    assert i in r;
    forall a | 0 <= a < |r|
      ensures r[a] == i
    {
      assert r[a] in r;
    }
    SingleValue(r, i);
  }

  /** A strictly increasing list that holds `i` and nothing else is `[i]`. */
  lemma SingleValue(r: seq<nat>, i: nat)
    requires i in r
    requires forall a :: 0 <= a < |r| ==> r[a] == i
    requires forall a, b :: 0 <= a < b < |r| ==> r[a] < r[b]
    ensures r == [i]
  {
    IncreasingSpread(r);
  }

  /** In a strictly increasing list of naturals the last is at least the first plus the length less one. */
  lemma {:induction false} IncreasingSpread(r: seq<nat>)
    requires |r| > 0
    requires forall a, b :: 0 <= a < b < |r| ==> r[a] < r[b]
    ensures r[|r| - 1] >= r[0] + |r| - 1
    decreases |r|
  {
    if |r| > 1 {
      IncreasingSpread(r[..|r| - 1]);
      assert r[|r| - 2] < r[|r| - 1];
    }
  }


  /**
   * `get_cart_items(chat_id)`: the lines of the first open cart of the
   * user, or nothing when the user has no open cart.
   */
  function GetCartItems(carts: seq<Cart>, chat: nat): (items: seq<CartItem>)
    ensures OpenCarts(carts, chat) == [] ==> items == []
    ensures OpenCarts(carts, chat) != [] ==> items == carts[OpenCarts(carts, chat)[0]].items
  {
    var open := OpenCarts(carts, chat);
    if open == [] then [] else carts[open[0]].items
  }

  /** The first open cart of the user is the open cart with the smallest key position. */
  lemma FirstOpenCartIsFirst(carts: seq<Cart>, chat: nat, i: nat)
    requires i < |carts| && IsOpenCartOf(carts[i], chat)
    ensures OpenCarts(carts, chat) != [] && OpenCarts(carts, chat)[0] <= i
  {
    var open := OpenCarts(carts, chat);
    assert i in open;
    var k :| 0 <= k < |open| && open[k] == i;
    if k > 0 {
      assert open[0] < open[k];
    }
  }

  /** The position of the line for `productId`, if the cart has one. */
  function LineOf(items: seq<CartItem>, productId: int): (r: Option<nat>)
    ensures r.Some? ==> r.value < |items| && items[r.value].product == productId
    ensures r.None? ==> forall k :: 0 <= k < |items| ==> items[k].product != productId
    decreases |items|
  {
    if items == [] then None
    else if items[0].product == productId then Some(0)
    else match LineOf(items[1..], productId)
      case None => None
      case Some(k) => Some(k + 1)
  }

  /** The position of the line with key `id`, if the cart has one. */
  function LineWithId(items: seq<CartItem>, id: int): (r: Option<nat>)
    ensures r.Some? ==> r.value < |items| && items[r.value].id == id
    ensures r.None? ==> forall k :: 0 <= k < |items| ==> items[k].id != id
    decreases |items|
  {
    if items == [] then None
    else if items[0].id == id then Some(0)
    else match LineWithId(items[1..], id)
      case None => None
      case Some(k) => Some(k + 1)
  }

  // ------------------------------------------------------------- decoding

  /** `int(data.split('_')[2])`: `IndexError` with fewer than two `_`, `ValueError` when the piece is not an integer. */
  function DecodeThird(data: string): (r: Result<int, Crash>)
    ensures r.Success? ==> |Split(data, '_')| > 2 && PyInt(Split(data, '_')[2]) == Some(r.value)
    ensures |Split(data, '_')| <= 2 ==> r == Failure(IndexError)
  {
    var parts := Split(data, '_');
    if |parts| <= 2 then Failure(IndexError)
    else
      match PyInt(parts[2])
      case None => Failure(ValueError)
      case Some(n) => Success(n)
  }

  /** `a_b_{id}` with `a` and `b` free of `_` decodes to `id`. */
  lemma ThirdRoundTrip(a: string, b: string, id: nat)
    requires '_' !in a && '_' !in b
    ensures DecodeThird(a + "_" + (b + "_" + NatToString(id))) == Success(id)
  {
    var digits := NatToString(id);
    assert '_' !in digits;
    SplitThree(a, '_', b, digits);
    PyIntOfNatToString(id);
  }

  /** The data of the add-to-cart button of a product card decodes to the product id. */
  lemma AddItemRoundTrip(id: nat)
    ensures DecodeThird(AddItemData(id)) == Success(id)
  {
    assert AddItemData(id) == "add" + "_" + ("item" + "_" + NatToString(id));
    ThirdRoundTrip("add", "item", id);
  }

  /** The data of a remove button of the cart screen decodes to the line id. */
  lemma RemoveItemRoundTrip(id: nat)
    ensures DecodeThird(RemoveItemData(id)) == Success(id)
  {
    assert RemoveItemData(id) == "remove" + "_" + ("item" + "_" + NatToString(id));
    ThirdRoundTrip("remove", "item", id);
  }

  // ------------------------------------------------------------ line edits

  /** `item.quantity += quantity` on line `k`. */
  function Merge(items: seq<CartItem>, k: nat, quantity: nat): (r: seq<CartItem>)
    requires k < |items|
    ensures |r| == |items| && r[k].quantity == items[k].quantity + quantity
    ensures forall j :: 0 <= j < |items| ==> r[j].product == items[j].product && r[j].id == items[j].id && r[j].price == items[j].price
    ensures forall j :: 0 <= j < |items| && j != k ==> r[j] == items[j]
  {
    items[k := items[k].(quantity := items[k].quantity + quantity)]
  }

  /** Merging keeps one line per product and distinct line keys. */
  lemma MergeKeepsLines(items: seq<CartItem>, k: nat, quantity: nat)
    requires k < |items| && OneLinePerProduct(items) && DistinctLineIds(items)
    ensures OneLinePerProduct(Merge(items, k, quantity)) && DistinctLineIds(Merge(items, k, quantity))
  {
    var r := Merge(items, k, quantity);
    forall i, j | 0 <= i < j < |r|
      ensures r[i].product != r[j].product && r[i].id != r[j].id
    {
      assert r[i].product == items[i].product && r[j].product == items[j].product;
      assert r[i].id == items[i].id && r[j].id == items[j].id;
    }
  }

  /** A new line for a product the cart does not hold, under an unused key, keeps both constraints. */
  lemma AppendKeepsLines(items: seq<CartItem>, line: CartItem)
    requires OneLinePerProduct(items) && DistinctLineIds(items)
    requires forall k :: 0 <= k < |items| ==> items[k].product != line.product && items[k].id != line.id
    ensures OneLinePerProduct(items + [line]) && DistinctLineIds(items + [line])
  {
  }

  /** Line `k` removed, the others kept in order. */
  function Without(items: seq<CartItem>, k: nat): (r: seq<CartItem>)
    requires k < |items|
    ensures |r| == |items| - 1
    ensures forall j :: 0 <= j < k ==> r[j] == items[j]
    ensures forall j :: k <= j < |r| ==> r[j] == items[j + 1]
  {
    items[..k] + items[k + 1..]
  }

  /** Removing a line keeps both constraints and takes its key out of the cart. */
  lemma WithoutKeepsLines(items: seq<CartItem>, k: nat)
    requires k < |items|
    ensures OneLinePerProduct(items) ==> OneLinePerProduct(Without(items, k))
    ensures DistinctLineIds(items) ==>
      (DistinctLineIds(Without(items, k))
       && forall j :: 0 <= j < |Without(items, k)| ==> Without(items, k)[j].id != items[k].id)
  {
    var r := Without(items, k);
    if OneLinePerProduct(items) {
      forall i, j | 0 <= i < j < |r|
        ensures r[i].product != r[j].product
      {
        var i' := if i < k then i else i + 1;
        var j' := if j < k then j else j + 1;
        assert r[i] == items[i'] && r[j] == items[j'] && i' < j';
      }
    }
    if DistinctLineIds(items) {
      forall i, j | 0 <= i < j < |r|
        ensures r[i].id != r[j].id
      {
        var i' := if i < k then i else i + 1;
        var j' := if j < k then j else j + 1;
        assert r[i] == items[i'] && r[j] == items[j'] && i' < j';
      }
      forall j | 0 <= j < |r|
        ensures r[j].id != items[k].id
      {
        var j' := if j < k then j else j + 1;
        assert r[j] == items[j'] && j' != k;
      }
    }
  }

  /** No line of any cart uses the key `id`. */
  ghost predicate UnusedLineId(carts: seq<Cart>, id: nat)
  {
    forall i, k :: 0 <= i < |carts| && 0 <= k < |carts[i].items| ==> carts[i].items[k].id != id
  }

  /** Every cart keeps one line per product under distinct line keys. */
  ghost predicate CartsValid(carts: seq<Cart>)
  {
    forall i :: 0 <= i < |carts| ==> OneLinePerProduct(carts[i].items) && DistinctLineIds(carts[i].items)
  }

  /** How many of the product the lines hold: the quantity of its line, or 0. */
  function QuantityOf(items: seq<CartItem>, productId: int): nat
  {
    match LineOf(items, productId)
    case None => 0
    case Some(k) => items[k].quantity
  }

  /** Finding a product's line only looks at the products of the lines. */
  lemma {:induction false} LineOfSameProducts(a: seq<CartItem>, b: seq<CartItem>, p: int)
    requires |a| == |b| && forall j :: 0 <= j < |a| ==> a[j].product == b[j].product
    ensures LineOf(a, p) == LineOf(b, p)
    decreases |a|
  {
    if a != [] {
      LineOfSameProducts(a[1..], b[1..], p);
    }
  }

  /** A line appended at the end is found only when no earlier line holds the product. */
  lemma {:induction false} LineOfAppend(items: seq<CartItem>, line: CartItem, p: int)
    ensures LineOf(items + [line], p) ==
      if LineOf(items, p).Some? then LineOf(items, p)
      else if line.product == p then Some(|items|) else None
    decreases |items|
  {
    if items == [] {
      assert items + [line] == [line];
      assert [line][1..] == [];
    } else {
      assert (items + [line])[1..] == items[1..] + [line];
      LineOfAppend(items[1..], line, p);
    }
  }

  // --------------------------------------------------------------- handlers

  datatype QuantityOutcome =
    | Rejected          // not an integer of at least 1: the user is asked again
    | Merged            // the product's line grew by the quantity
    | Added             // a new line was created
    | Raised(e: Crash)  // the handler stopped with an exception

  /** The text `int()` accepts as a whole number of at least 1. */
  predicate ValidQuantity(text: string)
  {
    PyInt(text).Some? && PyInt(text).value >= 1
  }

  /**
   * `Cart.objects.aget_or_create(user=user, is_ordered=False)` when the user
   * has at most one open cart: the table, with a new empty cart appended
   * under `newCartId` when there was none, and the position of the user's
   * one open cart in it.
   */
  function GetOrCreateCart(carts: seq<Cart>, chat: nat, newCartId: nat): (r: (seq<Cart>, nat))
    requires |OpenCarts(carts, chat)| <= 1
    ensures r.1 < |r.0| && IsOpenCartOf(r.0[r.1], chat)
    ensures forall j :: 0 <= j < |r.0| && j != r.1 ==> !IsOpenCartOf(r.0[j], chat)
    ensures r.0 == carts || r.0 == carts + [Cart(newCartId, Some(chat), false, [])]
    ensures r.0[r.1].items == GetCartItems(carts, chat)
  {
    var open := OpenCarts(carts, chat);
    if open == [] then (carts + [Cart(newCartId, Some(chat), false, [])], |carts|)
    else
      assert forall j :: 0 <= j < |carts| && IsOpenCartOf(carts[j], chat) ==> j == open[0] by {
        forall j | 0 <= j < |carts| && IsOpenCartOf(carts[j], chat) ensures j == open[0] {
          assert j in open;
        }
      }
      (carts, open[0])
  }

  /**
   * Adding `n` of `productId` to the user's open cart, which is created when
   * missing: the product's line grows by `n`; without a line, a new one with
   * the product's current price is added under `newLineId`, or, for a
   * missing product, `DoesNotExist` is raised after the cart was created.
   */
  function AddQuantity(carts: seq<Cart>, products: map<nat, Product>, chat: nat, productId: int, n: nat,
                       newCartId: nat, newLineId: nat): (r: (QuantityOutcome, seq<Cart>))
    requires |OpenCarts(carts, chat)| <= 1
    ensures r.0 == Merged || r.0 == Added || r.0 == Raised(DoesNotExist)
    ensures r.0 == Added ==> productId >= 0 && productId in products
    ensures |r.1| >= |carts|
    ensures forall j :: 0 <= j < |carts| && !IsOpenCartOf(carts[j], chat) ==> r.1[j] == carts[j]
  {
    var (cs, i) := GetOrCreateCart(carts, chat, newCartId);
    var items := cs[i].items;
    match LineOf(items, productId)
    case Some(k) => (Merged, WithItems(cs, i, Merge(items, k, n)))
    case None =>
      if productId >= 0 && productId in products then
        (Added, WithItems(cs, i, items + [CartItem(newLineId, productId, n, products[productId].price)]))
      else
        (Raised(DoesNotExist), cs)
  }

  /** The table with the lines of the cart at `i` replaced, every other cart as it was. */
  function WithItems(cs: seq<Cart>, i: nat, items: seq<CartItem>): (r: seq<Cart>)
    requires i < |cs|
    ensures |r| == |cs| && r[i] == cs[i].(items := items)
    ensures forall j :: 0 <= j < |cs| && j != i ==> r[j] == cs[j]
  {
    cs[i := cs[i].(items := items)]
  }

  /**
   * The whole effect of `process_quantity(message, state)` on the outcome
   * and the carts, for the product `productId` kept in the conversation
   * state. A message without text makes `int()` raise `TypeError`; a text
   * that is not an integer of at least 1 is rejected; a chat with no user
   * row raises `DoesNotExist`, and two open carts `MultipleObjectsReturned`.
   */
  function QuantityEffect(users: map<nat, string>, carts: seq<Cart>, products: map<nat, Product>, chat: nat,
                          text: Option<string>, productId: int, newCartId: nat, newLineId: nat): (r: (QuantityOutcome, seq<Cart>))
    ensures r.0 == Rejected <==> text.Some? && !ValidQuantity(text.value)
    ensures r.0 == Merged || r.0 == Added ==> text.Some? && ValidQuantity(text.value) && chat in users
    ensures r.0 != Merged && r.0 != Added && r.1 != carts ==>
      r.0 == Raised(DoesNotExist) && |r.1| == |carts| + 1 && GetCartItems(carts, chat) == []
  {
    if text.None? then (Raised(TypeError), carts)
    else if !ValidQuantity(text.value) then (Rejected, carts)
    else if chat !in users then (Raised(DoesNotExist), carts)
    else if |OpenCarts(carts, chat)| > 1 then (Raised(MultipleObjectsReturned), carts)
    else AddQuantity(carts, products, chat, productId, PyInt(text.value).value, newCartId, newLineId)
  }

  /**
   * When a quantity is taken, the user's cart afterwards holds exactly `n`
   * more of the product than before, and as many of every other product
   * as before.
   */
  lemma AddQuantityCounts(carts: seq<Cart>, products: map<nat, Product>, chat: nat, productId: int, n: nat,
                          newCartId: nat, newLineId: nat, other: int)
    requires |OpenCarts(carts, chat)| <= 1
    requires AddQuantity(carts, products, chat, productId, n, newCartId, newLineId).0 != Raised(DoesNotExist)
    ensures var after := AddQuantity(carts, products, chat, productId, n, newCartId, newLineId).1;
      QuantityOf(GetCartItems(after, chat), other)
      == QuantityOf(GetCartItems(carts, chat), other) + (if other == productId then n else 0)
  {
    var (cs, i) := GetOrCreateCart(carts, chat, newCartId);
    var items := cs[i].items;
    var after := AddQuantity(carts, products, chat, productId, n, newCartId, newLineId).1;
    var x := after[i].items;
    assert after == cs[i := cs[i].(items := x)];
    OnlyOpenCart(after, chat, i);
    assert GetCartItems(after, chat) == x;
    match LineOf(items, productId) {
      case Some(k) =>
        LineOfSameProducts(items, x, other);
      case None =>
        LineOfAppend(items, x[|items|], other);
        assert x == items + [x[|items|]];
    }
  }

  /** Taking a quantity keeps one line per product and distinct line keys in every cart. */
  lemma AddQuantityKeepsLines(carts: seq<Cart>, products: map<nat, Product>, chat: nat, productId: int, n: nat,
                              newCartId: nat, newLineId: nat)
    requires |OpenCarts(carts, chat)| <= 1 && CartsValid(carts) && UnusedLineId(carts, newLineId)
    ensures CartsValid(AddQuantity(carts, products, chat, productId, n, newCartId, newLineId).1)
  {
    var (cs, i) := GetOrCreateCart(carts, chat, newCartId);
    var items := cs[i].items;
    assert CartsValid(cs) && forall k :: 0 <= k < |items| ==> items[k].id != newLineId by {
      if cs != carts {
        assert items == [];
      }
    }
    match LineOf(items, productId) {
      case Some(k) =>
        MergeKeepsLines(items, k, n);
        ReplaceKeepsValid(cs, i, Merge(items, k, n));
      case None =>
        if productId >= 0 && productId in products {
          var line := CartItem(newLineId, productId, n, products[productId].price);
          AppendKeepsLines(items, line);
          ReplaceKeepsValid(cs, i, items + [line]);
        }
    }
  }

  /** Replacing one cart's lines by valid lines keeps every cart valid. */
  lemma ReplaceKeepsValid(carts: seq<Cart>, i: nat, items: seq<CartItem>)
    requires i < |carts| && CartsValid(carts) && OneLinePerProduct(items) && DistinctLineIds(items)
    ensures CartsValid(carts[i := carts[i].(items := items)])
  {
  }

  /** `process_quantity` in terms of whole messages: the counts of `AddQuantityCounts`. */
  lemma ProcessQuantityCounts(users: map<nat, string>, carts: seq<Cart>, products: map<nat, Product>, chat: nat,
                              text: Option<string>, productId: int, newCartId: nat, newLineId: nat, other: int)
    requires QuantityEffect(users, carts, products, chat, text, productId, newCartId, newLineId).0 in {Merged, Added}
    ensures text.Some? && PyInt(text.value).Some?
    ensures var after := QuantityEffect(users, carts, products, chat, text, productId, newCartId, newLineId).1;
      QuantityOf(GetCartItems(after, chat), other)
      == QuantityOf(GetCartItems(carts, chat), other) + (if other == productId then PyInt(text.value).value else 0)
  {
    AddQuantityCounts(carts, products, chat, productId, PyInt(text.value).value, newCartId, newLineId, other);
  }

  /**
   * `process_quantity(message, state)`: the user's cart is fetched or
   * created and written first, then the product's line.
   */
  method ProcessQuantity(db: Database, chat: nat, text: Option<string>, productId: int, newCartId: nat, newLineId: nat)
    returns (r: QuantityOutcome)
    modifies db
    ensures (r, db.carts) == QuantityEffect(old(db.users), old(db.carts), old(db.products), chat, text, productId, newCartId, newLineId)
    ensures db.users == old(db.users) && db.categories == old(db.categories)
    ensures db.products == old(db.products) && db.orders == old(db.orders)
    ensures old(db.Valid()) && UnusedLineId(old(db.carts), newLineId) ==> db.Valid()
  {
    if text.None? {
      return Raised(TypeError);
    }
    var parsed := PyInt(text.value);
    if parsed.None? || parsed.value < 1 {
      return Rejected;
    }
    var quantity: nat := parsed.value;
    if chat !in db.users {
      return Raised(DoesNotExist);
    }
    if |OpenCarts(db.carts, chat)| > 1 {
      return Raised(MultipleObjectsReturned);
    }
    if db.Valid() && UnusedLineId(db.carts, newLineId) {
      AddQuantityKeepsLines(db.carts, db.products, chat, productId, quantity, newCartId, newLineId);
    }
    r := AddToOpenCart(db, chat, productId, quantity, newCartId, newLineId);
  }

  /** The writes of `process_quantity` once the quantity and the user are known. */
  method AddToOpenCart(db: Database, chat: nat, productId: int, quantity: nat, newCartId: nat, newLineId: nat)
    returns (r: QuantityOutcome)
    requires |OpenCarts(db.carts, chat)| <= 1
    modifies db
    ensures (r, db.carts) == AddQuantity(old(db.carts), old(db.products), chat, productId, quantity, newCartId, newLineId)
    ensures db.users == old(db.users) && db.categories == old(db.categories)
    ensures db.products == old(db.products) && db.orders == old(db.orders)
  {
    var (carts, i) := GetOrCreateCart(db.carts, chat, newCartId);
    db.carts := carts;
    var cart := db.carts[i];
    match LineOf(cart.items, productId) {
      case Some(k) =>
        db.carts := db.carts[i := cart.(items := Merge(cart.items, k, quantity))];
        r := Merged;
      case None =>
        if productId < 0 || productId !in db.products {
          r := Raised(DoesNotExist);
        } else {
          var line := CartItem(newLineId, productId, quantity, db.products[productId].price);
          db.carts := db.carts[i := cart.(items := cart.items + [line])];
          r := Added;
        }
    }
  }

  /**
   * The effect of `remove_item(call)` on the carts: the line id is read from
   * the data; the user must have exactly one open cart and it must hold a
   * line with that id; that line is deleted and the others stay in order.
   */
  function RemoveEffect(carts: seq<Cart>, chat: nat, data: string): (r: Result<seq<Cart>, Crash>)
    ensures r.Success? <==>
      DecodeThird(data).Success? && |OpenCarts(carts, chat)| == 1
      && exists k :: 0 <= k < |GetCartItems(carts, chat)| && GetCartItems(carts, chat)[k].id == DecodeThird(data).value
    ensures r.Success? ==>
      exists k :: (0 <= k < |GetCartItems(carts, chat)| && GetCartItems(carts, chat)[k].id == DecodeThird(data).value
                   && GetCartItems(r.value, chat) == Without(GetCartItems(carts, chat), k))
    ensures r.Success? ==> |r.value| == |carts| && forall j :: 0 <= j < |carts| && !IsOpenCartOf(carts[j], chat) ==> r.value[j] == carts[j]
    ensures r.Success? && CartsValid(carts) ==>
      (CartsValid(r.value)
       && forall j :: 0 <= j < |GetCartItems(r.value, chat)| ==> GetCartItems(r.value, chat)[j].id != DecodeThird(data).value)
  {
    var itemId := DecodeThird(data);
    var open := OpenCarts(carts, chat);
    if itemId.Failure? then Failure(itemId.error)
    else if |open| == 0 then Failure(DoesNotExist)
    else if |open| > 1 then Failure(MultipleObjectsReturned)
    else
      var i := open[0];
      assert open == [i];
      var items := carts[i].items;
      match LineWithId(items, itemId.value)
      case None => Failure(DoesNotExist)
      case Some(k) =>
        var after := carts[i := carts[i].(items := Without(items, k))];
        ReplaceOnlyOpen(carts, chat, i, Without(items, k));
        WithoutKeepsLines(items, k);
        Success(after)
  }

  /**
   * Replacing the lines of the only open cart of `chat`: it stays the only
   * open cart, its lines are the new ones, and no other cart changes.
   */
  lemma ReplaceOnlyOpen(carts: seq<Cart>, chat: nat, i: nat, items: seq<CartItem>)
    requires OpenCarts(carts, chat) == [i]
    ensures i < |carts| && GetCartItems(carts, chat) == carts[i].items
    ensures var after := carts[i := carts[i].(items := items)];
      OpenCarts(after, chat) == [i] && GetCartItems(after, chat) == items
      && forall j :: 0 <= j < |carts| && j != i ==> !IsOpenCartOf(carts[j], chat) && after[j] == carts[j]
    ensures CartsValid(carts) && OneLinePerProduct(items) && DistinctLineIds(items) ==>
      CartsValid(carts[i := carts[i].(items := items)])
  {
    assert i in OpenCarts(carts, chat);
    forall j | 0 <= j < |carts| && j != i
      ensures !IsOpenCartOf(carts[j], chat)
    {
      assert j !in OpenCarts(carts, chat);
    }
    OnlyOpenCart(carts[i := carts[i].(items := items)], chat, i);
  }

  /**
   * `remove_item(call)`: the carts change as `RemoveEffect` says, or not at
   * all when it fails; the answer is the lines of the user's cart afterwards.
   */
  method RemoveItem(db: Database, chat: nat, data: string) returns (r: Result<seq<CartItem>, Crash>)
    modifies db
    ensures RemoveEffect(old(db.carts), chat, data).Failure? ==>
      r == Failure(RemoveEffect(old(db.carts), chat, data).error) && db.carts == old(db.carts)
    ensures RemoveEffect(old(db.carts), chat, data).Success? ==>
      db.carts == RemoveEffect(old(db.carts), chat, data).value && r == Success(GetCartItems(db.carts, chat))
    ensures db.users == old(db.users) && db.categories == old(db.categories)
    ensures db.products == old(db.products) && db.orders == old(db.orders)
    ensures old(db.Valid()) ==> db.Valid()
  {
    ghost var effect := RemoveEffect(db.carts, chat, data);
    var itemId := DecodeThird(data);
    if itemId.Failure? {
      return Failure(itemId.error);
    }
    var open := OpenCarts(db.carts, chat);
    if |open| == 0 {
      return Failure(DoesNotExist);
    }
    if |open| > 1 {
      return Failure(MultipleObjectsReturned);
    }
    var i := open[0];
    assert open == [i];
    var cart := db.carts[i];
    var k := LineWithId(cart.items, itemId.value);
    if k.None? {
      return Failure(DoesNotExist);
    }
    ReplaceOnlyOpen(db.carts, chat, i, Without(cart.items, k.value));
    WithoutKeepsLines(cart.items, k.value);
    db.carts := db.carts[i := cart.(items := Without(cart.items, k.value))];
    assert db.carts == effect.value;
    r := Success(GetCartItems(db.carts, chat));
  }

  /**
   * `clear_cart(call)`: every line of every open cart of the user is
   * deleted; other carts are untouched. Answers with the empty cart's
   * keyboard.
   */
  method ClearCart(db: Database, chat: nat) returns (kb: seq<seq<Keyboard.Button>>)
    modifies db
    ensures |db.carts| == |old(db.carts)|
    ensures forall i :: 0 <= i < |db.carts| ==>
      db.carts[i] == if IsOpenCartOf(old(db.carts)[i], chat) then old(db.carts)[i].(items := []) else old(db.carts)[i]
    ensures GetCartItems(db.carts, chat) == []
    ensures kb == [[CatalogButton]]
    ensures db.users == old(db.users) && db.categories == old(db.categories)
    ensures db.products == old(db.products) && db.orders == old(db.orders)
    ensures old(db.Valid()) ==> db.Valid()
  {
    var carts := db.carts;
    db.carts := seq(|carts|, i requires 0 <= i < |carts| =>
      if IsOpenCartOf(carts[i], chat) then carts[i].(items := []) else carts[i]);
    var open := OpenCarts(db.carts, chat);
    if open != [] {
      assert open[0] in open;
    }
    var _, empty := BuildCartView([]);
    kb := empty;
  }
}
