/**
 * The shop's persistent records and the rules the model classes enforce:
 * categories nest at most one level deep and never under themselves, a
 * product's `in_stock` flag follows its quantity, stock counts are
 * non-negative, a cart holds one line per product, and an order carries a
 * status string.
 *
 * Prices and amounts are integer kopecks: every `DecimalField` of the shop
 * has two decimal places. Identifiers are the database's positive primary
 * keys; an id of 0 stands for an instance that has not been saved yet
 * (Django's `id is None`, which is just as falsy).
 */
module Models {
  import opened Wrappers
  import opened Text

  datatype Category = Category(id: nat, name: string, parent: Option<nat>)

  /** A product row. `quantity` and `reserved` are `PositiveIntegerField`s, so the database holds no negative value. */
  datatype Product = Product(
    id: nat,
    category: nat,
    description: string,
    price: nat,
    quantity: nat,
    reserved: nat,
    inStock: bool,
    image: Option<string>)

  datatype CartItem = CartItem(id: nat, product: nat, quantity: nat, price: nat)

  /** A cart with its lines; `user` is the owner's Telegram chat id. */
  datatype Cart = Cart(id: nat, user: Option<nat>, isOrdered: bool, items: seq<CartItem>)

  datatype OrderItem = OrderItem(product: nat, quantity: nat, price: nat)

  /** An order with its lines; `createdAt` is the creation timestamp, already formatted. */
  datatype Order = Order(
    id: nat,
    cart: nat,
    fullName: string,
    phone: string,
    address: string,
    totalAmount: nat,
    createdAt: string,
    paymentId: Option<string>,
    status: string,
    items: seq<OrderItem>)

  datatype Faq = Faq(id: nat, question: string, answer: string)

  /** The exceptions a handler can end with when nothing catches them. */
  datatype Crash =
    | TypeError               // `int(None)`: a message without text
    | ValueError              // `int()` of a string that is not an integer
    | IndexError              // a `split` with fewer pieces than the index read
    | DoesNotExist            // `get()` matched no row
    | MultipleObjectsReturned // `get()` matched more than one row
    | IntegrityError          // a write broke a database constraint

  /** The statuses `Order.status` declares as its choices, and its default. */
  const DeclaredStatuses: seq<string> := ["new", "paid", "shipped", "cancelled"]
  const DefaultStatus: string := "new"

  /** The statuses the bot's order handlers actually write. */
  const Pending: string := "pending"
  const Canceled: string := "canceled"
  const Paid: string := "paid"

  /**
   * The handlers and the field disagree: "pending" and "canceled" are not
   * among the declared choices, while only "paid" is, and the default "new"
   * is none of the statuses the handlers write.
   */
  lemma HandlerStatusesUndeclared()
    ensures Pending !in DeclaredStatuses && Canceled !in DeclaredStatuses && Paid in DeclaredStatuses
    ensures DefaultStatus in DeclaredStatuses && DefaultStatus != Pending && DefaultStatus != Canceled && DefaultStatus != Paid
  {
  }

  // ---------------------------------------------------------------- Category

  datatype CleanError =
    | BlankName                 // `name` is required
    | NameTooLong               // `name` has `max_length=255`
    | MissingParent             // the parent row does not exist
    | TooDeep(grandparent: nat) // the chosen parent already has a parent
    | HasSubcategories          // the category has children, so it cannot get a parent

  const NameMaxLength: nat := 255

  // ------------------------------------------------------------------ lookups

  /** The keys the tables are looked up by: primary keys, and the cart an order belongs to. */
  function CategoryKey(c: Category): int { c.id }
  function ProductKey(p: Product): int { p.id }
  function CartKey(c: Cart): int { c.id }
  function OrderKey(o: Order): int { o.id }
  function OrderCartKey(o: Order): int { o.cart }
  function FaqKey(f: Faq): int { f.id }

  /**
   * A lookup by key, as `aget(pk=id)` and `filter(...).first()` do it on a
   * table: the position of the first row whose key is `id`, or none.
   */
  function Position<T>(rows: seq<T>, key: T -> int, id: int): (r: Option<nat>)
    ensures r.Some? ==> r.value < |rows| && key(rows[r.value]) == id
    ensures r.Some? ==> forall i :: 0 <= i < r.value ==> key(rows[i]) != id
    ensures r.None? ==> forall i :: 0 <= i < |rows| ==> key(rows[i]) != id
    decreases |rows|
  {
    if rows == [] then None
    else if key(rows[0]) == id then Some(0)
    else match Position(rows[1..], key, id)
      case None => None
      case Some(i) => Some(i + 1)
  }

  /** The lookup is determined by what it promises: the first row with the key, or none. */
  lemma PositionIs<T>(rows: seq<T>, key: T -> int, id: int, r: Option<nat>)
    requires r.Some? ==> r.value < |rows| && key(rows[r.value]) == id
    requires r.Some? ==> forall i :: 0 <= i < r.value ==> key(rows[i]) != id
    requires r.None? ==> forall i :: 0 <= i < |rows| ==> key(rows[i]) != id
    ensures Position(rows, key, id) == r
  {
  }

  /** With pairwise distinct keys, looking up the key of a row finds that row. */
  lemma PositionOfKey<T>(rows: seq<T>, key: T -> int, k: nat)
    requires k < |rows|
    requires forall i, j :: 0 <= i < j < |rows| ==> key(rows[i]) != key(rows[j])
    ensures Position(rows, key, key(rows[k])) == Some(k)
  {
    PositionIs(rows, key, key(rows[k]), Some(k));
  }

  /** The row with primary key `id`, if any. */
  function FindCategory(table: seq<Category>, id: nat): (r: Option<Category>)
    ensures r.Some? ==> r.value in table && r.value.id == id
    ensures r.None? ==> forall i :: 0 <= i < |table| ==> table[i].id != id
  {
    match Position(table, CategoryKey, id)
    case None => None
    case Some(k) => Some(table[k])
  }

  /**
   * `Category.clean` as written: a parent that itself has a parent is
   * refused. The category's own children are not looked at.
   */
  function Clean(table: seq<Category>, c: Category): (r: Outcome<CleanError>)
    ensures r.Pass? <==> c.parent.None? || (FindCategory(table, c.parent.value).Some? && FindCategory(table, c.parent.value).value.parent.None?)
    ensures r.Fail? && r.error.TooDeep? ==> FindCategory(table, c.parent.value).Some? && FindCategory(table, c.parent.value).value.parent == Some(r.error.grandparent)
  {
    match c.parent
    case None => Pass
    case Some(p) =>
      match FindCategory(table, p)
      case None => Fail(MissingParent)
      case Some(parent) =>
        if parent.parent.Some? then Fail(TooDeep(parent.parent.value)) else Pass
  }

  /** Some row of `table` names `id` as its parent. */
  predicate HasChildren(table: seq<Category>, id: nat)
  {
    exists i :: 0 <= i < |table| && table[i].parent == Some(id)
  }

  /**
   * `Category.clean` as its error message intends it ("at most one level of
   * nesting"): besides a parent that has a parent, a parent for a category
   * that already has children is refused. A category naming itself as
   * parent is left to `save`, which drops that parent.
   */
  function CleanNesting(table: seq<Category>, c: Category): (r: Outcome<CleanError>)
    ensures r.Pass? <==> Clean(table, c).Pass? && !GainsParentWithChildren(table, c)
  {
    match Clean(table, c)
    case Fail(e) => Fail(e)
    case Pass => if GainsParentWithChildren(table, c) then Fail(HasSubcategories) else Pass
  }

  /** A saved category with children would be written under another category. */
  predicate GainsParentWithChildren(table: seq<Category>, c: Category)
  {
    c.parent.Some? && c.id != 0 && c.parent.value != c.id && HasChildren(table, c.id)
  }

  /** The field checks `full_clean()` runs before `clean()`: `name` is required and at most 255 characters. */
  function CleanFields(c: Category): (r: Outcome<CleanError>)
    ensures r.Pass? <==> 0 < |c.name| <= NameMaxLength
  {
    if |c.name| == 0 then Fail(BlankName)
    else if |c.name| > NameMaxLength then Fail(NameTooLong)
    else Pass
  }

  /** `full_clean()` as written: the field checks, then `Category.clean`. */
  function FullCleanAsWritten(table: seq<Category>, c: Category): (r: Outcome<CleanError>)
    ensures r.Pass? <==> CleanFields(c).Pass? && Clean(table, c).Pass?
  {
    if CleanFields(c).Fail? then CleanFields(c) else Clean(table, c)
  }

  /** `full_clean()` with the corrected nesting rule. */
  function FullClean(table: seq<Category>, c: Category): (r: Outcome<CleanError>)
    ensures r.Pass? <==> CleanFields(c).Pass? && CleanNesting(table, c).Pass?
    ensures r.Pass? ==> FullCleanAsWritten(table, c).Pass?
  {
    if CleanFields(c).Fail? then CleanFields(c) else CleanNesting(table, c)
  }

  /**
   * The row `Category.save` writes once `full_clean()` has passed: a
   * category naming itself as parent is saved without one, and a new
   * instance (id 0) receives the key `newId` the database assigns.
   */
  function SavedRow(c: Category, newId: nat): (r: Category)
    ensures r.name == c.name
    ensures r.id == if c.id == 0 then newId else c.id
    ensures r.parent == c.parent || (c.id != 0 && c.parent == Some(c.id) && r.parent.None?)
    ensures c.id != 0 ==> r.parent != Some(r.id)
  {
    var kept := if c.id != 0 && c.parent.Some? && c.id == c.parent.value then c.(parent := None) else c;
    if kept.id == 0 then kept.(id := newId) else kept
  }

  /**
   * The table after `save()` writes `c`: the row with its key is updated
   * in place, or `c` is inserted at the end when no row has that key.
   */
  function Upsert(table: seq<Category>, c: Category): (t: seq<Category>)
    ensures c in t
    ensures forall x :: x in t ==> x == c || x in table
    ensures FindCategory(table, c.id).None? ==> t == table + [c]
  {
    match Position(table, CategoryKey, c.id)
    case Some(k) => assert table[k := c][k] == c; table[k := c]
    case None => table + [c]
  }

  /** Looking a key up after an upsert finds the written row for its key and the old row for any other. */
  lemma FindAfterUpsert(table: seq<Category>, c: Category, id: nat)
    ensures FindCategory(Upsert(table, c), id) == if id == c.id then Some(c) else FindCategory(table, id)
  {
    var t := Upsert(table, c);
    var before := Position(table, CategoryKey, id);
    match Position(table, CategoryKey, c.id)
    case Some(k) =>
      if id == c.id {
        PositionIs(t, CategoryKey, id, Some(k));
      } else {
        assert forall i :: 0 <= i < |t| && i != k ==> t[i] == table[i];
        PositionIs(t, CategoryKey, id, before);
      }
    case None =>
      if id == c.id {
        PositionIs(t, CategoryKey, id, Some(|table|));
      } else {
        assert forall i :: 0 <= i < |table| ==> t[i] == table[i];
        PositionIs(t, CategoryKey, id, before);
      }
  }

  /** Primary keys are unique and positive. */
  ghost predicate DistinctIds(table: seq<Category>)
  {
    (forall i :: 0 <= i < |table| ==> table[i].id != 0) &&
    forall i, j :: 0 <= i < j < |table| ==> table[i].id != table[j].id
  }

  /** With unique keys, an upsert replaces only the row with the written key. */
  lemma UpsertKeepsOthers(table: seq<Category>, c: Category)
    requires DistinctIds(table)
    ensures forall x :: x in Upsert(table, c) ==> x == c || (x in table && x.id != c.id)
  {
    var t := Upsert(table, c);
    match Position(table, CategoryKey, c.id)
    case Some(k) =>
      forall x | x in t && x != c ensures x in table && x.id != c.id {
        var i :| 0 <= i < |t| && t[i] == x;
        assert i != k && x == table[i];
      }
    case None =>
  }

  /** With distinct keys, looking a row's key up finds that row. */
  lemma FindKeyed(table: seq<Category>, c: Category)
    requires DistinctIds(table) && c in table
    ensures FindCategory(table, c.id) == Some(c)
  {
    var k :| 0 <= k < |table| && table[k] == c;
    PositionOfKey(table, CategoryKey, k);
  }

  /** Every parent exists and is a top-level category: nesting is at most one level deep. */
  ghost predicate NestingAtMostOne(table: seq<Category>)
  {
    forall x :: x in table && x.parent.Some? ==>
      FindCategory(table, x.parent.value).Some? && FindCategory(table, x.parent.value).value.parent.None?
  }

  /** No category is its own parent. */
  ghost predicate NoSelfParent(table: seq<Category>)
  {
    forall x :: x in table ==> x.parent != Some(x.id)
  }

  /** The invariants of the category table. */
  ghost predicate CategoryTable(table: seq<Category>)
  {
    DistinctIds(table) && NestingAtMostOne(table) && NoSelfParent(table)
  }

  /** The table `Category.save` leaves as written: unchanged when `full_clean()` raises. */
  function SaveAsWritten(table: seq<Category>, c: Category, newId: nat): (t: seq<Category>)
    ensures FullCleanAsWritten(table, c).Fail? ==> t == table
    ensures FullCleanAsWritten(table, c).Pass? ==> t == Upsert(table, SavedRow(c, newId))
  {
    if FullCleanAsWritten(table, c).Pass? then Upsert(table, SavedRow(c, newId)) else table
  }

  /** A row whose key differs from the written one survives the upsert. */
  lemma UpsertKeepsOtherRows(table: seq<Category>, c: Category, x: Category)
    requires x in table && x.id != c.id
    ensures x in Upsert(table, c)
  {
    var i :| 0 <= i < |table| && table[i] == x;
    assert Upsert(table, c)[i] == x;
  }

  /**
   * The nesting rule as written lets a two-level chain through: in a valid
   * table, giving a category that has children a top-level parent passes
   * `full_clean()` as written, and its children end up two levels deep.
   */
  lemma AsWrittenSaveNests(table: seq<Category>, m: Category, p: nat, newId: nat)
    requires CategoryTable(table)
    requires m in table && HasChildren(table, m.id) && m.id != p && 0 < |m.name| <= NameMaxLength
    requires FindCategory(table, p).Some? && FindCategory(table, p).value.parent.None?
    ensures FullCleanAsWritten(table, m.(parent := Some(p))).Pass?
    ensures !NestingAtMostOne(SaveAsWritten(table, m.(parent := Some(p)), newId))
  {
    var moved := m.(parent := Some(p));
    var i :| 0 <= i < |table| && table[i] == m;
    assert m.id != 0;
    assert SavedRow(moved, newId) == moved;
    var t := Upsert(table, moved);
    var k :| 0 <= k < |table| && table[k].parent == Some(m.id);
    var child := table[k];
    assert child.parent != m.parent;
    assert k != i;
    assert child.id != m.id;
    UpsertKeepsOtherRows(table, moved, child);
    FindAfterUpsert(table, moved, m.id);
    assert child in t && child.parent == Some(m.id) && FindCategory(t, m.id).value.parent.Some?;
  }

  /** A table for `AsWrittenSaveNests`: categories 1 and 2 at the top, 3 under 2. */
  lemma TwoTopOneChild()
    ensures var table := [Category(1, "a", None), Category(2, "b", None), Category(3, "c", Some(2))];
      CategoryTable(table) && HasChildren(table, 2)
      && FindCategory(table, 1) == Some(Category(1, "a", None))
  {
    var table := [Category(1, "a", None), Category(2, "b", None), Category(3, "c", Some(2))];
    assert FindCategory(table, 2) == Some(Category(2, "b", None));
    assert forall x :: x in table && x.parent.Some? ==> x == table[2];
    assert table[2].parent == Some(2);
  }

  /**
   * The same on concrete rows: with top-level categories 1 and 2 and
   * category 3 under 2, moving 2 under 1 passes `clean()`, and 3 ends up
   * two levels deep.
   */
  lemma AsWrittenSaveNestsTwoLevels()
    ensures var table := [Category(1, "a", None), Category(2, "b", None), Category(3, "c", Some(2))];
      var moved := Category(2, "b", Some(1));
      DistinctIds(table) && NestingAtMostOne(table) && NoSelfParent(table)
      && FullCleanAsWritten(table, moved).Pass?
      && !NestingAtMostOne(SaveAsWritten(table, moved, 4))
  {
    var table := [Category(1, "a", None), Category(2, "b", None), Category(3, "c", Some(2))];
    TwoTopOneChild();
    assert table[1] in table;
    AsWrittenSaveNests(table, table[1], 1, 4);
  }

  /** Upserting a row whose key is new or already present keeps the keys distinct. */
  lemma UpsertKeepsDistinct(table: seq<Category>, c: Category)
    requires DistinctIds(table) && c.id != 0
    ensures DistinctIds(Upsert(table, c))
  {
    var t := Upsert(table, c);
    match Position(table, CategoryKey, c.id)
    case Some(k) =>
      assert forall i :: 0 <= i < |t| ==> t[i].id == table[i].id;
    case None =>
      assert forall i :: 0 <= i < |table| ==> t[i] == table[i];
  }

  /** `SaveKeepsInvariants` for a table that may or may not be consistent. */
  lemma SaveKeepsTable(table: seq<Category>, c: Category, newId: nat)
    requires newId != 0 && FindCategory(table, newId).None?
    requires FullClean(table, c).Pass?
    ensures CategoryTable(table) ==> CategoryTable(Upsert(table, SavedRow(c, newId)))
  {
    if CategoryTable(table) {
      SaveKeepsInvariants(table, c, newId);
    }
  }

  /**
   * With the corrected rule a successful save keeps every invariant of the
   * table: keys stay distinct, nesting stays at most one level deep and no
   * category becomes its own parent.
   */
  lemma SaveKeepsInvariants(table: seq<Category>, c: Category, newId: nat)
    requires DistinctIds(table) && NestingAtMostOne(table) && NoSelfParent(table)
    requires newId != 0 && FindCategory(table, newId).None?
    requires FullClean(table, c).Pass?
    ensures var t := Upsert(table, SavedRow(c, newId));
      DistinctIds(t) && NestingAtMostOne(t) && NoSelfParent(t)
  {
    var row := SavedRow(c, newId);
    var t := Upsert(table, row);
    UpsertKeepsDistinct(table, row);
    UpsertKeepsOthers(table, row);
    forall x | x in t && x.parent.Some?
      ensures FindCategory(t, x.parent.value).Some? && FindCategory(t, x.parent.value).value.parent.None?
    {
      var p := x.parent.value;
      FindAfterUpsert(table, row, p);
      if x == row {
        assert c.parent == Some(p);
        assert FindCategory(table, p).Some?;
        assert p != row.id;
      } else if p == row.id {
        assert x in table;
        var i :| 0 <= i < |table| && table[i] == x;
        assert c.id != 0;
        assert HasChildren(table, c.id);
        assert row.parent.None?;
      }
    }
    forall x | x in t
      ensures x.parent != Some(x.id)
    {
      if x == row && c.id == 0 && c.parent.Some? {
        assert FindCategory(table, c.parent.value).Some?;
      }
    }
  }

  // ----------------------------------------------------------------- Product

  /**
   * `Product.save`: whatever `in_stock` held, it is recomputed from the
   * quantity; no other field changes.
   */
  function SavedProduct(p: Product): (q: Product)
    ensures q.inStock <==> p.quantity > 0
    ensures q.(inStock := p.inStock) == p
  {
    p.(inStock := p.quantity > 0)
  }

  /** `available = quantity - reserved`, the stock not yet promised to an order. */
  function Available(p: Product): int
  {
    p.quantity - p.reserved
  }

  // -------------------------------------------------------------------- Cart

  /** `unique_together = ('cart', 'product')`: at most one line per product in a cart. */
  predicate OneLinePerProduct(items: seq<CartItem>)
  {
    forall i, j :: 0 <= i < j < |items| ==> items[i].product != items[j].product
  }

  /** Line ids are primary keys: no two lines of a cart share one. */
  predicate DistinctLineIds(items: seq<CartItem>)
  {
    forall i, j :: 0 <= i < j < |items| ==> items[i].id != items[j].id
  }

  /** The persistent state the bot and the back office share. */
  class Database {
    /** Registered Telegram users: chat id to username. */
    var users: map<nat, string>
    /** Category rows in primary-key order. */
    var categories: seq<Category>
    /** Products by primary key. */
    var products: map<nat, Product>
    /** Carts in primary-key order. */
    var carts: seq<Cart>
    /** Orders in primary-key order. */
    var orders: seq<Order>

    ghost predicate Valid()
      reads this
    {
      (forall id :: id in products ==> products[id].id == id) &&
      (forall i :: 0 <= i < |carts| ==> OneLinePerProduct(carts[i].items) && DistinctLineIds(carts[i].items))
    }

    constructor ()
      ensures Valid()
      ensures users == map[] && categories == [] && products == map[] && carts == [] && orders == []
    {
      users, categories, products, carts, orders := map[], [], map[], [], [];
    }

    /**
     * `Category.save`: `full_clean()` first, so an invalid instance is never
     * written; then a category that names itself as parent is saved without
     * a parent. A new instance (id 0) is inserted under `newId`.
     */
    method SaveCategory(c: Category, newId: nat) returns (r: Outcome<CleanError>)
      requires newId != 0 && FindCategory(categories, newId).None?
      modifies this
      ensures r == FullClean(old(categories), c)
      ensures r.Fail? ==> categories == old(categories)
      ensures r.Pass? ==> categories == Upsert(old(categories), SavedRow(c, newId))
      ensures CategoryTable(old(categories)) ==> CategoryTable(categories)
      ensures users == old(users) && products == old(products) && carts == old(carts) && orders == old(orders)
    {
      r := FullClean(categories, c);
      if r.Pass? {
        SaveKeepsTable(categories, c, newId);
        categories := Upsert(categories, SavedRow(c, newId));
      }
    }

    /** `Product.save()` with every field: `in_stock` is recomputed before the row is written. */
    method SaveProduct(p: Product)
      requires Valid() && p.id != 0
      modifies this
      ensures Valid()
      ensures products == old(products)[p.id := SavedProduct(p)]
      ensures products[p.id].inStock <==> p.quantity > 0
      ensures users == old(users) && categories == old(categories) && carts == old(carts) && orders == old(orders)
    {
      products := products[p.id := SavedProduct(p)];
    }
  }

}
