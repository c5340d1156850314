/**
 * The catalog handlers: reading the page number, the parent category and
 * the selected category or product back out of callback data, choosing the
 * categories to list, choosing between the subcategories and the products
 * of a category, and remembering per chat the product card last sent.
 *
 * The handlers read the category table and the product rows, both in
 * primary-key order; they write nothing to the database.
 */
module Catalog {
  import opened Wrappers
  import opened Text
  import opened Keyboard
  import opened Models
  import opened Pagination
  import opened CatalogKb

  /** `CATEGORIES_PER_PAGE` and `PRODUCTS_PER_PAGE` of the bot's configuration. */
  const CategoriesPerPage: nat := 3
  const ProductsPerPage: nat := 5

  const ChooseCategoryText := "Выберите категорию:"
  const CategoryTitle := "Категория: "
  const ProductsTitle := "Товары: "
  const PathArrow := " → "
  const PageOpen := " (стр. "
  const PageClose := ")"

  // ------------------------------------------------------------ selection

  /** `get_categories(parent_id)`: the children of a truthy parent, otherwise the top-level categories, in table order. */
  function GetCategories(table: seq<Category>, parentId: Option<nat>): (r: seq<Category>)
    ensures |r| <= |table|
    ensures Truthy(parentId) ==> forall x :: x in r <==> x in table && x.parent == parentId
    ensures !Truthy(parentId) ==> forall x :: x in r <==> x in table && x.parent.None?
    decreases |table|
  {
    if table == [] then []
    else
      var keep := if Truthy(parentId) then table[0].parent == parentId else table[0].parent.None?;
      (if keep then [table[0]] else []) + GetCategories(table[1..], parentId)
  }

  /** A category has something to list under it exactly when some row names it as parent. */
  lemma ChildrenListedIffHasChildren(table: seq<Category>, id: nat)
    requires id != 0
    ensures GetCategories(table, Some(id)) != [] <==> HasChildren(table, id)
  {
    var r := GetCategories(table, Some(id));
    if r != [] {
      assert r[0] in table;
      var i :| 0 <= i < |table| && table[i] == r[0];
    }
    if HasChildren(table, id) {
      var i :| 0 <= i < |table| && table[i].parent == Some(id);
      assert table[i] in r;
    }
  }

  /** The rows of products in category `categoryId`, in primary-key order. */
  function ProductsIn(rows: seq<Product>, categoryId: nat): (r: seq<Product>)
    ensures |r| <= |rows|
    ensures forall p :: p in r <==> p in rows && p.category == categoryId
    decreases |rows|
  {
    if rows == [] then []
    else (if rows[0].category == categoryId then [rows[0]] else []) + ProductsIn(rows[1..], categoryId)
  }

  /** `Category.objects.aget(id=...)` for an integer read from callback data. */
  function CategoryById(table: seq<Category>, id: int): (r: Option<Category>)
    ensures r.Some? ==> r.value in table && r.value.id == id
    ensures id < 0 ==> r.None?
  {
    if id < 0 then None else FindCategory(table, id)
  }

  /** `Product.objects.aget(id=...)` over the product rows. */
  function ProductById(rows: seq<Product>, id: int): (r: Option<Product>)
    ensures r.Some? ==> r.value in rows && r.value.id == id
    ensures r.None? ==> forall i :: 0 <= i < |rows| ==> rows[i].id != id
  {
    match Position(rows, ProductKey, id)
    case None => None
    case Some(k) => Some(rows[k])
  }

  // ------------------------------------------------------------- decoders

  /**
   * `paginate_categories`: the prefix is cut off, the rest split at its
   * first `_` into the page and the parent; the parent is read only when it
   * is all digits. A rest without `_` or a page that is not an integer
   * raises `ValueError`.
   */
  function DecodeCatPage(data: string): (r: Result<(int, Option<nat>), Crash>)
    requires StartsWith(data, CatPagePrefix)
    ensures r.Failure? ==> r.error == ValueError
  {
    var rest := data[|CatPagePrefix|..];
    match SplitOnce(rest, '_')
    case None => Failure(ValueError)
    case Some(halves) =>
      var parentId := if IsDigits(halves.1) then Some(DigitsValue(halves.1)) else None;
      match PyInt(halves.0)
      case None => Failure(ValueError)
      case Some(page) => Success((page, parentId))
  }

  /**
   * The data of a page button of `categories_kb` decodes to its page and
   * its parent; a parent of `None` or 0 was written as nothing and comes
   * back as `None`.
   */
  lemma CatPageRoundTrip(page: int, parentId: Option<nat>)
    ensures DecodeCatPage(CatPageData(page, parentId)) == Success((page, if Truthy(parentId) then parentId else None))
  {
    var data := CatPageData(page, parentId);
    var p := IntToString(page);
    var tail := OrEmpty(parentId);
    assert data[|CatPagePrefix|..] == p + "_" + tail;
    SplitOnceAt(p, '_', tail);
    PyIntOfIntToString(page);
    if Truthy(parentId) {
      NatToStringValue(parentId.value);
    }
  }

  /** `int(data.split('_')[1])`: `IndexError` without a `_`, `ValueError` when the piece is not an integer. */
  function DecodeSecond(data: string): (r: Result<int, Crash>)
    ensures r.Failure? <==> '_' !in data || PyInt(Split(data, '_')[1]).None?
    ensures r.Failure? && '_' !in data ==> r.error == IndexError
  {
    var parts := Split(data, '_');
    if '_' !in data then Failure(IndexError)
    else
      match PyInt(parts[1])
      case None => Failure(ValueError)
      case Some(n) => Success(n)
  }

  /** A string of digits holds no `_`. */
  lemma DigitsHaveNoUnderscore(s: string)
    requires AllDigits(s)
    ensures '_' !in s
  {
  }

  /** `word_{id}` with `word` free of `_` decodes to `id` under `int(data.split('_')[1])`. */
  lemma SecondRoundTrip(word: string, id: nat)
    requires '_' !in word
    ensures DecodeSecond(word + "_" + NatToString(id)) == Success(id)
  {
    var digits := NatToString(id);
    var data := word + "_" + digits;
    DigitsHaveNoUnderscore(digits);
    SplitTwo(word, '_', digits);
    assert data[|word|] == '_';
    assert Split(data, '_')[1] == digits;
    PyIntOfNatToString(id);
  }

  /** `category_{id}` decodes back to its id. */
  lemma CategoryRoundTrip(id: nat)
    ensures DecodeSecond(CategoryData(id)) == Success(id)
  {
    SecondRoundTrip(CategoryWord, id);
  }

  /** `product_{id}` decodes back to its id. */
  lemma ProductRoundTrip(id: nat)
    ensures DecodeSecond(ProductData(id)) == Success(id)
  {
    SecondRoundTrip(ProductWord, id);
  }

  /**
   * `paginate_products`: the category id and the page are the two halves
   * after the prefix. The category is fetched before the page is read, so a
   * missing category is reported even when the page is malformed.
   */
  function DecodeProdPage(table: seq<Category>, data: string): (r: Result<(Category, int), Crash>)
    requires StartsWith(data, ProdPagePrefix)
    ensures r.Success? ==> r.value.0 in table
  {
    var rest := data[|ProdPagePrefix|..];
    match SplitOnce(rest, '_')
    case None => Failure(ValueError)
    case Some(halves) =>
      match PyInt(halves.0)
      case None => Failure(ValueError)
      case Some(catId) =>
        match CategoryById(table, catId)
        case None => Failure(DoesNotExist)
        case Some(c) =>
          match PyInt(halves.1)
          case None => Failure(ValueError)
          case Some(page) => Success((c, page))
  }

  /** After the prefix, a products page button carries the category id and the page, split at the first `_`. */
  lemma ProdPageHalves(id: nat, page: int)
    ensures StartsWith(ProdPageData(id, page), ProdPagePrefix)
    ensures SplitOnce(ProdPageData(id, page)[|ProdPagePrefix|..], '_') == Some((NatToString(id), IntToString(page)))
  {
    var digits := NatToString(id);
    var p := IntToString(page);
    StartsWithThree(ProdPagePrefix, digits + "_", p);
    assert ProdPageData(id, page) == ProdPagePrefix + (digits + "_") + p;
    assert ProdPageData(id, page)[|ProdPagePrefix|..] == digits + "_" + p;
    DigitsHaveNoUnderscore(digits);
    SplitOnceAt(digits, '_', p);
  }

  /** The data of a page button of `products_kb` leads back to its category and page. */
  lemma ProdPageRoundTrip(table: seq<Category>, c: Category, page: int)
    requires DistinctIds(table) && c in table
    ensures DecodeProdPage(table, ProdPageData(c.id, page)) == Success((c, page))
  {
    ProdPageHalves(c.id, page);
    PyIntOfNatToString(c.id);
    PyIntOfIntToString(page);
    FindKeyed(table, c);
    assert CategoryById(table, c.id) == Some(c);
  }

  // ------------------------------------------------- category or products

  datatype CategoryScreen =
    | Subcategories(parent: Option<Category>, children: seq<Category>)
    | ProductsOf(category: Category)

  /**
   * `show_subcategories_or_products` as written, once the id is read: the
   * category is fetched with `aget(id=cat_id)` whichever screen follows, so
   * an id without a row raises `DoesNotExist`, 0 included.
   */
  function ScreenAsWritten(table: seq<Category>, catId: int): (r: Result<CategoryScreen, Crash>)
    ensures r.Failure? <==> CategoryById(table, catId).None?
  {
    match CategoryById(table, catId)
    case None => Failure(DoesNotExist)
    case Some(c) =>
      var subcats := GetCategories(table, Some(c.id));
      if subcats != [] then Success(Subcategories(Some(c), subcats)) else Success(ProductsOf(c))
  }

  /**
   * The screen the back button of a top-level category's products page
   * evidently asks for: its data is `category_0`, and 0 stands for "no
   * parent", so the top-level categories are listed. Any other id behaves
   * as written.
   */
  function Screen(table: seq<Category>, catId: int): (r: Result<CategoryScreen, Crash>)
    ensures catId == 0 ==> r == Success(Subcategories(None, GetCategories(table, None)))
    ensures catId != 0 ==> r == ScreenAsWritten(table, catId)
  {
    if catId == 0 then Success(Subcategories(None, GetCategories(table, None)))
    else ScreenAsWritten(table, catId)
  }

  /** A category with subcategories lists them; one without lists its products. */
  lemma ScreenFollowsChildren(table: seq<Category>, catId: int)
    requires DistinctIds(table)
    requires catId != 0 && CategoryById(table, catId).Some?
    ensures Screen(table, catId).Success?
    ensures Screen(table, catId).value.Subcategories? <==> HasChildren(table, catId as nat)
    ensures Screen(table, catId).value.Subcategories? ==>
      forall x :: x in Screen(table, catId).value.children <==> x in table && x.parent == Some(catId as nat)
  {
    var c := CategoryById(table, catId).value;
    assert c.id != 0;
    ChildrenListedIffHasChildren(table, c.id);
  }

  /**
   * As written, the back button of a top-level category's products page
   * (`category_0`) always fails: no row has key 0.
   */
  lemma AsWrittenBackToCategoriesFails(table: seq<Category>)
    requires DistinctIds(table)
    ensures DecodeSecond(CategoryData(0)) == Success(0)
    ensures ScreenAsWritten(table, 0) == Failure(DoesNotExist)
    ensures Screen(table, 0).Success?
  {
    CategoryRoundTrip(0);
  }

  // ---------------------------------------------------------------- views

  /** A message text with its keyboard. */
  datatype View = View(text: string, kb: Markup)

  /** The first page of `categories` under `parentId`, with its title. */
  function CategoriesPage(categories: seq<Category>, parentId: Option<nat>, page: int, title: string): View
  {
    var pag := Paginator(categories, CategoriesPerPage);
    var (items, p) := pag.GetPage(page);
    View(title, CategoriesLayout(items, parentId, p, pag.TotalPages()))
  }

  /**
   * `_show_products(category, page)`: the category's products on the clamped
   * page, titled with the parent's name when there is a parent, and a back
   * button to the parent (0 for none).
   */
  function ProductsPage(table: seq<Category>, rows: seq<Product>, c: Category, page: int): (r: Result<View, Crash>)
    ensures r.Failure? <==> Truthy(c.parent) && FindCategory(table, c.parent.value).None?
  {
    var pag := Paginator(ProductsIn(rows, c.id), ProductsPerPage);
    var (items, p) := pag.GetPage(page);
    var pageText := PageOpen + IntToString(p) + "/" + IntToString(pag.TotalPages()) + PageClose;
    if Truthy(c.parent) then
      match FindCategory(table, c.parent.value)
      case None => Failure(DoesNotExist)
      case Some(parent) =>
        Success(View(ProductsTitle + parent.name + PathArrow + c.name + pageText,
                     ProductsLayout(items, c.id, parent.id, p, pag.TotalPages())))
    else
      Success(View(ProductsTitle + c.name + pageText, ProductsLayout(items, c.id, 0, p, pag.TotalPages())))
  }

  /** `paginate_categories(cb)` */
  method PaginateCategories(table: seq<Category>, data: string) returns (r: Result<View, Crash>)
    requires StartsWith(data, CatPagePrefix)
    ensures DecodeCatPage(data).Failure? ==> r == Failure(ValueError)
    ensures DecodeCatPage(data).Success? ==>
      var (page, parentId) := DecodeCatPage(data).value;
      r == Success(CategoriesPage(GetCategories(table, parentId), parentId, page, ChooseCategoryText))
  {
    var decoded := DecodeCatPage(data);
    if decoded.Failure? {
      return Failure(ValueError);
    }
    var (page, parentId) := decoded.value;
    var pag := Paginator(GetCategories(table, parentId), CategoriesPerPage);
    var (items, p) := pag.GetPage(page);
    var kb := CategoriesKb(items, parentId, p, pag.TotalPages());
    r := Success(View(ChooseCategoryText, kb));
  }

  /** `_show_products(cb, category, page)` */
  method ShowProducts(table: seq<Category>, rows: seq<Product>, c: Category, page: int) returns (r: Result<View, Crash>)
    ensures r == ProductsPage(table, rows, c, page)
  {
    var pag := Paginator(ProductsIn(rows, c.id), ProductsPerPage);
    var (items, p) := pag.GetPage(page);
    var pageText := PageOpen + IntToString(p) + "/" + IntToString(pag.TotalPages()) + PageClose;
    if Truthy(c.parent) {
      var parent := FindCategory(table, c.parent.value);
      if parent.None? {
        return Failure(DoesNotExist);
      }
      var kb := ProductsKb(items, c.id, parent.value.id, p, pag.TotalPages());
      r := Success(View(ProductsTitle + parent.value.name + PathArrow + c.name + pageText, kb));
    } else {
      var kb := ProductsKb(items, c.id, 0, p, pag.TotalPages());
      r := Success(View(ProductsTitle + c.name + pageText, kb));
    }
  }

  /** `paginate_products(cb)` */
  method PaginateProducts(table: seq<Category>, rows: seq<Product>, data: string) returns (r: Result<View, Crash>)
    requires StartsWith(data, ProdPagePrefix)
    ensures DecodeProdPage(table, data).Failure? ==> r == Failure(DecodeProdPage(table, data).error)
    ensures DecodeProdPage(table, data).Success? ==>
      r == ProductsPage(table, rows, DecodeProdPage(table, data).value.0, DecodeProdPage(table, data).value.1)
  {
    var decoded := DecodeProdPage(table, data);
    if decoded.Failure? {
      return Failure(decoded.error);
    }
    r := ShowProducts(table, rows, decoded.value.0, decoded.value.1);
  }

  // ------------------------------------------------- product card per chat

  /** `last_detail_message`: per chat, the id of the product card message last sent there. */
  class DetailMessages {
    var last: map<nat, nat>

    constructor ()
      ensures last == map[]
    {
      last := map[];
    }

    /** `last_detail_message.get(chat_id)` is truthy. */
    predicate HasCard(chat: nat)
      reads this
    {
      chat in last && last[chat] != 0
    }
  }

  /**
   * `show_subcategories_or_products(cb)`: the chat's product card is
   * forgotten first; then the selected category's subcategories (first
   * page) or its products (first page) are shown. The id 0 lists the
   * top-level categories.
   */
  method ShowSubcategoriesOrProducts(cards: DetailMessages, table: seq<Category>, rows: seq<Product>, chat: nat, data: string)
    returns (r: Result<View, Crash>)
    modifies cards
    ensures cards.last == old(cards.last) - {chat}
    ensures DecodeSecond(data).Failure? ==> r == Failure(DecodeSecond(data).error)
    ensures DecodeSecond(data).Success? ==>
      match Screen(table, DecodeSecond(data).value)
      case Failure(e) => r == Failure(e)
      case Success(Subcategories(parent, children)) =>
        r == Success(CategoriesPage(children, if parent.Some? then Some(parent.value.id) else None, 1,
                                    if parent.Some? then CategoryTitle + parent.value.name else ChooseCategoryText))
      case Success(ProductsOf(c)) => r == ProductsPage(table, rows, c, 1)
  {
    cards.last := cards.last - {chat};
    var catId := DecodeSecond(data);
    if catId.Failure? {
      return Failure(catId.error);
    }
    var screen := Screen(table, catId.value);
    match screen {
      case Failure(e) =>
        r := Failure(e);
      case Success(Subcategories(parent, children)) =>
        var pag := Paginator(children, CategoriesPerPage);
        var (items, p) := pag.GetPage(1);
        var parentId := if parent.Some? then Some(parent.value.id) else None;
        var kb := CategoriesKb(items, parentId, p, pag.TotalPages());
        var title := if parent.Some? then CategoryTitle + parent.value.name else ChooseCategoryText;
        r := Success(View(title, kb));
      case Success(ProductsOf(c)) =>
        r := ShowProducts(table, rows, c, 1);
    }
  }

  const InStockMark := "✅"
  const OutOfStockMark := "❌"
  const CaptionOpen := "<b>"
  const CaptionPrice := "</b>\n💵 "
  const CaptionStock := "₽\n В наличии: "
  const CaptionUnits := " шт. "

  /** The caption of a product card: description, price, quantity and a stock mark. */
  function DetailCaption(p: Product): string
  {
    CaptionOpen + p.description + CaptionPrice + DecimalString(p.price) + CaptionStock
    + NatToString(p.quantity) + CaptionUnits + (if p.inStock then InStockMark else OutOfStockMark)
  }

  /**
   * `handle_product_detail(cb)`: the product card, with the add-to-cart
   * button when the product is in stock and the out-of-stock button
   * otherwise. A product without an image raises `TypeError` when the path
   * of the photo is built, before any card is shown. When the chat already has a card and editing it succeeds
   * (`editSucceeds`, the answer of Telegram), the card is replaced in place
   * and the map is left alone; otherwise a new photo is sent and its id
   * (`sentId`) is remembered.
   */
  method HandleProductDetail(cards: DetailMessages, rows: seq<Product>, chat: nat, data: string, editSucceeds: bool, sentId: nat)
    returns (r: Result<View, Crash>)
    modifies cards
    ensures DecodeSecond(data).Failure? ==> r == Failure(DecodeSecond(data).error) && cards.last == old(cards.last)
    ensures DecodeSecond(data).Success? && ProductById(rows, DecodeSecond(data).value).None? ==>
      r == Failure(DoesNotExist) && cards.last == old(cards.last)
    ensures DecodeSecond(data).Success? && ProductById(rows, DecodeSecond(data).value).Some? ==>
      var p := ProductById(rows, DecodeSecond(data).value).value;
      p.image.None? ==> r == Failure(TypeError) && cards.last == old(cards.last)
    ensures DecodeSecond(data).Success? && ProductById(rows, DecodeSecond(data).value).Some? ==>
      var p := ProductById(rows, DecodeSecond(data).value).value;
      p.image.Some? ==>
      r.Success? && r.value.text == DetailCaption(p)
      && r.value.kb == (if p.inStock then [[Button(AddToCartText, AddItemData(p.id))]] else [[Button(OutOfStockText, NoAction)]])
      && cards.last == if old(cards.HasCard(chat)) && editSucceeds then old(cards.last) else old(cards.last)[chat := sentId]
  {
    var productId := DecodeSecond(data);
    if productId.Failure? {
      return Failure(productId.error);
    }
    var found := ProductById(rows, productId.value);
    if found.None? {
      return Failure(DoesNotExist);
    }
    var p := found.value;
    if p.image.None? {
      return Failure(TypeError);
    }
    var text := DetailCaption(p);
    var kb;
    if !p.inStock {
      kb := OutOfStockKb();
    } else {
      kb := ProductDetailKb(p.id);
    }
    r := Success(View(text, kb));
    if cards.HasCard(chat) && editSucceeds {
      return;
    }
    cards.last := cards.last[chat := sentId];
  }
}
