/**
 * The catalog keyboards: a page of categories, a page of products, and the
 * one-button keyboards under a product card. Each keyboard is the list of
 * its rows; the callback data of every button is what the catalog handlers
 * read back.
 */
module CatalogKb {
  import opened Wrappers
  import opened Text
  import opened Keyboard
  import opened Models

  const PrevArrow := "⬅️"
  const NextArrow := "➡️"
  const BackText := "⬅️ Назад"
  const StartText := "⬅️ В начало"
  const ToCategoriesText := "⬅️ К категориям"
  const AddToCartText := "🛒 Добавить в корзину"
  const OutOfStockText := "Нет в наличии"
  const NoAction := "no_action"
  const CatPagePrefix := "cat_page_"
  const ProdPagePrefix := "prod_page_"

  const CategoryWord := "category"
  const ProductWord := "product"
  const AddItemPrefix := "add_item_"

  /** `f"category_{id}"` */
  function CategoryData(id: nat): string { CategoryWord + "_" + NatToString(id) }

  /** `f"product_{id}"` */
  function ProductData(id: nat): string { ProductWord + "_" + NatToString(id) }

  /** `f"add_item_{id}"` */
  function AddItemData(id: nat): string { AddItemPrefix + NatToString(id) }

  /** `f"cat_page_{page}_{parent_id or ''}"` */
  function CatPageData(page: int, parentId: Option<nat>): string
  {
    CatPagePrefix + IntToString(page) + "_" + OrEmpty(parentId)
  }

  /** `f"prod_page_{category_id}_{page}"` */
  function ProdPageData(categoryId: nat, page: int): string
  {
    ProdPagePrefix + NatToString(categoryId) + "_" + IntToString(page)
  }

  /** The page indicator `f"{current}/{total}"`, which does nothing when pressed. */
  function Indicator(currentPage: int, totalPages: int): Button
  {
    Button(IntToString(currentPage) + "/" + IntToString(totalPages), NoAction)
  }

  /**
   * The navigation buttons of a page of categories: none when there is only
   * one page; otherwise a previous button exactly when this is not the first
   * page, the indicator, and a next button exactly when this is not the
   * last page.
   */
  function CategoryNav(parentId: Option<nat>, currentPage: int, totalPages: int): (bs: seq<Button>)
    ensures totalPages <= 1 ==> bs == []
    ensures totalPages > 1 ==>
      var prev := if currentPage > 1 then 1 else 0;
      |bs| == prev + 1 + (if currentPage < totalPages then 1 else 0)
      && (currentPage > 1 ==> bs[0] == Button(PrevArrow, CatPageData(currentPage - 1, parentId)))
      && bs[prev] == Indicator(currentPage, totalPages)
      && (currentPage < totalPages ==> bs[prev + 1] == Button(NextArrow, CatPageData(currentPage + 1, parentId)))
  {
    if totalPages <= 1 then []
    else
      (if currentPage > 1 then [Button(PrevArrow, CatPageData(currentPage - 1, parentId))] else [])
      + [Indicator(currentPage, totalPages)]
      + (if currentPage < totalPages then [Button(NextArrow, CatPageData(currentPage + 1, parentId))] else [])
  }

  /** The last button of a page of categories: back to the catalog under a parent, else to the start. */
  function CategoriesBack(parentId: Option<nat>): (b: Button)
    ensures b.data == if Truthy(parentId) then "catalog" else "back_to_start"
  {
    if Truthy(parentId) then Button(BackText, "catalog") else Button(StartText, "back_to_start")
  }

  /** One button per category, named after it and carrying `category_{id}`. */
  function CategoryButtons(categories: seq<Category>): (bs: seq<Button>)
    ensures |bs| == |categories|
  {
    seq(|categories|, i requires 0 <= i < |categories| => Button(categories[i].name, CategoryData(categories[i].id)))
  }

  /**
   * The layout of a page of categories: one row per button; first the
   * categories in order, then the navigation buttons, then the back button.
   */
  function CategoriesLayout(categories: seq<Category>, parentId: Option<nat>, currentPage: int, totalPages: int): Markup
  {
    Singles(CategoryButtons(categories) + CategoryNav(parentId, currentPage, totalPages) + [CategoriesBack(parentId)])
  }

  /** `categories_kb(categories, parent_id, current_page, total_pages)` */
  method CategoriesKb(categories: seq<Category>, parentId: Option<nat>, currentPage: int, totalPages: int)
    returns (kb: Markup)
    ensures kb == CategoriesLayout(categories, parentId, currentPage, totalPages)
  {
    var builder := new Builder();
    for i := 0 to |categories|
      invariant Flatten(builder.rows) == CategoryButtons(categories)[..i]
    {
      builder.AddButton(categories[i].name, CategoryData(categories[i].id));
      TakeStep(CategoryButtons(categories), i);
    }
    assert CategoryButtons(categories)[..|categories|] == CategoryButtons(categories);
    AddCategoryNav(builder, parentId, currentPage, totalPages);
    ghost var bs := CategoryButtons(categories) + CategoryNav(parentId, currentPage, totalPages);
    var back := CategoriesBack(parentId);
    builder.AddButton(back.text, back.data);
    builder.Adjust([1], true);
    RegroupOnes(bs + [back], 0);
    kb := builder.rows;
  }

  /** Pushes the navigation buttons of a page of categories. */
  method AddCategoryNav(builder: Builder, parentId: Option<nat>, currentPage: int, totalPages: int)
    modifies builder
    ensures Flatten(builder.rows) == Flatten(old(builder.rows)) + CategoryNav(parentId, currentPage, totalPages)
  {
    ghost var start := Flatten(builder.rows);
    ghost var bs: seq<Button> := [];
    if totalPages > 1 {
      if currentPage > 1 {
        var prev := Button(PrevArrow, CatPageData(currentPage - 1, parentId));
        builder.AddButton(prev.text, prev.data);
        bs := [prev];
      }
      assert Flatten(builder.rows) == start + bs;
      var indicator := Indicator(currentPage, totalPages);
      builder.AddButton(indicator.text, indicator.data);
      ButtonsAssoc(start, bs, [indicator]);
      bs := bs + [indicator];
      if currentPage < totalPages {
        var next := Button(NextArrow, CatPageData(currentPage + 1, parentId));
        builder.AddButton(next.text, next.data);
        ButtonsAssoc(start, bs, [next]);
        bs := bs + [next];
      }
    } else {
      assert start + bs == start;
    }
  }

  /** One button per product, captioned with its description and carrying `product_{id}`. */
  function ProductButtons(products: seq<Product>): (bs: seq<Button>)
    ensures |bs| == |products|
  {
    seq(|products|, i requires 0 <= i < |products| => Button(products[i].description, ProductData(products[i].id)))
  }

  /**
   * The navigation row of a page of products: a previous button exactly
   * when this is not the first page, the indicator, and a next button
   * exactly when this is not the last page.
   */
  function ProductNav(categoryId: nat, currentPage: int, totalPages: int): (bs: seq<Button>)
    ensures var prev := if currentPage > 1 then 1 else 0;
      |bs| == prev + 1 + (if currentPage < totalPages then 1 else 0)
      && (currentPage > 1 ==> bs[0] == Button(PrevArrow, ProdPageData(categoryId, currentPage - 1)))
      && bs[prev] == Indicator(currentPage, totalPages)
      && (currentPage < totalPages ==> bs[prev + 1] == Button(NextArrow, ProdPageData(categoryId, currentPage + 1)))
  {
    (if currentPage > 1 then [Button(PrevArrow, ProdPageData(categoryId, currentPage - 1))] else [])
    + [Indicator(currentPage, totalPages)]
    + (if currentPage < totalPages then [Button(NextArrow, ProdPageData(categoryId, currentPage + 1))] else [])
  }

  /**
   * The layout of a page of products: one row per product, then the
   * navigation row when there is more than one page, then a row back to
   * `category_{parent_category_id}`.
   */
  function ProductsLayout(products: seq<Product>, categoryId: nat, parentCategoryId: nat, currentPage: int, totalPages: int): Markup
  {
    Singles(ProductButtons(products))
    + (if totalPages > 1 then [ProductNav(categoryId, currentPage, totalPages)] else [])
    + [[Button(ToCategoriesText, CategoryData(parentCategoryId))]]
  }

  /** `products_kb(products, category_id, parent_category_id, current_page, total_pages)` */
  method ProductsKb(products: seq<Product>, categoryId: nat, parentCategoryId: nat, currentPage: int, totalPages: int)
    returns (kb: Markup)
    ensures kb == ProductsLayout(products, categoryId, parentCategoryId, currentPage, totalPages)
  {
    var builder := new Builder();
    for i := 0 to |products|
      invariant Flatten(builder.rows) == ProductButtons(products)[..i]
    {
      builder.AddButton(products[i].description, ProductData(products[i].id));
      TakeStep(ProductButtons(products), i);
    }
    assert ProductButtons(products)[..|products|] == ProductButtons(products);
    builder.Adjust([1], true);
    RegroupOnes(ProductButtons(products), 0);
    if totalPages > 1 {
      var pageButtons := PageButtons(categoryId, currentPage, totalPages);
      builder.AddRow(pageButtons);
      ChunksOfOneRow(pageButtons);
    }
    var back := [Button(ToCategoriesText, CategoryData(parentCategoryId))];
    builder.AddRow(back);
    ChunksOfOneRow(back);
    kb := builder.rows;
  }

  /** The `page_buttons` list of `products_kb`, built one button at a time. */
  method PageButtons(categoryId: nat, currentPage: int, totalPages: int) returns (pageButtons: seq<Button>)
    ensures pageButtons == ProductNav(categoryId, currentPage, totalPages)
    ensures 0 < |pageButtons| <= MaxWidth
  {
    pageButtons := [];
    if currentPage > 1 {
      pageButtons := pageButtons + [Button(PrevArrow, ProdPageData(categoryId, currentPage - 1))];
    }
    pageButtons := pageButtons + [Indicator(currentPage, totalPages)];
    if currentPage < totalPages {
      pageButtons := pageButtons + [Button(NextArrow, ProdPageData(categoryId, currentPage + 1))];
    }
  }

  /** `product_detail_kb(product_id)`: the single button that asks for a quantity to add. */
  method ProductDetailKb(productId: nat) returns (kb: Markup)
    ensures kb == [[Button(AddToCartText, AddItemData(productId))]]
  {
    var builder := new Builder();
    builder.AddButton(AddToCartText, AddItemData(productId));
    builder.Adjust([1, 2], false);
    RegroupOneButton(Button(AddToCartText, AddItemData(productId)), [1, 2], false, 0);
    kb := builder.rows;
  }

  /** `out_of_stock_kb()`: a single button that does nothing. */
  method OutOfStockKb() returns (kb: Markup)
    ensures kb == [[Button(OutOfStockText, NoAction)]]
  {
    var builder := new Builder();
    builder.AddButton(OutOfStockText, NoAction);
    builder.Adjust([1, 2], false);
    RegroupOneButton(Button(OutOfStockText, NoAction), [1, 2], false, 0);
    kb := builder.rows;
  }
}
