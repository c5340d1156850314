# TelegramStore in Dafny

TelegramStore is a shop run as a Telegram bot, with a Django back office.
This project models the shop's core behaviour:

- **Catalog:** browse categories and products page by page.
- **Cart:** add a product in a given quantity, remove lines, clear the cart.
- **Ordering:** turn the cart into an order, reserve its stock, check it again before payment, and write it off when the payment arrives.
- **Back office:** the category rules and the category form.
- **Small pieces:** the FAQ search, the shipping-address formatter and the CSV export of paid orders.

The project proves properties of each part.

How the system is modelled:

- **Shared state.** The database the bot and the back office share is one object, `Models.Database`. It holds:
  - users: chat id to username;
  - category rows;
  - products by key;
  - carts with their lines;
  - orders with their lines.

  Every handler that writes to the database is a method on it. Its contract states the whole new state, as a function of the old one.
- **Keyboards.** Every keyboard is its list of rows of (caption, callback data) buttons. It is built the way aiogram's `InlineKeyboardBuilder` builds it (`Keyboard.Builder`). That builder is library code, so it is modelled from its documented behaviour: `button()` fills the last row up to eight buttons, `row()` appends rows, and `adjust()` re-lays all buttons.
- **Python built-ins.** The built-ins the codecs rely on live in `Text`: `str()`, `int()`, `split`, `join`, `strip`, `lower`/`upper`, `isdigit` and slicing. The handlers write ids into callback data with `str()` and read them back with `int(split(...)[k])`. The round-trip lemmas prove that each reader recovers what its writer wrote.
- **Money.** Prices and amounts are integer kopecks. Every `DecimalField` has two decimal places, so this is exact. `str()` of such a `Decimal` is rendered by `Text.DecimalString`.
- **Order statuses.** The handlers write the statuses `"pending"`, `"canceled"` and `"paid"`. `Order.status` declares the choices new/paid/shipped/cancelled with the default `"new"` (backend/store/models.py:98-103). The model follows the handlers. The declared choices are kept as `Models.DeclaredStatuses` and `Models.DefaultStatus`, and `Models.HandlerStatusesUndeclared` states how they disagree with the handlers.
- **Exceptions.** An exception that no handler catches is a `Crash` result:
  - `TypeError`, `ValueError`, `IndexError`;
  - `DoesNotExist` and `MultipleObjectsReturned` (`aget()` finding no row or several);
  - `IntegrityError` (a write the database refuses).
- **Transactions.** Each `transaction.atomic()` block is one method. When it fails, the products are left exactly as they were.

## Model

| member | source | states |
|---|---|---|
| Text.NatToStringValue | bot/src/keyboards/catalog_kb.py:32 | the digits `str(id)` writes read back as `id` |
| Text.PyIntOfIntToString | bot/src/handlers/catalog.py:57 | `int(str(i)) == i` for every integer, negative ones included |
| Text.SplitJoin | bot/src/utils/export_orders.py:16-21 | pieces without the separator, joined and split again, come back unchanged |
| Text.JoinSplit | bot/src/handlers/cart.py:27 | splitting loses nothing: the pieces hold no separator and join back to the string |
| Text.SplitOnce | bot/src/handlers/catalog.py:53 | `split(sep, 1)` unpacked into two names fails exactly when there is no separator; otherwise the head holds no separator and head + sep + tail is the string |
| Text.Take | bot/src/handlers/order.py:200 | `s[:n]` is a prefix of at most `n` characters, and `s` itself when it is short enough |
| Text.UpperIdempotent | bot/src/utils/address.py:16 | upper-casing an upper-cased string changes nothing |
| Keyboard.Regroup | bot/src/keyboards/catalog_kb.py:48 | `adjust()` keeps every button in order and gives each row between one button and its size |
| Keyboard.RegroupOnes | bot/src/keyboards/catalog_kb.py:48 | `adjust(1, repeat=True)` puts every button on a row of its own |
| Keyboard.Builder.AddButton | bot/src/keyboards/faq_kb.py:9 | `button()` appends the button after all others, growing the last row while it has room |
| Keyboard.Builder.AddRow | bot/src/keyboards/catalog_kb.py:83 | `row()` appends its buttons as new rows after the existing ones |
| Keyboard.Builder.Adjust | bot/src/keyboards/faq_kb.py:11 | `adjust()` lays the same buttons out again with the given sizes |
| Models.Position | bot/src/handlers/order.py:171 | the one lookup by key behind every `aget(id=...)` of the model: the first row with the key, or none exactly when no row has it |
| Models.PositionOfKey | bot/src/handlers/order.py:171 | with unique keys, looking up a row's key finds that very row |
| Models.FindCategory | backend/store/models.py:20 | the row found has the key asked for; none found means no row has it |
| Models.FindKeyed | backend/store/models.py:20 | with unique keys, a category's own key finds that category |
| Models.HandlerStatusesUndeclared | backend/store/models.py:98-103 | "pending" and "canceled", which the handlers write, are not declared choices, only "paid" is; the default "new" is none of the handlers' statuses |
| Models.Clean | backend/store/models.py:19-23 | as written: passes exactly when there is no parent or the parent is top-level; a refusal names the grandparent |
| Models.CleanNesting | backend/store/models.py:19-23 | the one-level rule as its message states it: also refuses a parent for a category that has children |
| Models.CleanFields | backend/store/models.py:11 | the name is required and at most 255 characters |
| Models.FullCleanAsWritten | backend/store/models.py:26 | `full_clean()` passes exactly when the field checks and `clean()` as written pass |
| Models.FullClean | backend/store/models.py:26 | the corrected `full_clean()` passes exactly when the field checks and the one-level rule pass, and only when the original passes |
| Models.SavedRow | backend/store/models.py:28-29 | a saved category is never its own parent; the name is kept and a new instance gets the assigned key |
| Models.Upsert | backend/store/models.py:30 | the written row is in the table and every other row was there before; the row with an existing key is replaced in place, a new key is appended |
| Models.FindAfterUpsert | backend/store/models.py:30 | after a write, a lookup finds the new row for its key and the old row for any other key |
| Models.UpsertKeepsOthers | backend/store/models.py:30 | with unique keys, a write replaces only the row with its own key |
| Models.UpsertKeepsDistinct | backend/store/models.py:30 | writing a row keeps the keys unique |
| Models.SaveAsWritten | backend/store/models.py:25-30 | `save()` as written leaves the table alone when `full_clean()` fails, else writes the saved row |
| Models.AsWrittenSaveNests | backend/store/models.py:19-23 | in any valid table, giving a category that has children a top-level parent passes the original rule and leaves its children two levels deep |
| Models.AsWrittenSaveNestsTwoLevels | backend/store/models.py:19-23 | from a valid table, a save the original rule accepts leaves a category two levels deep |
| Models.SaveKeepsInvariants | backend/store/models.py:19-30 | with the corrected rule, a save keeps keys unique, nesting at most one level and no category its own parent |
| Models.SavedProduct | backend/store/models.py:46-47 | `in_stock` becomes `quantity > 0` whatever it was; nothing else changes |
| Models.Database.SaveCategory | backend/store/models.py:25-30 | the instance is written exactly when the corrected `FullClean` passes (see Findings), which refuses a parent for a category with children where the original accepts it; a written table keeps the category invariants; no other table changes |
| Models.Database.SaveProduct | backend/store/models.py:46-48 | the row is written with `in_stock` recomputed from the quantity; the database invariant is kept |
| Forms.ParentChoices | backend/store/forms.py:12-17 | the choices are exactly the top-level categories, less the saved instance itself |
| Forms.UnsavedSeesAllTopLevel | backend/store/forms.py:12-17 | an unsaved instance is offered every top-level category |
| Forms.ChosenParentPassesClean | backend/store/forms.py:12-15 | any offered parent passes `Category.clean` and is never the category itself |
| Pagination.Paginator.TotalPages | bot/src/utils/paginator.py:10 | the fewest pages of `page_size` items that hold all the data |
| Pagination.Paginator.ClampPage | bot/src/utils/paginator.py:14 | the page is clamped into 1..total_pages, kept when in range, and 1 when there are no pages |
| Pagination.Paginator.GetPage | bot/src/utils/paginator.py:12-17 | the items are those of the clamped page in order, at most `page_size` of them; every page but the last is full and no existing page is empty |
| Pagination.GetPageIdempotent | bot/src/utils/paginator.py:14-17 | asking again for the page returned gives the same items and page |
| Pagination.FirstPagesPrefix | bot/src/utils/paginator.py:15-17 | the first k pages together are the first k·size items, or all data |
| Pagination.PagesPartitionData | bot/src/utils/paginator.py:10-17 | pages 1..total_pages concatenated are exactly the data |
| Pagination.BackButton | bot/src/utils/paginator.py:42-51 | back to `category_{parent}` for a truthy parent, else `back_to_start` |
| Pagination.PaginationButtons | bot/src/utils/paginator.py:24-51 | a previous button exactly when the page is not the first, the indicator always, a next button exactly when it is not the last, then the back button |
| Pagination.AddNavButtons | bot/src/utils/paginator.py:24-39 | the builder's buttons gain the previous button (past page 1), the page indicator, and the next button (before the last page), in that order |
| Pagination.BuildPaginationKb | bot/src/utils/paginator.py:19-54 | the keyboard holds exactly those buttons, at most three on the first row and one on each row after |
| CatalogKb.CategoryNav | bot/src/keyboards/catalog_kb.py:34-39 | no navigation for a single page; otherwise prev iff not the first page (to page−1), the indicator, next iff not the last (to page+1), as `cat_page_{n}_{parent or ''}` |
| CatalogKb.CategoriesBack | bot/src/keyboards/catalog_kb.py:42-45 | back to `catalog` under a truthy parent, else to `back_to_start` |
| CatalogKb.CategoryButtons | bot/src/keyboards/catalog_kb.py:31-32 | one `category_{id}` button per category |
| CatalogKb.CategoriesKb | bot/src/keyboards/catalog_kb.py:21-50 | one row per button: the categories in order, then the navigation, then the back button |
| CatalogKb.AddCategoryNav | bot/src/keyboards/catalog_kb.py:34-39 | the builder gains exactly the navigation buttons, after the existing ones |
| CatalogKb.ProductButtons | bot/src/keyboards/catalog_kb.py:63-67 | one `product_{id}` button per product |
| CatalogKb.ProductNav | bot/src/keyboards/catalog_kb.py:71-82 | prev iff not the first page, the indicator, next iff not the last, as `prod_page_{category}_{n}` |
| CatalogKb.ProductsKb | bot/src/keyboards/catalog_kb.py:53-89 | one row per product, the navigation row only with several pages, then the row back to `category_{parent_category_id}` |
| CatalogKb.PageButtons | bot/src/keyboards/catalog_kb.py:71-82 | the `page_buttons` list is the navigation row, one to eight buttons wide |
| CatalogKb.ProductDetailKb | bot/src/keyboards/catalog_kb.py:92-97 | a single `add_item_{id}` button |
| CatalogKb.OutOfStockKb | bot/src/keyboards/catalog_kb.py:99-103 | a single `no_action` button |
| Catalog.GetCategories | bot/src/handlers/catalog.py:18-23 | the children of a truthy parent, else the top-level categories |
| Catalog.ChildrenListedIffHasChildren | bot/src/handlers/catalog.py:75-76 | subcategories are listed exactly when some row names the category as parent |
| Catalog.ProductsIn | bot/src/handlers/catalog.py:88 | exactly the products of the category |
| Catalog.CategoryById | bot/src/handlers/catalog.py:103 | a found category has the key asked for; a negative key finds nothing |
| Catalog.ProductById | bot/src/handlers/catalog.py:110 | a found product has the key asked for; none found means no row has it |
| Catalog.DecodeCatPage | bot/src/handlers/catalog.py:52-54 | every way the data string can fail to decode raises `ValueError` |
| Catalog.CatPageRoundTrip | bot/src/handlers/catalog.py:52-54 | `cat_page_{n}_{parent or ''}` decodes to (n, parent), with a parent of None or 0 read back as None |
| Catalog.DecodeSecond | bot/src/handlers/catalog.py:74 | `int(data.split('_')[1])` fails exactly when there is no `_` (IndexError) or the piece is not an integer |
| Catalog.SecondRoundTrip | bot/src/handlers/catalog.py:74 | `word_{id}` with a word free of `_` decodes to `id` |
| Catalog.CategoryRoundTrip | bot/src/handlers/catalog.py:74 | `category_{id}` decodes to `id` |
| Catalog.ProductRoundTrip | bot/src/handlers/catalog.py:110 | `product_{id}` decodes to `id` |
| Catalog.DecodeProdPage | bot/src/handlers/catalog.py:101-104 | a decoded category is a row of the table |
| Catalog.ProdPageRoundTrip | bot/src/handlers/catalog.py:101-104 | `prod_page_{cat}_{page}` leads back to that category and page |
| Catalog.ScreenAsWritten | bot/src/handlers/catalog.py:74-84 | as written: fails exactly when no category has the id |
| Catalog.Screen | bot/src/handlers/catalog.py:74-84 | id 0 lists the top-level categories; any other id behaves as written |
| Catalog.ScreenFollowsChildren | bot/src/handlers/catalog.py:75-84 | a category with subcategories lists exactly them; one without lists its products |
| Catalog.AsWrittenBackToCategoriesFails | bot/src/handlers/catalog.py:91-95 | the `category_0` back button of a top-level category always fails as written, and succeeds corrected |
| Catalog.ProductsPage | bot/src/handlers/catalog.py:87-96 | fails exactly when the category names a parent that does not exist |
| Catalog.PaginateCategories | bot/src/handlers/catalog.py:50-61 | a bad data string raises `ValueError`; otherwise the decoded parent's categories on the decoded page |
| Catalog.ShowProducts | bot/src/handlers/catalog.py:87-96 | the products page of the category |
| Catalog.PaginateProducts | bot/src/handlers/catalog.py:99-104 | the decoding error, or the products page of the decoded category and page |
| Catalog.ShowSubcategoriesOrProducts | bot/src/handlers/catalog.py:64-84 | the chat's product card is forgotten, then the corrected `Screen` of the decoded category is shown (see Findings): `category_0` lists the top level where the original raises `DoesNotExist` |
| Catalog.HandleProductDetail | bot/src/handlers/catalog.py:107-135 | a product without an image raises `TypeError` and changes nothing; otherwise the card of the product with the add button iff in stock; the remembered card is replaced only when no edit succeeded |
| Catalog.DetailMessages.constructor | bot/src/handlers/catalog.py:138 | no card is remembered at start |
| CartKb.CartTotalAppend | bot/src/keyboards/cart_kb.py:15-21 | the total is additive over the lines |
| CartKb.CartTotalSwap | bot/src/keyboards/cart_kb.py:18-21 | the total does not depend on the order of the lines |
| CartKb.ItemLines | bot/src/keyboards/cart_kb.py:22 | one text line per cart line |
| CartKb.RemoveButtons | bot/src/keyboards/cart_kb.py:23-26 | one remove button per cart line |
| CartKb.RegroupCartRows | bot/src/keyboards/cart_kb.py:38-39 | `adjust(*([1]*k + [2]))` puts each remove button on its own row, then clear and order together, then the catalog button |
| CartKb.BuildCartView | bot/src/keyboards/cart_kb.py:6-43 | an empty cart gives the empty text and the catalog button alone; otherwise the item lines then the total line, and remove buttons one per row, then clear and order, then catalog |
| CartKb.AddItemLines | bot/src/keyboards/cart_kb.py:15-26 | the loop's total is the sum of price × quantity, its text lines and buttons one per cart line |
| CartKb.CartTextEndsWithTotal | bot/src/keyboards/cart_kb.py:27-28 | a non-empty cart's text ends with the total line |
| CartHandlers.OpenCarts | bot/src/handlers/cart.py:18 | exactly the positions of the user's unordered carts, in key order |
| CartHandlers.OnlyOpenCart | bot/src/handlers/cart.py:90 | a user's only open cart is the whole answer of the lookup |
| CartHandlers.GetCartItems | bot/src/handlers/cart.py:17-21 | nothing when the user has no open cart, else the first open cart's lines |
| CartHandlers.FirstOpenCartIsFirst | bot/src/handlers/cart.py:18 | the first open cart comes no later than any open cart of the user |
| CartHandlers.LineOf | bot/src/handlers/cart.py:56 | the line found holds the product; none found means no line does |
| CartHandlers.LineWithId | bot/src/handlers/cart.py:91 | the line found has the id; none found means no line does |
| CartHandlers.DecodeThird | bot/src/handlers/cart.py:89 | `int(data.split('_')[2])`: fewer than three pieces raise IndexError; a result is the third piece read as an integer |
| CartHandlers.ThirdRoundTrip | bot/src/handlers/cart.py:27 | `a_b_{id}` with words free of `_` decodes to `id` |
| CartHandlers.AddItemRoundTrip | bot/src/handlers/cart.py:27 | the add-to-cart button's data decodes to the product id |
| CartHandlers.RemoveItemRoundTrip | bot/src/handlers/cart.py:89 | a remove button's data decodes to the line id |
| CartHandlers.Merge | bot/src/handlers/cart.py:58-59 | the line's quantity grows by the amount; every other field and line is unchanged |
| CartHandlers.MergeKeepsLines | bot/src/handlers/cart.py:56-59 | merging keeps one line per product and unique line ids |
| CartHandlers.AppendKeepsLines | bot/src/handlers/cart.py:61-68 | a new line for a product the cart lacks keeps both constraints |
| CartHandlers.Without | bot/src/handlers/cart.py:92 | the line is removed and the others keep their order |
| CartHandlers.WithoutKeepsLines | bot/src/handlers/cart.py:91-92 | removal keeps both constraints and the removed id is gone |
| CartHandlers.GetOrCreateCart | bot/src/handlers/cart.py:54 | the user ends with exactly one open cart, a new empty one only if there was none; it holds the lines the user saw |
| CartHandlers.AddQuantity | bot/src/handlers/cart.py:54-68 | merged, added, or `DoesNotExist` for a missing product; other users' carts are unchanged |
| CartHandlers.QuantityEffect | bot/src/handlers/cart.py:40-68 | rejected exactly when the message has a text that is not a valid quantity (an integer ≥ 1); taken only with a valid text and a known user; a failure that changed the carts only created an empty cart |
| CartHandlers.AddQuantityCounts | bot/src/handlers/cart.py:56-68 | the cart holds exactly `n` more of the product and as many of every other product |
| CartHandlers.AddQuantityKeepsLines | bot/src/handlers/cart.py:56-68 | every cart keeps one line per product and unique line ids |
| CartHandlers.ProcessQuantityCounts | bot/src/handlers/cart.py:43-68 | for a taken message, the counts of `AddQuantityCounts` |
| CartHandlers.ProcessQuantity | bot/src/handlers/cart.py:38-68 | the carts and outcome are `QuantityEffect`'s; nothing else changes; the database invariant is kept |
| CartHandlers.AddToOpenCart | bot/src/handlers/cart.py:53-68 | the carts and outcome are `AddQuantity`'s |
| CartHandlers.RemoveEffect | bot/src/handlers/cart.py:87-92 | succeeds exactly when the id decodes, the user has one open cart and it holds that line; then only that line goes |
| CartHandlers.RemoveItem | bot/src/handlers/cart.py:87-96 | carts change as `RemoveEffect` says or not at all; the answer is the user's lines afterwards |
| CartHandlers.ClearCart | bot/src/handlers/cart.py:114-127 | every open cart of the user is emptied, the others untouched; the keyboard is the catalog button |
| Reservation.ReserveExact | bot/src/handlers/order.py:29-44 | on success each product's `reserved` grows by exactly what the lines ask of it; nothing else changes |
| Reservation.ReserveKeepsCovered | bot/src/handlers/order.py:29-44 | `reserved ≤ quantity` for every product before implies it after |
| Reservation.ReserveSucceedsIff | bot/src/handlers/order.py:29-40 | with one line per product, success exactly when every line's product exists with enough available |
| Reservation.ReserveReportsFirstShortage | bot/src/handlers/order.py:32-40 | the shortage reported is the first short line's, with `available = quantity − reserved` and `requested` its quantity |
| Reservation.ReserveItems | bot/src/handlers/order.py:24-44 | the products end as reserved, or exactly as before on failure; other tables unchanged |
| Reservation.Release | bot/src/handlers/order.py:54-56 | the reservation never grows; it drops by the quantity, or to 0 |
| Reservation.Cancel | bot/src/handlers/order.py:51-57 | the same products, no row added or lost |
| Reservation.CancelNeverRaises | bot/src/handlers/order.py:51-57 | no reservation rises above the snapshot's and no other column changes |
| Reservation.CancelExact | bot/src/handlers/order.py:51-57 | with one line per product, each named product's reservation is the snapshot's less its quantity, clamped at 0 |
| Reservation.CancelReservation | bot/src/handlers/order.py:48-57 | the products end as `Cancel` says; no reservation grows; other tables unchanged |
| Reservation.Confirm | bot/src/handlers/order.py:64-73 | the same products on success; the only failure is `IntegrityError` |
| Reservation.ConfirmKeepsAvailable | bot/src/handlers/order.py:70-71 | every product keeps `quantity − reserved` |
| Reservation.ConfirmExact | bot/src/handlers/order.py:66-73 | each line's quantity leaves both stock and reservation; `in_stock` is `quantity > 0` |
| Reservation.ConfirmOrder | bot/src/handlers/order.py:60-73 | stock written off with availability kept, or nothing changed on `IntegrityError` |
| Address.CountryName | bot/src/utils/address.py:16-25 | RU/KZ/BY spelled out in Russian, any other code upper-cased |
| Address.FormatAddress | bot/src/utils/address.py:4-47 | the present parts joined by ", " in the fixed order |
| Address.CityAlwaysListed | bot/src/utils/address.py:31-32 | the city is always a part, right after country and state |
| Address.StateSameAsCityDropped | bot/src/utils/address.py:28-29 | a state equal to the city is not repeated |
| Address.CountryCodeIgnoresCase | bot/src/utils/address.py:16-25 | every code names the same country as its upper-case form, so "ru" is Russia as "RU" is |
| Address.StreetAndPostCodePrefixed | bot/src/utils/address.py:35-44 | street line 1 comes after "ул. ", and the post code is last, after "индекс: " |
| FaqKb.QuestionButtons | bot/src/keyboards/faq_kb.py:8-9 | one `question_{id}` button per entry |
| FaqKb.Pairs | bot/src/keyboards/faq_kb.py:11 | the buttons two to a row, only the last row possibly single |
| FaqKb.RegroupTwos | bot/src/keyboards/faq_kb.py:11 | `adjust(2)` gives those rows |
| FaqKb.FaqKbMarkup | bot/src/keyboards/faq_kb.py:6-12 | the question buttons then the back button, two to a row |
| FaqKb.FaqKbLayout | bot/src/keyboards/faq_kb.py:8-11 | ⌊n/2⌋+1 rows, and the very last button is `back_to_start` |
| FaqKb.BackToFaqKb | bot/src/keyboards/faq_kb.py:15-18 | one button, with data `faq` |
| FaqHandlers.Matching | bot/src/handlers/faq.py:41 | exactly the entries whose lower-cased question contains the text |
| FaqHandlers.FirstN | bot/src/handlers/faq.py:41-43 | the first `n` entries, or all when fewer |
| FaqHandlers.SelectedEntries | bot/src/handlers/faq.py:39-43 | at most ten entries from the table; matching for a non-empty text, all matches when ten or fewer; the first entries for an empty text |
| FaqHandlers.HandleFaqInline | bot/src/handlers/faq.py:37-60 | one result per selected entry, in order |
| FaqHandlers.ResultIdsReadBack | bot/src/handlers/faq.py:52 | a result's id reads back as the entry's id |
| FaqHandlers.DecodeQuestion | bot/src/handlers/faq.py:65-66 | a result is the integer after the first `_` |
| FaqHandlers.QuestionRoundTrip | bot/src/handlers/faq.py:65 | `question_{id}` decodes to `id` |
| FaqHandlers.FindFaq | bot/src/handlers/faq.py:66 | the entry found has the id; none found means no entry has it |
| FaqHandlers.ShowQuestionDetails | bot/src/handlers/faq.py:63-72 | the decoding error, `DoesNotExist`, or the entry's text with the back-to-list button |
| FaqHandlers.QuestionButtonShowsItsEntry | bot/src/handlers/faq.py:65-66 | pressing an entry's button shows that entry |
| ExportOrders.LineFields | bot/src/utils/export_orders.py:16-21 | a line has eleven fields |
| ExportOrders.OrderLines | bot/src/utils/export_orders.py:13-23 | one CSV line per order line, in order |
| ExportOrders.DecimalHasNoComma | bot/src/utils/export_orders.py:19-21 | a two-place decimal holds no comma |
| ExportOrders.NatHasNoComma | bot/src/utils/export_orders.py:17 | an integer id holds no comma |
| ExportOrders.QuoteKeepsNoComma | bot/src/utils/export_orders.py:18 | quoting adds no comma |
| ExportOrders.FieldsHaveNoComma | bot/src/utils/export_orders.py:16-21 | with comma-free name, description, status and timestamp, no field holds a comma |
| ExportOrders.HeaderNamesSplit | bot/src/utils/export_orders.py:35-38 | the header splits into the eleven column names |
| ExportOrders.AfterAppend | bot/src/utils/export_orders.py:33-40 | the old content is kept as a prefix; an empty file starts with the header |
| ExportOrders.HeaderWrittenOnce | bot/src/utils/export_orders.py:34-40 | two exports into a new file give one header and both batches |
| ExportOrders.CsvFile.Append | bot/src/utils/export_orders.py:31-40 | the file content becomes `AfterAppend` of the old content |
| Orders.PayloadRoundTrip | bot/src/handlers/order.py:136 | `order_{id}` decodes back to `id` |
| Orders.InvoiceFindsItsOrder | bot/src/handlers/order.py:169 | an invoice's payload leads pre-checkout and payment to its own order |
| Orders.FindCart | bot/src/handlers/order.py:215 | the cart found has the key; none found means no cart has it |
| Orders.FindOrder | bot/src/handlers/order.py:171 | the order found has the key; none found means no order has it |
| Orders.FindOrderFor | bot/src/handlers/order.py:103-104 | the order found belongs to the cart; none found means no order does |
| Orders.PendingOrders | bot/src/handlers/order.py:90-93 | exactly the user's pending orders, in key order |
| Orders.ActiveOrderAsWritten | bot/src/handlers/order.py:90-93 | as written: an answer only when the user has exactly one pending order; none raises `DoesNotExist` |
| Orders.AsWrittenCheckoutNeverStarts | bot/src/handlers/order.py:90-93 | while no order of the shop is pending, every checkout fails at the lookup |
| Orders.ActiveOrder | bot/src/handlers/order.py:90-95 | none exactly when the user has no pending order, else one of the user's pending orders |
| Orders.ActiveOrderAgrees | bot/src/handlers/order.py:90-95 | wherever the original lookup answers, the corrected one gives the same order |
| Orders.LinesOf | bot/src/handlers/order.py:87 | the cart's lines whose product exists, each with its product row |
| Orders.OrderItemsOf | bot/src/handlers/order.py:121-129 | one order line per cart line |
| Orders.InvoiceMatchesOrderLines | bot/src/handlers/order.py:88 | the invoiced total is the sum of price × quantity of the order lines created |
| Orders.UpsertOrder | bot/src/handlers/order.py:103-112 | the cart's order is pending with the total and no lines; the other orders are unchanged; an existing order keeps everything else |
| Orders.CheckoutPlan | bot/src/handlers/order.py:86-112 | the stored total is the value of the order lines checkout will create |
| Orders.CancelActiveOrder | bot/src/handlers/order.py:95-100 | the stock becomes `ReleaseActive` and the orders `CancelActive` of the old tables; users, categories and carts are unchanged |
| Orders.ReserveAndInvoice | bot/src/handlers/order.py:115-159 | reserved stock gets the order its lines and sends the invoice for the total, and is released again if sending fails; a shortage alerts with nothing reserved |
| Orders.Checkout | bot/src/handlers/order.py:76-159 | bots are ignored; no username → `IntegrityError`; not exactly one open cart → crash; otherwise as `CheckoutPlan` then `ReserveAndInvoice`, with the active order found by the corrected `ActiveOrder` (see Findings), so a user without a pending order is not stopped by `DoesNotExist` |
| Orders.PlaceOrder | bot/src/handlers/order.py:86-112 | the lines, the total, the released stock and the order table are those of `CheckoutPlan`; the cart's order is pending with no lines, and users, categories and carts are unchanged |
| Orders.CheckoutLeavesOnePending | bot/src/handlers/order.py:90-109 | a user with at most one pending order has exactly one, the cart's, after checkout |
| Orders.CancelActiveLeavesNone | bot/src/handlers/order.py:95-100 | with at most one pending order, canceling the active one leaves the user none |
| Orders.OnlyPendingAt | bot/src/handlers/order.py:103-109 | making one order pending in a table with none of the user's leaves exactly that one |
| Orders.FirstShortage | bot/src/handlers/order.py:183-187 | a product reported short has more reserved than in stock |
| Orders.ShortageIffOverReserved | bot/src/handlers/order.py:185-186 | the check passes exactly when no product of the order has `reserved > quantity` |
| Orders.ReleaseOnRefusal | bot/src/handlers/order.py:198-199 | a refused order that is not pending releases nothing; a pending one is released as written; no reservation ever grows |
| Orders.AsWrittenStaleInvoiceReleasesOthers | bot/src/handlers/order.py:198-199 | as written, paying a copy of a paid order's invoice, after the stock was written off and a new order reserved the same units, drops that order's reservation to 0; the corrected release keeps it |
| Orders.PreCheckout | bot/src/handlers/order.py:162-206 | bad payload, missing order or a non-pending order refuse; a pending order saves name, phone and address, then refuses and releases on the first over-reserved product (text cut to 200) or accepts; a non-pending order is refused through the corrected `ReleaseOnRefusal` (see Findings), which releases nothing where the original releases its lines |
| Orders.CheckPendingOrder | bot/src/handlers/order.py:177-200 | the pending order gets name, phone and joined address; the first over-reserved line refuses with the stock message cut to 200 and releases the reservation, else the payment is accepted with the stock unchanged |
| Orders.SuccessfulPayment | bot/src/handlers/order.py:209-237 | an unreadable payload crashes; a missing order or a failed write-off changes nothing; otherwise stock written off, the order paid with the charge id, its cart closed |
| Orders.PayOrder | bot/src/handlers/order.py:218-227 | a failed write-off changes nothing; otherwise the stock is `Confirm`'s, the order is paid with the charge id and its cart closed, and no other order or cart changes |
| Orders.PaidCartIsClosed | bot/src/handlers/order.py:226-227 | the paid cart leaves the user's open carts and no other cart changes |

## Left out

- Telegram I/O is not modelled: sending, editing and deleting messages, `call.answer`, `send_invoice`, `asyncio.sleep`, the FSM storage of `ask_quantity`/`process_quantity`, and the inline answer. Instead:
  - the handlers return the text and keyboard they would send;
  - whether `send_invoice` and an edit of the product card succeed are parameters (`invoiceSent`, `editSucceeds`);
  - the id of a sent message is a parameter (`sentId`).
- `cmd_start`, `main_menu_kb`, `show_catalog`, `show_cart`, `show_faq` and `back_to_start` only send fixed texts and keyboards. They are not modelled.
- Locks and concurrency are not modelled. `select_for_update` and two handlers running at once are out of scope. Each handler runs alone, and each `transaction.atomic()` block is one step.
- `str.isdigit` and `int()` are modelled for ASCII digits only. Other Unicode digits are not.
- `str.lower`/`str.upper` are modelled for ASCII letters, the Latin-1 letters À–Þ and à–þ, and the basic Cyrillic letters А–я and Ѐ–џ. Every other character is kept as it is, including the other cased letters Python maps (Latin Extended, Greek, the Cyrillic supplement, `ß` and `ÿ`), so a FAQ search on such letters can differ from the original. The database's `icontains` collation is approximated by lower-casing the question and searching for the text.
- CartHandlers.ProcessQuantity: the range of the integer columns is not modelled. `CartItem.quantity` is a `PositiveIntegerField` (backend/store/models.py:76), and Django promises only 0 to 2147483647 for it. `int(message.text)` (bot/src/handlers/cart.py:42) accepts a number of any size. An entered quantity past that bound, or a merge past it (cart.py:57-58), makes `asave`/`acreate` fail with a database error in the original. By then the cart of cart.py:52 already exists. The model answers `Merged` or `Added` there.
- CartHandlers.AddToOpenCart: the same column bound is not modelled. Where the original write fails, this method adds the amount.
- CartHandlers.AddQuantityCounts: counts the full amount `n` even where the original write would fail on the column bound.
- Reservation.ReserveItems: `Product.quantity` and `reserved` (backend/store/models.py:42-43) have the same bound, but no handler can pass it. A reservation succeeds only while `reserved + q <= quantity` (`Reservation.ReserveKeepsCovered`), and cancel and confirm only lower the counts.
- Orders.Checkout: `total_amount` is stored as the integer kopecks. The source stores the float `total / 100` in a `DecimalField`, whose overflow beyond ten digits is not modelled.
- Orders.Checkout: a failure of `abulk_create` is not modelled. Only the failure of sending the invoice is.
- Orders.Checkout: finds the active order with the corrected `Orders.ActiveOrder` (`.afirst()`), not the `.aget()` of bot/src/handlers/order.py:90-93. Where the original raises `DoesNotExist` (a user with no pending order) and sends no invoice, this model goes on and sends one. Wherever the original lookup answers, `Orders.ActiveOrderAgrees` proves that both lookups give the same order.
- Orders.PreCheckout: refuses a non-pending order through the corrected `Orders.ReleaseOnRefusal`, which releases nothing. The original runs `cancel_reservation(order)` there (bot/src/handlers/order.py:198-199), as `Orders.AsWrittenStaleInvoiceReleasesOthers` shows. For a pending order the two releases are equal, as `ReleaseOnRefusal`'s contract states.
- Models.Database.SaveCategory: validates with the corrected `Models.FullClean`, which also refuses a parent for a category that has children. The original `full_clean()` (backend/store/models.py:19-30) accepts that save, as `Models.AsWrittenSaveNests` shows. `FullClean` passes only where `FullCleanAsWritten` passes, so every save this model makes is one the original makes too.
- Catalog.ShowSubcategoriesOrProducts: shows the corrected `Catalog.Screen`, so `category_0` lists the top-level categories where the original `aget(id=0)` raises `DoesNotExist` (bot/src/handlers/catalog.py:74-84). For every other id, `Screen` is `ScreenAsWritten` by its contract.
- Orders.PreCheckout: the router's `startswith('order_')` filter is not modelled. The method accepts any payload, and a payload without `_` answers as the generic handler does.
- `Order.full_clean` validators (minimum amounts, field lengths) are not modelled. `save()` never runs them for orders, carts or lines.
- The CSV export task is not modelled: the executor, `mkdir`, `stat`, and the re-read of the order. The timestamp is an already formatted string. `Orders.SuccessfulPayment` returns the paid order that the export receives.
- ExportOrders.FieldsHaveNoComma: shows that no field holds a comma. That a whole line then splits back into its eleven fields follows from `Text.SplitJoin`, but is not stated for the whole line, because that instance is too costly for the verifier.
- Products are never deleted: `on_delete=PROTECT` forbids deleting a product that a line refers to. A line whose product is missing is skipped, as an inner join skips it.
- `Cart.user` is an optional chat id. The `TelegramUser` row is reduced to its username, since the first and last names are written but never read.
- `bot/src/main.py`, `init_django.py` and `config.py` only start and wire up the bot and are not modelled. The page sizes come from the configuration (3 categories, 5 products per page), not the unused constants at bot/src/keyboards/catalog_kb.py:7-8.

## Findings

| source | as written | input that shows it | evidently intended | confidence | as-written member | corrected member |
|---|---|---|---|---|---|---|
| bot/src/handlers/order.py:90-93 | the active order is fetched with `.aget()`, which raises `DoesNotExist` when the user has no pending order, so the `if active_order:` test never sees `None` | any checkout while no order of the shop is pending, e.g. the very first one | fetch with `.afirst()`: cancel the pending order if there is one, otherwise go on to create the order | high, not executed | Orders.AsWrittenCheckoutNeverStarts | Orders.ActiveOrder |
| backend/store/models.py:19-23 | `clean()` refuses only a parent that has a parent; it does not look at the category's own children | categories 1 and 2 top-level and 3 under 2; save 2 with parent 1: 3 is now two levels deep | also refuse a parent for a category that has children, keeping nesting at one level as the error text says | medium, not executed | Models.AsWrittenSaveNestsTwoLevels | Models.SaveKeepsInvariants |
| bot/src/handlers/order.py:198-199 | every refusal after the order is loaded runs `cancel_reservation(order)`, including the refusal of a non-pending order | pay an order of 3 (the stock is written off), check out a new order of the same 3 units from a new cart, then pay a forwarded copy of the first invoice, which `send_invoice` (order.py:131-143) issues without a `start_parameter`: the paid order is refused and the new order's reservation of 3 drops to 0 | release only a pending order's reservation | high, not executed | Orders.AsWrittenStaleInvoiceReleasesOthers | Orders.ReleaseOnRefusal |
| bot/src/handlers/catalog.py:91-95 | the back button of a top-level category's products page carries `category_0`, and the handler then runs `Category.objects.aget(id=0)`, which raises `DoesNotExist` | open a top-level category without subcategories and press "⬅️ К категориям" | list the top-level categories | medium, not executed | Catalog.AsWrittenBackToCategoriesFails | Catalog.Screen |
