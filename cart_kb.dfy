/**
 * The cart screen: one text line per cart line with its cost, the total, a
 * remove button per line, and the clear, order and back-to-catalog buttons.
 * Costs use the product's current price, not the price stored on the line.
 */
module CartKb {
  import opened Text
  import opened Keyboard
  import opened Models

  /** A cart line with its product row loaded alongside (`select_related('product')`). */
  datatype CartLine = CartLine(item: CartItem, product: Product)

  const EmptyText := "🛒 Ваша корзина пуста."
  const Bullet := "• "
  const QuantityIndent := "\n  "
  const Times := " × "
  const RubleEquals := "₽ = "
  const Ruble := "₽"
  const TotalOpen := "\n<b>Итого: "
  const TotalClose := "₽</b>"
  const RemoveText := "❌ Удалить "
  const RemoveItemPrefix := "remove_item_"
  const ClearButton := Button("🗑 Очистить корзину", "clear_cart")
  const OrderButton := Button("💳 Оформить заказ", "order")
  const CatalogButton := Button("⬅️ Продолжить покупки", "catalog")

  /** `p.price * ci.quantity`, in kopecks. */
  function Cost(l: CartLine): nat
  {
    l.product.price * l.item.quantity
  }

  /** The sum of the costs of all lines. */
  function CartTotal(lines: seq<CartLine>): nat
    decreases |lines|
  {
    if lines == [] then 0 else CartTotal(lines[..|lines| - 1]) + Cost(lines[|lines| - 1])
  }

  /** The total is additive over concatenation. */
  lemma {:induction false} CartTotalAppend(a: seq<CartLine>, b: seq<CartLine>)
    ensures CartTotal(a + b) == CartTotal(a) + CartTotal(b)
    decreases |b|
  {
    if b == [] {
      assert a + b == a;
    } else {
      var b' := b[..|b| - 1];
      CartTotalAppend(a, b');
      assert (a + b)[..|a + b| - 1] == a + b';
    }
  }

  /** The total does not depend on the order of the lines. */
  lemma {:induction false} CartTotalSwap(a: seq<CartLine>, x: CartLine, y: CartLine, b: seq<CartLine>)
    ensures CartTotal(a + [x, y] + b) == CartTotal(a + [y, x] + b)
  {
    CartTotalAppend(a + [x, y], b);
    CartTotalAppend(a + [y, x], b);
    CartTotalAppend(a, [x, y]);
    CartTotalAppend(a, [y, x]);
    assert [x, y][..1] == [x];
    assert [y, x][..1] == [y];
  }

  /** `f"• {description}\n  {quantity} × {price}₽ = {cost}₽"` */
  function ItemLine(l: CartLine): string
  {
    Bullet + l.product.description + QuantityIndent + NatToString(l.item.quantity) + Times
    + DecimalString(l.product.price) + RubleEquals + DecimalString(Cost(l)) + Ruble
  }

  function ItemLines(lines: seq<CartLine>): (r: seq<string>)
    ensures |r| == |lines|
  {
    seq(|lines|, i requires 0 <= i < |lines| => ItemLine(lines[i]))
  }

  /** `f"\n<b>Итого: {total}₽</b>"` */
  function TotalLine(total: nat): string
  {
    TotalOpen + DecimalString(total) + TotalClose
  }

  /** `f"remove_item_{id}"` */
  function RemoveItemData(id: nat): string { RemoveItemPrefix + NatToString(id) }

  function RemoveButtons(lines: seq<CartLine>): (r: seq<Button>)
    ensures |r| == |lines|
  {
    seq(|lines|, i requires 0 <= i < |lines| => Button(RemoveText + lines[i].product.description, RemoveItemData(lines[i].item.id)))
  }

  /** `[1] * n` */
  function Ones(n: nat): (sizes: seq<nat>)
    ensures |sizes| == n && forall j :: 0 <= j < n ==> sizes[j] == 1
  {
    seq(n, j => 1)
  }

  /** The sizes `[1] * n + [2]`: valid, one for the first `n` rows, two after. */
  lemma CartSizes(n: nat)
    ensures var sizes := Ones(n) + [2];
      ValidSizes(sizes) && |sizes| == n + 1 && sizes[n] == 2 && forall k :: 0 <= k < n ==> sizes[k] == 1
  {
  }

  /** The last three buttons under two rows of two: the clear and order buttons, then the catalog one. */
  lemma RegroupLastThree(clear: Button, order: Button, catalog: Button, sizes: seq<nat>, j: nat)
    requires ValidSizes(sizes) && SizeAt(sizes, false, j) == 2 && SizeAt(sizes, false, j + 1) == 2
    ensures Regroup([clear, order, catalog], sizes, false, j) == [[clear, order], [catalog]]
  {
    var bs := [clear, order, catalog];
    assert bs[..2] == [clear, order] && bs[2..] == [catalog];
    assert [catalog][..1] == [catalog] && [catalog][1..] == [];
  }

  /**
   * `adjust(*([1] * k + [2]))` over `k` buttons followed by three: each of
   * the `k` on a row of its own, then two to a row. `j` is the row size the
   * list `removes` starts at.
   */
  lemma {:induction false} RegroupCartRows(removes: seq<Button>, sizes: seq<nat>, j: nat, clear: Button, order: Button, catalog: Button)
    requires ValidSizes(sizes) && |sizes| == j + |removes| + 1 && sizes[j + |removes|] == 2
    requires forall k :: j <= k < j + |removes| ==> sizes[k] == 1
    ensures Regroup(removes + [clear, order, catalog], sizes, false, j)
      == Singles(removes) + [[clear, order], [catalog]]
    decreases |removes|
  {
    if removes == [] {
      assert removes + [clear, order, catalog] == [clear, order, catalog];
      RegroupLastThree(clear, order, catalog, sizes, j);
    } else {
      RegroupCartRows(removes[1..], sizes, j + 1, clear, order, catalog);
      RegroupCartStep(removes, sizes, j, [clear, order, catalog], [[clear, order], [catalog]]);
    }
  }

  /** One step of `RegroupCartRows`: a size-one row in front of rows already known. */
  lemma RegroupCartStep(removes: seq<Button>, sizes: seq<nat>, j: nat, last: seq<Button>, tail: Markup)
    requires ValidSizes(sizes) && j < |sizes| && sizes[j] == 1 && removes != []
    requires Regroup(removes[1..] + last, sizes, false, j + 1) == Singles(removes[1..]) + tail
    ensures Regroup(removes + last, sizes, false, j) == Singles(removes) + tail
  {
    var bs := removes + last;
    assert SizeAt(sizes, false, j) == 1;
    DropFirst(removes, last);
    RegroupSingle(bs, sizes, false, j);
    SinglesCons(removes);
    RowsAssoc([[removes[0]]], Singles(removes[1..]), tail);
  }

  /**
   * `build_cart_view(items)`: for an empty cart, the empty-cart text and the
   * back-to-catalog button alone; otherwise one text line per cart line and
   * the total line, joined by newlines, and a remove button per line (one to
   * a row), then the clear and order buttons on one row and the
   * back-to-catalog button on the last.
   */
  method BuildCartView(items: seq<CartLine>) returns (text: string, kb: Markup)
    ensures items == [] ==> text == EmptyText && kb == [[CatalogButton]]
    ensures items != [] ==> text == Join(ItemLines(items) + [TotalLine(CartTotal(items))], "\n")
    ensures items != [] ==> kb == Singles(RemoveButtons(items)) + [[ClearButton, OrderButton], [CatalogButton]]
  {
    var builder := new Builder();
    if items == [] {
      text := EmptyText;
    } else {
      var total, lines := AddItemLines(builder, items);
      text := Join(lines + [TotalLine(total)], "\n");
      builder.AddButton(ClearButton.text, ClearButton.data);
      builder.AddButton(OrderButton.text, OrderButton.data);
    }
    builder.AddButton(CatalogButton.text, CatalogButton.data);
    if items != [] {
      ghost var removes := RemoveButtons(items);
      PushThree(removes, ClearButton, OrderButton, CatalogButton);
      var sizes := Ones(|items|) + [2];
      CartSizes(|items|);
      builder.Adjust(sizes, false);
      RegroupCartRows(removes, sizes, 0, ClearButton, OrderButton, CatalogButton);
    } else {
      builder.Adjust([1], false);
      RegroupOneButton(CatalogButton, [1], false, 0);
    }
    kb := builder.rows;
  }

  /**
   * The loop of `build_cart_view`: the running total, one text line per cart
   * line, and a remove button per cart line pushed onto the keyboard.
   */
  method AddItemLines(builder: Builder, items: seq<CartLine>) returns (total: nat, lines: seq<string>)
    requires builder.rows == []
    modifies builder
    ensures total == CartTotal(items)
    ensures lines == ItemLines(items)
    ensures Flatten(builder.rows) == RemoveButtons(items)
  {
    total := 0;
    lines := [];
    for i := 0 to |items|
      invariant total == CartTotal(items[..i])
      invariant lines == ItemLines(items)[..i]
      invariant Flatten(builder.rows) == RemoveButtons(items)[..i]
    {
      var ci := items[i];
      var cost := ci.product.price * ci.item.quantity;
      TakeStep(items, i);
      assert CartTotal(items[..i + 1]) == CartTotal(items[..i]) + Cost(ci);
      total := total + cost;
      lines := lines + [ItemLine(ci)];
      builder.AddButton(RemoveText + ci.product.description, RemoveItemData(ci.item.id));
      TakeStep(RemoveButtons(items), i);
      TakeStep(ItemLines(items), i);
    }
    assert items[..|items|] == items;
    assert ItemLines(items)[..|items|] == ItemLines(items);
    assert RemoveButtons(items)[..|items|] == RemoveButtons(items);
  }

  /** The last line of a joined text is the last piece. */
  lemma {:induction false} JoinEndsWith(parts: seq<string>, last: string, sep: string)
    ensures exists head :: Join(parts + [last], sep) == head + last
    decreases |parts|
  {
    if parts == [] {
      assert Join([last], sep) == "" + last;
    } else {
      JoinEndsWith(parts[1..], last, sep);
      var head :| Join(parts[1..] + [last], sep) == head + last;
      assert (parts + [last])[1..] == parts[1..] + [last];
      assert Join(parts + [last], sep) == (parts[0] + sep + head) + last;
    }
  }

  /** A non-empty cart's text ends with the total line, whose amount is the sum of the line costs. */
  lemma CartTextEndsWithTotal(items: seq<CartLine>)
    ensures exists head :: Join(ItemLines(items) + [TotalLine(CartTotal(items))], "\n") == head + TotalLine(CartTotal(items))
  {
    JoinEndsWith(ItemLines(items), TotalLine(CartTotal(items)), "\n");
  }
}
