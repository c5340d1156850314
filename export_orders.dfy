/**
 * The CSV export of a paid order: one line per order line, eleven
 * comma-separated fields each, appended to a file that gets the header line
 * only when it is empty.
 */
module ExportOrders {
  import opened Text
  import opened Models

  const HeaderNames: seq<string> := ["order_id", "user_chat_id", "user_username", "status", "total_amount",
    "created_at", "product_id", "product_name", "quantity", "price", "line_total"]

  /** The header line: the column names, comma-separated. */
  const Header: string := Join(HeaderNames, ",") + "\n"

  /** An order line with its product, as `select_related('product')` loads it. */
  datatype ExportLine = ExportLine(item: OrderItem, product: Product)

  /** `f'"{s}"'`: wrapped in double quotes, nothing escaped. */
  function Quote(s: string): string
  {
    "\"" + s + "\""
  }

  /**
   * The fields of one line: the order, its buyer's chat id and quoted
   * username, the status, the order total, the creation time, the product id
   * and quoted description, the line's quantity and unit price, and the line
   * total `quantity * price`.
   */
  function LineFields(order: Order, chatId: nat, username: string, l: ExportLine): (fields: seq<string>)
    ensures |fields| == 11
  {
    [NatToString(order.id), NatToString(chatId), Quote(username), order.status, DecimalString(order.totalAmount),
     order.createdAt, NatToString(l.product.id), Quote(l.product.description), NatToString(l.item.quantity),
     DecimalString(l.item.price), DecimalString(l.item.quantity * l.item.price)]
  }

  /** The fields of a line joined by commas. */
  function LineBody(order: Order, chatId: nat, username: string, l: ExportLine): string
  {
    Join(LineFields(order, chatId, username, l), ",")
  }

  /** One line of the export, ending in a newline. */
  function CsvLine(order: Order, chatId: nat, username: string, l: ExportLine): string
  {
    LineBody(order, chatId, username, l) + "\n"
  }

  /** The loop of `save_to_csv_async`: one line per order line, in order. */
  method OrderLines(order: Order, chatId: nat, username: string, items: seq<ExportLine>) returns (lines: seq<string>)
    ensures |lines| == |items|
    ensures forall i :: 0 <= i < |items| ==> lines[i] == CsvLine(order, chatId, username, items[i])
  {
    lines := [];
    for i := 0 to |items|
      invariant |lines| == i
      invariant forall j :: 0 <= j < i ==> lines[j] == CsvLine(order, chatId, username, items[j])
    {
      lines := lines + [CsvLine(order, chatId, username, items[i])];
    }
  }

  /** `str(d)` of a two-place `Decimal` holds no comma. */
  lemma DecimalHasNoComma(kopecks: nat)
    ensures ',' !in DecimalString(kopecks)
  {
    var s := DecimalString(kopecks);
    var whole := NatToString(kopecks / 100);
    assert s == whole + "." + s[|whole| + 1..];
    assert ',' !in whole;
  }

  lemma NatHasNoComma(n: nat)
    ensures ',' !in NatToString(n)
  {
  }

  lemma QuoteKeepsNoComma(s: string)
    requires ',' !in s
    ensures ',' !in Quote(s)
  {
  }

  /**
   * As long as the buyer's name, the product description, the status and
   * the timestamp hold no comma (the quotes do not protect one), no field of
   * a line holds one, so the line splits back into its eleven fields
   * (`Text.SplitJoin`).
   */
  lemma FieldsHaveNoComma(order: Order, chatId: nat, username: string, l: ExportLine)
    requires ',' !in username && ',' !in l.product.description && ',' !in order.status && ',' !in order.createdAt
    ensures forall k :: 0 <= k < 11 ==> ',' !in LineFields(order, chatId, username, l)[k]
  {
    var f := LineFields(order, chatId, username, l);
    ProductIsNat(l.item.quantity, l.item.price);
    forall k | 0 <= k < 11
      ensures ',' !in f[k]
    {
      if k == 0 { NatHasNoComma(order.id); }
      else if k == 1 { NatHasNoComma(chatId); }
      else if k == 2 { QuoteKeepsNoComma(username); }
      else if k == 4 { DecimalHasNoComma(order.totalAmount); }
      else if k == 6 { NatHasNoComma(l.product.id); }
      else if k == 7 { QuoteKeepsNoComma(l.product.description); }
      else if k == 8 { NatHasNoComma(l.item.quantity); }
      else if k == 9 { DecimalHasNoComma(l.item.price); }
      else if k == 10 { DecimalHasNoComma(l.item.quantity * l.item.price); }
    }
  }

  /** A product of naturals is a natural. */
  lemma ProductIsNat(a: nat, b: nat)
    ensures a * b >= 0
  {
  }

  /** The header reads back as the eleven column names, in the order of a line's fields. */
  lemma HeaderNamesSplit()
    ensures Split(Header[..|Header| - 1], ',') == HeaderNames && |HeaderNames| == 11
  {
    assert forall k :: 0 <= k < |HeaderNames| ==> ',' !in HeaderNames[k];
    SplitJoin(HeaderNames, ',');
    assert Header[..|Header| - 1] == Join(HeaderNames, ",");
  }

  /** The lines, one after another. */
  function Concat(lines: seq<string>): string
    decreases |lines|
  {
    if lines == [] then "" else lines[0] + Concat(lines[1..])
  }

  /**
   * `save_csv_sync(path, lines)` on a file holding `content`: the header
   * first when the file is empty, then the lines, after what was there.
   */
  function AfterAppend(content: string, lines: seq<string>): (r: string)
    ensures StartsWith(r, content)
    ensures content == "" ==> StartsWith(r, Header)
  {
    var header := if content == "" then Header else "";
    StartsWithThree(content, header, Concat(lines));
    content + header + Concat(lines)
  }

  /** The header is written once: a second export into the same file adds only its lines. */
  lemma HeaderWrittenOnce(first: seq<string>, second: seq<string>)
    ensures AfterAppend(AfterAppend("", first), second) == Header + Concat(first) + Concat(second)
  {
    assert |Header| > 0;
    assert AfterAppend("", first) != "";
  }

  /** The export file, opened for appending. */
  class CsvFile {
    var content: string

    constructor ()
      ensures content == ""
    {
      content := "";
    }

    /** `save_csv_sync(path, lines)` */
    method Append(lines: seq<string>)
      modifies this
      ensures content == AfterAppend(old(content), lines)
    {
      if content == "" {
        content := content + Header;
      }
      content := content + Concat(lines);
    }
  }
}
