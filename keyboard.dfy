/**
 * The inline keyboard builder the bot's keyboards are written against
 * (aiogram's `InlineKeyboardBuilder`): a keyboard is a list of rows of
 * buttons, each button a caption and the callback data Telegram sends back
 * when it is pressed. `button()` appends to the last row while it has fewer
 * than eight buttons, `row()` appends whole rows, and `adjust()` lays all
 * buttons out again with the given row sizes.
 */
module Keyboard {

  datatype Button = Button(text: string, data: string)

  type Markup = seq<seq<Button>>

  const MaxWidth: nat := 8

  /** The buttons of a keyboard in reading order. */
  function Flatten(rows: Markup): seq<Button>
    decreases |rows|
  {
    if rows == [] then [] else rows[0] + Flatten(rows[1..])
  }

  lemma {:induction false} FlattenAppend(a: Markup, b: Markup)
    ensures Flatten(a + b) == Flatten(a) + Flatten(b)
    decreases |a|
  {
    if a == [] {
      assert a + b == b;
    } else {
      FlattenAppend(a[1..], b);
      assert (a + b)[0] == a[0];
      assert (a + b)[1..] == a[1..] + b;
    }
  }

  /** Row sizes `adjust()` accepts: at least one, each between one and eight. */
  predicate ValidSizes(sizes: seq<nat>)
  {
    |sizes| > 0 && forall j :: 0 <= j < |sizes| ==> 1 <= sizes[j] <= MaxWidth
  }

  /** The size of row `i`: the sizes cycle when `repeat` is set, otherwise the last one is kept. */
  function SizeAt(sizes: seq<nat>, repeat: bool, i: nat): (n: nat)
    requires ValidSizes(sizes)
    ensures 1 <= n <= MaxWidth
  {
    if repeat then sizes[i % |sizes|]
    else if i < |sizes| then sizes[i]
    else sizes[|sizes| - 1]
  }

  /** The rows `adjust(*sizes, repeat=repeat)` gives `buttons`, starting with row size number `i`. */
  function Regroup(buttons: seq<Button>, sizes: seq<nat>, repeat: bool, i: nat): (rows: Markup)
    requires ValidSizes(sizes)
    ensures Flatten(rows) == buttons
    ensures forall r :: 0 <= r < |rows| ==> 0 < |rows[r]| <= SizeAt(sizes, repeat, i + r)
    decreases |buttons|
  {
    if buttons == [] then []
    else
      var k := if SizeAt(sizes, repeat, i) < |buttons| then SizeAt(sizes, repeat, i) else |buttons|;
      var rest := Regroup(buttons[k..], sizes, repeat, i + 1);
      assert buttons == buttons[..k] + buttons[k..];
      [buttons[..k]] + rest
  }

  /** One button to a row, in order. */
  function Singles(buttons: seq<Button>): (rows: Markup)
    ensures |rows| == |buttons|
  {
    seq(|buttons|, k requires 0 <= k < |buttons| => [buttons[k]])
  }

  /** A row of size `n` with more than `n` buttons left takes the first `n`. */
  lemma RegroupTake(buttons: seq<Button>, sizes: seq<nat>, repeat: bool, i: nat)
    requires ValidSizes(sizes) && SizeAt(sizes, repeat, i) < |buttons|
    ensures var n := SizeAt(sizes, repeat, i);
      Regroup(buttons, sizes, repeat, i) == [buttons[..n]] + Regroup(buttons[n..], sizes, repeat, i + 1)
  {
  }

  /** The last buttons, no more than the row size, make one row. */
  lemma RegroupWhole(buttons: seq<Button>, sizes: seq<nat>, repeat: bool, i: nat)
    requires ValidSizes(sizes) && 0 < |buttons| <= SizeAt(sizes, repeat, i)
    ensures Regroup(buttons, sizes, repeat, i) == [buttons]
  {
    assert buttons[..|buttons|] == buttons && buttons[|buttons|..] == [];
  }

  /** A row of size one takes the first button alone. */
  lemma RegroupSingle(buttons: seq<Button>, sizes: seq<nat>, repeat: bool, i: nat)
    requires ValidSizes(sizes) && buttons != [] && SizeAt(sizes, repeat, i) == 1
    ensures Regroup(buttons, sizes, repeat, i) == [[buttons[0]]] + Regroup(buttons[1..], sizes, repeat, i + 1)
  {
    assert buttons[..1] == [buttons[0]];
  }

  /** Dropping the first button of a concatenation with a non-empty front. */
  lemma DropFirst(a: seq<Button>, b: seq<Button>)
    requires a != []
    ensures (a + b)[0] == a[0] && (a + b)[1..] == a[1..] + b
  {
  }

  /** Three buttons pushed one after another. */
  lemma PushThree(a: seq<Button>, x: Button, y: Button, z: Button)
    ensures a + [x] + [y] + [z] == a + [x, y, z]
  {
  }

  /** Buttons concatenate associatively. */
  lemma ButtonsAssoc(a: seq<Button>, b: seq<Button>, c: seq<Button>)
    ensures a + b + c == a + (b + c)
  {
  }

  /** A row of at most eight buttons is appended by `row()` as it is. */
  lemma ChunksOfOneRow(buttons: seq<Button>)
    requires 0 < |buttons| <= MaxWidth
    ensures Chunks(buttons) == [buttons]
  {
  }

  /** Rows concatenate associatively. */
  lemma RowsAssoc(a: Markup, b: Markup, c: Markup)
    ensures a + (b + c) == (a + b) + c
  {
  }

  /** A lone button makes a lone row. */
  lemma RegroupOneButton(b: Button, sizes: seq<nat>, repeat: bool, i: nat)
    requires ValidSizes(sizes)
    ensures Regroup([b], sizes, repeat, i) == [[b]]
  {
    assert [b][..1] == [b] && [b][1..] == [];
  }

  /** `Singles` of a non-empty list: its first button's row, then the rest. */
  lemma SinglesCons(buttons: seq<Button>)
    requires buttons != []
    ensures Singles(buttons) == [[buttons[0]]] + Singles(buttons[1..])
  {
  }

  /** `adjust(1, repeat=True)` puts every button on a row of its own. */
  lemma {:induction false} RegroupOnes(buttons: seq<Button>, i: nat)
    ensures Regroup(buttons, [1], true, i) == Singles(buttons)
    decreases |buttons|
  {
    if buttons != [] {
      assert SizeAt([1], true, i) == 1;
      RegroupOnes(buttons[1..], i + 1);
      RegroupSingle(buttons, [1], true, i);
      SinglesCons(buttons);
    }
  }

  /** The rows after `button()`: the last row grows while it is narrower than eight buttons. */
  function WithButton(rows: Markup, b: Button): (rows': Markup)
    ensures Flatten(rows') == Flatten(rows) + [b]
  {
    if rows != [] && |rows[|rows| - 1]| < MaxWidth then
      var last := |rows| - 1;
      FlattenAppend(rows[..last], [rows[last]]);
      FlattenAppend(rows[..last], [rows[last] + [b]]);
      assert rows == rows[..last] + [rows[last]];
      rows[..last] + [rows[last] + [b]]
    else
      FlattenAppend(rows, [[b]]);
      rows + [[b]]
  }

  /** The rows `row(*buttons)` appends: the buttons, eight at most to a row. */
  function Chunks(buttons: seq<Button>): (rows: Markup)
    ensures Flatten(rows) == buttons
    ensures forall r :: 0 <= r < |rows| ==> 0 < |rows[r]| <= MaxWidth
    decreases |buttons|
  {
    if |buttons| <= MaxWidth then (if buttons == [] then [] else [buttons])
    else
      assert buttons == buttons[..MaxWidth] + buttons[MaxWidth..];
      [buttons[..MaxWidth]] + Chunks(buttons[MaxWidth..])
  }

  /** A keyboard under construction. */
  class Builder {
    var rows: Markup

    constructor ()
      ensures rows == []
    {
      rows := [];
    }

    /** `builder.button(text=..., callback_data=...)` */
    method AddButton(text: string, data: string)
      modifies this
      ensures rows == WithButton(old(rows), Button(text, data))
    {
      rows := WithButton(rows, Button(text, data));
    }

    /** `builder.row(*buttons)` */
    method AddRow(buttons: seq<Button>)
      modifies this
      ensures rows == old(rows) + Chunks(buttons)
    {
      rows := rows + Chunks(buttons);
    }

    /** `builder.adjust(*sizes, repeat=repeat)` */
    method Adjust(sizes: seq<nat>, repeat: bool)
      requires ValidSizes(sizes)
      modifies this
      ensures rows == Regroup(Flatten(old(rows)), sizes, repeat, 0)
    {
      rows := Regroup(Flatten(rows), sizes, repeat, 0);
    }
  }
}
