/**
 * The FAQ keyboards: one button per question, two to a row, ending with the
 * way back to the start; and the single button back to the list.
 */
module FaqKb {
  import opened Text
  import opened Keyboard
  import opened Models

  const QuestionWord := "question"
  const BackText := "Назад"
  const BackToStart := Button(BackText, "back_to_start")
  const BackToFaq := Button(BackText, "faq")

  /** `f'question_{id}'` */
  function QuestionData(id: nat): string { QuestionWord + "_" + NatToString(id) }

  /** One button per question, captioned with it, in order. */
  function QuestionButtons(faqs: seq<Faq>): (bs: seq<Button>)
    ensures |bs| == |faqs|
  {
    seq(|faqs|, i requires 0 <= i < |faqs| => Button(faqs[i].question, QuestionData(faqs[i].id)))
  }

  /** The buttons two to a row, the last row holding the odd one out. */
  function Pairs(bs: seq<Button>): (rows: Markup)
    ensures Flatten(rows) == bs
    ensures |rows| == (|bs| + 1) / 2
    ensures forall r :: 0 <= r < |rows| - 1 ==> |rows[r]| == 2
    ensures forall r :: 0 <= r < |rows| ==> 0 < |rows[r]| <= 2
    decreases |bs|
  {
    if |bs| <= 2 then (if bs == [] then [] else [bs])
    else
      assert bs == bs[..2] + bs[2..];
      [bs[..2]] + Pairs(bs[2..])
  }

  /** `adjust(2)`: without `repeat` the one size is kept for every row. */
  lemma {:induction false} RegroupTwos(bs: seq<Button>, i: nat)
    ensures Regroup(bs, [2], false, i) == Pairs(bs)
    decreases |bs|
  {
    if bs != [] {
      assert SizeAt([2], false, i) == 2;
      if |bs| <= 2 {
        RegroupWhole(bs, [2], false, i);
      } else {
        RegroupTwos(bs[2..], i + 1);
        RegroupTake(bs, [2], false, i);
      }
    }
  }

  /** `faq_kb(faqs)` */
  method FaqKbMarkup(faqs: seq<Faq>) returns (kb: Markup)
    ensures kb == Pairs(QuestionButtons(faqs) + [BackToStart])
  {
    var builder := new Builder();
    for i := 0 to |faqs|
      invariant Flatten(builder.rows) == QuestionButtons(faqs)[..i]
    {
      builder.AddButton(faqs[i].question, QuestionData(faqs[i].id));
      TakeStep(QuestionButtons(faqs), i);
    }
    assert QuestionButtons(faqs)[..|faqs|] == QuestionButtons(faqs);
    builder.AddButton(BackToStart.text, BackToStart.data);
    builder.Adjust([2], false);
    RegroupTwos(QuestionButtons(faqs) + [BackToStart], 0);
    kb := builder.rows;
  }

  /**
   * The FAQ list has one question button per entry in order, then the back
   * button as the very last; every row but the last holds two buttons.
   */
  lemma FaqKbLayout(faqs: seq<Faq>)
    ensures var rows := Pairs(QuestionButtons(faqs) + [BackToStart]);
      Flatten(rows) == QuestionButtons(faqs) + [BackToStart]
      && |rows| == |faqs| / 2 + 1
      && rows[|rows| - 1][|rows[|rows| - 1]| - 1] == BackToStart
  {
    var bs := QuestionButtons(faqs) + [BackToStart];
    var rows := Pairs(bs);
    var n := |rows| - 1;
    var last := rows[n];
    FlattenAppend(rows[..n], [last]);
    assert rows == rows[..n] + [last];
    assert Flatten([last]) == last;
    assert bs == Flatten(rows[..n]) + last;
    assert bs[|bs| - 1] == last[|last| - 1];
  }

  /** `back_to_faq_kb()` */
  method BackToFaqKb() returns (kb: Markup)
    ensures kb == [[BackToFaq]]
  {
    var builder := new Builder();
    builder.AddButton(BackToFaq.text, BackToFaq.data);
    kb := builder.rows;
  }
}
