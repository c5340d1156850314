/**
 * The FAQ handlers: the inline search, which answers a query typed after
 * the bot's name with at most ten matching entries, and the detail view
 * opened from a question button.
 */
module FaqHandlers {
  import opened Wrappers
  import opened Text
  import opened Keyboard
  import opened Models
  import opened FaqKb

  const ResultLimit: nat := 10
  const BoldOpen := "<b>"
  const BoldClose := "</b>\n"

  /** `query.strip().lower()` */
  function Normalize(query: string): string
  {
    Lower(Strip(query))
  }

  /** `question__icontains=text` for a lower-case `text`: the question, lower-cased, contains it. */
  predicate Matches(f: Faq, text: string)
  {
    Contains(Lower(f.question), text)
  }

  /** The entries whose question matches, in table order. */
  function Matching(faqs: seq<Faq>, text: string): (r: seq<Faq>)
    ensures |r| <= |faqs|
    ensures forall f :: f in r ==> f in faqs && Matches(f, text)
    ensures forall f :: f in faqs && Matches(f, text) ==> f in r
    decreases |faqs|
  {
    if faqs == [] then []
    else (if Matches(faqs[0], text) then [faqs[0]] else []) + Matching(faqs[1..], text)
  }

  /** `qs[:n]` */
  function FirstN(faqs: seq<Faq>, n: nat): (r: seq<Faq>)
    ensures |r| == if |faqs| < n then |faqs| else n
    ensures r == faqs[..|r|]
  {
    if |faqs| <= n then faqs else faqs[..n]
  }

  /** The entries answered: the matching ones for a non-empty text, else all; at most ten. */
  function Selected(faqs: seq<Faq>, text: string): seq<Faq>
  {
    if text != "" then FirstN(Matching(faqs, text), ResultLimit) else FirstN(faqs, ResultLimit)
  }

  /**
   * At most ten entries are answered, each from the table; for a non-empty
   * text each one matches it, and when no more than ten match, all of them
   * are answered. An empty text answers the first ten entries.
   */
  lemma SelectedEntries(faqs: seq<Faq>, text: string)
    ensures |Selected(faqs, text)| <= ResultLimit
    ensures forall f :: f in Selected(faqs, text) ==> f in faqs
    ensures text != "" ==> forall f :: f in Selected(faqs, text) ==> Matches(f, text)
    ensures text != "" && |Matching(faqs, text)| <= ResultLimit ==>
      forall f :: f in faqs && Matches(f, text) ==> f in Selected(faqs, text)
    ensures text == "" ==> Selected(faqs, text) == faqs[..|Selected(faqs, text)|]
    ensures text == "" && |faqs| >= ResultLimit ==> |Selected(faqs, text)| == ResultLimit
  {
    var sel := Selected(faqs, text);
    if text != "" {
      var m := Matching(faqs, text);
      forall f | f in sel ensures f in m {
        var k :| 0 <= k < |sel| && sel[k] == f;
        assert m[k] == f;
      }
    } else {
      forall f | f in sel ensures f in faqs {
        var k :| 0 <= k < |sel| && sel[k] == f;
        assert faqs[k] == f;
      }
    }
  }

  /** An `InlineQueryResultArticle`: the id, the title, and the message sent when it is chosen. */
  datatype InlineResult = InlineResult(id: string, title: string, messageText: string)

  /** `f"<b>{question}</b>\n{answer}"` */
  function DetailText(f: Faq): string
  {
    BoldOpen + f.question + BoldClose + f.answer
  }

  function ResultOf(f: Faq): InlineResult
  {
    InlineResult(NatToString(f.id), f.question, DetailText(f))
  }

  /**
   * `handle_faq_inline(query)`: the query is normalised, the entries
   * selected, and one result per entry is appended in order.
   */
  method HandleFaqInline(faqs: seq<Faq>, query: string) returns (results: seq<InlineResult>)
    ensures var sel := Selected(faqs, Normalize(query));
      |results| == |sel| && forall i :: 0 <= i < |sel| ==> results[i] == ResultOf(sel[i])
  {
    var text := Lower(Strip(query));
    var sel := Selected(faqs, text);
    results := [];
    for i := 0 to |sel|
      invariant |results| == i
      invariant forall j :: 0 <= j < i ==> results[j] == ResultOf(sel[j])
    {
      var f := sel[i];
      var messageText := BoldOpen + f.question + BoldClose + f.answer;
      assert InlineResult(NatToString(f.id), f.question, messageText) == ResultOf(f);
      results := results + [InlineResult(NatToString(f.id), f.question, messageText)];
    }
  }

  /** Each result's id reads back as its entry's id. */
  lemma ResultIdsReadBack(f: Faq)
    ensures PyInt(ResultOf(f).id) == Some(f.id)
  {
    PyIntOfNatToString(f.id);
  }

  /** `faq_id = data.split('_', 1)[1]`, then the lookup `id=faq_id` converts it with `int()`. */
  function DecodeQuestion(data: string): (r: Result<int, Crash>)
    ensures r.Success? ==> SplitOnce(data, '_').Some? && PyInt(SplitOnce(data, '_').value.1) == Some(r.value)
  {
    match SplitOnce(data, '_')
    case None => Failure(IndexError)
    case Some((_, rest)) =>
      match PyInt(rest)
      case None => Failure(ValueError)
      case Some(n) => Success(n)
  }

  /** The data of a question button reads back as its entry's id. */
  lemma QuestionRoundTrip(id: nat)
    ensures DecodeQuestion(QuestionData(id)) == Success(id)
  {
    var digits := NatToString(id);
    SplitOnceAt(QuestionWord, '_', digits);
    assert QuestionData(id) == QuestionWord + ['_'] + digits;
    PyIntOfNatToString(id);
  }

  /** `FAQ.objects.aget(id=...)` */
  function FindFaq(faqs: seq<Faq>, id: int): (r: Option<Faq>)
    ensures r.Some? ==> r.value in faqs && r.value.id == id
    ensures r.None? ==> forall k :: 0 <= k < |faqs| ==> faqs[k].id != id
  {
    match Position(faqs, FaqKey, id)
    case None => None
    case Some(k) => Some(faqs[k])
  }

  /**
   * `show_question_details(call)`: the entry named by the data is shown as
   * its question in bold over its answer, with the button back to the list;
   * an unknown id raises `DoesNotExist`.
   */
  method ShowQuestionDetails(faqs: seq<Faq>, data: string) returns (r: Result<(string, Markup), Crash>)
    ensures DecodeQuestion(data).Failure? ==> r == Failure(DecodeQuestion(data).error)
    ensures DecodeQuestion(data).Success? ==>
      match FindFaq(faqs, DecodeQuestion(data).value)
      case None => r == Failure(DoesNotExist)
      case Some(f) => r == Success((DetailText(f), [[BackToFaq]]))
  {
    var id := DecodeQuestion(data);
    if id.Failure? {
      return Failure(id.error);
    }
    var faq := FindFaq(faqs, id.value);
    if faq.None? {
      return Failure(DoesNotExist);
    }
    var kb := BackToFaqKb();
    r := Success((BoldOpen + faq.value.question + BoldClose + faq.value.answer, kb));
  }

  /** Pressing the button of an entry, among entries with distinct ids, shows that entry. */
  lemma QuestionButtonShowsItsEntry(faqs: seq<Faq>, k: nat)
    requires k < |faqs|
    requires forall i, j :: 0 <= i < j < |faqs| ==> faqs[i].id != faqs[j].id
    ensures DecodeQuestion(QuestionButtons(faqs)[k].data) == Success(faqs[k].id)
    ensures FindFaq(faqs, faqs[k].id) == Some(faqs[k])
  {
    QuestionRoundTrip(faqs[k].id);
    var f := FindFaq(faqs, faqs[k].id);
    var j :| 0 <= j < |faqs| && faqs[j] == f.value;
    assert j == k;
  }
}
