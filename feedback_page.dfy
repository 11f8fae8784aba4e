/**
 * The feedback page: the form's validation, submission and reset, the
 * field-wise update, the rating labels and the star rows.
 */
module FeedbackPage {
  import opened Wrappers
  import opened UseFeedback

  datatype FormData = FormData(name: string, email: string, product: string, message: string)

  const EmptyForm: FormData := FormData("", "", "", "")

  /** The four named inputs of the form. */
  datatype Field = Name | Email | Product | Message

  /** Why a submission was refused, or that it was accepted. */
  datatype Verdict = NameOrMessageMissing | RatingMissing | Accepted

  datatype SubmitOutcome = Refused(reason: Verdict) | Submitted(id: string)

  /** Name and message are checked first, the star rating second. */
  function Validate(form: FormData, rating: int): (v: Verdict)
    ensures v == Accepted <==> form.name != "" && form.message != "" && rating != 0
    ensures v == NameOrMessageMissing <==> form.name == "" || form.message == ""
    ensures v == RatingMissing <==> form.name != "" && form.message != "" && rating == 0
  {
    if form.name == "" || form.message == "" then NameOrMessageMissing
    else if rating == 0 then RatingMissing
    else Accepted
  }

  /** The object handed to addFeedback. */
  function ToInput(form: FormData, rating: int): (input: FeedbackInput)
    ensures input.name == form.name && input.message == form.message && input.rating == rating
    ensures input.email == Some(form.email) && input.product == Some(form.product)
  {
    FeedbackInput(form.name, Some(form.email), Some(form.product), form.message, rating)
  }

  function FieldValue(form: FormData, field: Field): string {
    match field
    case Name => form.name
    case Email => form.email
    case Product => form.product
    case Message => form.message
  }

  /** handleInputChange: the named field takes the new value and the other three keep theirs. */
  function UpdateField(form: FormData, field: Field, value: string): (r: FormData)
    ensures FieldValue(r, field) == value
    ensures forall other :: other != field ==> FieldValue(r, other) == FieldValue(form, other)
  {
    match field
    case Name => form.(name := value)
    case Email => form.(email := value)
    case Product => form.(product := value)
    case Message => form.(message := value)
  }

  /** The word shown beside a rating: one per star count from 1 to 5, nothing otherwise. */
  function RatingText(stars: int): (text: string)
    ensures text != "" <==> 1 <= stars <= 5
  {
    match stars
    case 1 => "Muito Ruim"
    case 2 => "Ruim"
    case 3 => "Regular"
    case 4 => "Bom"
    case 5 => "Excelente"
    case _ => ""
  }

  lemma RatingTextIsInjective(a: int, b: int)
    requires 1 <= a <= 5 && 1 <= b <= 5 && a != b
    ensures RatingText(a) != RatingText(b)
  {
  }

  /** `hoveredRating || rating`: a hover value of 0 falls back to the selected rating. */
  function ShownRating(hovered: int, rating: int): (shown: int)
    ensures hovered != 0 ==> shown == hovered
    ensures hovered == 0 ==> shown == rating
  {
    if hovered != 0 then hovered else rating
  }

  /** The five selector stars, star s at position s - 1, true when highlighted. */
  function StarRow(hovered: int, rating: int): (row: seq<bool>)
    ensures |row| == 5
    ensures forall j :: 0 <= j < 5 ==> (row[j] <==> j + 1 <= ShownRating(hovered, rating))
  {
    seq(5, j => j + 1 <= ShownRating(hovered, rating))
  }

  /** While a star is hovered, the selected rating does not affect the row. */
  lemma HoverOverridesRating(hovered: int, rating: int, rating': int)
    requires hovered != 0
    ensures StarRow(hovered, rating) == StarRow(hovered, rating')
  {
  }

  /** With nothing hovered, the row shows the selected rating. */
  lemma NoHoverShowsRating(rating: int)
    ensures forall j :: 0 <= j < 5 ==> (StarRow(0, rating)[j] <==> j + 1 <= rating)
  {
  }

  /** The highlighted stars are always a leading run of the row. */
  lemma StarRowIsPrefix(hovered: int, rating: int, j: nat, k: nat)
    requires j <= k < 5 && StarRow(hovered, rating)[k]
    ensures StarRow(hovered, rating)[j]
  {
  }

  /** The label beside the selector: the text of the shown rating, when it is positive. */
  function SelectorLabel(hovered: int, rating: int): (caption: string)
    ensures caption != "" <==> 1 <= ShownRating(hovered, rating) <= 5
  {
    var shown := ShownRating(hovered, rating);
    if shown > 0 then RatingText(shown) else ""
  }

  /**
   * The stars of a listed entry: rating filled ones, then 5 - rating empty
   * ones. Building an array of negative length fails, so a rating outside
   * 0..5 has no display.
   */
  function StarDisplay(rating: int): (d: Option<(nat, nat)>)
    ensures d.Some? <==> 0 <= rating <= 5
    ensures d.Some? ==> d.value.0 == rating && d.value.0 + d.value.1 == 5
  {
    if 0 <= rating && 5 - rating >= 0 then Some((rating, 5 - rating)) else None
  }

  /** The header's count label, singular for one entry. */
  function CountLabel(count: nat): (caption: string)
    ensures caption == "avaliação recebida" <==> count == 1
  {
    if count == 1 then "avaliação recebida" else "avaliações recebidas"
  }

  /** The page's own state, and the feedback hook it uses. */
  class Page {
    var rating: int
    var hoveredRating: int
    var formData: FormData
    const hook: FeedbackHook

    ghost predicate Valid()
      reads this, hook
    {
      0 <= rating <= 5 && 0 <= hoveredRating <= 5 && hook.Valid()
    }

    constructor (hook: FeedbackHook)
      requires hook.Valid()
      ensures Valid() && this.hook == hook
      ensures rating == 0 && hoveredRating == 0 && formData == EmptyForm
    {
      this.hook := hook;
      rating, hoveredRating, formData := 0, 0, EmptyForm;
    }

    method HandleInputChange(field: Field, value: string)
      requires Valid()
      modifies this`formData
      ensures Valid() && formData == UpdateField(old(formData), field, value)
    {
      match field
      case Name => formData := formData.(name := value);
      case Email => formData := formData.(email := value);
      case Product => formData := formData.(product := value);
      case Message => formData := formData.(message := value);
    }

    method HoverStar(star: int)
      requires Valid() && 1 <= star <= 5
      modifies this`hoveredRating
      ensures Valid() && hoveredRating == star
    {
      hoveredRating := star;
    }

    method LeaveStar()
      requires Valid()
      modifies this`hoveredRating
      ensures Valid() && hoveredRating == 0
    {
      hoveredRating := 0;
    }

    method ClickStar(star: int)
      requires Valid() && 1 <= star <= 5
      modifies this`rating
      ensures Valid() && rating == star
    {
      rating := star;
    }

    /**
     * handleSubmit, with the id and date the store would generate passed in.
     * A refused submission changes nothing; an accepted one adds exactly one
     * entry built from the form and then clears the form and the rating.
     */
    method HandleSubmit(id: string, date: string) returns (outcome: SubmitOutcome)
      requires Valid()
      modifies this`formData, this`rating, hook
      ensures Valid() && hoveredRating == old(hoveredRating)
      ensures outcome.Submitted? <==> Validate(old(formData), old(rating)) == Accepted
      ensures outcome.Refused? ==> outcome.reason == Validate(old(formData), old(rating))
      ensures outcome.Refused? ==>
        formData == old(formData) && rating == old(rating) && hook.State() == old(hook.State())
      ensures outcome.Submitted? ==>
        && outcome.id == id
        && hook.State() == AfterAdd(old(hook.State()), NewEntry(ToInput(old(formData), old(rating)), id, date))
        && formData == EmptyForm && rating == 0
      ensures outcome.Submitted? ==> 1 <= hook.feedbacks[0].rating <= 5
    {
      if formData.name == "" || formData.message == "" {
        return Refused(NameOrMessageMissing);
      }
      if rating == 0 {
        return Refused(RatingMissing);
      }
      var feedbackId := hook.AddFeedback(
        FeedbackInput(formData.name, Some(formData.email), Some(formData.product), formData.message, rating),
        id, date);
      formData := EmptyForm;
      rating := 0;
      outcome := Submitted(feedbackId);
    }
  }

  /** A first submission on an empty store: one entry, listed first among the recent ones. */
  method FirstSubmissionScenario(id: string, date: string)
  {
    var hook := new FeedbackHook(map[]);
    hook.LoadEffect();
    var page := new Page(hook);
    page.HandleInputChange(Name, "Ana");
    page.HandleInputChange(Message, "Ótimo produto");
    page.ClickStar(5);
    var outcome := page.HandleSubmit(id, date);
    assert outcome == Submitted(id);
    assert hook.FeedbacksCount() == 1;
    var recent := hook.GetRecentFeedbacks();
    assert |recent| == 1 && recent[0].name == "Ana" && recent[0].rating == 5;
    assert StarDisplay(recent[0].rating) == Some((5, 0));
    assert RatingText(recent[0].rating) == "Excelente";
    assert CountLabel(hook.FeedbacksCount()) == "avaliação recebida";
  }
}
