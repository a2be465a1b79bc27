/** What the footer's contact form and the booking modal share: the form record, the field-update
    rule, the digits-only filter of the mobile number, the required-fields gate and the renaming
    of the form into the request body. */
module LeadForm {
  import opened Wrappers

  datatype FormData = FormData(
    fullName: string,
    email: string,
    mobileNumber: string,
    constructionTime: string,
    ownPlot: string,
    agreeToTerms: bool)

  const EmptyForm := FormData("", "", "", "", "", false)

  /** The inputs wired to the generic change handler that carry a value; the mobile number has a
      handler of its own and the terms box carries `checked`. */
  datatype TextField = FullName | Email | ConstructionTime | OwnPlot

  /** A change event: a text, select or radio input, or the terms checkbox. */
  datatype Change = TextChange(field: TextField, value: string) | CheckboxChange(checked: bool)

  const RequiredFieldsMessage := "Please fill in all required fields and agree to terms."
  const BookingFailedMessage := "Failed to book meeting. Please try again."
  const BookingNetworkMessage := "Network error. Please check your connection and try again."

  function FieldValue(f: FormData, k: TextField): string
  {
    match k
    case FullName => f.fullName
    case Email => f.email
    case ConstructionTime => f.constructionTime
    case OwnPlot => f.ownPlot
  }

  /** The form after one change event: the named field takes the event's value (`checked` for
      the checkbox), and every other field keeps its value. */
  function ApplyChange(f: FormData, c: Change): (r: FormData)
    ensures c.TextChange? ==> FieldValue(r, c.field) == c.value
    ensures c.TextChange? ==> forall k :: k != c.field ==> FieldValue(r, k) == FieldValue(f, k)
    ensures c.TextChange? ==> r.mobileNumber == f.mobileNumber && r.agreeToTerms == f.agreeToTerms
    ensures c.CheckboxChange? ==> r.agreeToTerms == c.checked
    ensures c.CheckboxChange? ==> forall k :: FieldValue(r, k) == FieldValue(f, k)
    ensures r.mobileNumber == f.mobileNumber
  {
    match c
    case CheckboxChange(checked) => f.(agreeToTerms := checked)
    case TextChange(k, v) =>
      match k
      case FullName => f.(fullName := v)
      case Email => f.(email := v)
      case ConstructionTime => f.(constructionTime := v)
      case OwnPlot => f.(ownPlot := v)
  }

  /** Two events on the same field: the later one wins, whatever the first one wrote. */
  lemma ApplyChangeLastWins(f: FormData, k: TextField, v: string, w: string)
    ensures ApplyChange(ApplyChange(f, TextChange(k, v)), TextChange(k, w)) == ApplyChange(f, TextChange(k, w))
  {
  }

  predicate AllDigits(s: string)
  {
    forall i :: 0 <= i < |s| ==> IsDigit(s[i])
  }

  /** `value.replace(/[^0-9]/g, '')`: every non-digit removed, the digits kept. */
  function DigitsOnly(s: string): (r: string)
    ensures AllDigits(r)
    ensures |r| <= |s|
    ensures forall c :: multiset(r)[c] == if IsDigit(c) then multiset(s)[c] else 0
  {
    if s == [] then []
    else
      assert s == [s[0]] + s[1..];
      (if IsDigit(s[0]) then [s[0]] else []) + DigitsOnly(s[1..])
  }

  /** The filter works character by character: filtering a concatenation concatenates the
      filtered parts, so the digits stay in their order. */
  lemma {:induction false} DigitsOnlyAppend(a: string, b: string)
    ensures DigitsOnly(a + b) == DigitsOnly(a) + DigitsOnly(b)
  {
    if a == [] {
      assert a + b == b;
    } else {
      assert (a + b)[0] == a[0];
      assert (a + b)[1..] == a[1..] + b;
      DigitsOnlyAppend(a[1..], b);
    }
  }

  /** A string of digits passes through unchanged. */
  lemma {:induction false} DigitsOnlyKeepsDigits(s: string)
    requires AllDigits(s)
    ensures DigitsOnly(s) == s
  {
    if s != [] {
      DigitsOnlyKeepsDigits(s[1..]);
    }
  }

  /** Filtering twice is filtering once. */
  lemma DigitsOnlyIdempotent(s: string)
    ensures DigitsOnly(DigitsOnly(s)) == DigitsOnly(s)
  {
    DigitsOnlyKeepsDigits(DigitsOnly(s));
  }

  /** The validation gate: an empty text field or an unticked terms box stops the submit. */
  predicate MissingRequired(f: FormData)
  {
    f.fullName == "" || f.email == "" || f.mobileNumber == "" || f.constructionTime == "" ||
    f.ownPlot == "" || !f.agreeToTerms
  }

  /** The JSON body posted to the booking endpoint. */
  datatype BookingRequest = BookingRequest(
    name: string,
    email: string,
    mobileNumber: string,
    constructionTimeline: string,
    ownPlotOfLand: string)

  function RequestBody(f: FormData): (r: BookingRequest)
    ensures r.name == f.fullName && r.email == f.email && r.mobileNumber == f.mobileNumber
    ensures r.constructionTimeline == f.constructionTime && r.ownPlotOfLand == f.ownPlot
  {
    BookingRequest(f.fullName, f.email, f.mobileNumber, f.constructionTime, f.ownPlot)
  }

  /** The body carries every field of the form but the terms box: two forms give the same body
      exactly when they differ at most in `agreeToTerms`. */
  lemma RequestBodyOmitsOnlyTerms(f: FormData, g: FormData)
    ensures RequestBody(f) == RequestBody(g) <==> f.(agreeToTerms := g.agreeToTerms) == g
  {
  }

  /** The body sent after the gate has passed has no empty field. */
  lemma SentBodyComplete(f: FormData)
    requires !MissingRequired(f)
    ensures var r := RequestBody(f);
      r.name != "" && r.email != "" && r.mobileNumber != "" && r.constructionTimeline != "" && r.ownPlotOfLand != ""
  {
  }

  /** A parsed success body and a parsed error body; an absent field is the empty string. */
  datatype BookingReply = BookingReply(message: string)
  datatype BookingError = BookingError(error: string)

  /** The error line for a reply that was not ok: the server's `error`, or the fixed text. */
  function FailureMessage(r: Reply<BookingReply, BookingError>): (m: string)
    requires !r.Accepted?
    ensures r.Rejected? && r.error.error != "" ==> m == r.error.error
    ensures r.Rejected? && r.error.error == "" ==> m == BookingFailedMessage
    ensures r.NetworkError? ==> m == BookingNetworkMessage
    ensures m != ""
  {
    match r
    case Rejected(e) => OrElse(e.error, BookingFailedMessage)
    case NetworkError => BookingNetworkMessage
  }
}
