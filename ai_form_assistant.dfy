/**
 * The form assistant's rule engine: from the values of a form it derives a
 * list of suggestions (tax filing: VAT estimate, monthly period, unusual
 * date span, almost-complete, PAYE estimate; document upload: document
 * type from the title, category from the type, high priority for tax
 * certificates), and it applies or dismisses suggestions.
 *
 * The form is a map from field names to their text; a missing field reads
 * as the empty text, and a field is truthy when its text is non-empty.
 */
module AiFormAssistant {
  import opened Common
  import opened JsNumbers

  type FormValues = map<string, string>

  function Get(data: FormValues, key: string): string {
    if key in data then data[key] else ""
  }

  predicate Truthy(data: FormValues, key: string) {
    Get(data, key) != ""
  }

  datatype FormType = TaxFiling | DocumentUpload | RegulatoryReport

  /** The suggestion ids; IdText gives the id the component uses. */
  datatype SuggestionId = VatCalcId | TaxPeriodId | DateRangeId | CompletionId | PayeCalcId | DocTypeId | CategoryId | PriorityId

  function IdText(id: SuggestionId): string {
    match id
    case VatCalcId => "vat-calc"
    case TaxPeriodId => "tax-period"
    case DateRangeId => "date-range"
    case CompletionId => "completion"
    case PayeCalcId => "paye-calc"
    case DocTypeId => "doc-type"
    case CategoryId => "category"
    case PriorityId => "priority"
  }

  datatype Kind = Validation | Suggestion | Calculation | Warning | Completion

  /**
   * The value an action writes: a literal text, or an estimate, the
   * revenue text parsed and multiplied by a rate (see EstimateAmount).
   */
  datatype ActionValue = Literal(text: string) | Estimate(revenue: string, rate: real)

  datatype FormSuggestion = FormSuggestion(
    id: SuggestionId,
    field: string,
    kind: Kind,
    action: Option<ActionValue>,
    confidence: nat)

  /** A suggestion with this id is in the list. */
  predicate HasId(ss: seq<FormSuggestion>, id: SuggestionId) {
    exists s :: s in ss && s.id == id
  }

  function When(c: bool, s: FormSuggestion): seq<FormSuggestion> {
    if c then [s] else []
  }

  lemma HasIdWhen(c: bool, s: FormSuggestion, id: SuggestionId)
    ensures HasId(When(c, s), id) <==> c && s.id == id
  {
    if c {
      assert s in When(c, s);
    }
  }

  lemma HasIdConcat(a: seq<FormSuggestion>, b: seq<FormSuggestion>, id: SuggestionId)
    ensures HasId(a + b, id) <==> HasId(a, id) || HasId(b, id)
  {
    if HasId(a, id) {
      var s :| s in a && s.id == id;
      assert s in a + b;
    }
    if HasId(b, id) {
      var s :| s in b && s.id == id;
      assert s in a + b;
    }
  }

  // ---------------------------------------------------------------------
  // Tax filing rules
  // ---------------------------------------------------------------------

  /** Multiplies a parsed number by a rate; NaN stays NaN. */
  function Scale(x: Option<real>, rate: real): (r: Option<real>)
    ensures r.Some? <==> x.Some?
    ensures x.Some? ==> r.value == x.value * rate
  {
    match x
    case None => None
    case Some(v) => Some(v * rate)
  }

  /** The amount of an estimate; None when the revenue does not parse, which JavaScript renders as "NaN". */
  function EstimateAmount(revenue: string, rate: real): (r: Option<real>)
    ensures r.Some? <==> ParseFloat(revenue).Some?
    ensures r.Some? ==> r.value == ParseFloat(revenue).value * rate
  {
    Scale(ParseFloat(revenue), rate)
  }

  predicate VatCalcApplies(data: FormValues) {
    Truthy(data, "totalRevenue") && !Truthy(data, "vatAmount")
  }

  /** The VAT estimate at the 7.5% rate. */
  function VatCalc(data: FormValues): FormSuggestion {
    FormSuggestion(VatCalcId, "vatAmount", Calculation,
      Some(Estimate(Get(data, "totalRevenue"), 0.075)), 95)
  }

  predicate TaxPeriodApplies(data: FormValues) {
    Get(data, "filingType") == "vat" && Get(data, "taxPeriod") != "monthly"
  }

  const TaxPeriodSuggestion := FormSuggestion(TaxPeriodId, "taxPeriod", Suggestion, Some(Literal("monthly")), 80)

  /** diffDays is the span in days rounded up, None when a date does not parse. */
  predicate DateRangeApplies(data: FormValues, diffDays: Option<int>) {
    Truthy(data, "startDate") && Truthy(data, "endDate") && diffDays.Some? && diffDays.value > 93
  }

  const DateRangeWarning := FormSuggestion(DateRangeId, "endDate", Warning, None, 70)

  function FilledFlag(data: FormValues, key: string): nat {
    if Truthy(data, key) then 1 else 0
  }

  /** How many of the six fields the completion rule lists are filled. */
  function CompletedFields(data: FormValues): (c: nat)
    ensures c <= 6
  {
    FilledFlag(data, "filingType") + FilledFlag(data, "taxPeriod") + FilledFlag(data, "startDate")
    + FilledFlag(data, "endDate") + FilledFlag(data, "totalRevenue") + FilledFlag(data, "submitterName")
  }

  function CompletionRate(c: nat): real {
    (c as real / 6.0) * 100.0
  }

  predicate CompletionApplies(data: FormValues) {
    70.0 <= CompletionRate(CompletedFields(data)) < 100.0
  }

  const CompletionHint := FormSuggestion(CompletionId, "form", Completion, None, 100)

  predicate PayeCalcApplies(data: FormValues) {
    Get(data, "filingType") == "paye" && Truthy(data, "totalRevenue") && !Truthy(data, "payeAmount")
  }

  /** The PAYE estimate at 10% of revenue. */
  function PayeCalc(data: FormValues): FormSuggestion {
    FormSuggestion(PayeCalcId, "payeAmount", Calculation,
      Some(Estimate(Get(data, "totalRevenue"), 0.1)), 60)
  }

  /** The tax-filing suggestions, in the order the rules run. */
  function TaxSuggestions(data: FormValues, diffDays: Option<int>): seq<FormSuggestion> {
    When(VatCalcApplies(data), VatCalc(data))
    + When(TaxPeriodApplies(data), TaxPeriodSuggestion)
    + When(DateRangeApplies(data, diffDays), DateRangeWarning)
    + When(CompletionApplies(data), CompletionHint)
    + When(PayeCalcApplies(data), PayeCalc(data))
  }

  // ---------------------------------------------------------------------
  // Document upload rules
  // ---------------------------------------------------------------------

  /** The document type a lower-cased title points to; the first matching rule wins, "" when none does. */
  function SuggestedType(title: string): (r: string)
    ensures r in {"", "bank-statement", "receipt", "tax-certificate"}
  {
    if Contains(title, "bank") || Contains(title, "statement") then "bank-statement"
    else if Contains(title, "receipt") || Contains(title, "invoice") then "receipt"
    else if Contains(title, "certificate") then "tax-certificate"
    else ""
  }

  predicate DocTypeApplies(data: FormValues) {
    !Truthy(data, "documentType") && Truthy(data, "title") && SuggestedType(ToLower(Get(data, "title"))) != ""
  }

  function DocTypeSuggestion(data: FormValues): FormSuggestion {
    FormSuggestion(DocTypeId, "documentType", Suggestion, Some(Literal(SuggestedType(ToLower(Get(data, "title"))))), 85)
  }

  /** The category lookup table. */
  function CategoryFor(documentType: string): Option<string> {
    if documentType == "tax-certificate" then Some("tax-documents")
    else if documentType == "bank-statement" || documentType == "receipt" then Some("financial-records")
    else if documentType == "contract" || documentType == "license" then Some("legal-documents")
    else None
  }

  predicate CategoryApplies(data: FormValues) {
    Truthy(data, "documentType") && !Truthy(data, "category") && CategoryFor(Get(data, "documentType")).Some?
  }

  function CategorySuggestion(data: FormValues): FormSuggestion
    requires CategoryApplies(data)
  {
    FormSuggestion(CategoryId, "category", Suggestion, Some(Literal(CategoryFor(Get(data, "documentType")).value)), 90)
  }

  predicate PriorityApplies(data: FormValues) {
    Get(data, "documentType") == "tax-certificate" && Get(data, "priority") != "high"
  }

  const PrioritySuggestion := FormSuggestion(PriorityId, "priority", Suggestion, Some(Literal("high")), 80)

  function DocumentSuggestions(data: FormValues): seq<FormSuggestion> {
    When(DocTypeApplies(data), DocTypeSuggestion(data))
    + (if CategoryApplies(data) then [CategorySuggestion(data)] else [])
    + When(PriorityApplies(data), PrioritySuggestion)
  }

  /** generateSuggestions: the rules of the form's type; other form types get none. */
  function Suggestions(data: FormValues, formType: FormType, diffDays: Option<int>): seq<FormSuggestion> {
    match formType
    case TaxFiling => TaxSuggestions(data, diffDays)
    case DocumentUpload => DocumentSuggestions(data)
    case RegulatoryReport => []
  }

  // ---------------------------------------------------------------------
  // The rule engine as the component runs it
  // ---------------------------------------------------------------------

  /** One rule: its suggestion is pushed when it applies. */
  method PushWhen(ss: seq<FormSuggestion>, applies: bool, s: FormSuggestion) returns (r: seq<FormSuggestion>)
    ensures r == ss + When(applies, s)
  {
    r := ss;
    if applies {
      r := r + [s];
    }
  }

  /** generateSuggestions, pushing each rule's suggestion in turn. */
  method GenerateSuggestions(data: FormValues, formType: FormType, diffDays: Option<int>) returns (suggestions: seq<FormSuggestion>)
    ensures suggestions == Suggestions(data, formType, diffDays)
  {
    suggestions := [];
    if formType == TaxFiling {
      suggestions := PushWhen(suggestions, VatCalcApplies(data), VatCalc(data));
      suggestions := PushWhen(suggestions, TaxPeriodApplies(data), TaxPeriodSuggestion);
      suggestions := PushWhen(suggestions, DateRangeApplies(data, diffDays), DateRangeWarning);
      suggestions := PushWhen(suggestions, CompletionApplies(data), CompletionHint);
      suggestions := PushWhen(suggestions, PayeCalcApplies(data), PayeCalc(data));
      assert [] + When(VatCalcApplies(data), VatCalc(data)) == When(VatCalcApplies(data), VatCalc(data));
    }
    if formType == DocumentUpload {
      suggestions := PushWhen(suggestions, DocTypeApplies(data), DocTypeSuggestion(data));
      if CategoryApplies(data) {
        suggestions := suggestions + [CategorySuggestion(data)];
      }
      suggestions := PushWhen(suggestions, PriorityApplies(data), PrioritySuggestion);
      assert [] + When(DocTypeApplies(data), DocTypeSuggestion(data)) == When(DocTypeApplies(data), DocTypeSuggestion(data));
    }
  }

  // ---------------------------------------------------------------------
  // What the rules promise
  // ---------------------------------------------------------------------

  /** Regulatory reports get no suggestions. */
  lemma RegulatoryReportGetsNone(data: FormValues, diffDays: Option<int>)
    ensures Suggestions(data, RegulatoryReport, diffDays) == []
  {
  }

  /** The completion band holds for exactly five of the six fields. */
  lemma CompletionBand(c: nat)
    requires c <= 6
    ensures 70.0 <= CompletionRate(c) < 100.0 <==> c == 5
  {
  }

  lemma TaxSuggestionHas(data: FormValues, diffDays: Option<int>, id: SuggestionId)
    ensures HasId(TaxSuggestions(data, diffDays), id) <==>
      || (id == VatCalcId && VatCalcApplies(data))
      || (id == TaxPeriodId && TaxPeriodApplies(data))
      || (id == DateRangeId && DateRangeApplies(data, diffDays))
      || (id == CompletionId && CompletionApplies(data))
      || (id == PayeCalcId && PayeCalcApplies(data))
  {
    var w1 := When(VatCalcApplies(data), VatCalc(data));
    var w2 := When(TaxPeriodApplies(data), TaxPeriodSuggestion);
    var w3 := When(DateRangeApplies(data, diffDays), DateRangeWarning);
    var w4 := When(CompletionApplies(data), CompletionHint);
    var w5 := When(PayeCalcApplies(data), PayeCalc(data));
    HasIdWhen(VatCalcApplies(data), VatCalc(data), id);
    HasIdWhen(TaxPeriodApplies(data), TaxPeriodSuggestion, id);
    HasIdWhen(DateRangeApplies(data, diffDays), DateRangeWarning, id);
    HasIdWhen(CompletionApplies(data), CompletionHint, id);
    HasIdWhen(PayeCalcApplies(data), PayeCalc(data), id);
    HasIdConcat(w1, w2, id);
    HasIdConcat(w1 + w2, w3, id);
    HasIdConcat(w1 + w2 + w3, w4, id);
    HasIdConcat(w1 + w2 + w3 + w4, w5, id);
  }

  /**
   * Each tax-filing suggestion appears exactly when its rule holds: the VAT
   * estimate for a revenue without VAT amount, the monthly period for VAT
   * filings not already monthly, the date warning for spans over 93 days,
   * the completion hint for five of six fields, the PAYE estimate for PAYE
   * filings with revenue and no PAYE amount.
   */
  lemma TaxFilingRules(data: FormValues, diffDays: Option<int>)
    ensures HasId(Suggestions(data, TaxFiling, diffDays), VatCalcId)
      <==> Get(data, "totalRevenue") != "" && Get(data, "vatAmount") == ""
    ensures HasId(Suggestions(data, TaxFiling, diffDays), TaxPeriodId)
      <==> Get(data, "filingType") == "vat" && Get(data, "taxPeriod") != "monthly"
    ensures HasId(Suggestions(data, TaxFiling, diffDays), DateRangeId)
      <==> Get(data, "startDate") != "" && Get(data, "endDate") != "" && diffDays.Some? && diffDays.value > 93
    ensures HasId(Suggestions(data, TaxFiling, diffDays), CompletionId) <==> CompletedFields(data) == 5
    ensures HasId(Suggestions(data, TaxFiling, diffDays), PayeCalcId)
      <==> Get(data, "filingType") == "paye" && Get(data, "totalRevenue") != "" && Get(data, "payeAmount") == ""
    ensures !HasId(Suggestions(data, TaxFiling, diffDays), DocTypeId)
    ensures !HasId(Suggestions(data, TaxFiling, diffDays), CategoryId)
    ensures !HasId(Suggestions(data, TaxFiling, diffDays), PriorityId)
  {
    CompletionBand(CompletedFields(data));
    TaxSuggestionHas(data, diffDays, VatCalcId);
    TaxSuggestionHas(data, diffDays, TaxPeriodId);
    TaxSuggestionHas(data, diffDays, DateRangeId);
    TaxSuggestionHas(data, diffDays, CompletionId);
    TaxSuggestionHas(data, diffDays, PayeCalcId);
    TaxSuggestionHas(data, diffDays, DocTypeId);
    TaxSuggestionHas(data, diffDays, CategoryId);
    TaxSuggestionHas(data, diffDays, PriorityId);
  }

  lemma DocumentSuggestionHas(data: FormValues, id: SuggestionId)
    ensures HasId(DocumentSuggestions(data), id) <==>
      || (id == DocTypeId && DocTypeApplies(data))
      || (id == CategoryId && CategoryApplies(data))
      || (id == PriorityId && PriorityApplies(data))
  {
    var w1 := When(DocTypeApplies(data), DocTypeSuggestion(data));
    var w2 := if CategoryApplies(data) then [CategorySuggestion(data)] else [];
    var w3 := When(PriorityApplies(data), PrioritySuggestion);
    HasIdWhen(DocTypeApplies(data), DocTypeSuggestion(data), id);
    if CategoryApplies(data) {
      HasIdWhen(true, CategorySuggestion(data), id);
    }
    HasIdWhen(PriorityApplies(data), PrioritySuggestion, id);
    HasIdConcat(w1, w2, id);
    HasIdConcat(w1 + w2, w3, id);
  }

  /**
   * The document-upload suggestions: a type only for an untyped document
   * with a title that names one, a category only for the five mapped types
   * with no category chosen, high priority for tax certificates not already
   * high.
   */
  lemma DocumentUploadRules(data: FormValues)
    ensures HasId(Suggestions(data, DocumentUpload, None), DocTypeId)
      <==> Get(data, "documentType") == "" && Get(data, "title") != "" && SuggestedType(ToLower(Get(data, "title"))) != ""
    ensures HasId(Suggestions(data, DocumentUpload, None), CategoryId)
      <==> (Get(data, "category") == ""
           && Get(data, "documentType") in {"tax-certificate", "bank-statement", "receipt", "contract", "license"})
    ensures HasId(Suggestions(data, DocumentUpload, None), PriorityId)
      <==> Get(data, "documentType") == "tax-certificate" && Get(data, "priority") != "high"
    ensures !HasId(Suggestions(data, DocumentUpload, None), VatCalcId)
    ensures !HasId(Suggestions(data, DocumentUpload, None), CompletionId)
  {
    DocumentSuggestionHas(data, DocTypeId);
    DocumentSuggestionHas(data, CategoryId);
    DocumentSuggestionHas(data, PriorityId);
    DocumentSuggestionHas(data, VatCalcId);
    DocumentSuggestionHas(data, CompletionId);
  }

  /** Keyword order: a title naming both a bank and a receipt is a bank statement. */
  lemma BankBeforeReceipt(title: string)
    requires Contains(title, "bank") && Contains(title, "receipt")
    ensures SuggestedType(title) == "bank-statement"
  {
  }

  /** Every type the title rule suggests has a category, so applying it leads to a category suggestion. */
  lemma SuggestedTypeThenCategory(data: FormValues)
    requires DocTypeApplies(data) && Get(data, "category") == ""
    ensures var t := SuggestedType(ToLower(Get(data, "title")));
      HasId(Suggestions(data["documentType" := t], DocumentUpload, None), CategoryId)
  {
    var t := SuggestedType(ToLower(Get(data, "title")));
    var d := data["documentType" := t];
    assert Get(d, "documentType") == t;
    assert Get(d, "category") == Get(data, "category");
    DocumentUploadRules(d);
  }

  // ---------------------------------------------------------------------
  // Applying and dismissing
  // ---------------------------------------------------------------------

  function HasOtherId(id: SuggestionId): FormSuggestion -> bool {
    (s: FormSuggestion) => s.id != id
  }

  /** dismissSuggestion: every suggestion with this id goes, the rest stay in order. */
  function DismissSuggestion(ss: seq<FormSuggestion>, id: SuggestionId): (r: seq<FormSuggestion>)
    ensures forall s :: s in r <==> s in ss && s.id != id
    ensures IsSubsequence(r, ss)
  {
    FilterIsSubsequence(ss, HasOtherId(id));
    Filter(ss, HasOtherId(id))
  }

  /**
   * applySuggestion: without an action nothing happens; otherwise the
   * callback receives the field and the value, and the suggestion is
   * dismissed. The result pairs the callback call (if any) with the new list.
   */
  function ApplySuggestion(ss: seq<FormSuggestion>, s: FormSuggestion): (r: (Option<(string, ActionValue)>, seq<FormSuggestion>))
    ensures s.action.None? ==> r == (None, ss)
    ensures s.action.Some? ==> r.0 == Some((s.field, s.action.value)) && r.1 == DismissSuggestion(ss, s.id)
  {
    match s.action
    case None => (None, ss)
    case Some(v) => (Some((s.field, v)), DismissSuggestion(ss, s.id))
  }

  /** Dismissing an id that is not listed changes nothing. */
  lemma DismissAbsent(ss: seq<FormSuggestion>, id: SuggestionId)
    requires !HasId(ss, id)
    ensures DismissSuggestion(ss, id) == ss
  {
    FilterAll(ss, HasOtherId(id));
  }

  /** Dismissing is idempotent. */
  lemma DismissTwice(ss: seq<FormSuggestion>, id: SuggestionId)
    ensures DismissSuggestion(DismissSuggestion(ss, id), id) == DismissSuggestion(ss, id)
  {
    DismissAbsent(DismissSuggestion(ss, id), id);
  }

  lemma TaxMembers(data: FormValues, diffDays: Option<int>, s: FormSuggestion)
    requires s in TaxSuggestions(data, diffDays)
    ensures s == VatCalc(data) || s == TaxPeriodSuggestion || s == DateRangeWarning || s == CompletionHint || s == PayeCalc(data)
  {
  }

  lemma DocumentMembers(data: FormValues, s: FormSuggestion)
    requires s in DocumentSuggestions(data)
    ensures s == DocTypeSuggestion(data) || (CategoryApplies(data) && s == CategorySuggestion(data)) || s == PrioritySuggestion
  {
  }

  lemma TaxSettles(data: FormValues, diffDays: Option<int>, s: FormSuggestion, text: string)
    requires s in TaxSuggestions(data, diffDays) && s.action.Some?
    requires text != "" && (s.action.value.Literal? ==> text == s.action.value.text)
    ensures !HasId(TaxSuggestions(data[s.field := text], diffDays), s.id)
  {
    TaxMembers(data, diffDays, s);
    var d := data[s.field := text];
    assert Get(d, s.field) == text;
    TaxSuggestionHas(d, diffDays, s.id);
  }

  lemma DocumentSettles(data: FormValues, s: FormSuggestion, text: string)
    requires s in DocumentSuggestions(data) && s.action.Some?
    requires text != "" && (s.action.value.Literal? ==> text == s.action.value.text)
    ensures !HasId(DocumentSuggestions(data[s.field := text]), s.id)
  {
    DocumentMembers(data, s);
    var d := data[s.field := text];
    assert Get(d, s.field) == text;
    DocumentSuggestionHas(d, s.id);
  }

  /**
   * Once the parent writes an applied value into the form, the rule that
   * suggested it no longer fires: a written estimate is non-empty text, and
   * the literal values are "monthly", the suggested type or category, and
   * "high".
   */
  lemma AppliedSuggestionSettles(data: FormValues, formType: FormType, diffDays: Option<int>, s: FormSuggestion, text: string)
    requires s in Suggestions(data, formType, diffDays) && s.action.Some?
    requires text != "" && (s.action.value.Literal? ==> text == s.action.value.text)
    ensures !HasId(Suggestions(data[s.field := text], formType, diffDays), s.id)
  {
    match formType
    case TaxFiling => TaxSettles(data, diffDays, s, text);
    case DocumentUpload => DocumentSettles(data, s, text);
    case RegulatoryReport =>
  }
}
