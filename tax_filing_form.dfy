/**
 * The tax filing form: its field edits, the completion progress over the
 * seven required fields, the validation run on submit, and the rule that
 * the submit button needs 70% progress.
 */
module TaxFilingForm {
  import opened Common
  import opened JsNumbers

  datatype FormData = FormData(
    filingType: string,
    taxPeriod: string,
    startDate: string,
    endDate: string,
    totalRevenue: string,
    taxableIncome: string,
    vatAmount: string,
    payeAmount: string,
    companyTax: string,
    supportingDocuments: seq<string>,
    declarationAccepted: bool,
    submitterName: string,
    submitterRole: string,
    additionalNotes: string)

  function InitialData(): FormData {
    FormData("", "", "", "", "", "", "", "", "", [], false, "", "", "")
  }

  // ---------------------------------------------------------------------
  // Completion progress
  // ---------------------------------------------------------------------

  function Filled(s: string): nat {
    if s != "" then 1 else 0
  }

  /** How many of filing type, period, both dates, revenue, submitter name and role are non-empty. */
  function FilledCount(d: FormData): (k: nat)
    ensures k <= 7
  {
    Filled(d.filingType) + Filled(d.taxPeriod) + Filled(d.startDate) + Filled(d.endDate)
    + Filled(d.totalRevenue) + Filled(d.submitterName) + Filled(d.submitterRole)
  }

  /** Math.round(k / 7 * 100): the nearest whole percentage, halves rounding up. */
  function Progress(k: nat): (p: int)
    ensures 2 * (7 * p - 100 * k) <= 7 && 2 * (100 * k - 7 * p) < 7
  {
    (200 * k + 7) / 14
  }

  /** The percentages the seven counts give, and where the 70% threshold falls. */
  lemma ProgressValues(k: nat)
    requires k <= 7
    ensures Progress(k) == [0, 14, 29, 43, 57, 71, 86, 100][k]
    ensures Progress(k) == 0 <==> k == 0
    ensures Progress(k) == 100 <==> k == 7
    ensures Progress(k) >= 70 <==> k >= 5
  {
  }

  /** Submit is disabled while saving or under 70% progress. */
  predicate SubmitDisabled(progress: int, isSaving: bool) {
    isSaving || progress < 70
  }

  // ---------------------------------------------------------------------
  // Validation
  // ---------------------------------------------------------------------

  datatype ValidationKind = Error | Warning

  /** The keys validation items are filed under. */
  datatype VField =
    | FilingTypeKey | TaxPeriodKey | DatesKey | TotalRevenueKey
    | SubmitterNameKey | SubmitterRoleKey | DeclarationKey | VatAmountKey

  /** The key as the form writes it. */
  function KeyName(f: VField): string {
    match f
    case FilingTypeKey => "filingType"
    case TaxPeriodKey => "taxPeriod"
    case DatesKey => "dates"
    case TotalRevenueKey => "totalRevenue"
    case SubmitterNameKey => "submitterName"
    case SubmitterRoleKey => "submitterRole"
    case DeclarationKey => "declarationAccepted"
    case VatAmountKey => "vatAmount"
  }

  /** The messages validation can show. */
  datatype VMessage =
    | FilingTypeMissing | TaxPeriodMissing | DatesMissing | DatesOutOfOrder | RevenueMissing
    | RevenueNotNumber | NameMissing | RoleMissing | DeclarationMissing | VatRecommendedMsg

  function MessageText(m: VMessage): string {
    match m
    case FilingTypeMissing => "Filing type is required"
    case TaxPeriodMissing => "Tax period is required"
    case DatesMissing => "Start and end dates are required"
    case DatesOutOfOrder => "End date must be after start date"
    case RevenueMissing => "Total revenue is required"
    case RevenueNotNumber => "Total revenue must be a valid positive number"
    case NameMissing => "Submitter name is required"
    case RoleMissing => "Submitter role is required"
    case DeclarationMissing => "You must accept the declaration to proceed"
    case VatRecommendedMsg => "VAT amount is recommended for VAT filings"
  }

  datatype FormValidation = FormValidation(field: VField, message: VMessage, kind: ValidationKind)

  /** Some item of the list is filed under this key with this kind. */
  predicate HasItem(vs: seq<FormValidation>, field: VField, kind: ValidationKind) {
    vs != [] && ((vs[0].field == field && vs[0].kind == kind) || HasItem(vs[1..], field, kind))
  }

  /** HasItem means what it says: some index carries the key and the kind. */
  lemma {:induction false} HasItemMeans(vs: seq<FormValidation>, f: VField, k: ValidationKind)
    ensures HasItem(vs, f, k) <==> exists i :: 0 <= i < |vs| && vs[i].field == f && vs[i].kind == k
  {
    if vs != [] {
      HasItemMeans(vs[1..], f, k);
      if HasItem(vs[1..], f, k) {
        var i :| 0 <= i < |vs[1..]| && vs[1..][i].field == f && vs[1..][i].kind == k;
        assert vs[i + 1] == vs[1..][i];
      }
      if exists i :: 0 <= i < |vs| && vs[i].field == f && vs[i].kind == k {
        var i :| 0 <= i < |vs| && vs[i].field == f && vs[i].kind == k;
        if i > 0 {
          assert vs[1..][i - 1] == vs[i];
        }
      }
    }
  }

  lemma {:induction false} HasItemConcat(a: seq<FormValidation>, b: seq<FormValidation>, f: VField, k: ValidationKind)
    ensures HasItem(a + b, f, k) <==> HasItem(a, f, k) || HasItem(b, f, k)
  {
    if a == [] {
      assert a + b == b;
    } else {
      assert (a + b)[0] == a[0];
      assert (a + b)[1..] == a[1..] + b;
      HasItemConcat(a[1..], b, f, k);
    }
  }

  /** Revenue text Number() reads as a non-negative number; "0" counts. */
  predicate RevenueValid(s: string) {
    s != "" && ToNumber(s).Some? && ToNumber(s).value >= 0.0
  }

  predicate RevenueRejected(s: string) {
    ToNumber(s).None? || ToNumber(s).value < 0.0
  }

  /** Dates present, start strictly before end (as strings). */
  predicate DatesValid(d: FormData) {
    d.startDate != "" && d.endDate != "" && Lt(d.startDate, d.endDate)
  }

  /** Nothing that validation reports as an error. */
  predicate ErrorFree(d: FormData) {
    d.filingType != "" && d.taxPeriod != "" && DatesValid(d) && RevenueValid(d.totalRevenue)
    && d.submitterName != "" && d.submitterRole != "" && d.declarationAccepted
  }

  const FilingTypeRequired := FormValidation(FilingTypeKey, FilingTypeMissing, Error)
  const TaxPeriodRequired := FormValidation(TaxPeriodKey, TaxPeriodMissing, Error)
  const DatesRequired := FormValidation(DatesKey, DatesMissing, Error)
  const DatesOrder := FormValidation(DatesKey, DatesOutOfOrder, Error)
  const RevenueRequired := FormValidation(TotalRevenueKey, RevenueMissing, Error)
  const RevenueInvalid := FormValidation(TotalRevenueKey, RevenueNotNumber, Error)
  const NameRequired := FormValidation(SubmitterNameKey, NameMissing, Error)
  const RoleRequired := FormValidation(SubmitterRoleKey, RoleMissing, Error)
  const DeclarationRequired := FormValidation(DeclarationKey, DeclarationMissing, Error)
  const VatRecommended := FormValidation(VatAmountKey, VatRecommendedMsg, Warning)

  /** The item of one check: present exactly when the check fails. */
  function Opt(c: bool, x: FormValidation): (r: seq<FormValidation>)
    ensures forall f, k :: HasItem(r, f, k) <==> c && x.field == f && x.kind == k
  {
    if c then
      assert [x][1..] == [];
      [x]
    else []
  }

  /** The revenue check: an empty box, a value that is no non-negative number, or accepted. */
  datatype RevenueCheck = RevenueOk | RevenueEmpty | RevenueBad

  function CheckRevenue(s: string): RevenueCheck {
    if s == "" then RevenueEmpty
    else if RevenueRejected(s) then RevenueBad
    else RevenueOk
  }

  /** Which of the ten checks of validateForm fail. */
  datatype Failures = Failures(
    filingType: bool, taxPeriod: bool, datesMissing: bool, datesOrder: bool,
    revenue: RevenueCheck, name: bool, role: bool,
    declaration: bool, vatWarning: bool)

  function FailuresOf(d: FormData): Failures {
    Failures(
      d.filingType == "",
      d.taxPeriod == "",
      d.startDate == "" || d.endDate == "",
      d.startDate != "" && d.endDate != "" && !Lt(d.startDate, d.endDate),
      CheckRevenue(d.totalRevenue),
      d.submitterName == "",
      d.submitterRole == "",
      !d.declarationAccepted,
      d.vatAmount == "" && d.filingType == "vat")
  }

  /** The items of the failed checks, in form order. */
  function ItemsFor(f: Failures): seq<FormValidation> {
    FirstFive(f)
    + Opt(f.revenue == RevenueBad, RevenueInvalid)
    + Opt(f.name, NameRequired)
    + Opt(f.role, RoleRequired)
    + Opt(f.declaration, DeclarationRequired)
    + Opt(f.vatWarning, VatRecommended)
  }

  /** The validation list of the form data. */
  function Validations(d: FormData): seq<FormValidation> {
    ItemsFor(FailuresOf(d))
  }

  /** The items the failed checks stand for: the key of each check and its kind. */
  predicate Expected(f: Failures, field: VField, kind: ValidationKind) {
    match field
    case FilingTypeKey => kind == Error && f.filingType
    case TaxPeriodKey => kind == Error && f.taxPeriod
    case DatesKey => kind == Error && (f.datesMissing || f.datesOrder)
    case TotalRevenueKey => kind == Error && (!f.revenue.RevenueOk?)
    case SubmitterNameKey => kind == Error && f.name
    case SubmitterRoleKey => kind == Error && f.role
    case DeclarationKey => kind == Error && f.declaration
    case VatAmountKey => kind == Warning && f.vatWarning
  }

  /** The first five checks, up to the missing revenue. */
  function FirstFive(f: Failures): seq<FormValidation> {
    Opt(f.filingType, FilingTypeRequired)
    + Opt(f.taxPeriod, TaxPeriodRequired)
    + Opt(f.datesMissing, DatesRequired)
    + Opt(f.datesOrder, DatesOrder)
    + Opt(f.revenue == RevenueEmpty, RevenueRequired)
  }

  lemma FirstFiveReports(f: Failures, field: VField, kind: ValidationKind)
    ensures HasItem(FirstFive(f), field, kind) <==>
      kind == Error &&
      ((field == FilingTypeKey && f.filingType) || (field == TaxPeriodKey && f.taxPeriod)
       || (field == DatesKey && (f.datesMissing || f.datesOrder))
       || (field == TotalRevenueKey && f.revenue == RevenueEmpty))
  {
    var o1 := Opt(f.filingType, FilingTypeRequired);
    var o2 := Opt(f.taxPeriod, TaxPeriodRequired);
    var o3 := Opt(f.datesMissing, DatesRequired);
    var o4 := Opt(f.datesOrder, DatesOrder);
    var o5 := Opt(f.revenue == RevenueEmpty, RevenueRequired);
    HasItemConcat(o1, o2, field, kind);
    HasItemConcat(o1 + o2, o3, field, kind);
    HasItemConcat(o1 + o2 + o3, o4, field, kind);
    HasItemConcat(o1 + o2 + o3 + o4, o5, field, kind);
  }

  /** The items listed are exactly those of the failed checks. */
  lemma ItemsForReports(f: Failures, field: VField, kind: ValidationKind)
    ensures HasItem(ItemsFor(f), field, kind) <==> Expected(f, field, kind)
  {
    var p5 := FirstFive(f);
    var o6 := Opt(f.revenue == RevenueBad, RevenueInvalid);
    var o7 := Opt(f.name, NameRequired);
    var o8 := Opt(f.role, RoleRequired);
    var o9 := Opt(f.declaration, DeclarationRequired);
    var o10 := Opt(f.vatWarning, VatRecommended);
    FirstFiveReports(f, field, kind);
    HasItemConcat(p5, o6, field, kind);
    HasItemConcat(p5 + o6, o7, field, kind);
    HasItemConcat(p5 + o6 + o7, o8, field, kind);
    HasItemConcat(p5 + o6 + o7 + o8, o9, field, kind);
    HasItemConcat(p5 + o6 + o7 + o8 + o9, o10, field, kind);
  }

  /**
   * One error for each missing or invalid required item and a warning for
   * a VAT filing without a VAT amount, and nothing else.
   */
  lemma ValidationsReport(d: FormData)
    ensures HasItem(Validations(d), FilingTypeKey, Error) <==> d.filingType == ""
    ensures HasItem(Validations(d), TaxPeriodKey, Error) <==> d.taxPeriod == ""
    ensures HasItem(Validations(d), DatesKey, Error) <==> !DatesValid(d)
    ensures HasItem(Validations(d), TotalRevenueKey, Error) <==> !RevenueValid(d.totalRevenue)
    ensures HasItem(Validations(d), SubmitterNameKey, Error) <==> d.submitterName == ""
    ensures HasItem(Validations(d), SubmitterRoleKey, Error) <==> d.submitterRole == ""
    ensures HasItem(Validations(d), DeclarationKey, Error) <==> !d.declarationAccepted
    ensures HasItem(Validations(d), VatAmountKey, Warning) <==> d.vatAmount == "" && d.filingType == "vat"
  {
    var f := FailuresOf(d);
    ItemsForReports(f, FilingTypeKey, Error);
    ItemsForReports(f, TaxPeriodKey, Error);
    ItemsForReports(f, DatesKey, Error);
    ItemsForReports(f, TotalRevenueKey, Error);
    ItemsForReports(f, SubmitterNameKey, Error);
    ItemsForReports(f, SubmitterRoleKey, Error);
    ItemsForReports(f, DeclarationKey, Error);
    ItemsForReports(f, VatAmountKey, Warning);
  }

  /** The only warning is the VAT one; every other item is an error. */
  lemma OnlyVatWarns(d: FormData, field: VField, kind: ValidationKind)
    requires HasItem(Validations(d), field, kind)
    ensures kind == Warning <==> field == VatAmountKey
  {
    ItemsForReports(FailuresOf(d), field, kind);
  }

  /** One check of validateForm: its item is pushed when the check fails. */
  method PushIf(errors: seq<FormValidation>, failed: bool, item: FormValidation) returns (r: seq<FormValidation>)
    ensures r == errors + Opt(failed, item)
  {
    r := errors;
    if failed {
      r := r + [item];
    }
  }

  /**
   * validateForm: the ten checks, evaluated on the form data, push their
   * items in form order (the revenue is either missing or invalid, never both).
   */
  method ValidateForm(d: FormData) returns (errors: seq<FormValidation>)
    ensures errors == Validations(d)
  {
    var f := FailuresOf(d);
    errors := [];
    errors := PushIf(errors, f.filingType, FilingTypeRequired);
    errors := PushIf(errors, f.taxPeriod, TaxPeriodRequired);
    errors := PushIf(errors, f.datesMissing, DatesRequired);
    errors := PushIf(errors, f.datesOrder, DatesOrder);
    errors := PushIf(errors, f.revenue == RevenueEmpty, RevenueRequired);
    assert errors == FirstFive(f) by {
      assert [] + Opt(f.filingType, FilingTypeRequired) == Opt(f.filingType, FilingTypeRequired);
    }
    errors := PushIf(errors, f.revenue == RevenueBad, RevenueInvalid);
    errors := PushIf(errors, f.name, NameRequired);
    errors := PushIf(errors, f.role, RoleRequired);
    errors := PushIf(errors, f.declaration, DeclarationRequired);
    errors := PushIf(errors, f.vatWarning, VatRecommended);
  }

  /** Revenue written as plain digits is accepted, "0" included. */
  lemma DigitRevenueAccepted(s: string)
    requires s != [] && AllDigits(s)
    ensures RevenueValid(s) && CheckRevenue(s) == RevenueOk
  {
    ToNumberDigits(s);
  }

  /** A minus sign before a positive amount is rejected. */
  lemma NegativeRevenueRejected(s: string)
    requires s != [] && AllDigits(s) && DigitsValue(s) > 0
    ensures RevenueRejected("-" + s) && CheckRevenue("-" + s) == RevenueBad
  {
    ToNumberMinusDigits(s);
  }

  predicate IsErrorItem(v: FormValidation) {
    v.kind == Error
  }

  /**
   * handleSubmit: the validation list is shown, and submission goes ahead
   * exactly when it holds no error; the VAT warning alone never blocks.
   */
  method HandleSubmit(d: FormData) returns (validations: seq<FormValidation>, submits: bool)
    ensures submits <==> ErrorFree(d)
    ensures submits <==> forall i :: 0 <= i < |validations| ==> !IsErrorItem(validations[i])
  {
    validations := ValidateForm(d);
    ValidationsReport(d);
    submits := forall i :: 0 <= i < |validations| ==> !IsErrorItem(validations[i]);
    if !ErrorFree(d) {
      if d.filingType == "" {
        ErrorWitness(validations, FilingTypeKey);
      } else if d.taxPeriod == "" {
        ErrorWitness(validations, TaxPeriodKey);
      } else if !DatesValid(d) {
        ErrorWitness(validations, DatesKey);
      } else if !RevenueValid(d.totalRevenue) {
        ErrorWitness(validations, TotalRevenueKey);
      } else if d.submitterName == "" {
        ErrorWitness(validations, SubmitterNameKey);
      } else if d.submitterRole == "" {
        ErrorWitness(validations, SubmitterRoleKey);
      } else {
        ErrorWitness(validations, DeclarationKey);
      }
    }
  }

  lemma ErrorWitness(vs: seq<FormValidation>, field: VField)
    requires HasItem(vs, field, Error)
    ensures exists i :: 0 <= i < |vs| && IsErrorItem(vs[i])
  {
    HasItemMeans(vs, field, Error);
  }

  // ---------------------------------------------------------------------
  // Editing
  // ---------------------------------------------------------------------

  datatype TextField =
    | FilingType | TaxPeriod | StartDate | EndDate | TotalRevenue | TaxableIncome
    | VatAmount | PayeAmount | CompanyTax | SubmitterName | SubmitterRole | AdditionalNotes

  /** One call of handleInputChange: the field and its new value. */
  datatype Edit = SetText(field: TextField, value: string) | SetDeclaration(accepted: bool) | SetDocuments(files: seq<string>)

  function TextKey(f: TextField): string {
    match f
    case FilingType => "filingType"
    case TaxPeriod => "taxPeriod"
    case StartDate => "startDate"
    case EndDate => "endDate"
    case TotalRevenue => "totalRevenue"
    case TaxableIncome => "taxableIncome"
    case VatAmount => "vatAmount"
    case PayeAmount => "payeAmount"
    case CompanyTax => "companyTax"
    case SubmitterName => "submitterName"
    case SubmitterRole => "submitterRole"
    case AdditionalNotes => "additionalNotes"
  }

  /** The form key an edit names. */
  function EditKey(e: Edit): string {
    match e
    case SetText(f, _) => TextKey(f)
    case SetDeclaration(_) => "declarationAccepted"
    case SetDocuments(_) => "supportingDocuments"
  }

  function GetText(d: FormData, f: TextField): string {
    match f
    case FilingType => d.filingType
    case TaxPeriod => d.taxPeriod
    case StartDate => d.startDate
    case EndDate => d.endDate
    case TotalRevenue => d.totalRevenue
    case TaxableIncome => d.taxableIncome
    case VatAmount => d.vatAmount
    case PayeAmount => d.payeAmount
    case CompanyTax => d.companyTax
    case SubmitterName => d.submitterName
    case SubmitterRole => d.submitterRole
    case AdditionalNotes => d.additionalNotes
  }

  function SetField(d: FormData, e: Edit): (r: FormData)
    ensures e.SetText? ==> GetText(r, e.field) == e.value
    ensures e.SetText? ==> forall g :: g != e.field ==> GetText(r, g) == GetText(d, g)
    ensures e.SetText? ==> r.declarationAccepted == d.declarationAccepted && r.supportingDocuments == d.supportingDocuments
    ensures e.SetDeclaration? ==> r == d.(declarationAccepted := e.accepted)
    ensures e.SetDocuments? ==> r == d.(supportingDocuments := e.files)
  {
    match e
    case SetDeclaration(b) => d.(declarationAccepted := b)
    case SetDocuments(fs) => d.(supportingDocuments := fs)
    case SetText(f, s) =>
      match f
      case FilingType => d.(filingType := s)
      case TaxPeriod => d.(taxPeriod := s)
      case StartDate => d.(startDate := s)
      case EndDate => d.(endDate := s)
      case TotalRevenue => d.(totalRevenue := s)
      case TaxableIncome => d.(taxableIncome := s)
      case VatAmount => d.(vatAmount := s)
      case PayeAmount => d.(payeAmount := s)
      case CompanyTax => d.(companyTax := s)
      case SubmitterName => d.(submitterName := s)
      case SubmitterRole => d.(submitterRole := s)
      case AdditionalNotes => d.(additionalNotes := s)
  }

  /** The form's state: the data, the shown validations and the shown progress. */
  datatype TaxFormState = TaxFormState(data: FormData, validations: seq<FormValidation>, progress: int)

  function InitialState(): TaxFormState {
    TaxFormState(InitialData(), [], 0)
  }

  function ForOtherField(key: string): FormValidation -> bool {
    (v: FormValidation) => KeyName(v.field) != key
  }

  /**
   * handleInputChange as written, with its 100 ms timer run: the field is
   * set and its validations dropped, but the timer's progress is computed
   * from the data of the render the handler belongs to, before the edit.
   */
  function HandleInputChangeAsWritten(st: TaxFormState, e: Edit): (r: TaxFormState)
    ensures r.data == SetField(st.data, e)
    ensures r.progress == Progress(FilledCount(st.data))
  {
    TaxFormState(SetField(st.data, e), Filter(st.validations, ForOtherField(EditKey(e))), Progress(FilledCount(st.data)))
  }

  /**
   * Four required fields filled, then the revenue pasted in one change
   * event: five of seven are filled, yet the shown progress is 57% and
   * submit stays disabled.
   */
  lemma StaleProgressBlocksSubmit()
    ensures var st := TaxFormState(InitialData().(filingType := "vat", taxPeriod := "monthly",
                                                   startDate := "2024-01-01", endDate := "2024-01-31"), [], 43);
      var after := HandleInputChangeAsWritten(st, SetText(TotalRevenue, "1000"));
      && FilledCount(after.data) == 5
      && after.progress == 57
      && SubmitDisabled(after.progress, false)
  {
  }

  /** handleInputChange with the progress computed from the edited data. */
  function HandleInputChange(st: TaxFormState, e: Edit): (r: TaxFormState)
    ensures r.data == SetField(st.data, e)
    ensures forall v :: v in r.validations <==> v in st.validations && KeyName(v.field) != EditKey(e)
    ensures r.progress == Progress(FilledCount(r.data))
  {
    var d := SetField(st.data, e);
    TaxFormState(d, Filter(st.validations, ForOtherField(EditKey(e))), Progress(FilledCount(d)))
  }

  /** With the progress up to date, submit is enabled (when not saving) exactly from five filled fields. */
  lemma SubmitTracksFilledFields(st: TaxFormState, e: Edit)
    ensures var r := HandleInputChange(st, e);
      !SubmitDisabled(r.progress, false) <==> FilledCount(r.data) >= 5
  {
    ProgressValues(FilledCount(HandleInputChange(st, e).data));
  }

  /** The "dates" validations stay when either date is edited, since their key names no date field. */
  lemma DateEditsKeepDateErrors(st: TaxFormState, v: string)
    ensures forall w :: w in st.validations && w.field == DatesKey ==>
      w in HandleInputChange(st, SetText(StartDate, v)).validations
      && w in HandleInputChange(st, SetText(EndDate, v)).validations
  {
  }

  /** Editing a field drops exactly its own validations, and editing it again drops nothing more. */
  lemma ClearingIsIdempotent(st: TaxFormState, e: Edit)
    ensures HandleInputChange(HandleInputChange(st, e), e).validations == HandleInputChange(st, e).validations
  {
    var r := HandleInputChange(st, e);
    forall v | v in r.validations ensures ForOtherField(EditKey(e))(v) {
    }
    FilterAll(r.validations, ForOtherField(EditKey(e)));
  }
}
