/**
 * The salary part of the employee form: the list of salary components
 * (allowances and deductions, each a fixed amount or a percentage of the
 * basic salary) with add, update and remove, and the net-salary breakdown.
 * Amounts are exact reals.
 */
module EmployeeForm {
  import opened Common
  import opened JsNumbers

  datatype ComponentType = Allowance | Deduction

  datatype SalaryComponent = SalaryComponent(
    id: string,
    name: string,
    kind: ComponentType,
    amount: real,
    isPercentage: bool,
    isFixed: bool)

  /** The four components the form starts with. */
  function InitialComponents(): seq<SalaryComponent> {
    [ SalaryComponent("1", "Housing Allowance", Allowance, 25.0, true, false),
      SalaryComponent("2", "Transport Allowance", Allowance, 15000.0, false, true),
      SalaryComponent("3", "PAYE Tax", Deduction, 15.0, true, false),
      SalaryComponent("4", "Pension", Deduction, 8.0, true, false) ]
  }

  // ---------------------------------------------------------------------
  // The breakdown
  // ---------------------------------------------------------------------

  /** What one component adds or takes: a percentage of basic, or its own amount. */
  function Contribution(c: SalaryComponent, basic: real): real {
    if c.isPercentage then basic * c.amount / 100.0 else c.amount
  }

  function Allowances(cs: seq<SalaryComponent>, basic: real): real {
    if cs == [] then 0.0 else Allowances(cs[..|cs| - 1], basic) + AllowancePart(cs[|cs| - 1], basic)
  }

  function AllowancePart(c: SalaryComponent, basic: real): real {
    if c.kind == Allowance then Contribution(c, basic) else 0.0
  }

  function DeductionPart(c: SalaryComponent, basic: real): real {
    if c.kind == Deduction then Contribution(c, basic) else 0.0
  }

  lemma SumsOfOne(c: SalaryComponent, basic: real)
    ensures Allowances([c], basic) == AllowancePart(c, basic)
    ensures Deductions([c], basic) == DeductionPart(c, basic)
  {
    assert [c][..0] == [];
  }

  function Deductions(cs: seq<SalaryComponent>, basic: real): real {
    if cs == [] then 0.0 else Deductions(cs[..|cs| - 1], basic) + DeductionPart(cs[|cs| - 1], basic)
  }

  /** The sum of every component's contribution, whichever its type. */
  function AllContributions(cs: seq<SalaryComponent>, basic: real): real {
    if cs == [] then 0.0 else AllContributions(cs[..|cs| - 1], basic) + Contribution(cs[|cs| - 1], basic)
  }

  datatype SalaryBreakdown = SalaryBreakdown(basic: real, allowances: real, deductions: real, net: real)

  /**
   * calculateNetSalary: basic is `parseFloat(basicSalary) || 0`; each
   * component goes to the allowances or to the deductions by its type.
   */
  method CalculateNetSalary(basicSalary: string, cs: seq<SalaryComponent>) returns (b: SalaryBreakdown)
    ensures b.basic == ParseFloatOrZero(basicSalary)
    ensures b.allowances == Allowances(cs, b.basic)
    ensures b.deductions == Deductions(cs, b.basic)
    ensures b.net == b.basic + b.allowances - b.deductions
  {
    var basic := ParseFloatOrZero(basicSalary);
    var totalAllowances, totalDeductions := SumComponents(cs, basic);
    b := SalaryBreakdown(basic, totalAllowances, totalDeductions, basic + totalAllowances - totalDeductions);
  }

  /** The forEach over the components of calculateNetSalary. */
  method SumComponents(cs: seq<SalaryComponent>, basic: real) returns (totalAllowances: real, totalDeductions: real)
    ensures totalAllowances == Allowances(cs, basic)
    ensures totalDeductions == Deductions(cs, basic)
  {
    totalAllowances := 0.0;
    totalDeductions := 0.0;
    for i := 0 to |cs|
      invariant totalAllowances == Allowances(cs[..i], basic)
      invariant totalDeductions == Deductions(cs[..i], basic)
    {
      assert cs[..i + 1][..i] == cs[..i];
      var c := cs[i];
      var amount := if c.isPercentage then (basic * c.amount) / 100.0 else c.amount;
      if c.kind == Allowance {
        totalAllowances := totalAllowances + amount;
      } else {
        totalDeductions := totalDeductions + amount;
      }
    }
    assert cs[..|cs|] == cs;
  }

  /** Every component is counted once, as an allowance or as a deduction. */
  lemma {:induction false} CountedOnce(cs: seq<SalaryComponent>, basic: real)
    ensures Allowances(cs, basic) + Deductions(cs, basic) == AllContributions(cs, basic)
    decreases |cs|
  {
    if cs != [] {
      CountedOnce(cs[..|cs| - 1], basic);
    }
  }

  lemma {:induction false} SumsAppend(cs: seq<SalaryComponent>, more: seq<SalaryComponent>, basic: real)
    ensures Allowances(cs + more, basic) == Allowances(cs, basic) + Allowances(more, basic)
    ensures Deductions(cs + more, basic) == Deductions(cs, basic) + Deductions(more, basic)
    decreases |more|
  {
    if more == [] {
      assert cs + more == cs;
    } else {
      var init := more[..|more| - 1];
      assert (cs + more)[..|cs + more| - 1] == cs + init;
      SumsAppend(cs, init, basic);
    }
  }

  /** With a basic of 0 (an empty or non-numeric basic salary) percentage components contribute nothing. */
  lemma {:induction false} ZeroBasicKeepsFixedOnly(cs: seq<SalaryComponent>)
    ensures Allowances(cs, 0.0) == Allowances(Filter(cs, IsFixedAmount()), 0.0)
    ensures Deductions(cs, 0.0) == Deductions(Filter(cs, IsFixedAmount()), 0.0)
    decreases |cs|
  {
    if cs != [] {
      var init := cs[..|cs| - 1];
      var last := cs[|cs| - 1];
      var kept := Filter([last], IsFixedAmount());
      assert cs == init + [last];
      FilterAppend(init, [last], IsFixedAmount());
      ZeroBasicKeepsFixedOnly(init);
      SumsAppend(Filter(init, IsFixedAmount()), kept, 0.0);
      LastAtZeroBasic(last);
    }
  }

  lemma LastAtZeroBasic(c: SalaryComponent)
    ensures Allowances(Filter([c], IsFixedAmount()), 0.0) == AllowancePart(c, 0.0)
    ensures Deductions(Filter([c], IsFixedAmount()), 0.0) == DeductionPart(c, 0.0)
  {
    assert [c][1..] == [];
    if c.isPercentage {
      assert Filter([c], IsFixedAmount()) == [];
    } else {
      assert Filter([c], IsFixedAmount()) == [c];
      SumsOfOne(c, 0.0);
    }
  }

  function IsFixedAmount(): SalaryComponent -> bool {
    (c: SalaryComponent) => !c.isPercentage
  }

  /** An empty or non-numeric basic salary counts as 0. */
  lemma NonNumericBasicIsZero(basicSalary: string)
    requires ParseFloat(basicSalary).None?
    ensures ParseFloatOrZero(basicSalary) == 0.0
  {
  }

  /** The starting components: 25% housing and 15000 transport, against 15% PAYE and 8% pension. */
  lemma InitialBreakdown(basic: real)
    ensures Allowances(InitialComponents(), basic) == basic / 4.0 + 15000.0
    ensures Deductions(InitialComponents(), basic) == basic * 23.0 / 100.0
  {
    var cs := InitialComponents();
    assert cs == [cs[0]] + [cs[1]] + [cs[2]] + [cs[3]];
    SumsOfOne(cs[0], basic);
    SumsOfOne(cs[1], basic);
    SumsOfOne(cs[2], basic);
    SumsOfOne(cs[3], basic);
    SumsAppend([cs[0]], [cs[1]], basic);
    SumsAppend([cs[0]] + [cs[1]], [cs[2]], basic);
    SumsAppend([cs[0]] + [cs[1]] + [cs[2]], [cs[3]], basic);
  }

  // ---------------------------------------------------------------------
  // Editing the list
  // ---------------------------------------------------------------------

  /** addSalaryComponent: a fixed, zero-amount allowance at the end. */
  function AddSalaryComponent(cs: seq<SalaryComponent>, id: string): (r: seq<SalaryComponent>)
    ensures |r| == |cs| + 1 && r[..|cs|] == cs
    ensures r[|cs|] == SalaryComponent(id, "", Allowance, 0.0, false, true)
  {
    cs + [SalaryComponent(id, "", Allowance, 0.0, false, true)]
  }

  /** The new component leaves the breakdown as it was, whatever the basic. */
  lemma AddKeepsBreakdown(cs: seq<SalaryComponent>, id: string, basic: real)
    ensures Allowances(AddSalaryComponent(cs, id), basic) == Allowances(cs, basic)
    ensures Deductions(AddSalaryComponent(cs, id), basic) == Deductions(cs, basic)
  {
    assert AddSalaryComponent(cs, id)[..|cs|] == cs;
  }

  /** The field updateSalaryComponent sets, with its value. */
  datatype ComponentUpdate = SetName(name: string) | SetType(kind: ComponentType) | SetAmount(amount: real) | SetPercentage(isPercentage: bool)

  function Apply(c: SalaryComponent, u: ComponentUpdate): (r: SalaryComponent)
    ensures r.id == c.id && r.isFixed == c.isFixed
    ensures !u.SetName? ==> r.name == c.name
    ensures !u.SetType? ==> r.kind == c.kind
    ensures !u.SetAmount? ==> r.amount == c.amount
    ensures !u.SetPercentage? ==> r.isPercentage == c.isPercentage
  {
    match u
    case SetName(n) => c.(name := n)
    case SetType(k) => c.(kind := k)
    case SetAmount(a) => c.(amount := a)
    case SetPercentage(p) => c.(isPercentage := p)
  }

  function UpdateIf(id: string, u: ComponentUpdate): SalaryComponent -> SalaryComponent {
    (c: SalaryComponent) => if c.id == id then Apply(c, u) else c
  }

  /** updateSalaryComponent: the components with this id get the new value; the others stay. */
  function UpdateSalaryComponent(cs: seq<SalaryComponent>, id: string, u: ComponentUpdate): (r: seq<SalaryComponent>)
    ensures |r| == |cs|
    ensures forall i :: 0 <= i < |cs| && cs[i].id != id ==> r[i] == cs[i]
    ensures forall i :: 0 <= i < |cs| && cs[i].id == id ==> r[i] == Apply(cs[i], u)
  {
    Map(cs, UpdateIf(id, u))
  }

  function HasOtherId(id: string): SalaryComponent -> bool {
    (c: SalaryComponent) => c.id != id
  }

  /** removeSalaryComponent: the components with this id go; the others stay in order. */
  function RemoveSalaryComponent(cs: seq<SalaryComponent>, id: string): (r: seq<SalaryComponent>)
    ensures forall c :: c in r <==> c in cs && c.id != id
    ensures IsSubsequence(r, cs)
  {
    FilterIsSubsequence(cs, HasOtherId(id));
    Filter(cs, HasOtherId(id))
  }

  /** Removing the component just added gives back the list and its breakdown. */
  lemma RemoveAfterAdd(cs: seq<SalaryComponent>, id: string)
    requires forall i :: 0 <= i < |cs| ==> cs[i].id != id
    ensures RemoveSalaryComponent(AddSalaryComponent(cs, id), id) == cs
  {
    var added := SalaryComponent(id, "", Allowance, 0.0, false, true);
    FilterAppend(cs, [added], HasOtherId(id));
    FilterAll(cs, HasOtherId(id));
    assert [added][1..] == [];
  }
}
