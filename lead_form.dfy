/**
 * The lead form: its list of contacts (add, update one by index, remove
 * one by index while more than one is left) and the colour and label it
 * shows for the lead score.
 */
module LeadForm {

  datatype ContactInfo = ContactInfo(name: string, title: string, email: string, phone: string, isPrimary: bool)

  function EmptyContact(isPrimary: bool): ContactInfo {
    ContactInfo("", "", "", "", isPrimary)
  }

  /** The form starts with one empty primary contact. */
  function InitialContacts(): (r: seq<ContactInfo>)
    ensures |r| == 1 && r[0].isPrimary
  {
    [EmptyContact(true)]
  }

  // ---------------------------------------------------------------------
  // Contacts
  // ---------------------------------------------------------------------

  /** addContact: one empty, non-primary contact at the end. */
  function AddContact(cs: seq<ContactInfo>): (r: seq<ContactInfo>)
    ensures |r| == |cs| + 1 && r[..|cs|] == cs && r[|cs|] == EmptyContact(false)
  {
    cs + [EmptyContact(false)]
  }

  /** The field updateContact sets, with its value. */
  datatype ContactUpdate = SetName(name: string) | SetTitle(title: string) | SetEmail(email: string) | SetPhone(phone: string) | SetPrimary(isPrimary: bool)

  function Apply(c: ContactInfo, u: ContactUpdate): (r: ContactInfo)
    ensures !u.SetName? ==> r.name == c.name
    ensures !u.SetTitle? ==> r.title == c.title
    ensures !u.SetEmail? ==> r.email == c.email
    ensures !u.SetPhone? ==> r.phone == c.phone
    ensures !u.SetPrimary? ==> r.isPrimary == c.isPrimary
  {
    match u
    case SetName(v) => c.(name := v)
    case SetTitle(v) => c.(title := v)
    case SetEmail(v) => c.(email := v)
    case SetPhone(v) => c.(phone := v)
    case SetPrimary(v) => c.(isPrimary := v)
  }

  /** updateContact: the contact at `index` gets the new value; every other one stays, primaries included. */
  function UpdateContact(cs: seq<ContactInfo>, index: int, u: ContactUpdate): (r: seq<ContactInfo>)
    ensures |r| == |cs|
    ensures forall j :: 0 <= j < |cs| && j != index ==> r[j] == cs[j]
    ensures 0 <= index < |cs| ==> r[index] == Apply(cs[index], u)
  {
    if 0 <= index < |cs| then cs[index := Apply(cs[index], u)] else cs
  }

  /** removeContact: with more than one contact the one at `index` goes; with one, nothing changes. */
  function RemoveContact(cs: seq<ContactInfo>, index: int): (r: seq<ContactInfo>)
    ensures |cs| <= 1 ==> r == cs
    ensures |cs| > 1 && 0 <= index < |cs| ==>
      |r| == |cs| - 1
      && (forall j :: 0 <= j < index ==> r[j] == cs[j])
      && (forall j :: index <= j < |r| ==> r[j] == cs[j + 1])
    ensures |cs| > 1 && !(0 <= index < |cs|) ==> r == cs
  {
    if |cs| > 1 && 0 <= index < |cs| then cs[..index] + cs[index + 1..] else cs
  }

  /** What the contact card buttons and inputs do. */
  datatype ContactAction = Add | Remove(index: int) | Update(index: int, u: ContactUpdate)

  function Step(cs: seq<ContactInfo>, a: ContactAction): seq<ContactInfo> {
    match a
    case Add => AddContact(cs)
    case Remove(i) => RemoveContact(cs, i)
    case Update(i, u) => UpdateContact(cs, i, u)
  }

  function Run(cs: seq<ContactInfo>, actions: seq<ContactAction>): seq<ContactInfo>
    decreases |actions|
  {
    if actions == [] then cs else Run(Step(cs, actions[0]), actions[1..])
  }

  /** One step never takes the list below one contact, and changes its length by at most one. */
  lemma StepKeepsOne(cs: seq<ContactInfo>, a: ContactAction)
    requires |cs| >= 1
    ensures |Step(cs, a)| >= 1
    ensures |cs| - 1 <= |Step(cs, a)| <= |cs| + 1
  {
  }

  /** However the form is used, there is always at least one contact card. */
  lemma {:induction false} RunKeepsOne(cs: seq<ContactInfo>, actions: seq<ContactAction>)
    requires |cs| >= 1
    ensures |Run(cs, actions)| >= 1
    decreases |actions|
  {
    if actions != [] {
      StepKeepsOne(cs, actions[0]);
      RunKeepsOne(Step(cs, actions[0]), actions[1..]);
    }
  }

  lemma FromInitialKeepsOne(actions: seq<ContactAction>)
    ensures |Run(InitialContacts(), actions)| >= 1
  {
    RunKeepsOne(InitialContacts(), actions);
  }

  function PrimaryCount(cs: seq<ContactInfo>): nat {
    if cs == [] then 0 else PrimaryCount(cs[..|cs| - 1]) + (if cs[|cs| - 1].isPrimary then 1 else 0)
  }

  lemma {:induction false} PrimaryCountUpdate(cs: seq<ContactInfo>, index: int, v: bool)
    requires 0 <= index < |cs|
    ensures PrimaryCount(UpdateContact(cs, index, SetPrimary(v)))
      == PrimaryCount(cs) - (if cs[index].isPrimary then 1 else 0) + (if v then 1 else 0)
    decreases |cs|
  {
    var r := UpdateContact(cs, index, SetPrimary(v));
    var n := |cs| - 1;
    if index < n {
      assert r[..n] == UpdateContact(cs[..n], index, SetPrimary(v));
      PrimaryCountUpdate(cs[..n], index, v);
    } else {
      assert r[..n] == cs[..n];
    }
  }

  /** Switching a second contact to primary keeps the first one primary: the form allows several primaries. */
  lemma SecondPrimaryKeepsFirst(cs: seq<ContactInfo>, index: int)
    requires 0 <= index < |cs| && !cs[index].isPrimary
    ensures PrimaryCount(UpdateContact(cs, index, SetPrimary(true))) == PrimaryCount(cs) + 1
  {
    PrimaryCountUpdate(cs, index, true);
  }

  // ---------------------------------------------------------------------
  // Lead score
  // ---------------------------------------------------------------------

  datatype ScoreBand = Hot | Warm | Cold | New

  /** The score band that both the badge colour and its label are drawn from. */
  function Band(score: int): (b: ScoreBand)
    ensures b == Hot <==> score >= 80
    ensures b == Warm <==> 60 <= score < 80
    ensures b == Cold <==> 40 <= score < 60
    ensures b == New <==> score < 40
  {
    if score >= 80 then Hot else if score >= 60 then Warm else if score >= 40 then Cold else New
  }

  function BandColor(b: ScoreBand): string {
    match b
    case Hot => "text-green-600 bg-green-100"
    case Warm => "text-amber-600 bg-amber-100"
    case Cold => "text-blue-600 bg-blue-100"
    case New => "text-gray-600 bg-gray-100"
  }

  function BandLabel(b: ScoreBand): string {
    match b
    case Hot => "Hot"
    case Warm => "Warm"
    case Cold => "Cold"
    case New => "New"
  }

  function Rank(b: ScoreBand): nat {
    match b
    case New => 0
    case Cold => 1
    case Warm => 2
    case Hot => 3
  }

  /** getLeadScoreColor. */
  function LeadScoreColor(score: int): (r: string)
    ensures r == "text-green-600 bg-green-100" <==> score >= 80
    ensures r == "text-amber-600 bg-amber-100" <==> 60 <= score < 80
    ensures r == "text-blue-600 bg-blue-100" <==> 40 <= score < 60
    ensures r == "text-gray-600 bg-gray-100" <==> score < 40
  {
    BandColor(Band(score))
  }

  /** The label on the score badge. */
  function LeadScoreLabel(score: int): (r: string)
    ensures r == "Hot" <==> score >= 80
    ensures r == "Warm" <==> 60 <= score < 80
    ensures r == "Cold" <==> 40 <= score < 60
    ensures r == "New" <==> score < 40
  {
    BandLabel(Band(score))
  }

  /** The colour and the label always name the same band: one determines the other. */
  lemma ColorAndLabelAgree(s: int, t: int)
    ensures LeadScoreColor(s) == LeadScoreColor(t) <==> LeadScoreLabel(s) == LeadScoreLabel(t)
  {
  }

  /** A higher score never shows a lower band. */
  lemma BandMonotone(s: int, t: int)
    requires s <= t
    ensures Rank(Band(s)) <= Rank(Band(t))
  {
  }
}
