/**
 * The journal-entry form: a list of debit/credit lines with add, remove
 * and update, the two column totals, and the balance test that enables
 * Save. Amounts are exact reals.
 */
module TransactionForm {
  import opened Common

  datatype TransactionEntry = TransactionEntry(id: string, account: string, description: string, debit: real, credit: real)

  function BlankEntry(id: string): TransactionEntry {
    TransactionEntry(id, "", "", 0.0, 0.0)
  }

  /** The form opens with two blank lines. */
  function InitialEntries(): seq<TransactionEntry> {
    [BlankEntry("1"), BlankEntry("2")]
  }

  /** The sum of the debit column (the input boxes store 0 for empty or unparsable text). */
  function TotalDebits(es: seq<TransactionEntry>): real {
    if es == [] then 0.0 else TotalDebits(es[..|es| - 1]) + es[|es| - 1].debit
  }

  function TotalCredits(es: seq<TransactionEntry>): real {
    if es == [] then 0.0 else TotalCredits(es[..|es| - 1]) + es[|es| - 1].credit
  }

  /** Balanced: equal totals and a positive debit total. */
  predicate IsBalanced(es: seq<TransactionEntry>) {
    TotalDebits(es) == TotalCredits(es) && TotalDebits(es) > 0.0
  }

  /** Save is disabled exactly while the entry is unbalanced. */
  predicate SaveDisabled(es: seq<TransactionEntry>) {
    !IsBalanced(es)
  }

  /** The difference line is shown when unbalanced and the totals differ. */
  predicate ShowsDifference(es: seq<TransactionEntry>) {
    !IsBalanced(es) && TotalDebits(es) != TotalCredits(es)
  }

  function Difference(es: seq<TransactionEntry>): (r: real)
    ensures r >= 0.0
    ensures r == 0.0 <==> TotalDebits(es) == TotalCredits(es)
  {
    var d := TotalDebits(es) - TotalCredits(es);
    if d < 0.0 then -d else d
  }

  /** The difference line appears exactly when the totals differ, and then shows a positive amount. */
  lemma DifferenceShownIff(es: seq<TransactionEntry>)
    ensures ShowsDifference(es) <==> TotalDebits(es) != TotalCredits(es)
    ensures ShowsDifference(es) ==> Difference(es) > 0.0
  {
  }

  /** The blank form has zero totals, so it is not balanced and Save starts disabled. */
  lemma InitialNotBalanced()
    ensures TotalDebits(InitialEntries()) == 0.0 && TotalCredits(InitialEntries()) == 0.0
    ensures SaveDisabled(InitialEntries())
  {
    var es := InitialEntries();
    assert es[..1] == [BlankEntry("1")];
    assert [BlankEntry("1")][..0] == [];
  }

  lemma {:induction false} TotalsAppend(es: seq<TransactionEntry>, more: seq<TransactionEntry>)
    ensures TotalDebits(es + more) == TotalDebits(es) + TotalDebits(more)
    ensures TotalCredits(es + more) == TotalCredits(es) + TotalCredits(more)
    decreases |more|
  {
    if more == [] {
      assert es + more == es;
    } else {
      var init := more[..|more| - 1];
      assert (es + more)[..|es + more| - 1] == es + init;
      TotalsAppend(es, init);
    }
  }

  /** addEntry with the generated id: one blank line at the end. */
  function AddEntry(es: seq<TransactionEntry>, id: string): (r: seq<TransactionEntry>)
    ensures |r| == |es| + 1 && r[..|es|] == es && r[|es|] == BlankEntry(id)
  {
    es + [BlankEntry(id)]
  }

  /** A blank line does not change either total. */
  lemma AddEntryKeepsTotals(es: seq<TransactionEntry>, id: string)
    ensures TotalDebits(AddEntry(es, id)) == TotalDebits(es)
    ensures TotalCredits(AddEntry(es, id)) == TotalCredits(es)
  {
  }

  function HasOtherId(id: string): TransactionEntry -> bool {
    (e: TransactionEntry) => e.id != id
  }

  /** removeEntry: with more than two lines, the lines with this id go; otherwise nothing changes. */
  function RemoveEntry(es: seq<TransactionEntry>, id: string): (r: seq<TransactionEntry>)
    ensures |es| <= 2 ==> r == es
    ensures |es| > 2 ==> IsSubsequence(r, es) && forall e :: e in r <==> e in es && e.id != id
  {
    if |es| > 2 then
      FilterIsSubsequence(es, HasOtherId(id));
      Filter(es, HasOtherId(id))
    else es
  }

  function EntryIds(es: seq<TransactionEntry>): seq<string> {
    Map(es, (e: TransactionEntry) => e.id)
  }

  lemma {:induction false} FilterDropsAtMostOne(es: seq<TransactionEntry>, id: string)
    requires Distinct(EntryIds(es))
    ensures |Filter(es, HasOtherId(id))| + 1 >= |es|
  {
    if es != [] {
      var ids := EntryIds(es);
      assert EntryIds(es[1..]) == ids[1..];
      DistinctTail(ids);
      FilterDropsAtMostOne(es[1..], id);
      if es[0].id == id {
        forall e | e in es[1..] ensures HasOtherId(id)(e) {
          var j :| 0 <= j < |es[1..]| && es[1..][j] == e;
          assert ids[1..][j] == e.id;
        }
        FilterAll(es[1..], HasOtherId(id));
      }
    }
  }

  /** With distinct line ids, removing a line never leaves fewer than two. */
  lemma RemoveKeepsTwo(es: seq<TransactionEntry>, id: string)
    requires |es| >= 2 && Distinct(EntryIds(es))
    ensures |RemoveEntry(es, id)| >= 2
  {
    if |es| > 2 {
      FilterDropsAtMostOne(es, id);
    }
  }

  /** The field and value an input box or select writes. */
  datatype EntryUpdate = SetAccount(account: string) | SetDescription(text: string) | SetDebit(debit: real) | SetCredit(credit: real)

  function Apply(e: TransactionEntry, u: EntryUpdate): (r: TransactionEntry)
    ensures r.id == e.id
  {
    match u
    case SetAccount(a) => e.(account := a)
    case SetDescription(t) => e.(description := t)
    case SetDebit(d) => e.(debit := d)
    case SetCredit(c) => e.(credit := c)
  }

  function UpdateIf(id: string, u: EntryUpdate): TransactionEntry -> TransactionEntry {
    (e: TransactionEntry) => if e.id == id then Apply(e, u) else e
  }

  /** updateEntry: the lines with this id get the new field value, every other line stays. */
  function UpdateEntry(es: seq<TransactionEntry>, id: string, u: EntryUpdate): (r: seq<TransactionEntry>)
    ensures |r| == |es| && EntryIds(r) == EntryIds(es)
    ensures forall i :: 0 <= i < |es| && es[i].id != id ==> r[i] == es[i]
    ensures forall i :: 0 <= i < |es| && es[i].id == id ==> r[i] == Apply(es[i], u)
  {
    Map(es, UpdateIf(id, u))
  }

  /** Only the named field of the line changes: an update of one column leaves the other columns as they were. */
  lemma ApplyChangesOneField(e: TransactionEntry, u: EntryUpdate)
    ensures !u.SetAccount? ==> Apply(e, u).account == e.account
    ensures !u.SetDescription? ==> Apply(e, u).description == e.description
    ensures !u.SetDebit? ==> Apply(e, u).debit == e.debit
    ensures !u.SetCredit? ==> Apply(e, u).credit == e.credit
  {
  }

  /** Setting the debit of line i (ids distinct) moves the debit total by the change and leaves credits alone. */
  lemma {:induction false} UpdateDebitTotals(es: seq<TransactionEntry>, i: nat, d: real)
    requires i < |es| && Distinct(EntryIds(es))
    ensures TotalDebits(UpdateEntry(es, es[i].id, SetDebit(d))) == TotalDebits(es) - es[i].debit + d
    ensures TotalCredits(UpdateEntry(es, es[i].id, SetDebit(d))) == TotalCredits(es)
    decreases |es|
  {
    var u := SetDebit(d);
    var id := es[i].id;
    var r := UpdateEntry(es, id, u);
    var n := |es| - 1;
    var ids := EntryIds(es);
    assert es == es[..n] + [es[n]];
    assert r == r[..n] + [r[n]];
    assert r[..n] == UpdateEntry(es[..n], id, u);
    TotalsAppend(es[..n], [es[n]]);
    TotalsAppend(r[..n], [r[n]]);
    assert TotalDebits([es[n]]) == es[n].debit by {
      assert [es[n]][..0] == [];
    }
    assert TotalDebits([r[n]]) == r[n].debit by {
      assert [r[n]][..0] == [];
    }
    assert TotalCredits([es[n]]) == es[n].credit by {
      assert [es[n]][..0] == [];
    }
    assert TotalCredits([r[n]]) == r[n].credit by {
      assert [r[n]][..0] == [];
    }
    if i == n {
      forall j | 0 <= j < n ensures es[j].id != id {
        assert ids[j] == es[j].id && ids[n] == id;
      }
      UpdateAbsent(es[..n], id, u);
    } else {
      assert ids[n] == es[n].id && ids[i] == id;
      assert EntryIds(es[..n]) == ids[..n];
      UpdateDebitTotals(es[..n], i, d);
    }
  }

  /** An update for an id not in the list changes nothing. */
  lemma UpdateAbsent(es: seq<TransactionEntry>, id: string, u: EntryUpdate)
    requires forall j :: 0 <= j < |es| ==> es[j].id != id
    ensures UpdateEntry(es, id, u) == es
  {
  }
}
