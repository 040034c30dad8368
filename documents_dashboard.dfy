/**
 * The document library: the filter behind the search box and the category
 * and status selects, and the list of the approvals tab.
 */
module DocumentsDashboard {
  import opened Common

  datatype Document = Document(id: nat, name: string, category: string, status: string, tags: seq<string>)

  /** The name, or any tag, includes the search text, ignoring case. */
  predicate MatchesSearch(d: Document, searchTerm: string) {
    ContainsIgnoreCase(d.name, searchTerm)
    || exists i :: 0 <= i < |d.tags| && ContainsIgnoreCase(d.tags[i], searchTerm)
  }

  predicate MatchesCategory(d: Document, selectedCategory: string) {
    selectedCategory == "all" || d.category == selectedCategory
  }

  predicate MatchesStatus(d: Document, selectedStatus: string) {
    selectedStatus == "all" || d.status == selectedStatus
  }

  function Passes(searchTerm: string, selectedCategory: string, selectedStatus: string): Document -> bool {
    (d: Document) =>
      MatchesSearch(d, searchTerm) && MatchesCategory(d, selectedCategory) && MatchesStatus(d, selectedStatus)
  }

  /** filteredDocuments: the documents passing all three tests, in their order. */
  function FilteredDocuments(docs: seq<Document>, searchTerm: string, selectedCategory: string, selectedStatus: string)
    : (r: seq<Document>)
    ensures IsSubsequence(r, docs)
    ensures forall d :: d in r <==>
      (d in docs && MatchesSearch(d, searchTerm)
       && MatchesCategory(d, selectedCategory) && MatchesStatus(d, selectedStatus))
  {
    FilterIsSubsequence(docs, Passes(searchTerm, selectedCategory, selectedStatus));
    Filter(docs, Passes(searchTerm, selectedCategory, selectedStatus))
  }

  /** With the initial empty search and "all" in both selects, every document is listed, in order. */
  lemma InitialFilterShowsAll(docs: seq<Document>)
    ensures FilteredDocuments(docs, "", "all", "all") == docs
  {
    forall d | d in docs ensures Passes("", "all", "all")(d) {
      ContainsIgnoreCaseEmpty(d.name);
    }
    FilterAll(docs, Passes("", "all", "all"));
  }

  /** A tag match is enough: a document is found by any of its tags even when its name does not match. */
  lemma FoundByTag(d: Document, i: nat, searchTerm: string)
    requires i < |d.tags| && ContainsIgnoreCase(d.tags[i], searchTerm)
    ensures Passes(searchTerm, "all", "all")(d)
  {
  }

  function IsPending(): Document -> bool {
    (d: Document) => d.status == "pending"
  }

  /** The approvals tab: the pending documents, whatever the filters. */
  function PendingApprovals(docs: seq<Document>): (r: seq<Document>)
    ensures IsSubsequence(r, docs)
    ensures forall d :: d in r <==> d in docs && d.status == "pending"
  {
    FilterIsSubsequence(docs, IsPending());
    Filter(docs, IsPending())
  }

  /** The approvals tab lists what the main list shows with an empty search and the status set to "pending". */
  lemma {:induction false} PendingIsStatusFilter(docs: seq<Document>)
    ensures PendingApprovals(docs) == FilteredDocuments(docs, "", "all", "pending")
  {
    if docs != [] {
      ContainsIgnoreCaseEmpty(docs[0].name);
      PendingIsStatusFilter(docs[1..]);
    }
  }
}
