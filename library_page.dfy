/** The library page: the list of generated documents, its case-insensitive
    search filter, deletion by id, and the loading flag the fetch clears. */
module LibraryPage {
  import opened Options
  import opened Strings
  import opened Seqs

  /** A stored document; the description column may be null. */
  datatype GeneratedDoc = GeneratedDoc(id: string, topic: string, description: Option<string>, createdAt: string)

  /** The outcome of a store call: rows (possibly `null`) or an error. */
  datatype FetchReply = FetchError | FetchOk(data: Option<seq<GeneratedDoc>>)

  /** A toast the page raises. */
  datatype Toast = LoadFailed | Deleted | DeleteFailed

  const NoMatchHeading := "No matching documentation"
  const EmptyLibraryHeading := "No documentation yet"

  /** The filter test for a lower-cased query: the lower-cased topic or
      description contains it; a missing description does not match. */
  predicate DocMatches(lowerQuery: string, d: GeneratedDoc) {
    || Contains(ToLower(d.topic), lowerQuery)
    || (d.description.Some? && Contains(ToLower(d.description.value), lowerQuery))
  }

  function DocMatcher(lowerQuery: string): GeneratedDoc -> bool {
    d => DocMatches(lowerQuery, d)
  }

  /** The documents the search effect keeps for `query`. */
  function Filtered(docs: seq<GeneratedDoc>, query: string): seq<GeneratedDoc> {
    Filter(docs, DocMatcher(ToLower(query)))
  }

  /** The filtered list is the order-preserving subsequence of the matching
      documents. */
  lemma FilteredDocs(docs: seq<GeneratedDoc>, query: string, d: GeneratedDoc)
    ensures IsSubsequence(Filtered(docs, query), docs)
    ensures d in Filtered(docs, query) <==> d in docs && DocMatches(ToLower(query), d)
  {
    FilterIsSubsequence(docs, DocMatcher(ToLower(query)));
    FilterMembership(docs, DocMatcher(ToLower(query)), d);
  }

  /** The empty query keeps every document. */
  lemma EmptyQueryKeepsAll(docs: seq<GeneratedDoc>)
    ensures Filtered(docs, "") == docs
  {
    forall i | 0 <= i < |docs|
      ensures DocMatcher("")(docs[i])
    {
      ContainsEmpty(ToLower(docs[i].topic));
    }
    FilterAllPass(docs, DocMatcher(""));
  }

  /** Filtering ignores the case of the query. */
  lemma QueryCaseIgnored(docs: seq<GeneratedDoc>, query: string)
    ensures Filtered(docs, ToLower(query)) == Filtered(docs, query)
  {
    ToLowerIdempotent(query);
  }

  /** `prev.filter(doc => doc.id !== id)` */
  function WithoutId(docs: seq<GeneratedDoc>, id: string): seq<GeneratedDoc> {
    Filter(docs, (d: GeneratedDoc) => d.id != id)
  }

  /** Deleting removes exactly the documents with that id, every copy of
      them, and keeps the rest in order. */
  lemma WithoutIdRemovesExactly(docs: seq<GeneratedDoc>, id: string, d: GeneratedDoc)
    ensures d in WithoutId(docs, id) <==> d in docs && d.id != id
    ensures d.id != id ==> multiset(WithoutId(docs, id))[d] == multiset(docs)[d]
    ensures d.id == id ==> multiset(WithoutId(docs, id))[d] == 0
    ensures IsSubsequence(WithoutId(docs, id), docs)
  {
    var p := (x: GeneratedDoc) => x.id != id;
    FilterMembership(docs, p, d);
    FilterCounts(docs, p, d);
    FilterIsSubsequence(docs, p);
  }

  /** Deleting an id no document carries changes nothing. */
  lemma WithoutAbsentId(docs: seq<GeneratedDoc>, id: string)
    requires forall i :: 0 <= i < |docs| ==> docs[i].id != id
    ensures WithoutId(docs, id) == docs
  {
    FilterAllPass(docs, (d: GeneratedDoc) => d.id != id);
  }

  /** The page state. `filteredDocs` is written by the fetch and by the
      search effect, which runs again whenever `docs` or `searchQuery`
      changes; the methods below end with that effect. */
  class Library {
    var docs: seq<GeneratedDoc>
    var filteredDocs: seq<GeneratedDoc>
    var isLoading: bool
    var searchQuery: string
    var toasts: seq<Toast>

    /** Once the effect has run, the shown list is the filter of `docs`. */
    predicate Settled()
      reads this
    {
      filteredDocs == Filtered(docs, searchQuery)
    }

    constructor()
      ensures Settled()
      ensures docs == [] && filteredDocs == [] && isLoading && searchQuery == "" && toasts == []
    {
      docs := [];
      filteredDocs := [];
      isLoading := true;
      searchQuery := "";
      toasts := [];
    }

    /** The search effect. */
    method Refilter()
      modifies this
      ensures Settled()
      ensures docs == old(docs) && searchQuery == old(searchQuery)
      ensures isLoading == old(isLoading) && toasts == old(toasts)
    {
      filteredDocs := Filtered(docs, searchQuery);
    }

    /** `fetchDocs`: the rows, `null` read as none, replace both lists; an
        error raises a toast and keeps the lists; either way loading ends. */
    method FetchDocs(reply: FetchReply)
      requires Settled()
      modifies this
      ensures Settled() && !isLoading && searchQuery == old(searchQuery)
      ensures reply.FetchOk? ==> docs == reply.data.GetOr([]) && toasts == old(toasts)
      ensures reply.FetchError? ==> docs == old(docs) && filteredDocs == old(filteredDocs) && toasts == old(toasts) + [LoadFailed]
    {
      if reply.FetchError? {
        toasts := toasts + [LoadFailed];
      } else {
        docs := reply.data.GetOr([]);
        filteredDocs := reply.data.GetOr([]);
      }
      isLoading := false;
      if reply.FetchOk? {
        Refilter();
      }
    }

    /** Typing in the search box. */
    method SetQuery(q: string)
      modifies this
      ensures Settled() && searchQuery == q
      ensures docs == old(docs) && isLoading == old(isLoading) && toasts == old(toasts)
    {
      searchQuery := q;
      Refilter();
    }

    /** `handleDelete`: after the store deletes the row, the documents with
        that id leave the list; a failed delete keeps it. */
    method HandleDelete(id: string, deleteOk: bool)
      requires Settled()
      modifies this
      ensures Settled() && searchQuery == old(searchQuery) && isLoading == old(isLoading)
      ensures deleteOk ==> docs == WithoutId(old(docs), id) && toasts == old(toasts) + [Deleted]
      ensures !deleteOk ==> docs == old(docs) && filteredDocs == old(filteredDocs) && toasts == old(toasts) + [DeleteFailed]
    {
      if !deleteOk {
        toasts := toasts + [DeleteFailed];
        return;
      }
      docs := WithoutId(docs, id);
      toasts := toasts + [Deleted];
      Refilter();
    }

    /** The empty-state heading, shown once loading is over and nothing is
        listed. */
    function EmptyHeading(): (r: Option<string>)
      reads this
      ensures r.Some? <==> !isLoading && filteredDocs == []
      ensures r.Some? ==> (r.value == NoMatchHeading <==> searchQuery != "")
    {
      if isLoading || filteredDocs != [] then None
      else if searchQuery != "" then Some(NoMatchHeading)
      else Some(EmptyLibraryHeading)
    }
  }

  /** With a settled list, an empty query and a non-empty library, the
      empty state is not shown. */
  lemma NoEmptyStateWithoutQuery(l: Library)
    requires l.Settled() && l.searchQuery == "" && !l.isLoading && l.docs != []
    ensures l.EmptyHeading().None?
  {
    EmptyQueryKeepsAll(l.docs);
  }
}
