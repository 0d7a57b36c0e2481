/** A project's documents page: the search and type filter over the documents, the count of documents
    per type behind the filter badges, the empty-state texts, and the list's loading state. */
module DocumentsList {
  import opened JsText
  import opened Lists
  import opened Types

  /** The type filter: every type, or one type. */
  datatype TypeFilter = All | OfType(kind: DocumentType)

  /** `matchesSearch && matchesType`: the lowercased title includes the lowercased query, and the
      filter is `'all'` or the document's type. */
  predicate Matches(doc: Document, query: string, filter: TypeFilter) {
    Includes(ToLower(doc.title), ToLower(query)) && (filter.All? || doc.kind == filter.kind)
  }

  function MatchesFor(query: string, filter: TypeFilter): Document -> bool {
    (doc: Document) => Matches(doc, query, filter)
  }

  /** `filteredDocuments`: exactly the matching documents, in the list's order. */
  function FilteredDocuments(documents: seq<Document>, query: string, filter: TypeFilter): (r: seq<Document>)
    ensures IsSubsequence(r, documents)
    ensures forall d :: d in r <==> d in documents && Matches(d, query, filter)
  {
    FilterIsSubsequence(documents, MatchesFor(query, filter));
    Filter(documents, MatchesFor(query, filter))
  }

  /** With an empty search and the `'all'` filter every document is shown. */
  lemma EmptySearchShowsAll(documents: seq<Document>)
    ensures FilteredDocuments(documents, "", All) == documents
  {
    forall d | d in documents
      ensures MatchesFor("", All)(d)
    {
      assert ToLower("") == "";
      IncludesEmpty(ToLower(d.title));
    }
    FilterKeepsAll(documents, MatchesFor("", All));
  }

  /** Choosing one type shows only documents of that type. */
  lemma TypeFilterShowsOnlyThatType(documents: seq<Document>, query: string, kind: DocumentType)
    ensures forall d :: d in FilteredDocuments(documents, query, OfType(kind)) ==> d.kind == kind
    ensures |FilteredDocuments(documents, query, OfType(kind))| <= |FilteredDocuments(documents, query, All)|
  {
    SubFilterNoLonger(documents, MatchesFor(query, OfType(kind)), MatchesFor(query, All));
  }

  /** `doc => doc.type === t` */
  function KindIs(t: DocumentType): Document -> bool {
    (d: Document) => d.kind == t
  }

  /** `typeCounts[t] || 0`: a type absent from the tally counts 0. */
  function CountIn(counts: map<DocumentType, nat>, t: DocumentType): (r: nat)
    ensures t !in counts ==> r == 0
    ensures t in counts ==> r == counts[t]
  {
    if t in counts then counts[t] else 0
  }

  /** `typeCounts`: the `reduce` that adds one to its document's type for each document. Every type
      ends up with the number of documents of that type, and only types that occur are keys. */
  method TypeCounts(documents: seq<Document>) returns (counts: map<DocumentType, nat>)
    ensures forall t :: CountIn(counts, t) == Count(documents, KindIs(t))
    ensures forall t :: t in counts ==> counts[t] > 0
  {
    counts := map[];
    var i := 0;
    while i < |documents|
      invariant 0 <= i <= |documents|
      invariant forall t :: CountIn(counts, t) == Count(documents[..i], KindIs(t))
      invariant forall t :: t in counts ==> counts[t] > 0
    {
      var doc := documents[i];
      counts := counts[doc.kind := CountIn(counts, doc.kind) + 1];
      assert documents[..i + 1] == documents[..i] + [doc];
      forall t
        ensures Count(documents[..i + 1], KindIs(t)) == Count(documents[..i], KindIs(t)) + (if doc.kind == t then 1 else 0)
      {
        CountAppend(documents[..i], doc, KindIs(t));
      }
      i := i + 1;
    }
    assert documents[..|documents|] == documents;
  }

  /** The five per-type counts add up to the number of documents. */
  lemma {:induction false} TypeCountsSum(documents: seq<Document>)
    ensures Count(documents, KindIs(General)) + Count(documents, KindIs(Prd)) + Count(documents, KindIs(Spec))
      + Count(documents, KindIs(MeetingNotes)) + Count(documents, KindIs(Retrospective)) == |documents|
  {
    if documents != [] {
      TypeCountsSum(documents[1..]);
    }
  }

  /** `count === 0 ? null : badge`: the types whose filter badge is shown, in the order of the type
      table: exactly those with at least one document. */
  function VisibleTypeBadges(counts: map<DocumentType, nat>): (r: seq<DocumentType>)
    ensures IsSubsequence(r, DocumentTypeOrder)
    ensures forall t :: t in r <==> CountIn(counts, t) > 0
  {
    DocumentTypeOrderComplete();
    FilterIsSubsequence(DocumentTypeOrder, (t: DocumentType) => CountIn(counts, t) > 0);
    Filter(DocumentTypeOrder, (t: DocumentType) => CountIn(counts, t) > 0)
  }

  /** The badge of every type that occurs among the documents is shown, with that type's count;
      the `Todos` badge shows the number of all documents, the sum of the shown counts. */
  lemma BadgesOfDocuments(documents: seq<Document>, counts: map<DocumentType, nat>)
    requires forall t :: CountIn(counts, t) == Count(documents, KindIs(t))
    ensures forall d :: d in documents ==> d.kind in VisibleTypeBadges(counts)
    ensures CountIn(counts, General) + CountIn(counts, Prd) + CountIn(counts, Spec)
      + CountIn(counts, MeetingNotes) + CountIn(counts, Retrospective) == |documents|
  {
    forall d | d in documents
      ensures d.kind in VisibleTypeBadges(counts)
    {
      assert d in Filter(documents, KindIs(d.kind));
    }
    TypeCountsSum(documents);
  }

  /** The empty state's heading, hint and whether it offers to create a document: a search or a type
      filter means nothing matched; otherwise the project has no documents yet. */
  datatype EmptyState = EmptyState(heading: string, hint: string, offersCreate: bool)

  const NothingFound: string := "No se encontraron documentos"
  const NothingFoundHint: string := "Intenta con otra búsqueda o filtro"
  const NoDocumentsYet: string := "Sin documentos aún"
  const NoDocumentsHint: string := "Crea tu primer documento para empezar a organizar la información del proyecto"

  function EmptyStateOf(query: string, filter: TypeFilter): (r: EmptyState)
    ensures r.offersCreate <==> query == [] && filter.All?
    ensures r.offersCreate ==> r.heading == NoDocumentsYet
    ensures !r.offersCreate ==> r.heading == NothingFound
  {
    if query != [] || !filter.All? then EmptyState(NothingFound, NothingFoundHint, false)
    else EmptyState(NoDocumentsYet, NoDocumentsHint, true)
  }

  /** The list's state. */
  class DocumentsPage {
    var documents: seq<Document>
    var loading: bool
    var searchQuery: string
    var filterType: TypeFilter

    /** The initial `useState` values: the documents given, loading exactly when none were given. */
    constructor (initialDocuments: seq<Document>)
      ensures documents == initialDocuments
      ensures loading <==> initialDocuments == []
      ensures searchQuery == "" && filterType == All
    {
      documents := initialDocuments;
      loading := |initialDocuments| == 0;
      searchQuery := "";
      filterType := All;
    }

    /** The mount effect: with initial documents nothing is fetched; otherwise `response` is the
        answer of the query for the project's documents, whose rows (none when the answer holds no
        rows) replace the list, a failure leaves the list as it was, and loading ends either way. */
    method LoadOnMount(initialDocuments: seq<Document>, response: Response<Option<seq<Document>>>)
      returns (fetched: bool)
      modifies this
      ensures fetched <==> initialDocuments == []
      ensures !fetched ==> documents == old(documents) && loading == old(loading)
      ensures fetched ==> !loading
      ensures fetched && response.Data? && response.row.Some? ==> documents == response.row.value
      ensures fetched && response.Data? && response.row.None? ==> documents == []
      ensures fetched && response.Error? ==> documents == old(documents)
      ensures searchQuery == old(searchQuery) && filterType == old(filterType)
    {
      fetched := |initialDocuments| == 0;
      if fetched {
        loading := true;
        if response.Data? {
          documents := if response.row.Some? then response.row.value else [];
        }
        loading := false;
      }
    }
  }

  // ---------------------------------------------------------------------------------------------
  // Helpers
  // ---------------------------------------------------------------------------------------------

  lemma CountAppend<T(!new)>(xs: seq<T>, x: T, p: T -> bool)
    ensures Count(xs + [x], p) == Count(xs, p) + (if p(x) then 1 else 0)
  {
    FilterConcat(xs, [x], p);
    assert [x][1..] == [];
  }

  lemma {:induction false} SubFilterNoLonger<T(!new)>(xs: seq<T>, p: T -> bool, q: T -> bool)
    requires forall x :: p(x) ==> q(x)
    ensures |Filter(xs, p)| <= |Filter(xs, q)|
  {
    if xs != [] {
      SubFilterNoLonger(xs[1..], p, q);
    }
  }
}
