/**
 * The document library page (app/library/page.tsx): the search-and-category filter over
 * the document list, the confidence colour bands, and the sidebar counters. All of it is
 * computed from the fixed document list and the two pieces of state the page keeps, the
 * search term and the selected category.
 */
module Library {
  import opened Text
  import opened Seqs

  datatype DocStatus = Processed | Processing | Error

  datatype Document = Document(
    id: string,
    name: string,
    docType: string,
    size: nat,
    uploadDate: string,
    uploadedBy: string,
    aiCategory: string,
    confidence: int,
    tags: seq<string>,
    status: DocStatus)

  /** The category that selects every document. */
  const AllCategory: string := "All"

  /** The sidebar's category buttons, in the page's order. */
  const CategoryOptions: seq<string> := [
    AllCategory,
    "Financial Reports",
    "Safety Protocols",
    "Maintenance Records",
    "Passenger Feedback",
    "Operational Guidelines",
    "Legal Documents"
  ]

  /** The page's fixed document list. */
  const MockDocuments: seq<Document> := [
    Document("1", "Metro_Safety_Protocol_2024.pdf", "PDF", 2456789, "2024-01-15", "Rajesh Kumar",
             "Safety Protocols", 96, ["safety", "protocol", "2024"], Processed),
    Document("2", "Station_Maintenance_Report.docx", "DOCX", 1234567, "2024-01-14", "Priya Nair",
             "Maintenance Records", 89, ["maintenance", "station", "report"], Processed),
    Document("3", "Passenger_Feedback_Analysis.xlsx", "XLSX", 987654, "2024-01-13", "Arun Menon",
             "Passenger Feedback", 92, ["feedback", "analysis", "passenger"], Processed),
    Document("4", "Financial_Report_Q4_2023.pdf", "PDF", 3456789, "2024-01-12", "Lakshmi Pillai",
             "Financial Reports", 94, ["financial", "Q4", "2023"], Processed),
    Document("5", "Emergency_Response_Guidelines.pdf", "PDF", 1876543, "2024-01-11", "Suresh Nair",
             "Operational Guidelines", 88, ["emergency", "response", "guidelines"], Processed),
    Document("6", "Legal_Compliance_Checklist.docx", "DOCX", 654321, "2024-01-10", "Maya Krishnan",
             "Legal Documents", 91, ["legal", "compliance", "checklist"], Processed)
  ]

  // ---------------------------------------------------------------- filter

  /** The search term occurs, ignoring case, in the document's name or in one of its tags. */
  predicate MatchesSearch(doc: Document, searchTerm: string)
  {
    Includes(ToLower(doc.name), ToLower(searchTerm))
    || exists tag :: tag in doc.tags && Includes(ToLower(tag), ToLower(searchTerm))
  }

  /** "All" selects every document, any other category only the documents it names. */
  predicate MatchesCategory(doc: Document, selectedCategory: string)
  {
    selectedCategory == AllCategory || doc.aiCategory == selectedCategory
  }

  /** `filteredDocuments`: the documents matching both the search and the category, in
      the order of the list. */
  function FilterDocuments(docs: seq<Document>, searchTerm: string, selectedCategory: string): (r: seq<Document>)
    ensures SubsequenceOf(r, docs)
    ensures forall d :: d in r <==>
      d in docs && MatchesSearch(d, searchTerm) && MatchesCategory(d, selectedCategory)
    ensures forall d :: multiset(r)[d] == (if MatchesSearch(d, searchTerm)
      && MatchesCategory(d, selectedCategory) then multiset(docs)[d] else 0)
  {
    if docs == [] then []
    else
      var rest := FilterDocuments(docs[1..], searchTerm, selectedCategory);
      assert forall d :: d in docs <==> d == docs[0] || d in docs[1..] by {
        assert docs == [docs[0]] + docs[1..];
      }
      if MatchesSearch(docs[0], searchTerm) && MatchesCategory(docs[0], selectedCategory) then
        assert ([docs[0]] + rest)[1..] == rest;
        [docs[0]] + rest
      else
        rest
  }

  /** With an empty search term and "All" selected, the page lists every document. */
  lemma {:induction false} EmptySearchShowsAll(docs: seq<Document>)
    ensures FilterDocuments(docs, "", AllCategory) == docs
  {
    if docs != [] {
      IncludesEmpty(ToLower(docs[0].name));
      EmptySearchShowsAll(docs[1..]);
    }
  }

  /** Selecting a category only narrows the list shown for "All" with the same search:
      the result is an order-preserving part of it. */
  lemma {:induction false} CategoryNarrowsAll(docs: seq<Document>, searchTerm: string, selectedCategory: string)
    ensures SubsequenceOf(FilterDocuments(docs, searchTerm, selectedCategory),
                          FilterDocuments(docs, searchTerm, AllCategory))
  {
    if docs != [] {
      CategoryNarrowsAll(docs[1..], searchTerm, selectedCategory);
      var narrow := FilterDocuments(docs, searchTerm, selectedCategory);
      var all := FilterDocuments(docs, searchTerm, AllCategory);
      var narrowRest := FilterDocuments(docs[1..], searchTerm, selectedCategory);
      var allRest := FilterDocuments(docs[1..], searchTerm, AllCategory);
      if MatchesSearch(docs[0], searchTerm) {
        if MatchesCategory(docs[0], selectedCategory) {
          assert narrow == [docs[0]] + narrowRest && all == [docs[0]] + allRest;
          assert narrow[1..] == narrowRest && all[1..] == allRest;
        } else {
          assert narrow == narrowRest && all == [docs[0]] + allRest;
          SubsequenceOfCons(narrowRest, docs[0], allRest);
        }
      }
    }
  }

  // ---------------------------------------------------------------- confidence bands

  /** The three colour bands of `getConfidenceColor`: emerald, amber and red. */
  datatype ConfidenceBand = Emerald | Amber | Red

  /** `getConfidenceColor`: emerald from 90, amber from 80 to 89, red below 80. */
  function ConfidenceColor(confidence: int): (band: ConfidenceBand)
    ensures band == Emerald <==> confidence >= 90
    ensures band == Amber <==> 80 <= confidence < 90
    ensures band == Red <==> confidence < 80
  {
    if confidence >= 90 then Emerald
    else if confidence >= 80 then Amber
    else Red
  }

  /** The class names the page gives each band. */
  function BandClasses(band: ConfidenceBand): string
  {
    match band
    case Emerald => "text-emerald-600 bg-emerald-100"
    case Amber => "text-amber-600 bg-amber-100"
    case Red => "text-red-600 bg-red-100"
  }

  /** The classes `getConfidenceColor` returns for a confidence, one string per band. */
  lemma ConfidenceClasses(confidence: int)
    ensures BandClasses(ConfidenceColor(confidence)) == "text-emerald-600 bg-emerald-100" <==> confidence >= 90
    ensures BandClasses(ConfidenceColor(confidence)) == "text-amber-600 bg-amber-100" <==> 80 <= confidence < 90
    ensures BandClasses(ConfidenceColor(confidence)) == "text-red-600 bg-red-100" <==> confidence < 80
  {
  }

  // ---------------------------------------------------------------- sidebar counters

  /** `mockDocuments.filter((doc) => doc.aiCategory === category).length`. */
  function CountInCategory(docs: seq<Document>, category: string): (n: nat)
    ensures n <= |docs|
  {
    if docs == [] then 0
    else (if docs[0].aiCategory == category then 1 else 0) + CountInCategory(docs[1..], category)
  }

  /** With the search box empty, a category's listing holds exactly its documents, and
      the listing for "All" holds every document. */
  lemma {:induction false} EmptySearchListingSize(docs: seq<Document>, category: string)
    ensures |FilterDocuments(docs, "", category)| ==
      (if category == AllCategory then |docs| else CountInCategory(docs, category))
  {
    if docs != [] {
      IncludesEmpty(ToLower(docs[0].name));
      EmptySearchListingSize(docs[1..], category);
    }
  }

  /** The badge of a category button: the list's length for "All", the category's count
      otherwise. It is the number of documents the page lists when that category is
      selected and the search box is empty. */
  function SidebarCount(docs: seq<Document>, category: string): (n: nat)
    ensures n == |FilterDocuments(docs, "", category)|
  {
    EmptySearchListingSize(docs, category);
    if category == AllCategory then |docs| else CountInCategory(docs, category)
  }

  /** The "High confidence" counter: documents with confidence 90 or more. */
  function HighConfidenceCount(docs: seq<Document>): (n: nat)
    ensures n <= |docs|
  {
    if docs == [] then 0
    else (if docs[0].confidence >= 90 then 1 else 0) + HighConfidenceCount(docs[1..])
  }

  /** Documents whose confidence falls in `band`. */
  function CountInBand(docs: seq<Document>, band: ConfidenceBand): (n: nat)
    ensures n <= |docs|
  {
    if docs == [] then 0
    else (if ConfidenceColor(docs[0].confidence) == band then 1 else 0) + CountInBand(docs[1..], band)
  }

  /** The "High confidence" counter counts exactly the documents shown in emerald. */
  lemma {:induction false} HighConfidenceIsEmerald(docs: seq<Document>)
    ensures HighConfidenceCount(docs) == CountInBand(docs, Emerald)
  {
    if docs != [] {
      HighConfidenceIsEmerald(docs[1..]);
    }
  }

  /** Every document is in exactly one band. */
  lemma {:induction false} BandsPartition(docs: seq<Document>)
    ensures CountInBand(docs, Emerald) + CountInBand(docs, Amber) + CountInBand(docs, Red) == |docs|
  {
    if docs != [] {
      BandsPartition(docs[1..]);
    }
  }

  // ---------------------------------------------------------------- the page's data

  /** On the page's own list the "High confidence" counter shows 4. */
  lemma MockHighConfidence()
    ensures HighConfidenceCount(MockDocuments) == 4
  {
  }

  /** On the page's own list the "All" button shows 6. */
  lemma MockAllBadge()
    ensures SidebarCount(MockDocuments, AllCategory) == 6
  {
  }

  /** On the page's own list every category besides "All" holds exactly one document, so
      each of those buttons shows 1. */
  lemma MockCategoryBadges()
    ensures forall i :: 1 <= i < |CategoryOptions| ==> CountInCategory(MockDocuments, CategoryOptions[i]) == 1
  {
  }
}
