/**
 * The per-file records of the upload page's simulated pipeline (app/upload/page.tsx):
 * creating them from the picked files, the timer tick that advances one of them,
 * removal, the icon choice and the counters of the sidebar.
 *
 * The random numbers the page draws are parameters (`Draw`), and time is a sequence
 * of ticks: the page's interval fires every 500 ms and is cleared after 8000 ms.
 */
module UploadItems {
  import opened Wrappers
  import opened Text
  import opened Seqs

  datatype Status = Uploading | Processing | Completed | Error

  /** A picked or dropped file as the page reads it: name, size in bytes, MIME type. */
  datatype FileDescriptor = FileDescriptor(name: string, size: nat, mimeType: string)

  /** One row of the page's `files` list. */
  datatype UploadedFile = UploadedFile(
    id: string,
    name: string,
    size: nat,
    mimeType: string,
    progress: int,
    status: Status,
    aiCategory: Option<string>,
    confidence: Option<int>,
    extractedText: Option<string>)

  /** The categories the simulated classifier picks from, in the page's order. */
  const Categories: seq<string> := [
    "Financial Reports",
    "Safety Protocols",
    "Maintenance Records",
    "Passenger Feedback",
    "Operational Guidelines",
    "Legal Documents"
  ]

  const SampleExtractedText: string := "Sample extracted text preview..."

  /** Period of the page's interval and the delay after which it is cleared, in ms. */
  const IntervalMs: nat := 500
  const TimeoutMs: nat := 8000
  /** The most ticks one started interval can deliver before it is cleared. */
  const TickBudget: nat := TimeoutMs / IntervalMs

  /** `Math.floor(Math.random() * categories.length)`. */
  type CategoryIndex = i: nat | i < 6
  /** `Math.floor(Math.random() * 20)`; the confidence is 80 plus this offset. */
  type ConfidenceOffset = k: nat | k < 20

  /** The two random numbers the classification branch of a tick draws. */
  datatype Draw = Draw(categoryIndex: CategoryIndex, confidenceOffset: ConfidenceOffset)

  function Min(a: nat, b: nat): nat
  {
    if a <= b then a else b
  }

  // ---------------------------------------------------------------- creation

  function NewItem(file: FileDescriptor, id: string): UploadedFile
  {
    UploadedFile(id, file.name, file.size, file.mimeType, 0, Uploading, None, None, None)
  }

  /**
   * The records `processFiles` builds: one per input file, in order, with the given
   * (randomly generated) id, the file's metadata, progress 0 and status uploading.
   */
  function NewItems(fileList: seq<FileDescriptor>, ids: seq<string>): (r: seq<UploadedFile>)
    requires |ids| == |fileList|
    ensures |r| == |fileList|
    ensures forall i :: 0 <= i < |r| ==>
      r[i].id == ids[i] && r[i].name == fileList[i].name && r[i].size == fileList[i].size
      && r[i].mimeType == fileList[i].mimeType && r[i].progress == 0 && r[i].status == Uploading
      && r[i].aiCategory == None && r[i].confidence == None && r[i].extractedText == None
  {
    if fileList == [] then [] else [NewItem(fileList[0], ids[0])] + NewItems(fileList[1..], ids[1..])
  }

  // ---------------------------------------------------------------- the tick

  /** Id and file metadata agree: only progress, status and classification may differ. */
  predicate SameFile(f: UploadedFile, g: UploadedFile)
  {
    g.id == f.id && g.name == f.name && g.size == f.size && g.mimeType == f.mimeType
  }

  /** The classification fields are set exactly when the record is completed, and then hold
      one of the six categories, a confidence in [80, 99] and the sample text. */
  ghost predicate ClassifiedIffCompleted(f: UploadedFile)
  {
    if f.status == Completed then
      f.aiCategory.Some? && f.aiCategory.value in Categories
      && f.confidence.Some? && 80 <= f.confidence.value <= 99
      && f.extractedText == Some(SampleExtractedText)
    else
      f.aiCategory == None && f.confidence == None && f.extractedText == None
  }

  /** The (status, progress) pairs reachable from a fresh record. */
  ghost predicate PhaseOk(f: UploadedFile)
  {
    match f.status
    case Uploading => 0 <= f.progress <= 100 && f.progress % 10 == 0
    case Processing => 0 <= f.progress <= 100 && f.progress % 10 == 0
    case Completed => f.progress == 100
    case Error => false
  }

  /** Ticks a fresh record takes, as the tick is written, to become completed. */
  const TicksToComplete: nat := 22

  /** How many ticks a fresh record needs to reach this phase (22 for completed, which
      later ticks do not leave). */
  ghost function TicksSeen(f: UploadedFile): nat
    requires PhaseOk(f)
  {
    match f.status
    case Uploading => f.progress / 10
    case Processing => 11 + f.progress / 10
    case Completed => TicksToComplete
  }

  /**
   * `updateProgress` applied to a record whose id matches. The tests run in the source's
   * order: any record below 100 gains 10 whatever its status, so the +15 branch for
   * processing never runs; at 100 an uploading record restarts as processing at 0; any
   * other record at 100 or more is (re)classified as completed with the drawn category
   * and confidence, on this and on every later tick.
   */
  function TickItem(f: UploadedFile, d: Draw): (g: UploadedFile)
    ensures SameFile(f, g)
    ensures g.status == Error ==> f.status == Error
    ensures g.progress != f.progress + 15
    ensures ClassifiedIffCompleted(f) ==> ClassifiedIffCompleted(g)
    ensures PhaseOk(f) ==> PhaseOk(g) && TicksSeen(g) == Min(TicksSeen(f) + 1, TicksToComplete)
  {
    if f.progress < 100 then
      f.(progress := f.progress + 10)
    else if f.status == Uploading then
      f.(status := Processing, progress := 0)
    else if f.status == Processing && f.progress < 100 then
      f.(progress := f.progress + 15)
    else
      f.(status := Completed, progress := 100,
         aiCategory := Some(Categories[d.categoryIndex]),
         confidence := Some(d.confidenceOffset + 80),
         extractedText := Some(SampleExtractedText))
  }

  /** Below 100 a tick adds exactly 10 and changes nothing else, in every status. */
  lemma BelowHundredAddsTen(f: UploadedFile, d: Draw)
    requires f.progress < 100
    ensures TickItem(f, d) == f.(progress := f.progress + 10)
  {
  }

  /** At 100 or more an uploading record restarts as processing at 0. */
  lemma UploadedStartsProcessing(f: UploadedFile, d: Draw)
    requires f.progress >= 100 && f.status == Uploading
    ensures TickItem(f, d) == f.(status := Processing, progress := 0)
  {
  }

  /** At 100 or more any other record is classified anew from the draw: completed at 100,
      whatever category and confidence it had before. */
  lemma FullRecordIsReclassified(f: UploadedFile, d: Draw)
    requires f.progress >= 100 && f.status != Uploading
    ensures var g := TickItem(f, d);
      g.status == Completed && g.progress == 100
      && g.aiCategory == Some(Categories[d.categoryIndex])
      && g.confidence == Some(80 + d.confidenceOffset)
  {
  }

  /** The page's `prev.map(...)`: records whose id is `fileId` are ticked, each with the draw
      of its own position; every other record, the length and the order are unchanged. */
  function TickList(files: seq<UploadedFile>, fileId: string, draws: seq<Draw>): (r: seq<UploadedFile>)
    requires |draws| == |files|
    ensures |r| == |files|
    ensures forall i :: 0 <= i < |files| && files[i].id != fileId ==> r[i] == files[i]
    ensures forall i :: 0 <= i < |files| && files[i].id == fileId ==> r[i] == TickItem(files[i], draws[i])
  {
    if files == [] then []
    else
      [if files[0].id == fileId then TickItem(files[0], draws[0]) else files[0]]
      + TickList(files[1..], fileId, draws[1..])
  }

  /** One record after a run of ticks, the draws in the order the ticks fire. */
  function Iterate(f: UploadedFile, draws: seq<Draw>): UploadedFile
    decreases |draws|
  {
    if draws == [] then f else TickItem(Iterate(f, draws[..|draws| - 1]), draws[|draws| - 1])
  }

  /** From a fresh record, every tick advances the phase by one until completion. */
  lemma {:induction false} TicksFromFresh(f: UploadedFile, draws: seq<Draw>)
    requires f.status == Uploading && f.progress == 0
    ensures PhaseOk(Iterate(f, draws))
    ensures TicksSeen(Iterate(f, draws)) == Min(|draws|, TicksToComplete)
    ensures SameFile(f, Iterate(f, draws))
    decreases |draws|
  {
    if draws != [] {
      TicksFromFresh(f, draws[..|draws| - 1]);
    }
  }

  /**
   * Within one interval's budget of 16 ticks a fresh record is never completed nor in
   * error: it is uploading at 10 per tick for the first 10 ticks, then processing, and at
   * most 50 into processing when the interval is cleared.
   */
  lemma BudgetEndsBeforeCompletion(f: UploadedFile, draws: seq<Draw>)
    requires f.status == Uploading && f.progress == 0
    requires |draws| <= TickBudget
    ensures var g := Iterate(f, draws);
      (|draws| <= 10 ==> g.status == Uploading && g.progress == 10 * |draws|)
      && (|draws| > 10 ==> g.status == Processing && g.progress == 10 * (|draws| - 11))
      && (|draws| == TickBudget ==> g.status == Processing && g.progress == 50)
  {
    TicksFromFresh(f, draws);
  }

  // ---------------------------------------------------------------- removal

  /** `removeFile`: every record with the id goes, the others stay in their order. */
  function RemoveById(files: seq<UploadedFile>, fileId: string): (r: seq<UploadedFile>)
    ensures forall f :: f in r <==> f in files && f.id != fileId
    ensures forall f :: multiset(r)[f] == if f.id != fileId then multiset(files)[f] else 0
    ensures SubsequenceOf(r, files)
    ensures (forall f :: f in files ==> f.id != fileId) ==> r == files
  {
    if files == [] then []
    else if files[0].id == fileId then
      var r := RemoveById(files[1..], fileId);
      assert files == [files[0]] + files[1..];
      assert forall f :: f in files <==> f == files[0] || f in files[1..];
      r
    else
      var rest := RemoveById(files[1..], fileId);
      assert files == [files[0]] + files[1..];
      assert ([files[0]] + rest)[1..] == rest;
      [files[0]] + rest
  }

  // ---------------------------------------------------------------- icon

  datatype FileIcon = ImageIcon | PdfIcon | GenericIcon

  /** `getFileIcon`: an image type wins even when it mentions pdf; then any type mentioning
      pdf; everything else gets the generic icon. */
  function IconFor(mimeType: string): (icon: FileIcon)
    ensures icon == ImageIcon <==> StartsWith(mimeType, "image/")
    ensures icon == PdfIcon <==> !StartsWith(mimeType, "image/") && Includes(mimeType, "pdf")
    ensures icon == GenericIcon <==> !StartsWith(mimeType, "image/") && !Includes(mimeType, "pdf")
  {
    if StartsWith(mimeType, "image/") then ImageIcon
    else if Includes(mimeType, "pdf") then PdfIcon
    else GenericIcon
  }

  // ---------------------------------------------------------------- counters

  /** `files.filter((f) => f.status === s).length`. */
  function CountStatus(files: seq<UploadedFile>, s: Status): (n: nat)
    ensures n <= |files|
  {
    if files == [] then 0 else (if files[0].status == s then 1 else 0) + CountStatus(files[1..], s)
  }

  /** The "In progress" counter: uploading or processing records. */
  function InProgressCount(files: seq<UploadedFile>): (n: nat)
    ensures n <= |files|
  {
    if files == [] then 0
    else (if files[0].status in {Uploading, Processing} then 1 else 0) + InProgressCount(files[1..])
  }

  /** The badge of one category in "AI Categories". */
  function CategoryCount(files: seq<UploadedFile>, category: string): (n: nat)
    ensures n <= |files|
  {
    if files == [] then 0
    else (if files[0].aiCategory == Some(category) then 1 else 0) + CategoryCount(files[1..], category)
  }

  /** A status no record has is counted zero times. */
  lemma {:induction false} CountStatusAbsent(files: seq<UploadedFile>, s: Status)
    requires forall f :: f in files ==> f.status != s
    ensures CountStatus(files, s) == 0
  {
    if files != [] {
      assert files[0] in files;
      CountStatusAbsent(files[1..], s);
    }
  }

  /** Completed, in progress and error records together are all the records. */
  lemma {:induction false} CountersPartition(files: seq<UploadedFile>)
    ensures CountStatus(files, Completed) + InProgressCount(files) + CountStatus(files, Error) == |files|
  {
    if files != [] {
      CountersPartition(files[1..]);
    }
  }

  lemma {:induction false} CountersOfAppend(a: seq<UploadedFile>, b: seq<UploadedFile>)
    ensures CountStatus(a + b, Completed) == CountStatus(a, Completed) + CountStatus(b, Completed)
    ensures InProgressCount(a + b) == InProgressCount(a) + InProgressCount(b)
  {
    if a != [] {
      assert (a + b)[1..] == a[1..] + b;
      CountersOfAppend(a[1..], b);
    } else {
      assert a + b == b;
    }
  }

  /** `processFiles` adds its files to the "In progress" counter and to no other. */
  lemma NewItemsAreInProgress(files: seq<UploadedFile>, fileList: seq<FileDescriptor>, ids: seq<string>)
    requires |ids| == |fileList|
    ensures InProgressCount(files + NewItems(fileList, ids)) == InProgressCount(files) + |fileList|
    ensures CountStatus(files + NewItems(fileList, ids), Completed) == CountStatus(files, Completed)
  {
    CountersOfAppend(files, NewItems(fileList, ids));
    NewItemsCounts(NewItems(fileList, ids));
  }

  lemma {:induction false} NewItemsCounts(items: seq<UploadedFile>)
    requires forall f :: f in items ==> f.status == Uploading
    ensures InProgressCount(items) == |items| && CountStatus(items, Completed) == 0
  {
    if items != [] {
      NewItemsCounts(items[1..]);
    }
  }

  /** Sum of the category badges over `categories`. */
  function SumCategoryCounts(files: seq<UploadedFile>, categories: seq<string>): nat
  {
    if categories == [] then 0
    else CategoryCount(files, categories[0]) + SumCategoryCounts(files, categories[1..])
  }

  /** How many of `categories` are the category of `f`. */
  function Hits(f: UploadedFile, categories: seq<string>): nat
  {
    if categories == [] then 0
    else (if f.aiCategory == Some(categories[0]) then 1 else 0) + Hits(f, categories[1..])
  }

  lemma {:induction false} SumCategoryCountsCons(f: UploadedFile, rest: seq<UploadedFile>, categories: seq<string>)
    ensures SumCategoryCounts([f] + rest, categories) == Hits(f, categories) + SumCategoryCounts(rest, categories)
  {
    if categories != [] {
      assert ([f] + rest)[1..] == rest;
      SumCategoryCountsCons(f, rest, categories[1..]);
    }
  }

  lemma {:induction false} HitsDistinct(f: UploadedFile, categories: seq<string>)
    requires forall i, j :: 0 <= i < j < |categories| ==> categories[i] != categories[j]
    ensures Hits(f, categories) == if f.aiCategory.Some? && f.aiCategory.value in categories then 1 else 0
  {
    if categories != [] {
      HitsDistinct(f, categories[1..]);
      if f.aiCategory == Some(categories[0]) {
        assert f.aiCategory.value !in categories[1..];
      }
    }
  }

  /** The six "AI Categories" badges add up to the "Successfully processed" counter. */
  lemma {:induction false} CategoryBadgesSumToProcessed(files: seq<UploadedFile>)
    requires forall f :: f in files ==> ClassifiedIffCompleted(f)
    ensures SumCategoryCounts(files, Categories) == CountStatus(files, Completed)
  {
    if files == [] {
      EmptyBadges(Categories);
    } else {
      assert files == [files[0]] + files[1..];
      assert ClassifiedIffCompleted(files[0]);
      SumCategoryCountsCons(files[0], files[1..], Categories);
      HitsDistinct(files[0], Categories);
      assert Hits(files[0], Categories) == if files[0].status == Completed then 1 else 0;
      CategoryBadgesSumToProcessed(files[1..]);
    }
  }

  lemma {:induction false} EmptyBadges(categories: seq<string>)
    ensures SumCategoryCounts([], categories) == 0
  {
    if categories != [] {
      EmptyBadges(categories[1..]);
    }
  }
}
