/**
 * The upload page as a stateful object: its `files` list and the intervals it has
 * started (app/upload/page.tsx). Each call of `simulateUpload` starts an interval that
 * ticks one id every 500 ms and is cleared after 8000 ms; here an interval is a `Driver`
 * holding that id and the number of ticks it may still deliver, and a tick is an event
 * naming the driver that fires.
 */
module UploadPage {
  import opened Wrappers
  import opened UploadItems

  /** One started interval: the id it ticks and how many ticks it can still deliver. */
  datatype Driver = Driver(fileId: string, remaining: nat)

  /** The intervals `processFiles` starts for the given ids, each with a full budget. */
  function DriversFor(ids: seq<string>): (r: seq<Driver>)
  {
    seq(|ids|, i requires 0 <= i < |ids| => Driver(ids[i], TickBudget))
  }

  /** Number of intervals ever started for `fileId`. */
  function Started(drivers: seq<Driver>, fileId: string): (n: nat)
    ensures n <= |drivers|
  {
    if drivers == [] then 0
    else (if drivers[0].fileId == fileId then 1 else 0) + Started(drivers[1..], fileId)
  }

  /** Ticks the intervals for `fileId` can still deliver. */
  function Pending(drivers: seq<Driver>, fileId: string): nat
  {
    if drivers == [] then 0
    else (if drivers[0].fileId == fileId then drivers[0].remaining else 0) + Pending(drivers[1..], fileId)
  }

  ghost predicate DriversWithinBudget(drivers: seq<Driver>)
  {
    forall k :: 0 <= k < |drivers| ==> drivers[k].remaining <= TickBudget
  }

  /**
   * A record is in a phase reachable from a fresh one, carries a classification exactly
   * when completed, and the ticks it has taken plus those still pending for its id fit in
   * the budgets of the intervals started for its id.
   */
  ghost predicate ItemOk(f: UploadedFile, drivers: seq<Driver>)
  {
    PhaseOk(f) && ClassifiedIffCompleted(f)
    && TicksSeen(f) + Pending(drivers, f.id) <= TickBudget * Started(drivers, f.id)
  }

  ghost predicate PageInv(files: seq<UploadedFile>, drivers: seq<Driver>)
  {
    DriversWithinBudget(drivers) && forall f :: f in files ==> ItemOk(f, drivers)
  }

  lemma {:induction false} PendingWithinBudget(drivers: seq<Driver>, fileId: string)
    requires DriversWithinBudget(drivers)
    ensures Pending(drivers, fileId) <= TickBudget * Started(drivers, fileId)
  {
    assert TickBudget == 16;
    if drivers != [] {
      var rest := drivers[1..];
      assert forall k :: 0 <= k < |rest| ==> rest[k] == drivers[k + 1];
      PendingWithinBudget(rest, fileId);
      assert Started(drivers, fileId) == (if drivers[0].fileId == fileId then 1 else 0) + Started(rest, fileId);
    }
  }

  lemma {:induction false} CountsOfAppend(a: seq<Driver>, b: seq<Driver>, fileId: string)
    ensures Pending(a + b, fileId) == Pending(a, fileId) + Pending(b, fileId)
    ensures Started(a + b, fileId) == Started(a, fileId) + Started(b, fileId)
  {
    if a == [] {
      assert a + b == b;
    } else {
      assert (a + b)[1..] == a[1..] + b;
      CountsOfAppend(a[1..], b, fileId);
    }
  }

  /** Firing driver `k` uses up one pending tick of its id and no other. */
  lemma {:induction false} CountsAfterFire(drivers: seq<Driver>, k: nat, fileId: string)
    requires k < |drivers| && drivers[k].remaining > 0
    ensures var fired := drivers[k := drivers[k].(remaining := drivers[k].remaining - 1)];
      Pending(fired, fileId) == Pending(drivers, fileId) - (if drivers[k].fileId == fileId then 1 else 0)
      && Started(fired, fileId) == Started(drivers, fileId)
  {
    var fired := drivers[k := drivers[k].(remaining := drivers[k].remaining - 1)];
    if k > 0 {
      assert fired[1..] == drivers[1..][k - 1 := drivers[k].(remaining := drivers[k].remaining - 1)];
      CountsAfterFire(drivers[1..], k - 1, fileId);
    } else {
      assert fired[1..] == drivers[1..];
    }
  }

  lemma StartDriverKeepsInv(files: seq<UploadedFile>, drivers: seq<Driver>, fileId: string)
    requires PageInv(files, drivers)
    ensures PageInv(files, drivers + [Driver(fileId, TickBudget)])
  {
    assert TickBudget == 16;
    var more := drivers + [Driver(fileId, TickBudget)];
    forall f | f in files ensures ItemOk(f, more) {
      assert ItemOk(f, drivers);
      CountsOfAppend(drivers, [Driver(fileId, TickBudget)], f.id);
      assert [Driver(fileId, TickBudget)][1..] == [];
    }
  }

  lemma AddItemsKeepsInv(files: seq<UploadedFile>, drivers: seq<Driver>, items: seq<UploadedFile>)
    requires PageInv(files, drivers)
    requires forall f :: f in items ==>
      f.status == Uploading && f.progress == 0
      && f.aiCategory == None && f.confidence == None && f.extractedText == None
    ensures PageInv(files + items, drivers)
  {
    forall f | f in items ensures ItemOk(f, drivers) {
      PendingWithinBudget(drivers, f.id);
    }
  }

  lemma FireKeepsInv(files: seq<UploadedFile>, drivers: seq<Driver>, k: nat, draws: seq<Draw>)
    requires PageInv(files, drivers)
    requires k < |drivers| && drivers[k].remaining > 0 && |draws| == |files|
    ensures PageInv(TickList(files, drivers[k].fileId, draws),
                    drivers[k := drivers[k].(remaining := drivers[k].remaining - 1)])
  {
    assert TickBudget == 16;
    var fired := drivers[k := drivers[k].(remaining := drivers[k].remaining - 1)];
    var ticked := TickList(files, drivers[k].fileId, draws);
    forall g | g in ticked ensures ItemOk(g, fired) {
      var i :| 0 <= i < |ticked| && ticked[i] == g;
      assert files[i] in files;
      CountsAfterFire(drivers, k, files[i].id);
    }
  }

  /** A record whose id only one interval was started for is never completed nor in error,
      and at most 50 into processing: 16 ticks are too few. */
  lemma SoleDriverNeverCompletes(files: seq<UploadedFile>, drivers: seq<Driver>, f: UploadedFile)
    requires PageInv(files, drivers) && f in files
    requires Started(drivers, f.id) <= 1
    ensures f.status == Uploading || (f.status == Processing && f.progress <= 50)
  {
    assert TickBudget == 16;
    assert ItemOk(f, drivers);
  }

  /** A completed record shares its id with at least one other started interval. */
  lemma CompletionNeedsRepeatedId(files: seq<UploadedFile>, drivers: seq<Driver>, f: UploadedFile)
    requires PageInv(files, drivers) && f in files && f.status == Completed
    ensures Started(drivers, f.id) >= 2
  {
    assert TickBudget == 16;
    assert ItemOk(f, drivers);
  }

  /** No record is ever in error, so the "Successfully processed" and "In progress"
      counters together count every record. */
  lemma CountersOnPage(files: seq<UploadedFile>, drivers: seq<Driver>)
    requires PageInv(files, drivers)
    ensures CountStatus(files, Error) == 0
    ensures CountStatus(files, Completed) + InProgressCount(files) == |files|
    ensures SumCategoryCounts(files, Categories) == CountStatus(files, Completed)
  {
    CountStatusAbsent(files, Error);
    CountersPartition(files);
    CategoryBadgesSumToProcessed(files);
  }

  class UploadController {
    /** The page's `files` state. */
    var files: seq<UploadedFile>
    /** The intervals started so far, cleared ones included (with nothing remaining). */
    var drivers: seq<Driver>

    ghost predicate Valid()
      reads this
    {
      PageInv(files, drivers)
    }

    constructor ()
      ensures Valid() && files == [] && drivers == []
    {
      files := [];
      drivers := [];
    }

    /** `processFiles`: append one fresh record per file, then start one interval per
        new record. */
    method ProcessFiles(fileList: seq<FileDescriptor>, ids: seq<string>)
      requires Valid() && |ids| == |fileList|
      modifies this
      ensures Valid()
      ensures files == old(files) + NewItems(fileList, ids)
      ensures drivers == old(drivers) + DriversFor(ids)
    {
      var newFiles := NewItems(fileList, ids);
      AddItemsKeepsInv(files, drivers, newFiles);
      files := files + newFiles;
      var i := 0;
      while i < |newFiles|
        invariant 0 <= i <= |newFiles|
        invariant files == old(files) + newFiles
        invariant drivers == old(drivers) + DriversFor(ids[..i])
        invariant Valid()
      {
        StartDriverKeepsInv(files, drivers, newFiles[i].id);
        assert DriversFor(ids[..i + 1]) == DriversFor(ids[..i]) + [Driver(ids[i], TickBudget)];
        drivers := drivers + [Driver(newFiles[i].id, TickBudget)];
        i := i + 1;
      }
      assert ids[..i] == ids;
    }

    /** Interval `k` fires: `updateProgress` for its id, one tick off its budget. */
    method Tick(k: nat, draws: seq<Draw>)
      requires Valid()
      requires k < |drivers| && drivers[k].remaining > 0
      requires |draws| == |files|
      modifies this
      ensures Valid()
      ensures files == TickList(old(files), old(drivers[k].fileId), draws)
      ensures drivers == old(drivers[k := drivers[k].(remaining := drivers[k].remaining - 1)])
    {
      FireKeepsInv(files, drivers, k, draws);
      files := TickList(files, drivers[k].fileId, draws);
      drivers := drivers[k := drivers[k].(remaining := drivers[k].remaining - 1)];
    }

    /** `removeFile`: drop the records with the id; their intervals keep running. */
    method RemoveFile(fileId: string)
      requires Valid()
      modifies this
      ensures Valid()
      ensures files == RemoveById(old(files), fileId)
      ensures drivers == old(drivers)
    {
      files := RemoveById(files, fileId);
    }
  }
}
