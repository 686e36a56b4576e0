/**
 JournalPersistenceWorker: the queue, the writer loop that merges consecutive batches into one frame and
 defers the first item that is not a batch, and the flush, stop and rotation steps.
 */
module JournalWriter {
  import opened Seqs
  import opened HotState
  import opened HotJournal
  import opened HotSnapshot

  const QUEUE_CAPACITY := 1024
  const MAX_COALESCED := 32

  /** A record, or a flush or stop command identified by the event its caller waits for. */
  datatype Item = Rec(record: Record) | FlushCommand(id: nat) | StopCommand(id: nat)

  predicate IsBatch(i: Item) {
    i.Rec? && i.record.Batch?
  }

  /** The mutations of the records among some items, in order. */
  function Content(items: seq<Item>): seq<Mutation> {
    if items == [] then []
    else Content(items[..|items| - 1]) + (if Last(items).Rec? then MutationsOf(Last(items).record) else [])
  }

  /** How many items are records. */
  function Logical(items: seq<Item>): nat {
    if items == [] then 0 else Logical(items[..|items| - 1]) + (if Last(items).Rec? then 1 else 0)
  }

  /** The commands among some items. */
  function Commands(items: seq<Item>): set<nat> {
    if items == [] then {}
    else Commands(items[..|items| - 1]) + (if Last(items).Rec? then {} else {Last(items).id})
  }

  lemma ItemSnoc(items: seq<Item>, i: Item)
    ensures Content(items + [i]) == Content(items) + (if i.Rec? then MutationsOf(i.record) else [])
    ensures Logical(items + [i]) == Logical(items) + (if i.Rec? then 1 else 0)
    ensures Commands(items + [i]) == Commands(items) + (if i.Rec? then {} else {i.id})
  {
    assert (items + [i])[..|items|] == items;
  }

  lemma {:induction false} ContentPrefix(items: seq<Item>, k: nat)
    requires k <= |items|
    ensures Content(items[..k]) <= Content(items)
  {
    if k < |items| {
      ContentPrefix(items[..|items| - 1], k);
      assert items[..|items| - 1][..k] == items[..k];
    } else {
      assert items[..k] == items;
    }
  }

  lemma {:induction false} CommandAt(items: seq<Item>, id: nat) returns (j: nat)
    requires id in Commands(items)
    ensures j < |items| && !items[j].Rec? && items[j].id == id
  {
    if !Last(items).Rec? && Last(items).id == id {
      j := |items| - 1;
    } else {
      j := CommandAt(items[..|items| - 1], id);
    }
  }

  lemma WriteOne(written: seq<Record>, r: Record)
    ensures Mutations(written + [r]) == Mutations(written) + MutationsOf(r)
  {
    MutationsAppend(written, [r]);
    assert [r][1..] == [];
  }

  /** Every command was enqueued with an event of its own. */
  ghost predicate OwnEvents(items: seq<Item>) {
    forall i, j :: 0 <= i < j < |items| && !items[i].Rec? && !items[j].Rec? ==> items[i].id != items[j].id
  }

  /**
   When the event of a flush or a stop is set on a healthy writer, every mutation enqueued before it has
   been written, and the written mutations are a prefix of the enqueued ones.
   */
  lemma FlushCoversEarlier(enqueued: seq<Item>, processed: seq<Item>, written: seq<Record>, at: nat)
    requires processed <= enqueued && Mutations(written) == Content(processed)
    requires OwnEvents(enqueued) && at < |enqueued| && !enqueued[at].Rec? && enqueued[at].id in Commands(processed)
    ensures Content(enqueued[..at]) <= Mutations(written) <= Content(enqueued)
  {
    var j := CommandAt(processed, enqueued[at].id);
    assert enqueued[j] == processed[j];
    assert j == at;
    ContentPrefix(processed, at);
    assert processed[..at] == enqueued[..at];
    ContentPrefix(enqueued, |processed|);
    assert enqueued[..|processed|] == processed;
  }

  /** The records among some items, as they were enqueued. */
  function RecordsOf(items: seq<Item>): seq<Record> {
    if items == [] then []
    else RecordsOf(items[..|items| - 1]) + (if Last(items).Rec? then [Last(items).record] else [])
  }

  lemma {:induction false} RecordsContent(items: seq<Item>)
    ensures Mutations(RecordsOf(items)) == Content(items)
  {
    if items != [] {
      var front := items[..|items| - 1];
      RecordsContent(front);
      if Last(items).Rec? {
        WriteOne(RecordsOf(front), Last(items).record);
      } else {
        assert RecordsOf(items) == RecordsOf(front);
      }
    }
  }

  lemma {:induction false} RecordsPrefix(items: seq<Item>, k: nat)
    requires k <= |items|
    ensures RecordsOf(items[..k]) <= RecordsOf(items)
  {
    if k < |items| {
      RecordsPrefix(items[..|items| - 1], k);
      assert items[..|items| - 1][..k] == items[..k];
    } else {
      assert items[..k] == items;
    }
  }

  /**
   At any time in a session of a healthy writer: its frames, merged or not, replay like the records it
   has processed, and these are the first of those enqueued.
   */
  lemma FramesReplayLikeRecords(w: JournalPersistenceWorker, e: Engine)
    requires w.Valid() && e.window > 0
    ensures ReplayRecords(e, w.written) == ReplayRecords(e, RecordsOf(w.processed))
    ensures RecordsOf(w.processed) <= RecordsOf(w.enqueued)
  {
    RecordsContent(w.processed);
    CoalescingIrrelevant(e, w.written, RecordsOf(w.processed));
    RecordsPrefix(w.enqueued, |w.processed|);
    assert w.enqueued[..|w.processed|] == w.processed;
  }

  /**
   The writer's books: records since the last flush, frames flushed, records since the last snapshot, how
   many snapshots there have been, frames gone with earlier journal files, and the last snapshot.
   */
  datatype Books = Books(pending: nat, flushed: nat, since: nat, count: nat, rotated: nat, snapshot: Option<Snapshot>)

  /** After n more records, `frames` frames in all, a flush and a snapshot of capture, or not. */
  function Balanced(b: Books, n: nat, frames: nat, flush: bool, due: bool, capture: Snapshot): Books {
    Books(if flush then 0 else b.pending + n,
          if flush || due then frames else b.flushed,
          if due then 0 else b.since + n,
          if due then b.count + 1 else b.count,
          if due then frames else b.rotated,
          if due then Some(capture) else b.snapshot)
  }

  class JournalPersistenceWorker {
    const flushEvery: nat
    const snapshotEvery: nat
    var queue: seq<Item>
    var deferred: Option<Item>
    var journal: seq<Record>
    var snapshot: Option<Snapshot>
    var pendingSinceFlush: nat
    var recordsSinceSnapshot: nat
    var physicalRecordsWritten: nat
    var coalescedBatchCount: nat
    var snapshotCount: nat
    var done: set<nat>
    var stopped: bool
    var failed: bool

    /** Everything ever put on the queue, everything taken off and finished, every frame ever written. */
    ghost var enqueued: seq<Item>
    ghost var processed: seq<Item>
    ghost var written: seq<Record>

    /** How many frames are out of the file buffer, and how many went with earlier journal files. */
    ghost var flushed: nat
    ghost var rotated: nat

    /** How many records had been processed at the last flush, and at the last snapshot. */
    ghost var flushedAt: nat
    ghost var capturedAt: nat

    function Waiting(): seq<Item>
      reads this`queue, this`deferred
    {
      (if deferred.Some? then [deferred.value] else []) + queue
    }

    ghost predicate Counted()
      reads this`written, this`processed, this`physicalRecordsWritten, this`coalescedBatchCount
    {
      && Mutations(written) == Content(processed)
      && |written| == physicalRecordsWritten
      && physicalRecordsWritten + coalescedBatchCount == Logical(processed)
    }

    ghost predicate Filed()
      reads this`written, this`journal, this`flushed, this`rotated, this`pendingSinceFlush
    {
      && rotated <= flushed <= |written| <= flushed + pendingSinceFlush
      && journal == written[rotated..]
    }

    /** Both counters count records: those since the last flush, and those since the last snapshot. */
    ghost predicate Since()
      reads this`processed, this`flushedAt, this`capturedAt, this`pendingSinceFlush, this`recordsSinceSnapshot
    {
      flushedAt + pendingSinceFlush == capturedAt + recordsSinceSnapshot == Logical(processed)
    }

    ghost function Now(): Books
      reads this`pendingSinceFlush, this`flushed, this`recordsSinceSnapshot, this`snapshotCount, this`rotated
      reads this`snapshot
    {
      Books(pendingSinceFlush, flushed, recordsSinceSnapshot, snapshotCount, rotated, snapshot)
    }

    /** A healthy writer. */
    ghost predicate Valid()
      reads this
    {
      && !failed
      && enqueued == processed + Waiting()
      && Counted() && Filed() && Since()
      && done == Commands(processed)
      && |queue| <= QUEUE_CAPACITY
      && pendingSinceFlush < flushEvery
    }

    constructor (flushEvery: nat, snapshotEvery: nat)
      ensures Valid() && enqueued == [] && !stopped && snapshot == None
    {
      this.flushEvery := Max(1, flushEvery);
      this.snapshotEvery := Max(Max(1, flushEvery), snapshotEvery);
      queue, deferred, journal, snapshot, done := [], None, [], None, {};
      pendingSinceFlush, recordsSinceSnapshot, snapshotCount := 0, 0, 0;
      physicalRecordsWritten, coalescedBatchCount := 0, 0;
      stopped, failed := false, false;
      enqueued, processed, written, flushed, rotated, flushedAt, capturedAt := [], [], [], 0, 0, 0, 0;
    }

    /** put_nowait: refused when the queue is full; raises once the writer has failed. */
    method Enqueue(item: Item) returns (ok: bool)
      requires Valid()
      modifies this`queue, this`enqueued
      ensures Valid()
      ensures ok <==> |old(queue)| < QUEUE_CAPACITY
      ensures enqueued == if ok then old(enqueued) + [item] else old(enqueued)
    {
      ok := |queue| < QUEUE_CAPACITY;
      if ok {
        queue := queue + [item];
        enqueued := enqueued + [item];
      }
    }

    method FlushIfPending()
      requires Filed() && Since()
      modifies this`pendingSinceFlush, this`flushed, this`flushedAt
      ensures Filed() && Since() && pendingSinceFlush == 0 && flushed == |written|
    {
      if pendingSinceFlush > 0 {
        flushed, flushedAt := |written|, Logical(processed);
        pendingSinceFlush := 0;
      }
    }

    /**
     _write_snapshot_and_rotate: what the provider captures replaces the snapshot file, and then everything
     in the journal file goes.
     */
    method WriteSnapshotAndRotate(capture: Snapshot)
      requires Filed() && Since()
      modifies this`journal, this`snapshot, this`flushed, this`rotated, this`snapshotCount, this`recordsSinceSnapshot
      modifies this`capturedAt
      ensures Filed() && Since() && snapshot == Some(capture) && journal == [] && flushed == rotated == |written|
      ensures snapshotCount == old(snapshotCount) + 1 && recordsSinceSnapshot == 0
    {
      snapshot := Some(capture);
      flushed, rotated, capturedAt := |written|, |written|, Logical(processed);
      journal := [];
      snapshotCount := snapshotCount + 1;
      recordsSinceSnapshot := 0;
    }

    /** Less than a quarter of the queue is taken. */
    predicate Roomy()
      reads this`queue
    {
      |queue| < QUEUE_CAPACITY / 4
    }

    /** _snapshot_due; bytesFull says that the journal file has reached 64 MiB. */
    function SnapshotDue(bytesFull: bool): bool
      reads this`recordsSinceSnapshot, this`queue
    {
      bytesFull || (recordsSinceSnapshot >= snapshotEvery && Roomy())
    }

    /**
     Merge the batches that follow, up to the limit and as long as get_nowait finds one: `visible` items are
     there before it finds the queue empty. The first item that is not a batch is deferred.
     */
    method Coalesce(first: seq<Mutation>, visible: nat)
      returns (merged: seq<Mutation>, logical: nat, ghost taken: seq<Item>)
      requires deferred.None? && visible <= |queue|
      modifies this`queue, this`deferred
      ensures taken + Waiting() == old(queue)
      ensures 1 <= logical <= MAX_COALESCED && |taken| == logical - 1
      ensures AllBatches(taken)
      ensures merged == first + Content(taken) && Logical(taken) == logical - 1 && Commands(taken) == {}
      ensures deferred.Some? ==> !IsBatch(deferred.value)
      ensures logical == MAX_COALESCED || deferred.Some? || |taken| == visible
      ensures |queue| <= |old(queue)|
    {
      ghost var all := queue;
      merged, logical := first, 1;
      var seen := 0;
      while logical < MAX_COALESCED && seen < visible && deferred.None?
        invariant seen <= visible && 1 <= logical <= MAX_COALESCED && logical - 1 <= seen
        invariant queue == all[seen..]
        invariant seen == if deferred.Some? then logical else logical - 1
        invariant deferred.Some? ==> deferred.value == all[logical - 1] && !IsBatch(deferred.value)
        invariant AllBatches(all[..logical - 1]) && merged == first + Content(all[..logical - 1])
        decreases visible - seen
      {
        var next := queue[0];
        queue := queue[1..];
        seen := seen + 1;
        if IsBatch(next) {
          MergeStep(first, all, logical - 1);
          merged := merged + next.record.mutations;
          logical := logical + 1;
        } else {
          deferred := Some(next);
        }
      }
      taken := all[..logical - 1];
      TakenAndLeft(all, logical - 1, seen);
      BatchCounts(taken);
    }

    /** The next item, the deferred one first; None when the idle interval passes without one. */
    method Take() returns (item: Option<Item>)
      requires |queue| <= QUEUE_CAPACITY
      modifies this`queue, this`deferred
      ensures |queue| <= QUEUE_CAPACITY && (item.Some? ==> deferred.None?)
      ensures item.None? <==> old(Waiting()) == []
      ensures item.Some? ==> [item.value] + Waiting() == old(Waiting())
      ensures item.None? ==> Waiting() == []
    {
      if deferred.Some? {
        item, deferred := deferred, None;
      } else if queue == [] {
        item := None;
      } else {
        item, queue := Some(queue[0]), queue[1..];
      }
    }

    /** The content of the next frame and the items it stands for. */
    method Gather(item: Item, visible: nat) returns (record: Record, logical: nat, ghost items: seq<Item>)
      requires item.Rec? && deferred.None?
      modifies this`queue, this`deferred
      ensures items != [] && items[0] == item && items[1..] + Waiting() == old(queue)
      ensures MutationsOf(record) == Content(items) && Logical(items) == logical && Commands(items) == {}
      ensures 1 <= |items| == logical <= MAX_COALESCED && |queue| <= |old(queue)|
      ensures !IsBatch(item) ==> record == item.record && items == [item]
      ensures IsBatch(item) ==>
                |items| == MAX_COALESCED || deferred.Some? || |items| - 1 == Min(visible, |old(queue)|)
    {
      record, logical := item.record, 1;
      ghost var taken: seq<Item> := [];
      if IsBatch(item) {
        var merged;
        merged, logical, taken := Coalesce(item.record.mutations, Min(visible, |queue|));
        record := Batch(merged);
      }
      FrameItems(item, taken);
      items := [item] + taken;
    }

    method AppendToFile(record: Record, logical: nat)
      requires Filed() && logical > 0
      modifies this`journal, this`written, this`pendingSinceFlush, this`recordsSinceSnapshot
      ensures Filed() && written == old(written) + [record]
      ensures pendingSinceFlush == old(pendingSinceFlush) + logical
      ensures recordsSinceSnapshot == old(recordsSinceSnapshot) + logical
    {
      journal, written := journal + [record], written + [record];
      pendingSinceFlush := pendingSinceFlush + logical;
      recordsSinceSnapshot := recordsSinceSnapshot + logical;
    }

    /** One frame for these items, and the counters that go with it. */
    method AppendFrame(record: Record, logical: nat, ghost items: seq<Item>)
      requires Counted() && Filed() && Since() && logical > 0
      requires MutationsOf(record) == Content(items) && Logical(items) == logical && Commands(items) == {}
      modifies this`journal, this`written, this`physicalRecordsWritten, this`coalescedBatchCount, this`processed
      modifies this`pendingSinceFlush, this`recordsSinceSnapshot
      ensures Counted() && Filed() && Since() && processed == old(processed) + items
      ensures Logical(processed) == Logical(old(processed)) + logical
      ensures written == old(written) + [record] && Commands(processed) == Commands(old(processed))
      ensures Now() == old(Now()).(pending := old(pendingSinceFlush) + logical,
                                   since := old(recordsSinceSnapshot) + logical)
    {
      ItemsAppend(processed, items);
      WriteOne(written, record);
      AppendToFile(record, logical);
      physicalRecordsWritten := physicalRecordsWritten + 1;
      coalescedBatchCount := coalescedBatchCount + (logical - 1);
      processed := processed + items;
    }

    method FlushAndRotateIfDue(bytesFull: bool, capture: Snapshot)
      requires Filed() && Since()
      modifies this`journal, this`pendingSinceFlush, this`recordsSinceSnapshot, this`flushed, this`rotated
      modifies this`snapshot, this`snapshotCount, this`flushedAt, this`capturedAt
      ensures Filed() && Since()
      ensures Now() == Balanced(old(Now()), 0, |written|, old(pendingSinceFlush) >= flushEvery,
                                bytesFull || (old(recordsSinceSnapshot) >= snapshotEvery && Roomy()), capture)
    {
      if pendingSinceFlush >= flushEvery {
        FlushIfPending();
      }
      if SnapshotDue(bytesFull) {
        WriteSnapshotAndRotate(capture);
      }
    }

    /** One frame, and a flush and a snapshot where they are due. */
    method WriteFrame(record: Record, logical: nat, ghost items: seq<Item>, bytesFull: bool, capture: Snapshot)
      requires Counted() && Filed() && Since() && logical > 0
      requires MutationsOf(record) == Content(items) && Logical(items) == logical && Commands(items) == {}
      modifies this`journal, this`written, this`physicalRecordsWritten, this`coalescedBatchCount, this`processed
      modifies this`pendingSinceFlush, this`recordsSinceSnapshot, this`flushed, this`rotated, this`snapshot
      modifies this`snapshotCount, this`flushedAt, this`capturedAt
      ensures Counted() && Filed() && Since() && processed == old(processed) + items
      ensures Logical(processed) == Logical(old(processed)) + logical
      ensures written == old(written) + [record] && Commands(processed) == Commands(old(processed))
      ensures Now() == Balanced(old(Now()), logical, |written|, old(pendingSinceFlush) + logical >= flushEvery,
                                bytesFull || (old(recordsSinceSnapshot) + logical >= snapshotEvery && Roomy()), capture)
    {
      AppendFrame(record, logical, items);
      FlushAndRotateIfDue(bytesFull, capture);
    }

    /** A record and the batches merged into it become one frame. */
    method WriteRecord(item: Item, visible: nat, bytesFull: bool, capture: Snapshot) returns (ghost items: seq<Item>)
      requires item.Rec? && deferred.None? && Counted() && Filed() && Since()
      modifies this`queue, this`deferred, this`journal, this`written, this`physicalRecordsWritten
      modifies this`coalescedBatchCount, this`processed, this`pendingSinceFlush, this`recordsSinceSnapshot
      modifies this`flushed, this`rotated, this`snapshot, this`snapshotCount, this`flushedAt, this`capturedAt
      ensures Counted() && Filed() && Since()
      ensures processed == old(processed) + items && Commands(processed) == Commands(old(processed))
      ensures 1 <= |items| <= MAX_COALESCED && items[0] == item && items[1..] + Waiting() == old(queue)
      ensures Logical(processed) == Logical(old(processed)) + |items| && |queue| <= |old(queue)|
      ensures |written| == |old(written)| + 1 && old(written) <= written
      ensures !IsBatch(item) ==> Last(written) == item.record && items == [item]
      ensures IsBatch(item) ==>
                |items| == MAX_COALESCED || deferred.Some? || |items| - 1 == Min(visible, |old(queue)|)
      ensures Now() == Balanced(old(Now()), |items|, |written|, old(pendingSinceFlush) + |items| >= flushEvery,
                                bytesFull || (old(recordsSinceSnapshot) + |items| >= snapshotEvery && Roomy()), capture)
    {
      var record, logical;
      record, logical, items := Gather(item, visible);
      WriteFrame(record, logical, items, bytesFull, capture);
    }

    method FlushForCommand(stop: bool, bytesFull: bool, capture: Snapshot)
      requires Filed() && Since()
      modifies this`journal, this`pendingSinceFlush, this`recordsSinceSnapshot, this`flushed, this`rotated
      modifies this`snapshot, this`snapshotCount, this`flushedAt, this`capturedAt
      ensures Filed() && Since() && flushed == |written|
      ensures Now() == Balanced(old(Now()), 0, |written|, true,
                                stop || bytesFull || (old(recordsSinceSnapshot) >= snapshotEvery && Roomy()), capture)
    {
      FlushIfPending();
      if stop || SnapshotDue(bytesFull) {
        WriteSnapshotAndRotate(capture);
      }
    }

    method Acknowledge(item: Item)
      requires !item.Rec? && Counted() && Since() && done == Commands(processed)
      modifies this`processed, this`done
      ensures Counted() && Since() && done == Commands(processed)
      ensures processed == old(processed) + [item] && item.id in done
    {
      ItemSnoc(processed, item);
      done := done + {item.id};
      processed := processed + [item];
    }

    /** A flush or stop command: everything written so far leaves the buffer before the event is set. */
    method Command(item: Item, bytesFull: bool, capture: Snapshot)
      requires !item.Rec? && !failed && flushEvery > 0 && enqueued == processed + [item] + Waiting()
      requires Counted() && Filed() && Since() && done == Commands(processed) && |queue| <= QUEUE_CAPACITY
      modifies this`journal, this`processed, this`pendingSinceFlush, this`recordsSinceSnapshot
      modifies this`flushed, this`rotated, this`snapshot, this`snapshotCount, this`done, this`stopped
      modifies this`flushedAt, this`capturedAt
      ensures Valid()
      ensures processed == old(processed) + [item] && item.id in done && flushed == |written|
      ensures item.StopCommand? ==> stopped && journal == [] && snapshot == Some(capture)
      ensures item.FlushCommand? ==> stopped == old(stopped)
      ensures Now() == Balanced(old(Now()), 0, |written|, true, item.StopCommand? || bytesFull
                                || (old(recordsSinceSnapshot) >= snapshotEvery && Roomy()), capture)
    {
      FlushForCommand(item.StopCommand?, bytesFull, capture);
      Acknowledge(item);
      if item.StopCommand? {
        stopped := true;
      }
    }

    method ProcessRecord(i: Item, visible: nat, bytesFull: bool, capture: Snapshot) returns (ghost n: nat)
      requires i.Rec? && deferred.None? && !failed && flushEvery > 0 && |queue| <= QUEUE_CAPACITY
      requires enqueued == processed + [i] + Waiting() && done == Commands(processed)
      requires Counted() && Filed() && Since()
      modifies this`queue, this`deferred, this`journal, this`written, this`physicalRecordsWritten
      modifies this`coalescedBatchCount, this`processed, this`pendingSinceFlush, this`recordsSinceSnapshot
      modifies this`flushed, this`rotated, this`snapshot, this`snapshotCount, this`flushedAt, this`capturedAt
      ensures Valid() && old(processed) < processed && old(written) <= written && |written| == |old(written)| + 1
      ensures Logical(processed) == Logical(old(processed)) + n
      ensures Now() == Balanced(old(Now()), n, |written|, old(pendingSinceFlush) + n >= flushEvery,
                                bytesFull || (old(recordsSinceSnapshot) + n >= snapshotEvery && Roomy()), capture)
    {
      ghost var items := WriteRecord(i, visible, bytesFull, capture);
      n := |items|;
      assert enqueued == processed + Waiting() by {
        NoneDeferred(old(queue));
        Regroup(old(processed), i, items, Waiting(), old(queue));
      }
    }

    /** An item has been taken off: n says how many records it and those merged into it are. */
    method Process(i: Item, visible: nat, bytesFull: bool, capture: Snapshot) returns (ghost n: nat)
      requires !failed && flushEvery > 0 && (i.Rec? ==> deferred.None?) && |queue| <= QUEUE_CAPACITY
      requires enqueued == processed + [i] + Waiting() && done == Commands(processed)
      requires Counted() && Filed() && Since()
      modifies this`queue, this`deferred, this`journal, this`written, this`physicalRecordsWritten
      modifies this`coalescedBatchCount, this`processed, this`pendingSinceFlush, this`recordsSinceSnapshot
      modifies this`flushed, this`rotated, this`snapshot, this`snapshotCount, this`done, this`stopped
      modifies this`flushedAt, this`capturedAt
      ensures Valid() && old(processed) < processed && old(written) <= written && |written| <= |old(written)| + 1
      ensures Logical(processed) == Logical(old(processed)) + n
      ensures Now() == Balanced(old(Now()), n, |written|, !i.Rec? || old(pendingSinceFlush) + n >= flushEvery,
                                i.StopCommand? || bytesFull
                                || (old(recordsSinceSnapshot) + n >= snapshotEvery && Roomy()), capture)
    {
      if i.Rec? {
        n := ProcessRecord(i, visible, bytesFull, capture);
      } else {
        Command(i, bytesFull, capture);
        n := 0;
        ItemSnoc(old(processed), i);
      }
    }

    /** The idle interval has passed without an item. */
    method IdleTurn(capture: Snapshot)
      requires Filed() && Since()
      modifies this`journal, this`pendingSinceFlush, this`recordsSinceSnapshot, this`flushed, this`rotated
      modifies this`snapshot, this`snapshotCount, this`flushedAt, this`capturedAt
      ensures Filed() && Since() && flushed == |written|
      ensures Now() == Balanced(old(Now()), 0, |written|, true, old(recordsSinceSnapshot) >= snapshotEvery, capture)
    {
      FlushIfPending();
      if recordsSinceSnapshot >= snapshotEvery {
        WriteSnapshotAndRotate(capture);
      }
    }

    /**
     One turn of the loop of _run; capture is what the snapshot provider returns should it be asked. A
     snapshot replaces the last one exactly when a stop asks for it, or the journal file is full, or at
     least snapshotEvery records have been written since the last one, this turn's included, and the writer
     is idle or less than a quarter of the queue is taken.
     */
    method RunOnce(visible: nat, bytesFull: bool, capture: Snapshot)
      requires Valid() && !stopped
      modifies this`queue, this`deferred, this`journal, this`written, this`physicalRecordsWritten
      modifies this`coalescedBatchCount, this`processed, this`pendingSinceFlush, this`recordsSinceSnapshot
      modifies this`flushed, this`rotated, this`snapshot, this`snapshotCount, this`done, this`stopped
      modifies this`flushedAt, this`capturedAt
      ensures Valid()
      ensures old(processed) <= processed && old(written) <= written && |written| <= |old(written)| + 1
      ensures old(Waiting()) != [] ==> |processed| > |old(processed)|
      ensures old(Waiting()) == [] ==> processed == old(processed)
      ensures |written| - flushed < flushEvery
      ensures var turn, n := old(Waiting()), Logical(processed) - Logical(old(processed));
              var since := old(recordsSinceSnapshot) + n;
              var due := if turn == [] then since >= snapshotEvery
                         else turn[0].StopCommand? || bytesFull
                              || (since >= snapshotEvery && |queue| < QUEUE_CAPACITY / 4);
              var flush := turn == [] || !turn[0].Rec? || old(pendingSinceFlush) + n >= flushEvery;
              && snapshotCount == (if due then old(snapshotCount) + 1 else old(snapshotCount))
              && (due ==> journal == [] && snapshot == Some(capture) && rotated == |written|)
              && (!due ==> rotated == old(rotated) && snapshot == old(snapshot))
              && recordsSinceSnapshot == (if due then 0 else since)
              && pendingSinceFlush == (if flush then 0 else old(pendingSinceFlush) + n)
              && flushed == (if flush || due then |written| else old(flushed))
    {
      var item := Take();
      match item {
        case None =>
          IdleTurn(capture);
        case Some(i) =>
          assert old(Waiting())[0] == i && Now() == old(Now());
          assert enqueued == processed + [i] + Waiting() by {
            TakenFirst(processed, i, Waiting(), old(Waiting()));
          }
          ghost var n := Process(i, visible, bytesFull, capture);
      }
    }

    /**
     The writer dies, with the items of this turn in hand that it is not done with: whoever waits for a
     command is released, and nothing is promised to it.
     */
    method Die(hand: seq<Item>)
      requires !failed && enqueued == processed + hand + Waiting() && done == Commands(processed)
      modifies this`queue, this`deferred, this`done, this`failed
      ensures failed && done == Commands(enqueued) && Waiting() == []
    {
      ItemsAppend(processed, hand);
      ItemsAppend(processed + hand, Waiting());
      failed := true;
      done := done + Commands(hand) + Commands(Waiting());
      queue, deferred := [], None;
    }
  }

  lemma MergeStep(first: seq<Mutation>, all: seq<Item>, k: nat)
    requires k < |all| && IsBatch(all[k]) && AllBatches(all[..k])
    ensures first + Content(all[..k]) + all[k].record.mutations == first + Content(all[..k + 1])
    ensures AllBatches(all[..k + 1])
  {
    assert all[..k + 1] == all[..k] + [all[k]];
    ItemSnoc(all[..k], all[k]);
  }

  predicate AllBatches(items: seq<Item>) {
    forall i :: 0 <= i < |items| ==> IsBatch(items[i])
  }

  lemma {:induction false} BatchCounts(items: seq<Item>)
    requires AllBatches(items)
    ensures Logical(items) == |items| && Commands(items) == {}
  {
    if items != [] {
      BatchCounts(items[..|items| - 1]);
    }
  }

  lemma TakenAndLeft(all: seq<Item>, k: nat, seen: nat)
    requires k <= seen <= |all| && seen <= k + 1
    ensures all[..k] + ((if seen == k + 1 then [all[k]] else []) + all[seen..]) == all
  {
  }

  lemma NoneDeferred(queue: seq<Item>)
    ensures [] + queue == queue
  {
  }

  lemma TakenFirst(processed: seq<Item>, item: Item, left: seq<Item>, waiting: seq<Item>)
    requires [item] + left == waiting
    ensures processed + waiting == processed + [item] + left
  {
  }

  lemma Regroup(processed: seq<Item>, item: Item, items: seq<Item>, waiting: seq<Item>, queue: seq<Item>)
    requires items != [] && items[0] == item && items[1..] + waiting == queue
    ensures processed + [item] + queue == processed + items + waiting && processed < processed + items
  {
    assert items == [item] + items[1..];
  }

  lemma FrameItems(item: Item, taken: seq<Item>)
    requires item.Rec?
    ensures Content([item] + taken) == MutationsOf(item.record) + Content(taken)
    ensures Logical([item] + taken) == 1 + Logical(taken) && Commands([item] + taken) == Commands(taken)
  {
    ItemsAppend([item], taken);
    ItemSnoc([], item);
    assert [] + [item] == [item];
  }

  lemma {:induction false} ItemsAppend(a: seq<Item>, b: seq<Item>)
    ensures Content(a + b) == Content(a) + Content(b)
    ensures Logical(a + b) == Logical(a) + Logical(b)
    ensures Commands(a + b) == Commands(a) + Commands(b)
  {
    if b == [] {
      assert a + b == a;
    } else {
      var front := b[..|b| - 1];
      ItemsAppend(a, front);
      assert a + b == (a + front) + [Last(b)];
      ItemSnoc(a + front, Last(b));
      JoinContent(Content(a), Content(front), if Last(b).Rec? then MutationsOf(Last(b).record) else []);
    }
  }

  lemma JoinContent(a: seq<Mutation>, b: seq<Mutation>, c: seq<Mutation>)
    ensures a + (b + c) == (a + b) + c
  {
  }
}
