/** Start-up on the engine itself: snapshot file, journal file, purge, window. */
module HotStartUp {
  import opened Seqs
  import opened HotState
  import opened HotJournal
  import opened HotSnapshot
  import opened HotRecovery
  import opened HotEngine

  /** The window while a snapshot is replayed over: the snapshot's own, if it has one. */
  function LoadedWindow(inSnapshot: int, configured: int): (w: int)
    ensures w > 0
  {
    NormalizeWindow(if inSnapshot != 0 then inSnapshot else NormalizeWindow(configured))
  }

  /** build_runtime_hot_stores: what start-up makes of the snapshot file and the journal file. */
  method BuildRuntimeHotStores(snapshot: Option<Snapshot>, records: seq<Record>, windowSize: int)
    returns (e: RuntimeStateEngine)
    ensures fresh(e) && e.Valid() && e.journal == []
    ensures snapshot.Some? ==>
              var s := snapshot.value.(window := LoadedWindow(snapshot.value.window, windowSize));
              StartsUp(s, records, NormalizeWindow(windowSize), e.State())
    ensures snapshot.None? ==>
              var w := NormalizeWindow(windowSize);
              e.State() == Finish(ReplayRecords(Empty(w), records), AnyLegacy(Mutations(records)), w)
    ensures e.rebuilds == [] || e.rebuilds == [e.message.forward]
  {
    e := LoadAll(snapshot, windowSize);
    ghost var loaded := e.State();
    ReplayAndFinish(e, records, windowSize);
    if snapshot.Some? {
      var s := snapshot.value.(window := LoadedWindow(snapshot.value.window, windowSize));
      StartedUp(s, loaded, records, NormalizeWindow(windowSize), e.State());
    }
  }

  method ReplayAndFinish(e: RuntimeStateEngine, records: seq<Record>, windowSize: int)
    requires e.Valid() && e.rebuilds == []
    modifies e
    ensures e.Valid() && e.journal == old(e.journal)
    ensures e.State() == Finish(ReplayRecords(old(e.State()), records),
                                old(e.legacySeen) || AnyLegacy(Mutations(records)), NormalizeWindow(windowSize))
    ensures e.rebuilds == [] || e.rebuilds == [e.message.forward]
  {
    e.ReplayJournal(records);
    FinishStartUp(e, windowSize);
  }

  lemma StartedUp(s: Snapshot, l: Engine, records: seq<Record>, window: int, r: Engine)
    requires window > 0 && Loaded(s, l) && l.window > 0
    requires r == Finish(ReplayRecords(l, records), LegacySeen(s, Mutations(records)), window)
    ensures StartsUp(s, records, window, r)
  {
  }

  /** The engine with the snapshot, if there is one, in it. */
  method LoadAll(snapshot: Option<Snapshot>, windowSize: int) returns (e: RuntimeStateEngine)
    ensures fresh(e) && e.Valid() && e.journal == [] && e.rebuilds == []
    ensures snapshot.None? ==> e.State() == Empty(NormalizeWindow(windowSize)) && !e.legacySeen
    ensures snapshot.Some? ==>
              && Loaded(snapshot.value.(window := LoadedWindow(snapshot.value.window, windowSize)), e.State())
              && e.legacySeen == (snapshot.value.privBySurrogate != map[])
  {
    e := new RuntimeStateEngine(windowSize);
    if snapshot.Some? {
      e.LoadSnapshotPayload(snapshot.value);
      LoadedByParts(e, snapshot.value);
    }
  }

  /** The purge, if it is due, and the configured window. */
  method FinishStartUp(e: RuntimeStateEngine, windowSize: int)
    requires e.Valid()
    modifies e
    ensures e.Valid() && e.State() == Finish(old(e.State()), old(e.legacySeen), NormalizeWindow(windowSize))
    ensures e.journal == old(e.journal)
    ensures e.rebuilds == old(e.rebuilds)
                          + (if old(|e.order|) > NormalizeWindow(windowSize) then [e.message.forward] else [])
  {
    if e.legacySeen {
      e.PurgeLegacyUserDependentState();
    }
    e.SetMessageWindowSize(windowSize);
    var r := e.RebuildMessageWindow();
  }
}
