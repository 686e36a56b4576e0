/**
 Recovery when the snapshot is newer than the start of the journal.

 The writer thread captures the live engine while records are still queued, so the journal that
 survives repeats mutations whose effect the snapshot already has. Here `ms` is that overlap: it led
 from a running engine e to the captured engine S, and is now replayed over S.
 */
module HotOverlap {
  import opened HotState
  import opened HotIndex
  import opened HotWindow
  import opened HotSnapshot
  import opened HotRooms
  import opened HotPuts
  import opened HotHistory

  // ---- an overlap with at most a window of message allocations ----

  /** Every mapping the run would create is there already. */
  ghost predicate Known(t: Engine, ms: seq<Mutation>) {
    forall i :: 0 <= i < |ms| && ms[i].IdPut? ==> ms[i].source in t.Table(ms[i].ns).forward
  }

  predicate OneOwner(all: seq<Slot>) {
    forall i, j :: 0 <= i < j < |all| ==> all[i].surrogate != all[j].surrogate
  }

  ghost predicate Owned(log: Log, all: seq<Slot>) {
    forall k :: k in BySurrogate(log) ==> Slot(BySurrogate(log)[k].source, k) in all
  }

  ghost predicate PutsFrom(puts: seq<Entry>, all: seq<Slot>) {
    forall p :: p in puts ==> p.key == p.source && Slot(p.source, p.surrogate) in all
  }

  lemma SameOwner(all: seq<Slot>, x: Source, y: Source, k: int)
    requires OneOwner(all) && Slot(x, k) in all && Slot(y, k) in all
    ensures x == y
  {
    var i :| 0 <= i < |all| && all[i] == Slot(x, k);
    var j :| 0 <= j < |all| && all[j] == Slot(y, k);
    assert all[i].surrogate == all[j].surrogate == k;
    assert i == j;
  }

  lemma PutStaysOwned(log: Log, all: seq<Slot>, p: Entry)
    requires WellFormed(log) && OneOwner(all) && Owned(log, all) && Slot(p.source, p.surrogate) in all
    ensures p.surrogate in BySurrogate(log) ==> BySurrogate(log)[p.surrogate].source == p.source
    ensures Owned(PutLog(log, p), all)
  {
    if p.surrogate in BySurrogate(log) {
      SameOwner(all, p.source, BySurrogate(log)[p.surrogate].source, p.surrogate);
    }
    if p.source in BySource(log) {
      WithoutBySurrogate(log, p.source);
    } else {
      WithoutAbsent(log, p.source);
    }
  }

  lemma FirstPutFrom(ms: seq<Mutation>, all: seq<Slot>)
    requires ms != [] && PutsFrom(Puts(ms), all)
    ensures PutsFrom(Puts(ms[1..]), all)
    ensures ms[0].MessagePut? ==>
            ms[0].entry.key == ms[0].entry.source && Slot(ms[0].entry.source, ms[0].entry.surrogate) in all
  {
    assert forall p :: p in Puts(ms[1..]) ==> p in Puts(ms);
    if ms[0].MessagePut? {
      assert ms[0].entry in Puts(ms);
    }
  }

  /** One mutation whose mapping is known. */
  lemma KnownStep(t: Engine, slots: seq<Slot>, log: Log, all: seq<Slot>, m: Mutation) returns (log': Log)
    requires t.window > 0 && Shape(t.box, t.window, slots, log) && OneOwner(all) && Owned(log, all)
    requires m.IdPut? ==> m.source in t.Table(m.ns).forward
    requires m.MessagePut? ==> m.entry.key == m.entry.source && Slot(m.entry.source, m.entry.surrogate) in all
    ensures var r := Apply(t, m);
            && Shape(r.box, t.window, slots, log') && Owned(log', all)
            && r.box.ids.counter == t.box.ids.counter
            && r.room == t.room && r.thread == t.thread && r.context == t.context &&
                r.box.ids.forward == t.box.ids.forward
    ensures log' == if m.MessagePut? then PutLog(log, m.entry) else log
  {
    if m.MessagePut? {
      PutStaysOwned(log, all, m.entry);
      PostShape(t.box, t.window, slots, log, m.entry);
      log' := PutLog(log, m.entry);
    } else {
      log' := log;
    }
  }

  /** With all mappings known, replay only puts messages and binds rooms. */
  lemma {:induction false} ReplayKnown(t: Engine, slots: seq<Slot>, log: Log, all: seq<Slot>, ms: seq<Mutation>)
    requires t.window > 0 && Shape(t.box, t.window, slots, log)
    requires OneOwner(all) && Owned(log, all) && PutsFrom(Puts(ms), all) && Known(t, ms)
    ensures var r := Replay(t, ms);
            && Shape(r.box, t.window, slots, PutAll(log, Puts(ms)))
            && r.box.ids.counter == t.box.ids.counter
            && r.room == t.room && r.thread == t.thread && r.context == t.context
    decreases |ms|
  {
    if ms != [] {
      var m, rest := ms[0], ms[1..];
      FirstPutFrom(ms, all);
      var log' := KnownStep(t, slots, log, all, m);
      assert Known(Apply(t, m), rest) by {
        assert forall i :: 0 <= i < |rest| ==> rest[i] == ms[i + 1];
      }
      ReplayKnown(Apply(t, m), slots, log', all, rest);
      PutAllFirst(log, ms);
    }
  }

  lemma PutAllFirst(log: Log, ms: seq<Mutation>)
    requires ms != []
    ensures PutAll(log, Puts(ms)) == PutAll(if ms[0].MessagePut? then PutLog(log, ms[0].entry) else log, Puts(ms[1..]))
  {
    if ms[0].MessagePut? {
      assert ([ms[0].entry] + Puts(ms[1..]))[1..] == Puts(ms[1..]);
    } else {
      assert [] + Puts(ms[1..]) == Puts(ms[1..]);
    }
  }

  lemma {:induction false} RecordedBinds(e: Engine, ms: seq<Mutation>)
    requires e.window > 0 && Recorded(e, ms)
    ensures BindsRecorded(e.rooms, ms)
    decreases |ms|
  {
    if ms != [] {
      RecordedBinds(Apply(e, ms[0]), ms[1..]);
    }
  }

  lemma RoomsComeBack(e: Engine, slots: seq<Slot>, log: Log, ms: seq<Mutation>)
    requires Running(e, slots, log) && Recorded(e, ms)
    ensures Replay(Replay(e, ms), ms).rooms == Replay(e, ms).rooms
  {
    RunKeepsRunning(e, slots, log, ms);
    RecordedBinds(e, ms);
    RoomsAlone(e, ms);
    RoomsAlone(Replay(e, ms), ms);
    RoomsReplayHarmless(e.rooms, ms);
  }

  lemma OneOwnerOverall(slots: seq<Slot>, more: seq<Slot>, counter: nat)
    requires Distinct(slots) && Below(slots, counter) && Consecutive(more, counter)
    ensures OneOwner(slots + more)
  {
  }

  lemma RecentKeepsNew(slots: seq<Slot>, more: seq<Slot>, window: nat, s: Slot)
    requires |more| <= window && s in more
    ensures s in Recent(slots + more, window)
  {
    var i :| 0 <= i < |more| && more[i] == s;
    var all := slots + more;
    assert all[|slots| + i] == s;
    if |all| > window {
      assert Recent(all, window)[|slots| + i - (|all| - window)] == s;
    }
  }

  lemma AllKnown(e: Engine, slots: seq<Slot>, log: Log, ms: seq<Mutation>)
    requires Running(e, slots, log) && Recorded(e, ms) && |MessageSlots(ms)| <= e.window
    ensures Known(Replay(e, ms), ms)
  {
    var s := Replay(e, ms);
    RunKeepsRunning(e, slots, log, ms);
    var kept := Recent(slots + MessageSlots(ms), e.window);
    forall i | 0 <= i < |ms| && ms[i].IdPut?
      ensures ms[i].source in s.Table(ms[i].ns).forward
    {
      if ms[i].ns.Message? {
        MessageSlotOf(ms, i);
        RecentKeepsNew(slots, MessageSlots(ms), e.window, Slot(ms[i].source, ms[i].surrogate));
        var j :| 0 <= j < |kept| && kept[j] == Slot(ms[i].source, ms[i].surrogate);
        MapsAt(kept, j);
      } else {
        AllocatedStays(e, ms, i);
      }
    }
  }

  lemma MappedIsOwned(slots: seq<Slot>, log: Log, all: seq<Slot>)
    requires WellFormed(log) && Mapped(slots, log) && forall s :: s in slots ==> s in all
    ensures Owned(log, all)
  {
    forall k | k in BySurrogate(log)
      ensures Slot(BySurrogate(log)[k].source, k) in all
    {
      BySurrogateAt(log, k);
      var i := ForwardFrom(slots, BySurrogate(log)[k].source);
      assert slots[i] in slots;
    }
  }

  /** What comes out of the second replay, and what the captured log is made of. */
  lemma ShortOverlapShape(e: Engine, slots: seq<Slot>, log: Log, ms: seq<Mutation>) returns (gone: set<Source>)
    requires Running(e, slots, log) && Recorded(e, ms) && |MessageSlots(ms)| <= e.window
    ensures var s, kept := Replay(e, ms), Recent(slots + MessageSlots(ms), e.window);
            var left := Drop(PutAll(log, Puts(ms)), gone);
            && Shape(s.box, e.window, kept, left)
            && Replay(s, ms) == s.(box := Boxed(s.box.ids.counter, kept, PutAll(left, Puts(ms))))
  {
    var s, kept := Replay(e, ms), Recent(slots + MessageSlots(ms), e.window);
    var all := slots + MessageSlots(ms);
    RunKeepsRunning(e, slots, log, ms);
    DropEmpty(log);
    gone := RunLog(slots, log, log, {}, ms, e.window);
    var left := Drop(PutAll(log, Puts(ms)), gone);
    AllKnown(e, slots, log, ms);
    OneOwnerOverall(slots, MessageSlots(ms), e.box.ids.counter);
    MappedIsOwned(kept, left, all);
    PutsOwned(e, slots, log, ms);
    ReplayKnown(s, kept, left, all, ms);
    RoomsComeBack(e, slots, log, ms);
  }

  /**
   An overlap with at most a window of message allocations is replayed without effect exactly when
   every message put in it is still retained at capture.
   */
  lemma ShortOverlap(e: Engine, slots: seq<Slot>, log: Log, ms: seq<Mutation>)
    requires Running(e, slots, log) && Recorded(e, ms) && |MessageSlots(ms)| <= e.window
    ensures Replay(Replay(e, ms), ms) == Replay(e, ms) <==>
            forall p :: p in Puts(ms) ==> p.source in Replay(e, ms).box.msgs.bySource
  {
    var gone := ShortOverlapShape(e, slots, log, ms);
    var s := Replay(e, ms);
    var left := Drop(PutAll(log, Puts(ms)), gone);
    ReplayedPuts(log, Puts(ms), gone);
    PutAllKeys(left, Puts(ms));
    assert (forall p :: p in Puts(ms) ==> p.source in BySource(left)) <==>
        SourcesOf(Puts(ms)) <= BySource(left).Keys by {
      if forall p :: p in Puts(ms) ==> p.source in BySource(left) {
        assert forall x :: x in SourcesOf(Puts(ms)) ==> x in BySource(left).Keys;
      } else {
        var p :| p in Puts(ms) && p.source !in BySource(left);
        assert p.source in SourcesOf(Puts(ms));
      }
    }
    if PutAll(left, Puts(ms)) != left {
      assert BySource(PutAll(left, Puts(ms))) != BySource(left);
    }
  }
}
