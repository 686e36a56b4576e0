/**
 A crash that leaves a journal shorter than the snapshot: only the first part `a` of the overlap a + b is
 replayed over the engine captured after all of it.
 */
module HotShortJournal {
  import opened HotState
  import opened HotIndex
  import opened HotWindow
  import opened HotSnapshot
  import opened HotJournal
  import opened HotRecovery
  import opened HotRooms
  import opened HotPuts
  import opened HotHistory
  import opened HotOverlap
  import opened HotDurability

  predicate SameIds(c: Engine, r: Engine) {
    && r.room == c.room && r.thread == c.thread && r.context == c.context
    && r.box.ids == c.box.ids && r.box.order == c.box.order
  }

  lemma SameSlots(a: Mailbox, b: Mailbox, window: int, slotsA: seq<Slot>, logA: Log, slotsB: seq<Slot>, logB: Log)
    requires Shape(a, window, slotsA, logA) && Shape(b, window, slotsB, logB) && SameWindow(a, b)
    ensures slotsA == slotsB
  {
    assert Names(slotsA) == Names(slotsB);
    forall i | 0 <= i < |slotsA|
      ensures slotsA[i] == slotsB[i]
    {
      assert Names(slotsA)[i] == Names(slotsB)[i];
      MapsAt(slotsA, i);
      MapsAt(slotsB, i);
    }
  }

  lemma KnownAlike(s: Engine, c: Engine, a: seq<Mutation>, b: seq<Mutation>)
    requires Known(s, a + b) && Same(Purged, c, s)
    ensures Known(c, a)
  {
    assert forall i :: 0 <= i < |a| ==> a[i] == (a + b)[i];
  }

  /** The engine c captured after a + b, apart from what a purge or a refill may have changed in between. */
  ghost predicate Captured(e: Engine, slots: seq<Slot>, log: Log, a: seq<Mutation>, b: seq<Mutation>, c: Engine) {
    && Running(e, slots, log) && Recorded(e, a + b) && |MessageSlots(a + b)| <= e.window
    && IsRunning(c) && Same(Purged, c, Replay(e, a + b))
  }

  /** What is replayed again are puts and binds only: the captured slots stay, and the list gets its puts. */
  lemma PartialReplay(e: Engine, slots: seq<Slot>, log: Log, a: seq<Mutation>, b: seq<Mutation>, c: Engine)
    returns (kept: Log)
    requires Captured(e, slots, log, a, b, c)
    ensures var r := Replay(c, a);
            && SameIds(c, r) && WellFormed(kept)
            && c.box.msgs == TablesOf(kept) && r.box.msgs == TablesOf(PutAll(kept, Puts(a)))
  {
    var ms := a + b;
    var slotsS, all := Recent(slots + MessageSlots(ms), e.window), slots + MessageSlots(ms);
    RunKeepsRunning(e, slots, log, ms);
    var slotsC, logC :| Running(c, slotsC, logC);
    SameSlots(c.box, Replay(e, ms).box, e.window, slotsC, logC, slotsS, LogAll(slots, log, ms, e.window));
    AllKnown(e, slots, log, ms);
    KnownAlike(Replay(e, ms), c, a, b);
    OneOwnerOverall(slots, MessageSlots(ms), e.box.ids.counter);
    MappedIsOwned(slotsC, logC, all);
    PutsOwned(e, slots, log, ms);
    PutsAppend(a, b);
    ReplayKnown(c, slotsC, logC, all, a);
    kept := logC;
  }

  lemma {:induction false} PutsAppend(a: seq<Mutation>, b: seq<Mutation>)
    ensures Puts(a + b) == Puts(a) + Puts(b)
  {
    if a == [] {
      assert a + b == b;
    } else {
      assert (a + b)[1..] == a[1..] + b;
      PutsAppend(a[1..], b);
      JoinPuts(if a[0].MessagePut? then [a[0].entry] else [], Puts(a[1..]), Puts(b));
    }
  }

  lemma JoinPuts(first: seq<Entry>, rest: seq<Entry>, more: seq<Entry>)
    ensures first + (rest + more) == (first + rest) + more
  {
  }

  /** The messages as they were put last. */
  function LastPuts(ms: seq<Mutation>): map<Source, Entry> {
    BySource(PutAll(Nil, Puts(ms)))
  }

  ghost predicate Retains(had: map<Source, Entry>, puts: map<Source, Entry>) {
    forall x :: x in puts ==> x in had && had[x] == puts[x]
  }

  /**
   Messages: their contents are the captured ones exactly when each message the surviving part puts is
   retained as that part put it last; the list with its order exactly when these are the newest.
   */
  lemma ShortReplayOfMessages(e: Engine, slots: seq<Slot>, log: Log, a: seq<Mutation>, b: seq<Mutation>, c: Engine)
    returns (kept: Log)
    requires Captured(e, slots, log, a, b, c)
    ensures var r := Replay(c, a);
            && WellFormed(kept) && c.box.msgs == TablesOf(kept) && r.box.msgs == TablesOf(PutAll(kept, Puts(a)))
            && (PutAll(kept, Puts(a)) == kept <==> EndsWith(kept, PutAll(Nil, Puts(a))))
            && r.box.msgs.bySource == c.box.msgs.bySource + LastPuts(a)
            && (r.box.msgs.bySource == c.box.msgs.bySource <==> Retains(c.box.msgs.bySource, LastPuts(a)))
  {
    kept := PartialReplay(e, slots, log, a, b, c);
    PutAgain(kept, Puts(a));
    PutAgainBySource(kept, Puts(a));
  }

  // ---- rooms ----

  ghost predicate Contains(had: map<int, Source>, writes: map<int, Source>) {
    forall k :: k in writes ==> k in had && had[k] == writes[k]
  }

  lemma WritesThere(had: map<int, Source>, writes: map<int, Source>)
    ensures had + writes == had <==> Contains(had, writes)
  {
    var all := had + writes;
    if all == had {
      forall k | k in writes
        ensures k in had && had[k] == writes[k]
      {
        assert k in all && all[k] == writes[k];
      }
    }
    if Contains(had, writes) {
      forall k
        ensures k in all <==> k in had
        ensures k in had ==> all[k] == had[k]
      {
      }
      assert all == had;
    }
  }

  /** The bindings that neither a purge nor a refill touches are those after a + b. */
  lemma OtherRooms(e: Engine, a: seq<Mutation>, b: seq<Mutation>, c: Engine)
    requires e.window > 0 && Same(Purged, c, Replay(e, a + b))
    ensures var s := ReplayRooms(e.rooms, a + b);
            && c.rooms == s.(privBySurrogate := c.rooms.privBySurrogate)
            && Replay(c, a).rooms == ReplayRooms(s, a).(privBySurrogate := Replay(c, a).rooms.privBySurrogate)
            && Replay(c, a).rooms.privBySurrogate == c.rooms.privBySurrogate + UserSurrogateWrites(a)
  {
    SameAfterAll(Purged, c, Replay(e, a + b), a);
    RoomsAlone(e, a + b);
    RoomsAlone(Replay(e, a + b), a);
    RoomsAlone(c, a);
    UserSurrogateRoomsAreWrites(c.rooms, a);
  }

  lemma SameContexts(r: Rooms, t: Rooms, m: map<int, Source>)
    requires t == r.(privBySurrogate := m) && ContextIndexed(r)
    ensures ContextIndexed(t)
  {
    forall x | x in t.ctxBySource
      ensures ListedBySurrogate(t, t.ctxBySource[x]) && t.ctxBySource[x].context == x
    {
      assert ListedBySurrogate(r, r.ctxBySource[x]);
    }
    forall k | k in t.ctxBySurrogate
      ensures ListedBySource(t, t.ctxBySurrogate[k]) && t.ctxBySurrogate[k].surrogate == k
    {
      assert ListedBySource(r, r.ctxBySurrogate[k]);
    }
  }

  /** What the surviving part makes of the captured rooms. */
  lemma ShortReplayOfRooms(e: Engine, slots: seq<Slot>, log: Log, a: seq<Mutation>, b: seq<Mutation>, c: Engine)
    requires Captured(e, slots, log, a, b, c)
    ensures var r := Replay(c, a);
            && (r.rooms.privBySource == c.rooms.privBySource <==> Agree(UserWrites(a), UserWrites(b)))
            && (r.rooms.privBySurrogate == c.rooms.privBySurrogate
                <==> Contains(c.rooms.privBySurrogate, UserSurrogateWrites(a)))
            && Between(Replay(e, a).rooms, r.rooms, c.rooms) && ContextIndexed(r.rooms)
  {
    OtherRooms(e, a, b, c);
    WritesThere(c.rooms.privBySurrogate, UserSurrogateWrites(a));
    ShortReplayByUser(e.rooms, a, b);
    RunKeepsRunning(e, slots, log, a + b);
    RecordedBinds(e, a + b);
    RoomsAlone(e, a + b);
    RoomsAlone(e, a);
    ShortReplayOfContextRooms(e.rooms, a, b);
    SameContexts(ReplayRooms(ReplayRooms(e.rooms, a + b), a), Replay(c, a).rooms, Replay(c, a).rooms.privBySurrogate);
  }

  // ---- in the system ----

  /** The readable journal ends at or before the capture point; purges and refills may have come anywhere. */
  ghost predicate ShortJournal(s: Sys) {
    Inv(s) && s.readable <= s.snap && |MessageSlots(s.history[..s.snap])| <= s.base.window
  }

  lemma OverlapParts(s: Sys) returns (slots: seq<Slot>, log: Log)
    requires ShortJournal(s)
    ensures Captured(s.base, slots, log, Surviving(s), s.history[s.readable..s.snap], s.snapshot)
  {
    slots, log :| Running(s.base, slots, log);
    Cut(s.history, 0, s.readable, s.snap);
    RecordedSoFar(s, s.snap);
    assert s.history[..s.snap] == Surviving(s) + s.history[s.readable..s.snap];
    Coarser(Kept(s), s.snapshot, Unpurged(s, s.snap));
  }

  lemma ShortKeepsIds(s: Sys)
    requires ShortJournal(s)
    ensures SameIds(s.snapshot, Recovered(s))
  {
    var slots, log := OverlapParts(s);
    var kept := PartialReplay(s.base, slots, log, Surviving(s), s.history[s.readable..s.snap], s.snapshot);
  }

  /**
   A crash that leaves such a journal: id mappings, counters and the message window are still exactly the
   captured ones, as long as the overlap allocates at most a window of messages.
   */
  lemma ShortJournalKeepsIds(e: Engine, events: seq<Event>, s: Sys)
    requires IsRunning(e) && Run(Boot(e), events, s) && s.readable <= s.snap
    requires |MessageSlots(s.history[..s.snap])| <= s.base.window
    ensures SameIds(s.snapshot, Recovered(s))
  {
    BootInv(e);
    RunKeeps(Boot(e), events, s);
    ShortKeepsIds(s);
  }

  /**
   And exactly when messages and private rooms are the captured ones too: each message and each private
   room the surviving part writes is captured as that part wrote it last. Everything else captured stays.
   */
  lemma ShortJournalState(e: Engine, events: seq<Event>, s: Sys)
    requires IsRunning(e) && Run(Boot(e), events, s) && s.readable <= s.snap
    requires |MessageSlots(s.history[..s.snap])| <= s.base.window
    ensures var a, b, c, r := Surviving(s), s.history[s.readable..s.snap], s.snapshot, Recovered(s);
            && r.box.msgs.bySource == c.box.msgs.bySource + LastPuts(a)
            && (r.box.msgs.bySource == c.box.msgs.bySource <==> Retains(c.box.msgs.bySource, LastPuts(a)))
            && (r.rooms.privBySource == c.rooms.privBySource <==> Agree(UserWrites(a), UserWrites(b)))
            && (r.rooms.privBySurrogate == c.rooms.privBySurrogate
                <==> Contains(c.rooms.privBySurrogate, UserSurrogateWrites(a)))
            && Between(Unpurged(s, s.readable).rooms, r.rooms, c.rooms) && ContextIndexed(r.rooms)
  {
    var a, b := Surviving(s), s.history[s.readable..s.snap];
    BootInv(e);
    RunKeeps(Boot(e), events, s);
    var slots, log := OverlapParts(s);
    var kept := ShortReplayOfMessages(s.base, slots, log, a, b, s.snapshot);
    ShortReplayOfRooms(s.base, slots, log, a, b, s.snapshot);
  }

  /** The real start-up over such files ends there too, or in its purge. */
  lemma StartUpShortJournal(e: Engine, events: seq<Event>, s: Sys, journal: seq<Record>, r: Engine)
    requires IsRunning(e) && Run(Boot(e), events, s) && s.readable <= s.snap
    requires |MessageSlots(s.history[..s.snap])| <= s.base.window
    requires Mutations(journal) == Surviving(s)
    requires StartsUp(Export(s.snapshot), journal, s.base.window, r)
    ensures r == StartUp(s)
  {
    BootInv(e);
    RunKeeps(Boot(e), events, s);
    ShortKeepsIds(s);
    var slots, log :| Running(s.snapshot, slots, log);
    StartUpIs(s, journal, r);
  }
}
