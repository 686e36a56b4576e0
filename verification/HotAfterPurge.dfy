/**
 A crash between the first snapshot after a purge and the truncation of the journal. The snapshot holds the
 purged engine, the journal still what led to it before and after the purge, and if neither shows
 traces of legacy users nothing is purged this time: messages the purge had removed can come back.
 */
module HotAfterPurge {
  import opened HotState
  import opened HotIndex
  import opened HotWindow
  import opened HotRooms
  import opened HotPuts
  import opened HotHistory
  import opened HotJournal
  import opened HotOverlap
  import opened HotDurability
  import opened HotShortJournal

  /** With the whole overlap readable the other rooms are the captured ones as well. */
  lemma OtherRoomsBack(e: Engine, slots: seq<Slot>, log: Log, ms: seq<Mutation>, c: Engine)
    requires Running(e, slots, log) && Recorded(e, ms) && Same(Purged, c, Replay(e, ms))
    ensures var r := Replay(c, ms); r.rooms == c.rooms.(privBySurrogate := r.rooms.privBySurrogate)
  {
    RoomsComeBack(e, slots, log, ms);
    SameAfterAll(Purged, c, Replay(e, ms), ms);
  }

  lemma EmptyPlus(had: map<int, Source>, writes: map<int, Source>)
    requires had == map[]
    ensures had + writes == writes
  {
  }

  /** Nothing is purged: the snapshot has no bindings by surrogate, so there are just those written. */
  lemma Unsuspected(s: Sys)
    requires ShortJournal(s) && !Suspect(s)
    ensures StartUp(s) == Recovered(s) && Recovered(s).rooms.privBySurrogate == UserSurrogateWrites(Surviving(s))
  {
    var slots, log := OverlapParts(s);
    OtherRooms(s.base, Surviving(s), s.history[s.readable..s.snap], s.snapshot);
    EmptyPlus(s.snapshot.rooms.privBySurrogate, UserSurrogateWrites(Surviving(s)));
  }

  lemma PutsBack(had: map<Source, Entry>, ms: seq<Mutation>)
    ensures (had + LastPuts(ms)).Keys == had.Keys + SourcesOf(Puts(ms))
  {
    PutAllKeys(Nil, Puts(ms));
  }

  /**
   Recovery then gives back the captured ids and window. Every message put in the surviving journal is
   back, so the messages are those of the purged engine exactly when each of these is retained there as it
   was put last. If legacy users are not suspected again, nothing is purged and the private rooms by
   surrogate are those the journal binds. The other rooms are the captured ones if the journal reaches the
   capture point; if it stops before, users and contexts can fall back to what they had where it stops.
   */
  lemma CrashAfterPurge(e: Engine, events: seq<Event>, s: Sys)
    requires IsRunning(e) && Run(Boot(e), events, s) && s.readable <= s.snap
    requires |MessageSlots(s.history[..s.snap])| <= s.base.window
    ensures var a, b, c, r := Surviving(s), s.history[s.readable..s.snap], s.snapshot, Recovered(s);
            && SameIds(c, r)
            && r.box.msgs.bySource.Keys == c.box.msgs.bySource.Keys + SourcesOf(Puts(a))
            && (r.box.msgs.bySource == c.box.msgs.bySource <==> Retains(c.box.msgs.bySource, LastPuts(a)))
            && (!Suspect(s) ==> StartUp(s) == r && r.rooms.privBySurrogate == UserSurrogateWrites(a))
            && (r.rooms.privBySource == c.rooms.privBySource <==> Agree(UserWrites(a), UserWrites(b)))
            && Between(Unpurged(s, s.readable).rooms, r.rooms, c.rooms)
            && (s.readable == s.snap ==> r.rooms == c.rooms.(privBySurrogate := r.rooms.privBySurrogate))
  {
    ShortJournalKeepsIds(e, events, s);
    ShortJournalState(e, events, s);
    BootInv(e);
    RunKeeps(Boot(e), events, s);
    PutsBack(s.snapshot.box.msgs.bySource, Surviving(s));
    if !Suspect(s) {
      Unsuspected(s);
    }
    if s.readable == s.snap {
      WholeOverlap(s);
    }
  }

  lemma WholeOverlap(s: Sys)
    requires ShortJournal(s) && s.readable == s.snap
    ensures Recovered(s).rooms == s.snapshot.rooms.(privBySurrogate := Recovered(s).rooms.privBySurrogate)
  {
    var slots, log :| Running(s.base, slots, log);
    RecordedSoFar(s, s.snap);
    Coarser(Kept(s), s.snapshot, Unpurged(s, s.snap));
    OtherRoomsBack(s.base, slots, log, Surviving(s), s.snapshot);
  }

  // ---- a run in which a purged message comes back ----

  /** An engine an earlier release has left, with one private room bound by surrogate. */
  function Inherited(): Engine {
    Empty(1).(rooms := Rooms(map[], map[1_000_000_001 := "r"], map[], map[]))
  }

  const Arrived := Entry("m", "m", 3_000_000_001, "", "", "", "", 0, 0, "")

  /** A message arrives and reaches the journal file. */
  function Arrival(): seq<Mutation> {
    [IdPut(Message, "m", 3_000_000_001), MessagePut(Arrived)]
  }

  function Arriving(): seq<Event> {
    [Mutate(Arrival()[0]), Mutate(Arrival()[1]), Enqueue(2), Write(2), Flush(2)]
  }

  /** Then a restart purges it, and a crash follows the replacement of the snapshot. */
  function PurgedRun(): seq<Event> {
    Arriving() + [Restart(false), ReplaceSnapshot]
  }

  lemma InheritedRuns()
    ensures IsRunning(Inherited())
  {
    var none: seq<Slot> := [];
    assert Names(none) == [];
    assert Running(Inherited(), none, Nil);
  }

  lemma Allocated() returns (e: Engine)
    ensures e == Apply(Inherited(), Arrival()[0]) && Recordable(Inherited(), Arrival()[0])
    ensures e.box == Mailbox(IdTable(1, map["m" := 3_000_000_001], map[3_000_000_001 := "m"]), ["m"], EmptyTables)
    ensures e.rooms == Inherited().rooms && e.window == 1
  {
    e := Apply(Inherited(), Arrival()[0]);
    assert [] + ["m"] == ["m"];
  }

  lemma TwoMutations() returns (s: Sys)
    ensures Run(Boot(Inherited()), [Mutate(Arrival()[0]), Mutate(Arrival()[1])], s)
    ensures s == Boot(Inherited()).(history := Arrival(), live := s.live)
  {
    var s0 := Boot(Inherited());
    var e := Allocated();
    var s1 := Do(s0, Mutate(Arrival()[0]));
    assert Recordable(e, Arrival()[1]);
    s := Do(s1, Mutate(Arrival()[1]));
    RunOne(s0, Mutate(Arrival()[0]));
    RunOne(s1, Mutate(Arrival()[1]));
    RunThrough(s0, [Mutate(Arrival()[0])], s1, [Mutate(Arrival()[1])], s);
  }

  /** Everything made so far is enqueued, written and flushed. */
  lemma Settles(s: Sys, n: nat) returns (t: Sys)
    requires Placed(s) && s.queued <= n == |s.history| && !s.rotating && !s.torn
    ensures t == s.(queued := n, written := n, readable := n) && Placed(t)
    ensures Run(s, [Enqueue(n), Write(n), Flush(n)], t)
  {
    var q := Do(s, Enqueue(n));
    var w := Do(q, Write(n));
    t := Do(w, Flush(n));
    RunOne(s, Enqueue(n));
    RunOne(q, Write(n));
    RunOne(w, Flush(n));
    RunThrough(q, [Write(n)], w, [Flush(n)], t);
    RunThrough(s, [Enqueue(n)], q, [Write(n), Flush(n)], t);
  }

  /** Both mutations are made and reach the file. */
  lemma Arrives() returns (s: Sys)
    ensures Run(Boot(Inherited()), Arriving(), s)
    ensures s.base == s.turn == s.snapshot == Inherited() && s.history == Arrival()
    ensures s.readable == s.written == s.queued == 2 && s.at == s.snap == 0 && !s.torn && !s.rotating && s.clean
  {
    var t := TwoMutations();
    s := Settles(t, 2);
    RunThrough(Boot(Inherited()), [Mutate(Arrival()[0]), Mutate(Arrival()[1])], t, [Enqueue(2), Write(2), Flush(2)], s);
  }

  lemma PurgedThenCaptured(s: Sys) returns (t: Sys)
    requires Placed(s) && s.base == s.turn == s.snapshot == Inherited() && s.history == Arrival()
    requires s.readable == s.written == s.queued == 2 && s.at == s.snap == 0 && !s.torn && !s.rotating && s.clean
    ensures Run(s, [Restart(false), ReplaceSnapshot], t)
    ensures t.history == Arrival() && t.readable == t.snap == 2 && t.base == Inherited() && t.live == t.snapshot
    ensures t.snapshot == Purge(t.snapshot)
  {
    assert s.history[..0] == [];
    assert 1_000_000_001 in s.snapshot.rooms.privBySurrogate;
    assert Suspect(s);
    var r := Do(s, Restart(false));
    assert s.history[..2] == Arrival();
    t := Do(r, ReplaceSnapshot);
    RunOne(s, Restart(false));
    RunOne(r, ReplaceSnapshot);
    RunThrough(s, [Restart(false)], r, [ReplaceSnapshot], t);
  }

  lemma OneSlot()
    ensures |MessageSlots(Arrival())| == 1 && SourcesOf(Puts(Arrival())) == {"m"} && !AnyLegacy(Arrival())
  {
    var ms := Arrival();
    assert ms[1..] == [ms[1]] && ms[1..][1..] == [];
    assert Puts(ms) == [Arrived];
  }

  lemma RunsToCapture() returns (s: Sys)
    ensures Run(Boot(Inherited()), PurgedRun(), s)
    ensures s.history == Arrival() && s.readable == s.snap == 2 && s.base == Inherited() && s.live == s.snapshot
    ensures s.snapshot == Purge(s.snapshot)
  {
    var t := Arrives();
    s := PurgedThenCaptured(t);
    RunThrough(Boot(Inherited()), Arriving(), t, [Restart(false), ReplaceSnapshot], s);
  }

  /**
   So a message that was purged can be back after the next start: the live engine has none when the
   process dies, start-up brings back the one in the journal and purges nothing.
   */
  lemma PurgedMessageComesBack() returns (s: Sys)
    ensures IsRunning(Inherited()) && Run(Boot(Inherited()), PurgedRun(), s)
    ensures s.live.box.msgs.bySource == map[] && !Suspect(s)
    ensures StartUp(s).box.msgs.bySource.Keys == {"m"}
  {
    InheritedRuns();
    s := RunsToCapture();
    OneSlot();
    assert s.history[..2] == Arrival();
    CrashAfterPurge(Inherited(), PurgedRun(), s);
  }
}
