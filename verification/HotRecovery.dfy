/**
 Start-up after a stop or a crash: load the snapshot, replay the surviving journal, purge what depends
 on legacy user ids, and trim to the configured window.
 */
module HotRecovery {
  import opened Seqs
  import opened HotState
  import opened HotIndex
  import opened HotWindow
  import opened HotSnapshot
  import opened HotHistory
  import opened HotOverlap
  import opened HotLongOverlap
  import opened HotJournal

  /** The overlaps whose replay is harmless. */
  ghost predicate Harmless(e: Engine, ms: seq<Mutation>)
    requires e.window > 0
  {
    if |MessageSlots(ms)| <= e.window
    then forall p :: p in Puts(ms) ==> p.source in Replay(e, ms).box.msgs.bySource
    else Refills(MessageSlots(ms), e.window) && PutsSettle(MessageSlots(ms), e.window, ms, 0)
  }

  /**
   For overlaps of at most a window, and for longer ones that refill it, harmless is exactly what replays
   without effect.
   */
  lemma HarmlessExactly(e: Engine, slots: seq<Slot>, log: Log, ms: seq<Mutation>)
    requires Running(e, slots, log) && Recorded(e, ms)
    requires |MessageSlots(ms)| <= e.window || Refills(MessageSlots(ms), e.window)
    ensures Replay(Replay(e, ms), ms) == Replay(e, ms) <==> Harmless(e, ms)
  {
    if |MessageSlots(ms)| <= e.window {
      ShortOverlap(e, slots, log, ms);
    } else {
      LongOverlap(e, slots, log, ms);
    }
  }

  /**
   Overlapping replay: with the engine captured after `ms` and a journal that holds `ms` and then
   `later`, replay over the capture ends exactly where the live engine was after `ms` and `later`.
   */
  lemma OverlappingReplay(e: Engine, slots: seq<Slot>, log: Log, ms: seq<Mutation>, later: seq<Mutation>)
    requires Running(e, slots, log) && Recorded(e, ms) && Harmless(e, ms)
    ensures Replay(Replay(e, ms), ms + later) == Replay(e, ms + later)
  {
    HarmlessExactly(e, slots, log, ms);
    ReplayAppend(Replay(e, ms), ms, later);
    ReplayAppend(e, ms, later);
  }

  /** Any private surrogate binding in the snapshot counts as legacy state. */
  predicate LegacySeen(s: Snapshot, ms: seq<Mutation>) {
    s.privBySurrogate != map[] || AnyLegacy(ms)
  }

  function Finish(e: Engine, legacy: bool, window: int): Engine
    requires window > 0
  {
    var p := if legacy then Purge(e) else e;
    p.(window := window, box := Trim(p.box, window))
  }

  /** r is what build_runtime_hot_stores can come up with. */
  ghost predicate StartsUp(s: Snapshot, journal: seq<Record>, window: int, r: Engine)
    requires window > 0
  {
    exists l :: Loaded(s, l) && l.window > 0 &&
                r == Finish(ReplayRecords(l, journal), LegacySeen(s, Mutations(journal)), window)
  }

  /**
   Recovery is exact: whatever the frames of the journal, start-up ends in the last journalled state,
   minus the message tables and private surrogate bindings when legacy user state is suspected.
   */
  lemma RecoveryIsExact(e: Engine, slots: seq<Slot>, log: Log, ms: seq<Mutation>, later: seq<Mutation>,
                        journal: seq<Record>, r: Engine)
    requires Running(e, slots, log) && Recorded(e, ms + later) && Harmless(e, ms)
    requires Mutations(journal) == ms + later
    requires StartsUp(Export(Replay(e, ms)), journal, e.window, r)
    ensures var final := Replay(e, ms + later);
            r == if LegacySeen(Export(Replay(e, ms)), ms + later) then Purge(final) else final
  {
    var s := Replay(e, ms);
    RecordedSplit(e, ms, later);
    RunKeepsRunning(e, slots, log, ms);
    RunKeepsRunning(e, slots, log, ms + later);
    var l :| Loaded(Export(s), l) && l.window > 0 &&
             r == Finish(ReplayRecords(l, journal), LegacySeen(Export(s), Mutations(journal)), e.window);
    SnapshotRoundTrip(s, LogAll(slots, log, ms, e.window), l);
    GroupingIrrelevant(l, journal);
    OverlappingReplay(e, slots, log, ms, later);
  }

  // ---- the condition on long overlaps is needed ----

  function Fresh(x: Source, k: int): Mutation {
    IdPut(Message, x, Base(Message) + k)
  }

  function SlotFor(x: Source, k: int): Slot {
    Slot(x, Base(Message) + k)
  }

  /** A mailbox of exactly these slots, without messages, in an engine of window 2. */
  ghost predicate Holds(e: Engine, counter: nat, slots: seq<Slot>) {
    e.window == 2 && e.box == Boxed(counter, slots, Nil) && Shape(e.box, 2, slots, Nil)
  }

  lemma HeldOrder(e: Engine, counter: nat, a: Slot, b: Slot)
    requires Holds(e, counter, [a, b])
    ensures e.box.order == [a.source, b.source]
  {
    assert Names([a, b]) == [a.source, b.source];
  }

  lemma FreshStep(e: Engine, counter: nat, a: Slot, b: Slot, x: Source, k: nat)
    requires Holds(e, counter, [a, b]) && x != "" && k > 0
    requires a.source != x && b.source != x && a.surrogate != Base(Message) + k && b.surrogate != Base(Message) + k
    ensures Holds(Apply(e, Fresh(x, k)), Max(counter, k), [b, SlotFor(x, k)])
    ensures k == counter + 1 ==> Recordable(e, Fresh(x, k))
  {
    var slots := [a, b];
    if x in Forward(slots) {
      var i := ForwardFrom(slots, x);
    }
    if Base(Message) + k in Reverse(slots) {
      var i := ReverseFrom(slots, Base(Message) + k);
    }
    ReceiveShape(e.box, 2, slots, Nil, SlotFor(x, k));
    assert Pushed(slots, SlotFor(x, k), 2) == [b, SlotFor(x, k)];
  }

  lemma SkippedStep(e: Engine, counter: nat, a: Slot, b: Slot, x: Source, k: nat)
    requires Holds(e, counter, [a, b]) && (x == a.source || x == b.source)
    ensures Apply(e, Fresh(x, k)) == e
  {
    MapsAt([a, b], if x == a.source then 0 else 1);
  }

  lemma RecordedOne(e: Engine, m: Mutation)
    requires e.window > 0
    ensures Recorded(e, [m]) <==> Recordable(e, m)
  {
    assert [m][1..] == [];
  }

  lemma ReplayTwo(e: Engine, m: Mutation, n: Mutation)
    requires e.window > 0
    ensures Replay(e, [m, n]) == Apply(Apply(e, m), n)
    ensures Recorded(e, [m, n]) <==> Recordable(e, m) && Recordable(Apply(e, m), n)
  {
    assert [m, n] == [m] + [n];
    ReplayAppend(e, [m], [n]);
    RecordedSplit(e, [m], [n]);
    ReplayOne(e, m);
    ReplayOne(Apply(e, m), n);
    RecordedOne(e, m);
    RecordedOne(Apply(e, m), n);
  }

  lemma ReplayThree(e: Engine, m: Mutation, n: Mutation, o: Mutation)
    requires e.window > 0
    ensures Replay(e, [m, n, o]) == Apply(Apply(Apply(e, m), n), o)
    ensures Recorded(e, [m, n, o]) <==>
            Recordable(e, m) && Recordable(Apply(e, m), n) && Recordable(Apply(Apply(e, m), n), o)
  {
    assert [m, n, o] == [m] + [n, o];
    ReplayAppend(e, [m], [n, o]);
    RecordedSplit(e, [m], [n, o]);
    ReplayOne(e, m);
    RecordedOne(e, m);
    ReplayTwo(Apply(e, m), n, o);
  }

  lemma FirstSteps() returns (e: Engine)
    ensures Recorded(Empty(2), [Fresh("a", 1), Fresh("b", 2)])
    ensures e == Replay(Empty(2), [Fresh("a", 1), Fresh("b", 2)])
    ensures Holds(e, 2, [SlotFor("a", 1), SlotFor("b", 2)])
  {
    var ms := [Fresh("a", 1), Fresh("b", 2)];
    var none: seq<Slot> := [];
    assert Forward(none) == map[] && Reverse(none) == map[] && Names(none) == [];
    assert Empty(2).box == Boxed(0, none, Nil);
    ReceiveShape(Empty(2).box, 2, none, Nil, SlotFor("a", 1));
    assert Pushed(none, SlotFor("a", 1), 2) == [SlotFor("a", 1)];
    var e1 := Apply(Empty(2), ms[0]);
    var one := [SlotFor("a", 1)];
    ForwardSnoc(none, SlotFor("a", 1));
    assert none + one == one;
    ReceiveShape(e1.box, 2, one, Nil, SlotFor("b", 2));
    assert Pushed(one, SlotFor("b", 2), 2) == [SlotFor("a", 1), SlotFor("b", 2)];
    e := Apply(e1, ms[1]);
    ReplayTwo(Empty(2), ms[0], ms[1]);
  }

  lemma TwoFresh(e: Engine, counter: nat, a: Slot, b: Slot, x: Source, y: Source) returns (r: Engine)
    requires Holds(e, counter, [a, b]) && x != "" && y != ""
    requires x !in {a.source, b.source} && y !in {b.source, x}
    ensures var ms := [Fresh(x, counter + 1), Fresh(y, counter + 2)];
            r == Replay(e, ms) && Recorded(e, ms)
    ensures Holds(r, counter + 2, [SlotFor(x, counter + 1), SlotFor(y, counter + 2)])
  {
    var ms := [Fresh(x, counter + 1), Fresh(y, counter + 2)];
    assert [a, b][0] == a && [a, b][1] == b;
    FreshStep(e, counter, a, b, x, counter + 1);
    var e1 := Apply(e, ms[0]);
    FreshStep(e1, counter + 1, b, SlotFor(x, counter + 1), y, counter + 2);
    r := Apply(e1, ms[1]);
    ReplayTwo(e, ms[0], ms[1]);
  }

  lemma ReplayMore(e: Engine, m: Mutation, ms: seq<Mutation>)
    requires e.window > 0
    ensures Replay(e, [m] + ms) == Replay(Apply(e, m), ms)
    ensures Recorded(e, [m] + ms) <==> Recordable(e, m) && Recorded(Apply(e, m), ms)
  {
    assert ([m] + ms)[1..] == ms;
  }

  /** Three fresh allocations in a row. */
  lemma ThreeFresh(e: Engine, counter: nat, a: Slot, b: Slot, x: Source, y: Source, z: Source) returns (r: Engine)
    requires Holds(e, counter, [a, b]) && x != "" && y != "" && z != ""
    requires x !in {a.source, b.source} && y !in {b.source, x} && z !in {x, y}
    ensures var ms := [Fresh(x, counter + 1), Fresh(y, counter + 2), Fresh(z, counter + 3)];
            r == Replay(e, ms) && Recorded(e, ms)
    ensures Holds(r, counter + 3, [SlotFor(y, counter + 2), SlotFor(z, counter + 3)])
  {
    var m, ms := Fresh(x, counter + 1), [Fresh(y, counter + 2), Fresh(z, counter + 3)];
    assert [a, b][0] == a && [a, b][1] == b;
    FreshStep(e, counter, a, b, x, counter + 1);
    r := TwoFresh(Apply(e, m), counter + 1, b, SlotFor(x, counter + 1), y, z);
    ReplayMore(e, m, ms);
    assert [m] + ms == [m, ms[0], ms[1]];
  }

  function LaterReallocations(): seq<Mutation> {
    [Fresh("c", 3), Fresh("a", 4), Fresh("d", 5)] + [Fresh("c", 6), Fresh("b", 7)]
  }

  function Reallocations(): seq<Mutation> {
    [Fresh("a", 1), Fresh("b", 2)] + LaterReallocations()
  }

  lemma FromSecond(e: Engine) returns (r: Engine)
    requires Holds(e, 2, [SlotFor("a", 1), SlotFor("b", 2)])
    ensures Recorded(e, LaterReallocations()) && r == Replay(e, LaterReallocations())
    ensures Holds(r, 7, [SlotFor("c", 6), SlotFor("b", 7)])
  {
    var e5 := ThreeFresh(e, 2, SlotFor("a", 1), SlotFor("b", 2), "c", "a", "d");
    r := TwoFresh(e5, 5, SlotFor("a", 4), SlotFor("d", 5), "c", "b");
    InTwoParts(e, [Fresh("c", 3), Fresh("a", 4), Fresh("d", 5)], [Fresh("c", 6), Fresh("b", 7)]);
  }

  lemma InTwoParts(e: Engine, a: seq<Mutation>, b: seq<Mutation>)
    requires e.window > 0 && Recorded(e, a) && Recorded(Replay(e, a), b)
    ensures Recorded(e, a + b) && Replay(e, a + b) == Replay(Replay(e, a), b)
  {
    RecordedSplit(e, a, b);
    ReplayAppend(e, a, b);
  }

  lemma LiveReallocations() returns (e: Engine)
    ensures Recorded(Empty(2), Reallocations()) && e == Replay(Empty(2), Reallocations())
    ensures Holds(e, 7, [SlotFor("c", 6), SlotFor("b", 7)])
  {
    var e2 := FirstSteps();
    e := FromSecond(e2);
    InTwoParts(Empty(2), [Fresh("a", 1), Fresh("b", 2)], LaterReallocations());
  }

  lemma ReplayFirst(t: Engine)
    requires Holds(t, 7, [SlotFor("c", 6), SlotFor("b", 7)])
    ensures Holds(Replay(t, [Fresh("a", 1), Fresh("b", 2)]), 7, [SlotFor("b", 7), SlotFor("a", 1)])
  {
    var ms := [Fresh("a", 1), Fresh("b", 2)];
    FreshStep(t, 7, SlotFor("c", 6), SlotFor("b", 7), "a", 1);
    SkippedStep(Apply(t, ms[0]), 7, SlotFor("b", 7), SlotFor("a", 1), "b", 2);
    ReplayTwo(t, ms[0], ms[1]);
  }

  lemma ReplaySecond(t: Engine)
    requires Holds(t, 7, [SlotFor("b", 7), SlotFor("a", 1)])
    ensures Holds(Replay(t, [Fresh("c", 3), Fresh("a", 4), Fresh("d", 5)]), 7, [SlotFor("c", 3), SlotFor("d", 5)])
  {
    var ms := [Fresh("c", 3), Fresh("a", 4), Fresh("d", 5)];
    FreshStep(t, 7, SlotFor("b", 7), SlotFor("a", 1), "c", 3);
    SkippedStep(Apply(t, ms[0]), 7, SlotFor("a", 1), SlotFor("c", 3), "a", 4);
    FreshStep(Apply(t, ms[0]), 7, SlotFor("a", 1), SlotFor("c", 3), "d", 5);
    ReplayThree(t, ms[0], ms[1], ms[2]);
  }

  lemma ReplayThird(t: Engine)
    requires Holds(t, 7, [SlotFor("c", 3), SlotFor("d", 5)])
    ensures Holds(Replay(t, [Fresh("c", 6), Fresh("b", 7)]), 7, [SlotFor("d", 5), SlotFor("b", 7)])
  {
    var ms := [Fresh("c", 6), Fresh("b", 7)];
    SkippedStep(t, 7, SlotFor("c", 3), SlotFor("d", 5), "c", 6);
    FreshStep(t, 7, SlotFor("c", 3), SlotFor("d", 5), "b", 7);
    ReplayTwo(t, ms[0], ms[1]);
  }

  /**
   A source evicted and allocated again inside a long overlap breaks exact replay: with window 2,
   allocating a, b, c, a, d, c, b leaves c and b, but replaying all of it over that leaves d and b.
   */
  lemma ReallocationBreaksReplay()
    ensures Recorded(Empty(2), Reallocations())
    ensures Replay(Empty(2), Reallocations()).box.order == ["c", "b"]
    ensures Replay(Replay(Empty(2), Reallocations()), Reallocations()).box.order == ["d", "b"]
  {
    var t0 := LiveReallocations();
    ReplayAgain(t0);
    HeldOrder(t0, 7, SlotFor("c", 6), SlotFor("b", 7));
  }

  lemma ReplayAgain(t: Engine)
    requires Holds(t, 7, [SlotFor("c", 6), SlotFor("b", 7)])
    ensures Replay(t, Reallocations()).box.order == ["d", "b"]
  {
    var first, third := [Fresh("a", 1), Fresh("b", 2)], [Fresh("c", 6), Fresh("b", 7)];
    var second := [Fresh("c", 3), Fresh("a", 4), Fresh("d", 5)];
    ReplayFirst(t);
    var t2 := Replay(t, first);
    ReplaySecond(t2);
    ReplayThird(Replay(t2, second));
    ReplayAppend(t, first, second + third);
    ReplayAppend(t2, second, third);
    HeldOrder(Replay(t, Reallocations()), 7, SlotFor("d", 5), SlotFor("b", 7));
  }
}
