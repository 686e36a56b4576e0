/**
 An overlap longer than the message window.

 Here replay does change things on the way: every allocation of the overlap is forgotten by the time
 it is replayed, so the window turns over once more, and messages are evicted and put again. What can
 differ at the end are messages that were put before the overlap allocated their id: live they were
 evicted since, in replay they may stay. For overlaps that refill the window the condition under which
 none stays is exact.
 */
module HotLongOverlap {
  import opened Seqs
  import opened HotState
  import opened HotIndex
  import opened HotWindow
  import opened HotSnapshot
  import opened HotPuts
  import opened HotHistory
  import opened HotOverlap

  function NameSet(slots: seq<Slot>): set<Source> {
    set s | s in slots :: s.source
  }

  // ---- the conditions ----

  /**
   Among the slots of the run, those that the j-th one meets in the captured window have other sources;
   in particular if no source is allocated twice.
   */
  predicate Refills(all: seq<Slot>, window: nat) {
    forall j: nat, k: nat :: j < window && j < |all| && |all| - window + j <= k < |all| ==>
                               all[j].source != all[k].source
  }

  lemma NoSourceTwice(all: seq<Slot>, window: nat)
    requires NoDup(Names(all)) && |all| > window
    ensures Refills(all, window)
  {
    forall j: nat, k: nat | j < window && j < |all| && |all| - window + j <= k < |all|
      ensures all[j].source != all[k].source
    {
      assert Names(all)[j] != Names(all)[k];
    }
  }

  /**
   A message put last when d ids of the run had been allocated: its id was among them, or it has been
   evicted again by the end of replay, either as a message the run allocates too early to retain or
   while its slot was still in the captured window.
   */
  predicate Settled(all: seq<Slot>, window: nat, x: Source, d: nat) {
    exists i :: 0 <= i < |all| && all[i].source == x && (i < d || i + window < |all| || d + |all| <= i + window)
  }

  predicate AllocatesMessage(m: Mutation) {
    m.IdPut? && m.ns.Message?
  }

  /** The last put of every message is settled; d ids of the run are allocated before ms. */
  predicate PutsSettle(all: seq<Slot>, window: nat, ms: seq<Mutation>, d: nat) {
    ms == [] ||
    ((ms[0].MessagePut? && ms[0].entry.source !in SourcesOf(Puts(ms[1..])) ==>
        Settled(all, window, ms[0].entry.source, d)) &&
     PutsSettle(all, window, ms[1..], if AllocatesMessage(ms[0]) then d + 1 else d))
  }

  // ---- entries held under ids of the run ----

  predicate Under(e: Entry, done: seq<Slot>) {
    Slot(e.source, e.surrogate) in done
  }

  /** The entries held under these ids. */
  function Held(log: Log, done: seq<Slot>): Log {
    match log
    case Nil => Nil
    case Snoc(init, e) => if Under(e, done) then Snoc(Held(init, done), e) else Held(init, done)
  }

  lemma {:induction false} HeldNothing(log: Log)
    ensures Held(log, []) == Nil
  {
    if log.Snoc? {
      HeldNothing(log.init);
    }
  }

  lemma {:induction false} HeldAll(log: Log, done: seq<Slot>)
    requires WellFormed(log) && forall x :: x in BySource(log) ==> Under(BySource(log)[x], done)
    ensures Held(log, done) == log
  {
    if log.Snoc? {
      assert log.last == BySource(log)[log.last.source];
      forall x | x in BySource(log.init)
        ensures Under(BySource(log.init)[x], done)
      {
        assert BySource(log)[x] == BySource(log.init)[x];
      }
      HeldAll(log.init, done);
    }
  }

  lemma {:induction false} HeldGrows(log: Log, done: seq<Slot>, s: Slot)
    requires WellFormed(log) && (s.source in BySource(log) ==> BySource(log)[s.source].surrogate != s.surrogate)
    ensures Held(log, done + [s]) == Held(log, done)
  {
    if log.Snoc? {
      assert log.last == BySource(log)[log.last.source];
      HeldGrows(log.init, done, s);
    }
  }

  lemma {:induction false} HeldWithout(log: Log, done: seq<Slot>, x: Source)
    ensures Held(Without(log, x), done) == Without(Held(log, done), x)
  {
    if log.Snoc? {
      HeldWithout(log.init, done, x);
    }
  }

  lemma {:induction false} HeldWithoutOther(log: Log, done: seq<Slot>, x: Source)
    requires x !in NameSet(done)
    ensures Held(Without(log, x), done) == Held(log, done)
  {
    if log.Snoc? {
      HeldWithoutOther(log.init, done, x);
    }
  }

  /** Both logs hold the same entries under these ids, in the same order; so they do after a put. */
  lemma HeldPut(logT: Log, logL: Log, done: seq<Slot>, e: Entry)
    requires Held(logT, done) == Held(logL, done)
    requires Under(e, done) || e.source !in NameSet(done)
    ensures Held(PutLog(logT, e), done) == Held(PutLog(logL, e), done)
  {
    if Under(e, done) {
      HeldWithout(logT, done, e.source);
      HeldWithout(logL, done, e.source);
    } else {
      HeldWithoutOther(logT, done, e.source);
      HeldWithoutOther(logL, done, e.source);
    }
  }

  /** The messages held under ids that are not of the run. */
  function Stale(log: Log, all: seq<Slot>): set<Source> {
    set x | x in BySource(log) && !Under(BySource(log)[x], all)
  }

  // ---- the window turning over ----

  /** The slots retained before the run, the slots it allocates, and the window. */
  datatype Span = Span(before: seq<Slot>, all: seq<Slot>, window: nat)

  ghost predicate Long(o: Span) {
    |o.all| > o.window > 0 && Refills(o.all, o.window) && OneOwner(o.before + o.all)
  }

  /** The slots of the live engine when `done` of the run's have been allocated. */
  function LiveSlots(o: Span, done: seq<Slot>): seq<Slot> {
    Recent(o.before + done, o.window)
  }

  /** The slots during replay, once `done` of the run's have been appended again to the captured ones. */
  function Turning(o: Span, done: seq<Slot>): seq<Slot> {
    Recent(Recent(o.all, o.window) + done, o.window)
  }

  /** The slot that the next one pushes out during replay, when q have been appended. */
  function Popped(o: Span, q: nat): Slot
    requires q < |o.all| && |o.all| > o.window
  {
    if q < o.window then o.all[|o.all| - o.window + q] else o.all[q - o.window]
  }

  lemma TurningAt(o: Span, done: seq<Slot>, q: nat)
    requires done <= o.all && |o.all| > o.window && q < o.window
    ensures |Turning(o, done)| == o.window
    ensures var k := if q + |done| < o.window then |o.all| - o.window + q + |done| else q + |done| - o.window;
            k < |o.all| && Turning(o, done)[q] == o.all[k]
  {
    var both := Recent(o.all, o.window) + done;
    assert Turning(o, done) == both[|done|..];
  }

  lemma TurningHead(o: Span, done: seq<Slot>)
    requires done < o.all && |o.all| > o.window > 0
    ensures |Turning(o, done)| == o.window && Turning(o, done)[0] == Popped(o, |done|)
  {
    TurningAt(o, done, 0);
  }

  lemma OnlyDoneLeft(o: Span, done: seq<Slot>)
    requires |done| >= o.window && |o.all| > o.window
    ensures LiveSlots(o, done) == done[|done| - o.window..] == Turning(o, done)
  {
  }

  /** The live engine has not got the source it allocates next. */
  ghost predicate Arrives(o: Span, done: seq<Slot>) {
    && done < o.all && Distinct(LiveSlots(o, done))
    && o.all[|done|].source !in Forward(LiveSlots(o, done))
  }

  /** The newest of the run's slots are in the live window. */
  lemma DoneIsLive(o: Span, done: seq<Slot>, k: nat)
    requires Arrives(o, done) && |done| - o.window <= k < |done| && |o.all| > o.window
    ensures o.all[k].source != o.all[|done|].source
  {
    var live := LiveSlots(o, done);
    assert o.all[k] == done[k];
    if |done| >= o.window {
      OnlyDoneLeft(o, done);
      MapsAt(live, k - (|done| - o.window));
    } else {
      RecentKeepsNew(o.before, done, o.window, done[k]);
      var i :| 0 <= i < |live| && live[i] == done[k];
      MapsAt(live, i);
    }
  }

  lemma OtherSlot(o: Span, i: nat, k: nat)
    requires OneOwner(o.before + o.all) && i < |o.all| && k < |o.all| && i != k
    ensures o.all[i].surrogate != o.all[k].surrogate
  {
    assert (o.before + o.all)[|o.before| + i] == o.all[i] && (o.before + o.all)[|o.before| + k] == o.all[k];
  }

  /** No slot of the replayed window is like the next one. */
  lemma MeetsOthers(o: Span, done: seq<Slot>, q: nat)
    requires Long(o) && Arrives(o, done) && q < |Turning(o, done)|
    ensures var s, t := o.all[|done|], Turning(o, done)[q]; t.source != s.source && t.surrogate != s.surrogate
  {
    TurningHead(o, done);
    TurningAt(o, done, q);
    var k := if q + |done| < o.window then |o.all| - o.window + q + |done| else q + |done| - o.window;
    OtherSlot(o, |done|, k);
    if q + |done| >= o.window {
      DoneIsLive(o, done, k);
    }
  }

  /** The next source of the run is not in the replayed window when its turn comes. */
  lemma NotYetBack(o: Span, done: seq<Slot>)
    requires Long(o) && Arrives(o, done)
    ensures var s, slots := o.all[|done|], Turning(o, done);
            s.source !in Forward(slots) && s.surrogate !in Reverse(slots) && s !in slots
  {
    var s, slots := o.all[|done|], Turning(o, done);
    if s.source in Forward(slots) {
      var q := ForwardFrom(slots, s.source);
      MeetsOthers(o, done, q);
    }
    if s.surrogate in Reverse(slots) {
      var q := ReverseFrom(slots, s.surrogate);
      MeetsOthers(o, done, q);
    }
    if s in slots {
      var q :| 0 <= q < |slots| && slots[q] == s;
      MeetsOthers(o, done, q);
    }
  }

  lemma TurningIsOfRun(o: Span, done: seq<Slot>)
    requires done <= o.all && |o.all| > o.window
    ensures forall s :: s in Turning(o, done) ==> s in o.all
  {
    assert forall s :: s in Recent(o.all, o.window) ==> s in o.all;
  }

  /** A live slot of a source the run has allocated is that allocation, and is back in the replayed window. */
  lemma StillThere(o: Span, done: seq<Slot>, s: Slot)
    requires Long(o) && done <= o.all && Distinct(LiveSlots(o, done))
    requires s in LiveSlots(o, done) && s.source in NameSet(done)
    ensures s in done && s in Turning(o, done)
  {
    if |done| >= o.window {
      OnlyDoneLeft(o, done);
    } else {
      var live := LiveSlots(o, done);
      var d :| d in done && d.source == s.source;
      RecentKeepsNew(o.before, done, o.window, d);
      var i :| 0 <= i < |live| && live[i] == s;
      var j :| 0 <= j < |live| && live[j] == d;
      assert i == j;
      RecentKeepsNew(Recent(o.all, o.window), done, o.window, s);
    }
  }

  lemma Apart(o: Span, s: Slot)
    requires OneOwner(o.before + o.all) && s in o.before
    ensures s !in o.all
  {
    var i :| 0 <= i < |o.before| && o.before[i] == s;
    assert (o.before + o.all)[i] == s;
    forall j | 0 <= j < |o.all|
      ensures o.all[j] != s
    {
      assert (o.before + o.all)[|o.before| + j] == o.all[j];
    }
  }

  /** Any other live slot is one from before the run. */
  lemma FromBefore(o: Span, done: seq<Slot>, s: Slot)
    requires Long(o) && done <= o.all
    requires s in LiveSlots(o, done) && s.source !in NameSet(done)
    ensures s in o.before && s !in o.all
  {
    assert s in o.before + done;
    Apart(o, s);
  }

  /** While less than a window has been done, neither engine evicts a slot of the run already done. */
  lemma TurnsOutOld(o: Span, done: seq<Slot>)
    requires Long(o) && done < o.all && |done| < o.window
    ensures Popped(o, |done|).source !in NameSet(done)
  {
    forall d | d in done
      ensures d.source != Popped(o, |done|).source
    {
      var i :| 0 <= i < |done| && done[i] == d;
      assert o.all[i] == d;
    }
  }

  lemma LiveTurnsOutOld(o: Span, done: seq<Slot>)
    requires |done| < o.window && |LiveSlots(o, done)| == o.window && Distinct(LiveSlots(o, done))
    ensures LiveSlots(o, done)[0].source !in NameSet(done)
  {
    var live := LiveSlots(o, done);
    forall d | d in done
      ensures d.source != live[0].source
    {
      var i :| 0 <= i < |done| && done[i] == d;
      assert live[o.window - |done| + i] == d;
    }
  }

  /** Once a window has been done, both engines evict the same slot. */
  lemma SameEvictionLate(o: Span, done: seq<Slot>, logT: Log, logL: Log)
    requires done <= o.all && |o.all| > o.window > 0 && |done| >= o.window
    requires Held(logT, done) == Held(logL, done)
    ensures Held(LogAfterPush(Turning(o, done), logT, o.window), done)
            == Held(LogAfterPush(LiveSlots(o, done), logL, o.window), done)
  {
    var slots := Turning(o, done);
    OnlyDoneLeft(o, done);
    HeldWithout(logT, done, slots[0].source);
    HeldWithout(logL, done, slots[0].source);
  }

  lemma SameEvictionEarly(o: Span, done: seq<Slot>, logT: Log, logL: Log)
    requires Long(o) && done < o.all && |done| < o.window && Distinct(LiveSlots(o, done))
    requires Held(logT, done) == Held(logL, done)
    ensures Held(LogAfterPush(Turning(o, done), logT, o.window), done)
            == Held(LogAfterPush(LiveSlots(o, done), logL, o.window), done)
  {
    TurningHead(o, done);
    TurnsOutOld(o, done);
    HeldWithoutOther(logT, done, Popped(o, |done|).source);
    if |LiveSlots(o, done)| == o.window {
      LiveTurnsOutOld(o, done);
      HeldWithoutOther(logL, done, LiveSlots(o, done)[0].source);
    }
  }

  // ---- live and replaying engine in step ----

  /** Every entry is held under a slot of the window or one from before the run. */
  ghost predicate Stems(log: Log, before: seq<Slot>, slots: seq<Slot>) {
    forall x :: x in BySource(log) ==> Under(BySource(log)[x], before) || Under(BySource(log)[x], slots)
  }

  ghost predicate Agree(o: Span, done: seq<Slot>, logT: Log, logL: Log) {
    Stems(logT, o.before, Turning(o, done)) && Held(logT, done) == Held(logL, done)
  }

  /** Live engine l and replaying engine t: `done` of the run's slots are behind them. */
  ghost predicate InStep(l: Engine, t: Engine, o: Span, done: seq<Slot>, logL: Log, logT: Log) {
    && Long(o) && l.window == t.window == o.window && done <= o.all && Below(o.all, t.box.ids.counter)
    && Running(l, LiveSlots(o, done), logL)
    && Shape(t.box, o.window, Turning(o, done), logT)
    && Agree(o, done, logT, logL)
  }

  lemma StemsOwned(o: Span, done: seq<Slot>, log: Log)
    requires |o.all| > o.window && done <= o.all && WellFormed(log) && Stems(log, o.before, Turning(o, done))
    ensures Owned(log, o.before + o.all)
  {
    TurningIsOfRun(o, done);
    forall k | k in BySurrogate(log)
      ensures Slot(BySurrogate(log)[k].source, k) in o.before + o.all
    {
      BySurrogateAt(log, k);
    }
  }

  lemma PutKeepsStems(log: Log, before: seq<Slot>, slots: seq<Slot>, e: Entry)
    requires Stems(log, before, slots) && (Under(e, before) || Under(e, slots))
    ensures Stems(PutLog(log, e), before, slots)
  {
    WithoutBySource(log, e.source);
  }

  lemma StaleAfterPut(log: Log, all: seq<Slot>, e: Entry)
    ensures Stale(PutLog(log, e), all)
            == if Under(e, all) then Stale(log, all) - {e.source} else Stale(log, all) + {e.source}
  {
    WithoutBySource(log, e.source);
  }

  /** Where the slot of a put stands, live and in replay. */
  lemma PutSlot(l: Engine, t: Engine, o: Span, done: seq<Slot>, logL: Log, logT: Log, p: Entry)
    requires InStep(l, t, o, done, logL, logT) && PutsMapped(l.box.ids, p)
    ensures if p.source in NameSet(done) then Under(p, done) && Under(p, Turning(o, done)) && Under(p, o.all)
            else Under(p, o.before) && !Under(p, o.all)
  {
    var slots := LiveSlots(o, done);
    var i := ForwardFrom(slots, p.source);
    assert slots[i] in slots;
    if p.source in NameSet(done) {
      StillThere(o, done, slots[i]);
    } else {
      FromBefore(o, done, slots[i]);
    }
  }

  lemma PutAgrees(o: Span, done: seq<Slot>, logT: Log, logL: Log, p: Entry)
    requires Agree(o, done, logT, logL)
    requires if p.source in NameSet(done) then Under(p, done) && Under(p, Turning(o, done)) else Under(p, o.before)
    ensures Agree(o, done, PutLog(logT, p), PutLog(logL, p))
  {
    HeldPut(logT, logL, done, p);
    PutKeepsStems(logT, o.before, Turning(o, done), p);
  }

  lemma PutInStep(l: Engine, t: Engine, o: Span, done: seq<Slot>, logL: Log, logT: Log, p: Entry)
    requires InStep(l, t, o, done, logL, logT) && Recordable(l, MessagePut(p))
    ensures InStep(Apply(l, MessagePut(p)), Apply(t, MessagePut(p)), o, done, PutLog(logL, p), PutLog(logT, p))
    ensures Stale(PutLog(logT, p), o.all) == if p.source in NameSet(done) then Stale(logT, o.all) - {p.source}
                                             else Stale(logT, o.all) + {p.source}
  {
    StepKeepsRunning(l, LiveSlots(o, done), logL, MessagePut(p));
    PutSlot(l, t, o, done, logL, logT, p);
    PutAgrees(o, done, logT, logL, p);
    StemsOwned(o, done, logT);
    PutStaysOwned(logT, o.before + o.all, p);
    PostShape(t.box, o.window, Turning(o, done), logT, p);
    StaleAfterPut(logT, o.all, p);
  }

  /** After the eviction no entry is held under the slot that arrives. */
  lemma ArrivesFresh(slots: seq<Slot>, log: Log, window: nat, done: seq<Slot>, s: Slot)
    requires WellFormed(log) && (s.source in BySource(log) ==> BySource(log)[s.source].surrogate != s.surrogate)
    ensures Held(LogAfterPush(slots, log, window), done + [s]) == Held(LogAfterPush(slots, log, window), done)
  {
    PushWellFormed(slots, log, window);
    if slots != [] {
      WithoutBySource(log, slots[0].source);
    }
    HeldGrows(LogAfterPush(slots, log, window), done, s);
  }

  lemma NotHeldYet(o: Span, done: seq<Slot>, logT: Log)
    requires Long(o) && Arrives(o, done) && Stems(logT, o.before, Turning(o, done))
    ensures var s := o.all[|done|];
            s.source in BySource(logT) ==> BySource(logT)[s.source].surrogate != s.surrogate
  {
    var s := o.all[|done|];
    NotYetBack(o, done);
    if s in o.before {
      Apart(o, s);
    } else if s.source in BySource(logT) {
      SurrogateOnRecord(logT, s.source);
    }
  }

  lemma PushKeepsStems(o: Span, done: seq<Slot>, logT: Log)
    requires Long(o) && done < o.all && Stems(logT, o.before, Turning(o, done))
    ensures Stems(LogAfterPush(Turning(o, done), logT, o.window), o.before,
                  Pushed(Turning(o, done), o.all[|done|], o.window))
  {
    var slots, s := Turning(o, done), o.all[|done|];
    TurningHead(o, done);
    assert Pushed(slots, s, o.window) == slots[1..] + [s];
    OldestLeavesStems(logT, o.before, slots, s);
  }

  lemma OldestLeavesStems(log: Log, before: seq<Slot>, slots: seq<Slot>, s: Slot)
    requires Stems(log, before, slots) && slots != []
    ensures Stems(Without(log, slots[0].source), before, slots[1..] + [s])
  {
    var left := Without(log, slots[0].source);
    WithoutBySource(log, slots[0].source);
    forall x | x in BySource(left) && !Under(BySource(left)[x], before)
      ensures Under(BySource(left)[x], slots[1..] + [s])
    {
      SurrogateOnRecord(log, x);
      var i :| 0 <= i < |slots| && slots[i] == Slot(x, BySource(log)[x].surrogate);
      assert (slots[1..] + [s])[i - 1] == slots[i];
    }
  }

  lemma StaleAfterPush(o: Span, done: seq<Slot>, logT: Log)
    requires done < o.all && |o.all| > o.window > 0
    ensures Stale(LogAfterPush(Turning(o, done), logT, o.window), o.all)
            == Stale(logT, o.all) - {Popped(o, |done|).source}
  {
    TurningHead(o, done);
    WithoutBySource(logT, Popped(o, |done|).source);
  }

  lemma PushAgrees(o: Span, done: seq<Slot>, logT: Log, logL: Log)
    requires Long(o) && Arrives(o, done) && Agree(o, done, logT, logL) && WellFormed(logT) && WellFormed(logL)
    requires Mapped(LiveSlots(o, done), logL)
    ensures Agree(o, done + [o.all[|done|]], LogAfterPush(Turning(o, done), logT, o.window),
                  LogAfterPush(LiveSlots(o, done), logL, o.window))
  {
    var s := o.all[|done|];
    if |done| >= o.window {
      SameEvictionLate(o, done, logT, logL);
    } else {
      SameEvictionEarly(o, done, logT, logL);
    }
    NotHeldYet(o, done, logT);
    ArrivesFresh(Turning(o, done), logT, o.window, done, s);
    ArrivesFresh(LiveSlots(o, done), logL, o.window, done, s);
    PushKeepsStems(o, done, logT);
    RecentAppend(Recent(o.all, o.window), done, s, o.window);
  }

  lemma PushLive(l: Engine, o: Span, done: seq<Slot>, logL: Log, s: Slot)
    requires l.window == o.window && Running(l, LiveSlots(o, done), logL)
    requires Recordable(l, IdPut(Message, s.source, s.surrogate))
    ensures Running(Apply(l, IdPut(Message, s.source, s.surrogate)), LiveSlots(o, done + [s]),
                    LogAfterPush(LiveSlots(o, done), logL, o.window))
    ensures s.source !in Forward(LiveSlots(o, done))
  {
    StepKeepsRunning(l, LiveSlots(o, done), logL, IdPut(Message, s.source, s.surrogate));
    RecentAppend(o.before, done, s, o.window);
  }

  lemma PushReplayed(t: Engine, o: Span, done: seq<Slot>, logT: Log, s: Slot)
    requires Long(o) && t.window == o.window && Arrives(o, done) && s == o.all[|done|] && s.source != ""
    requires Below(o.all, t.box.ids.counter) && Shape(t.box, o.window, Turning(o, done), logT)
    ensures var n := Apply(t, IdPut(Message, s.source, s.surrogate));
            && Shape(n.box, o.window, Turning(o, done + [s]), LogAfterPush(Turning(o, done), logT, o.window))
            && n == t.(box := n.box) && n.box.ids.counter == t.box.ids.counter
  {
    NotYetBack(o, done);
    ReceiveShape(t.box, o.window, Turning(o, done), logT, s);
    RecentAppend(Recent(o.all, o.window), done, s, o.window);
  }

  lemma PushInStep(l: Engine, t: Engine, o: Span, done: seq<Slot>, logL: Log, logT: Log, s: Slot)
    requires InStep(l, t, o, done, logL, logT)
    requires done + [s] <= o.all && Recordable(l, IdPut(Message, s.source, s.surrogate))
    ensures var m := IdPut(Message, s.source, s.surrogate);
            && InStep(Apply(l, m), Apply(t, m), o, done + [s], LogAfterPush(LiveSlots(o, done), logL, o.window),
                      LogAfterPush(Turning(o, done), logT, o.window))
            && Apply(t, m) == t.(box := Apply(t, m).box)
            && Apply(t, m).box.ids.counter == t.box.ids.counter
    ensures |done| < |o.all|
    ensures Stale(LogAfterPush(Turning(o, done), logT, o.window), o.all)
            == Stale(logT, o.all) - {Popped(o, |done|).source}
  {
    assert (done + [s])[|done|] == s == o.all[|done|];
    PushLive(l, o, done, logL, s);
    PushReplayed(t, o, done, logT, s);
    PushAgrees(o, done, logT, logL);
    StaleAfterPush(o, done, logT);
  }

  // ---- which messages are stale at the end ----

  function DoneAfter(done: seq<Slot>, m: Mutation): seq<Slot> {
    if AllocatesMessage(m) then done + [Slot(m.source, m.surrogate)] else done
  }

  /** What one replayed mutation does to the set of stale messages. */
  function StaleAfter(o: Span, done: seq<Slot>, stale: set<Source>, m: Mutation): set<Source>
    requires |o.all| > o.window
  {
    if m.MessagePut? then
      if m.entry.source in NameSet(done) then stale - {m.entry.source} else stale + {m.entry.source}
    else if AllocatesMessage(m) && |done| < |o.all| then stale - {Popped(o, |done|).source}
    else stale
  }

  function StaleAll(o: Span, done: seq<Slot>, stale: set<Source>, ms: seq<Mutation>): set<Source>
    requires |o.all| > o.window
    decreases |ms|
  {
    if ms == [] then stale
    else StaleAll(o, DoneAfter(done, ms[0]), StaleAfter(o, done, stale, ms[0]), ms[1..])
  }

  /** x is pushed out of the replayed window after d or more of the run's ids. */
  predicate PushedOut(o: Span, d: nat, x: Source)
    requires |o.all| > o.window
  {
    exists q :: d <= q < |o.all| && Popped(o, q).source == x
  }

  predicate Clears(o: Span, d: nat, x: Source, ms: seq<Mutation>)
    requires |o.all| > o.window
  {
    x in SourcesOf(Puts(ms)) || PushedOut(o, d, x)
  }

  predicate AllClear(o: Span, d: nat, stale: set<Source>, ms: seq<Mutation>)
    requires |o.all| > o.window
  {
    forall x :: x in stale ==> Clears(o, d, x, ms)
  }

  lemma SettledIsPushedOut(o: Span, done: seq<Slot>, x: Source)
    requires |o.all| > o.window && done <= o.all && x !in NameSet(done)
    ensures Settled(o.all, o.window, x, |done|) <==> PushedOut(o, |done|, x)
  {
    var d, n, all := |done|, |o.all|, o.all;
    if Settled(all, o.window, x, d) {
      var i :| 0 <= i < n && all[i].source == x && (i < d || i + o.window < n || d + n <= i + o.window);
      assert forall j :: 0 <= j < d ==> done[j] in done && o.all[j] == done[j];
      var q := if i + o.window < n then i + o.window else i + o.window - n;
      assert Popped(o, q) == all[i];
    }
    if PushedOut(o, d, x) {
      var q :| d <= q < n && Popped(o, q).source == x;
      var i := if q < o.window then n - o.window + q else q - o.window;
      assert all[i].source == x;
    }
  }

  lemma SettledEarlier(o: Span, done: seq<Slot>, x: Source)
    requires done <= o.all && x in NameSet(done)
    ensures Settled(o.all, o.window, x, |done|)
  {
    var d :| d in done && d.source == x;
    var i :| 0 <= i < |done| && done[i] == d;
    assert o.all[i].source == x;
  }

  lemma PutSources(ms: seq<Mutation>)
    requires ms != []
    ensures SourcesOf(Puts(ms)) == (if ms[0].MessagePut? then {ms[0].entry.source} else {}) + SourcesOf(Puts(ms[1..]))
  {
    var first := if ms[0].MessagePut? then [ms[0].entry] else [];
    assert forall p :: p in Puts(ms) <==> p in first || p in Puts(ms[1..]);
    forall x | x in (if ms[0].MessagePut? then {ms[0].entry.source} else {}) + SourcesOf(Puts(ms[1..]))
      ensures x in SourcesOf(Puts(ms))
    {
      if x !in SourcesOf(Puts(ms[1..])) {
        assert ms[0].entry in first;
      }
    }
  }

  lemma ClearPut(o: Span, done: seq<Slot>, stale: set<Source>, ms: seq<Mutation>)
    requires |o.all| > o.window && done <= o.all && ms != [] && ms[0].MessagePut?
    ensures var x, d, rest := ms[0].entry.source, |done|, ms[1..];
            AllClear(o, d, StaleAfter(o, done, stale, ms[0]), rest)
            && (x !in SourcesOf(Puts(rest)) ==> Settled(o.all, o.window, x, d))
            <==> AllClear(o, d, stale, ms) && (x !in SourcesOf(Puts(rest)) ==> Settled(o.all, o.window, x, d))
  {
    var x, d, rest := ms[0].entry.source, |done|, ms[1..];
    var next := StaleAfter(o, done, stale, ms[0]);
    PutSources(ms);
    if x in NameSet(done) {
      SettledEarlier(o, done, x);
    } else {
      SettledIsPushedOut(o, done, x);
    }
    if AllClear(o, d, next, rest) {
      forall y | y in stale
        ensures Clears(o, d, y, ms)
      {
        assert y == x || Clears(o, d, y, rest);
      }
    }
    if AllClear(o, d, stale, ms) && (x !in SourcesOf(Puts(rest)) ==> Settled(o.all, o.window, x, d)) {
      forall y | y in next
        ensures Clears(o, d, y, rest)
      {
        assert y == x || Clears(o, d, y, ms);
      }
    }
  }

  lemma ClearPush(o: Span, done: seq<Slot>, stale: set<Source>, ms: seq<Mutation>)
    requires |o.all| > o.window && |done| < |o.all| && ms != [] && AllocatesMessage(ms[0])
    ensures AllClear(o, |done| + 1, StaleAfter(o, done, stale, ms[0]), ms[1..]) <==> AllClear(o, |done|, stale, ms)
  {
    var d, rest, gone := |done|, ms[1..], Popped(o, |done|).source;
    PutSources(ms);
    assert PushedOut(o, d, gone);
    forall y
      ensures y != gone ==> (PushedOut(o, d + 1, y) <==> PushedOut(o, d, y))
    {
    }
    if AllClear(o, d + 1, stale - {gone}, rest) {
      forall y | y in stale
        ensures Clears(o, d, y, ms)
      {
        assert y == gone || Clears(o, d + 1, y, rest);
      }
    }
    if AllClear(o, d, stale, ms) {
      forall y | y in stale - {gone}
        ensures Clears(o, d + 1, y, rest)
      {
        assert Clears(o, d, y, ms);
      }
    }
  }

  lemma ClearOther(o: Span, d: nat, stale: set<Source>, ms: seq<Mutation>)
    requires |o.all| > o.window && ms != [] && !ms[0].MessagePut?
    ensures AllClear(o, d, stale, ms[1..]) <==> AllClear(o, d, stale, ms)
  {
    PutSources(ms);
    assert forall x :: Clears(o, d, x, ms) <==> Clears(o, d, x, ms[1..]);
  }

  /** No message is stale at the end if and only if what is stale now clears and what is put settles. */
  lemma {:induction false} NoneStale(o: Span, done: seq<Slot>, stale: set<Source>, ms: seq<Mutation>)
    requires |o.all| > o.window && done + MessageSlots(ms) == o.all
    ensures StaleAll(o, done, stale, ms) == {} <==>
            AllClear(o, |done|, stale, ms) && PutsSettle(o.all, o.window, ms, |done|)
    decreases |ms|
  {
    if ms == [] {
      assert done == o.all;
      forall x | x in stale
        ensures !Clears(o, |done|, x, ms)
      {
      }
    } else {
      var m := ms[0];
      DoneAndRest(done, ms);
      NoneStale(o, DoneAfter(done, m), StaleAfter(o, done, stale, m), ms[1..]);
      if m.MessagePut? {
        ClearPut(o, done, stale, ms);
      } else if AllocatesMessage(m) {
        ClearPush(o, done, stale, ms);
      } else {
        ClearOther(o, |done|, stale, ms);
      }
    }
  }

  // ---- the whole second replay ----

  /** The room, thread and context mappings of the run exist already. */
  ghost predicate KnownElsewhere(t: Engine, ms: seq<Mutation>) {
    forall i :: 0 <= i < |ms| && ms[i].IdPut? && !ms[i].ns.Message? ==> ms[i].source in t.Table(ms[i].ns).forward
  }

  predicate SameTables(r: Engine, t: Engine) {
    r.box.ids.counter == t.box.ids.counter && r.room == t.room && r.thread == t.thread && r.context == t.context
  }

  lemma OtherInStep(l: Engine, t: Engine, o: Span, done: seq<Slot>, logL: Log, logT: Log, m: Mutation)
    requires InStep(l, t, o, done, logL, logT) && Recordable(l, m) && !m.MessagePut? && !AllocatesMessage(m)
    requires m.IdPut? ==> m.source in t.Table(m.ns).forward
    ensures InStep(Apply(l, m), Apply(t, m), o, done, logL, logT)
    ensures SameTables(Apply(t, m), t)
  {
    StepKeepsRunning(l, LiveSlots(o, done), logL, m);
    assert Apply(t, m).box == t.box;
  }

  /** One mutation, live and replayed. */
  lemma StepInStep(l: Engine, t: Engine, o: Span, done: seq<Slot>, logL: Log, logT: Log, m: Mutation)
    returns (logT': Log)
    requires InStep(l, t, o, done, logL, logT) && Recordable(l, m) && DoneAfter(done, m) <= o.all
    requires m.IdPut? && !m.ns.Message? ==> m.source in t.Table(m.ns).forward
    ensures InStep(Apply(l, m), Apply(t, m), o, DoneAfter(done, m), LogAfter(LiveSlots(o, done), logL, m, o.window),
                   logT')
    ensures SameTables(Apply(t, m), t)
    ensures Stale(logT', o.all) == StaleAfter(o, done, Stale(logT, o.all), m)
  {
    if m.MessagePut? {
      PutInStep(l, t, o, done, logL, logT, m.entry);
      logT' := PutLog(logT, m.entry);
    } else if AllocatesMessage(m) {
      PushInStep(l, t, o, done, logL, logT, Slot(m.source, m.surrogate));
      logT' := LogAfterPush(Turning(o, done), logT, o.window);
    } else {
      OtherInStep(l, t, o, done, logL, logT, m);
      logT' := logT;
    }
  }

  lemma LiveSlotsAfter(o: Span, done: seq<Slot>, m: Mutation)
    requires o.window > 0
    ensures SlotsAfter(LiveSlots(o, done), m, o.window) == LiveSlots(o, DoneAfter(done, m))
  {
    if AllocatesMessage(m) {
      RecentAppend(o.before, done, Slot(m.source, m.surrogate), o.window);
    }
  }

  lemma DoneAndRest(done: seq<Slot>, ms: seq<Mutation>)
    requires ms != []
    ensures done + MessageSlots(ms) == DoneAfter(done, ms[0]) + MessageSlots(ms[1..])
  {
  }

  lemma LaterKnown(t: Engine, m: Mutation, ms: seq<Mutation>)
    requires t.window > 0 && ms != [] && m == ms[0] && KnownElsewhere(t, ms)
    ensures KnownElsewhere(Apply(t, m), ms[1..])
  {
    forall i | 0 <= i < |ms| - 1 && ms[1..][i].IdPut? && !ms[1..][i].ns.Message?
      ensures ms[1..][i].source in Apply(t, m).Table(ms[1..][i].ns).forward
    {
      var later := ms[i + 1];
      assert later.source in t.Table(later.ns).forward;
      NeverForgets(t, [m], later.ns, later.source);
      assert [m][1..] == [];
    }
  }

  lemma {:induction false} ReplayInStep(l: Engine, t: Engine, o: Span, done: seq<Slot>, logL: Log, logT: Log,
                                        ms: seq<Mutation>) returns (logT': Log)
    requires InStep(l, t, o, done, logL, logT)
    requires Recorded(l, ms) && done + MessageSlots(ms) == o.all && KnownElsewhere(t, ms)
    ensures InStep(Replay(l, ms), Replay(t, ms), o, o.all, LogAll(LiveSlots(o, done), logL, ms, o.window), logT')
    ensures SameTables(Replay(t, ms), t)
    ensures Stale(logT', o.all) == StaleAll(o, done, Stale(logT, o.all), ms)
    decreases |ms|
  {
    if ms == [] {
      assert done == o.all;
      logT' := logT;
    } else {
      var m := ms[0];
      DoneAndRest(done, ms);
      LaterKnown(t, m, ms);
      LiveSlotsAfter(o, done, m);
      var next := StepInStep(l, t, o, done, logL, logT, m);
      logT' := ReplayInStep(Apply(l, m), Apply(t, m), o, DoneAfter(done, m),
                            LogAfter(LiveSlots(o, done), logL, m, o.window), next, ms[1..]);
    }
  }

  lemma TurningStarts(slots: seq<Slot>, all: seq<Slot>, window: nat)
    requires |all| > window
    ensures Recent(slots + all, window) == Recent(all, window) == Turning(Span(slots, all, window), [])
    ensures LiveSlots(Span(slots, all, window), []) == Recent(slots, window)
  {
    assert Recent(all, window) + [] == Recent(all, window);
    assert slots + [] == slots;
  }

  lemma MappedStems(slots: seq<Slot>, log: Log, before: seq<Slot>, all: seq<Slot>)
    requires Mapped(slots, log) && forall s :: s in slots ==> s in all
    ensures Stems(log, before, slots) && Stale(log, all) == {}
  {
    forall x | x in BySource(log)
      ensures Under(BySource(log)[x], slots)
    {
      WithoutBySource(log, x);
      var i := ForwardFrom(slots, x);
      SurrogateOnRecord(log, x);
      assert slots[i] in slots;
    }
  }

  /** Where the second replay starts: nothing done yet, the captured engine over the live one. */
  lemma StartInStep(e: Engine, slots: seq<Slot>, log: Log, ms: seq<Mutation>)
    requires Running(e, slots, log) && Recorded(e, ms)
    requires |MessageSlots(ms)| > e.window && Refills(MessageSlots(ms), e.window)
    ensures var o, logS := Span(slots, MessageSlots(ms), e.window), LogAll(slots, log, ms, e.window);
            InStep(e, Replay(e, ms), o, [], log, logS) && Stale(logS, o.all) == {}
  {
    var all, s := MessageSlots(ms), Replay(e, ms);
    var logS := LogAll(slots, log, ms, e.window);
    RunKeepsRunning(e, slots, log, ms);
    OneOwnerOverall(slots, all, e.box.ids.counter);
    TurningStarts(slots, all, e.window);
    assert Below(all, s.box.ids.counter);
    MappedStems(Recent(all, e.window), logS, slots, all);
    HeldNothing(logS);
    HeldNothing(log);
  }

  /** Where it ends: everything the live engine has, and the stale messages. */
  lemma EndInStep(l: Engine, t: Engine, o: Span, logL: Log, logT: Log)
    requires InStep(l, t, o, o.all, logL, logT) && l.box.ids.counter == t.box.ids.counter
    ensures t.box == l.box <==> Stale(logT, o.all) == {}
    ensures SameWindow(t.box, l.box)
  {
    BothTail(o);
    MappedStems(Recent(o.all, o.window), logL, o.before, o.all);
    SameLogs(logT, logL, o.all);
  }

  lemma BothTail(o: Span)
    requires |o.all| > o.window
    ensures LiveSlots(o, o.all) == Recent(o.all, o.window) == Turning(o, o.all)
    ensures forall s :: s in Recent(o.all, o.window) ==> s in o.all
  {
  }

  lemma SameLogs(logT: Log, logL: Log, all: seq<Slot>)
    requires WellFormed(logT) && WellFormed(logL) && Held(logT, all) == Held(logL, all) && Stale(logL, all) == {}
    ensures TablesOf(logT) == TablesOf(logL) <==> Stale(logT, all) == {}
  {
    AllHeld(logL, all);
    if Stale(logT, all) == {} {
      AllHeld(logT, all);
    }
  }

  lemma AllHeld(log: Log, all: seq<Slot>)
    requires WellFormed(log) && Stale(log, all) == {}
    ensures Held(log, all) == log
  {
    forall x | x in BySource(log)
      ensures Under(BySource(log)[x], all)
    {
      assert x !in Stale(log, all);
    }
    HeldAll(log, all);
  }

  lemma NothingDone(slots: seq<Slot>, o: Span)
    requires |slots| <= o.window && o.before == slots
    ensures [] + o.all == o.all && LiveSlots(o, []) == slots
  {
    assert slots + [] == slots;
  }

  /** The replay of the whole run over s, in step with the run itself from e on. */
  lemma WholeReplay(e: Engine, s: Engine, o: Span, none: seq<Slot>, log: Log, logS: Log, ms: seq<Mutation>)
    requires none == [] && InStep(e, s, o, none, log, logS) && Stale(logS, o.all) == {}
    requires Recorded(e, ms) && none + MessageSlots(ms) == o.all && KnownElsewhere(s, ms)
    requires Replay(e, ms).box.ids.counter == s.box.ids.counter
    ensures SameTables(Replay(s, ms), s) && SameWindow(Replay(s, ms).box, Replay(e, ms).box)
    ensures Replay(s, ms).box == Replay(e, ms).box <==> PutsSettle(o.all, o.window, ms, 0)
  {
    var logT := ReplayInStep(e, s, o, none, log, logS, ms);
    EndInStep(Replay(e, ms), Replay(s, ms), o, LogAll(LiveSlots(o, none), log, ms, o.window), logT);
    NoneStale(o, none, Stale(logS, o.all), ms);
  }

  lemma BoxComesBack(e: Engine, slots: seq<Slot>, log: Log, ms: seq<Mutation>)
    requires Running(e, slots, log) && Recorded(e, ms)
    requires |MessageSlots(ms)| > e.window && Refills(MessageSlots(ms), e.window)
    ensures var s, t := Replay(e, ms), Replay(Replay(e, ms), ms);
            && SameTables(t, s) && SameWindow(t.box, s.box)
            && (t.box == s.box <==> PutsSettle(MessageSlots(ms), e.window, ms, 0))
  {
    var o := Span(slots, MessageSlots(ms), e.window);
    StartInStep(e, slots, log, ms);
    ElsewhereKnown(e, ms);
    NothingDone(slots, o);
    WholeReplay(e, Replay(e, ms), o, [], log, LogAll(slots, log, ms, e.window), ms);
  }

  /**
   An overlap longer than the window that refills it leaves all ids and the window order as captured, and
   is replayed without any effect exactly when the last put of every message is settled.
   */
  lemma LongOverlap(e: Engine, slots: seq<Slot>, log: Log, ms: seq<Mutation>)
    requires Running(e, slots, log) && Recorded(e, ms)
    requires |MessageSlots(ms)| > e.window && Refills(MessageSlots(ms), e.window)
    ensures var s, t := Replay(e, ms), Replay(Replay(e, ms), ms);
            && SameTables(t, s) && SameWindow(t.box, s.box) && t.rooms == s.rooms
            && (t == s <==> PutsSettle(MessageSlots(ms), e.window, ms, 0))
  {
    BoxComesBack(e, slots, log, ms);
    RoomsComeBack(e, slots, log, ms);
  }

  lemma ElsewhereKnown(e: Engine, ms: seq<Mutation>)
    requires e.window > 0 && Recorded(e, ms)
    ensures KnownElsewhere(Replay(e, ms), ms)
  {
    forall i | 0 <= i < |ms| && ms[i].IdPut? && !ms[i].ns.Message?
      ensures ms[i].source in Replay(e, ms).Table(ms[i].ns).forward
    {
      AllocatedStays(e, ms, i);
    }
  }

  // ---- a put without its allocation is one too many ----

  lemma RemoveKeepsOthers(t: Tables, y: Source)
    ensures RemoveMessage(t, y).bySource == t.bySource - {y}
  {
  }

  lemma {:induction false} TrimKeepsOthers(b: Mailbox, window: int, x: Source)
    requires window > 0 && x !in b.order && x in b.msgs.bySource
    ensures x in Trim(b, window).msgs.bySource
    decreases |b.order|
  {
    if |b.order| > window {
      RemoveKeepsOthers(b.msgs, b.order[0]);
      TrimKeepsOthers(EvictOldest(b), window, x);
    }
  }

  lemma {:induction false} TrimOnlyDrops(b: Mailbox, window: int, x: Source)
    requires window > 0 && x !in b.order
    ensures x !in Trim(b, window).order
    decreases |b.order|
  {
    if |b.order| > window {
      TrimOnlyDrops(EvictOldest(b), window, x);
    }
  }

  lemma StrangerStays(t: Engine, m: Mutation, x: Source)
    requires t.window > 0 && x !in t.box.order
    requires m.IdPut? && m.ns.Message? ==> m.source != x
    ensures x !in Apply(t, m).box.order
    ensures x in t.box.msgs.bySource || (m.MessagePut? && m.entry.source == x) ==> x in Apply(t, m).box.msgs.bySource
  {
    if m.IdPut? && m.ns.Message? {
      var full := Mailbox(Put(t.box.ids, Message, m.source, m.surrogate), t.box.order + [m.source], t.box.msgs);
      TrimOnlyDrops(full, t.window, x);
      if x in t.box.msgs.bySource {
        TrimKeepsOthers(full, t.window, x);
      }
    } else if m.MessagePut? {
      RemoveKeepsOthers(t.box.msgs, m.entry.source);
    }
  }

  lemma {:induction false} StrangerRemains(t: Engine, ms: seq<Mutation>, x: Source)
    requires t.window > 0 && x !in t.box.order && x !in NameSet(MessageSlots(ms))
    ensures x in t.box.msgs.bySource || x in SourcesOf(Puts(ms)) ==> x in Replay(t, ms).box.msgs.bySource
    decreases |ms|
  {
    if ms != [] {
      var m, rest := ms[0], ms[1..];
      assert forall s :: s in MessageSlots(rest) ==> s in MessageSlots(ms);
      if m.IdPut? && m.ns.Message? {
        assert Slot(m.source, m.surrogate) == MessageSlots(ms)[0];
      }
      StrangerStays(t, m, x);
      StrangerRemains(Apply(t, m), rest, x);
      if x in SourcesOf(Puts(ms)) {
        FirstPut(ms, x);
      }
    }
  }

  lemma FirstPut(ms: seq<Mutation>, x: Source)
    requires ms != [] && x in SourcesOf(Puts(ms))
    ensures (ms[0].MessagePut? && ms[0].entry.source == x) || x in SourcesOf(Puts(ms[1..]))
  {
    var p :| p in Puts(ms) && p.source == x;
    if p in Puts(ms[1..]) {
      assert p.source in SourcesOf(Puts(ms[1..]));
    }
  }

  /**
   In an overlap longer than the window every message that is put must be allocated in it too: one whose
   id is older comes back on replay although the live engine had evicted it.
   */
  lemma LongOverlapNeedsIds(e: Engine, slots: seq<Slot>, log: Log, ms: seq<Mutation>, p: Entry)
    requires Running(e, slots, log) && Recorded(e, ms) && |MessageSlots(ms)| > e.window
    requires p in Puts(ms) && p.source !in NameSet(MessageSlots(ms))
    ensures p.source !in Replay(e, ms).box.msgs.bySource
    ensures p.source in Replay(Replay(e, ms), ms).box.msgs.bySource
  {
    var s, kept := Replay(e, ms), Recent(slots + MessageSlots(ms), e.window);
    RunKeepsRunning(e, slots, log, ms);
    TailIsNew(slots, MessageSlots(ms), e.window, p.source);
    if p.source in s.box.msgs.bySource {
      var i := ForwardFrom(kept, p.source);
      assert false;
    }
    assert p.source in SourcesOf(Puts(ms));
    StrangerRemains(s, ms, p.source);
  }

  /** The newest slots after more than a window of new ones are all new. */
  lemma TailIsNew(slots: seq<Slot>, more: seq<Slot>, window: nat, x: Source)
    requires |more| > window && x !in NameSet(more)
    ensures forall i :: 0 <= i < |Recent(slots + more, window)| ==> Recent(slots + more, window)[i].source != x
    ensures x !in Names(Recent(slots + more, window))
  {
    var kept := Recent(slots + more, window);
    forall i | 0 <= i < |kept|
      ensures kept[i].source != x
    {
      assert kept[i] == more[|more| - window + i];
      assert kept[i] in more;
    }
  }
}
