/**
 What a running engine looks like, and what a recorded run of mutations has done to it: the retained
 slots, the retained messages and the surrogate ids it handed out.
 */
module HotHistory {
  import opened HotState
  import opened HotIndex
  import opened HotWindow
  import opened HotSnapshot
  import opened HotRooms
  import opened HotPuts

  // ---- the states a running engine is in and the mutations it records in them ----

  /** Every retained message is still mapped, under the id it was put with. */
  ghost predicate Mapped(slots: seq<Slot>, log: Log) {
    forall x :: x in BySource(log) ==> x in Forward(slots) && Forward(slots)[x] == BySource(log)[x].surrogate
  }

  ghost predicate Running(e: Engine, slots: seq<Slot>, log: Log) {
    e.window > 0 && Shape(e.box, e.window, slots, log) && Mapped(slots, log) && ContextIndexed(e.rooms)
  }

  /** The entry is put under the id its source is mapped to, and stripping leaves its source alone. */
  predicate PutsMapped(ids: IdTable, entry: Entry) {
    entry.key == entry.source && entry.source in ids.forward && ids.forward[entry.source] == entry.surrogate
  }

  /** Mutation m can be what the engine records in state e: it just created the mapping or made the bind. */
  ghost predicate Recordable(e: Engine, m: Mutation) {
    match m
    case IdPut(ns, x, surrogate) => x != "" && x !in e.Table(ns).forward && surrogate == NextSurrogate(e, ns)
    case LegacyUserPut => false
    case MessagePut(entry) => PutsMapped(e.box.ids, entry)
    case _ => BindRecordable(e.rooms, m)
  }

  ghost predicate Recorded(e: Engine, ms: seq<Mutation>)
    requires e.window > 0
    decreases |ms|
  {
    ms == [] || (Recordable(e, ms[0]) && Recorded(Apply(e, ms[0]), ms[1..]))
  }

  lemma {:induction false} RecordedSplit(e: Engine, a: seq<Mutation>, b: seq<Mutation>)
    requires e.window > 0
    ensures Recorded(e, a + b) <==> Recorded(e, a) && Recorded(Replay(e, a), b)
    decreases |a|
  {
    if a == [] {
      assert a + b == b;
    } else {
      assert (a + b)[1..] == a[1..] + b;
      RecordedSplit(Apply(e, a[0]), a[1..], b);
    }
  }

  // ---- what one mutation does to slots and log ----

  function SlotsAfter(slots: seq<Slot>, m: Mutation, window: nat): seq<Slot> {
    if m.IdPut? && m.ns.Message? then Pushed(slots, Slot(m.source, m.surrogate), window) else slots
  }

  function LogAfter(slots: seq<Slot>, log: Log, m: Mutation, window: nat): Log {
    match m
    case IdPut(ns, _, _) => if ns.Message? then LogAfterPush(slots, log, window) else log
    case MessagePut(entry) => PutLog(log, entry)
    case _ => log
  }

  lemma PutWellFormed(log: Log, e: Entry)
    requires WellFormed(log) && e.key == e.source
    requires e.surrogate in BySurrogate(log) ==> BySurrogate(log)[e.surrogate].source == e.source
    ensures WellFormed(PutLog(log, e))
  {
    var x := e.source;
    WithoutWellFormed(log, x);
    WithoutBySource(log, x);
    if x in BySource(log) {
      WithoutBySurrogate(log, x);
      if e.surrogate in BySurrogate(log) {
        BySurrogateAt(log, e.surrogate);
      }
    } else {
      WithoutAbsent(log, x);
      if e.surrogate in BySurrogate(log) {
        BySurrogateAt(log, e.surrogate);
      }
    }
  }

  lemma MappedSurrogate(slots: seq<Slot>, log: Log, entry: Entry)
    requires Distinct(slots) && WellFormed(log) && Mapped(slots, log)
    requires entry.source in Forward(slots) && Forward(slots)[entry.source] == entry.surrogate
    ensures entry.surrogate in BySurrogate(log) ==> BySurrogate(log)[entry.surrogate].source == entry.source
  {
    if entry.surrogate in BySurrogate(log) {
      BySurrogateAt(log, entry.surrogate);
      var i := ForwardFrom(slots, entry.source);
      var j := ForwardFrom(slots, BySurrogate(log)[entry.surrogate].source);
    }
  }

  lemma PostShape(b: Mailbox, window: int, slots: seq<Slot>, log: Log, entry: Entry)
    requires Shape(b, window, slots, log) && entry.key == entry.source
    requires entry.surrogate in BySurrogate(log) ==> BySurrogate(log)[entry.surrogate].source == entry.source
    ensures Shape(Post(b, entry), window, slots, PutLog(log, entry))
  {
    PutWellFormed(log, entry);
    PutFollowsLog(log, entry);
  }

  lemma PutKeepsMapped(slots: seq<Slot>, log: Log, entry: Entry)
    requires Mapped(slots, log)
    requires entry.source in Forward(slots) && Forward(slots)[entry.source] == entry.surrogate
    ensures Mapped(slots, PutLog(log, entry))
  {
    WithoutBySource(log, entry.source);
  }

  lemma PushKeepsMapped(slots: seq<Slot>, s: Slot, log: Log, window: nat)
    requires Distinct(slots) && |slots| <= window && window > 0
    requires s.source !in Forward(slots) && Mapped(slots, log)
    ensures Mapped(Pushed(slots, s, window), LogAfterPush(slots, log, window))
  {
    if |slots| < window || slots == [] {
      ForwardSnoc(slots, s);
    } else {
      assert (slots + [s])[1..] == slots[1..] + [s];
      ForwardSnoc(slots[1..], s);
      ForwardTail(slots);
      WithoutBySource(log, slots[0].source);
    }
  }

  lemma UnusedSurrogate(b: Mailbox, window: int, slots: seq<Slot>, log: Log, surrogate: int)
    requires Shape(b, window, slots, log) && surrogate > Base(Message) + b.ids.counter
    ensures surrogate !in b.ids.reverse
  {
    if surrogate in b.ids.reverse {
      var i := ReverseFrom(slots, surrogate);
    }
  }

  /** The running engine stays in shape, slot list and log moving as described. */
  lemma StepKeepsRunning(e: Engine, slots: seq<Slot>, log: Log, m: Mutation)
    requires Running(e, slots, log) && Recordable(e, m)
    ensures Running(Apply(e, m), SlotsAfter(slots, m, e.window), LogAfter(slots, log, m, e.window))
    ensures Apply(e, m).box.ids.counter == e.box.ids.counter + (if m.IdPut? && m.ns.Message? then 1 else 0)
  {
    match m {
      case IdPut(ns, x, surrogate) =>
        if ns.Message? {
          UnusedSurrogate(e.box, e.window, slots, log, surrogate);
          ReceiveShape(e.box, e.window, slots, log, Slot(x, surrogate));
          PushKeepsMapped(slots, Slot(x, surrogate), log, e.window);
        }
      case LegacyUserPut =>
      case MessagePut(entry) =>
        MappedSurrogate(slots, log, entry);
        PostShape(e.box, e.window, slots, log, entry);
        PutKeepsMapped(slots, log, entry);
      case _ =>
        BindStepKeepsIndex(e.rooms, m);
    }
  }

  // ---- what a recorded run has done ----

  function MessageSlots(ms: seq<Mutation>): seq<Slot> {
    if ms == [] then []
    else
      (if ms[0].IdPut? && ms[0].ns.Message? then [Slot(ms[0].source, ms[0].surrogate)] else []) +
      MessageSlots(ms[1..])
  }

  function Puts(ms: seq<Mutation>): seq<Entry> {
    if ms == [] then []
    else (if ms[0].MessagePut? then [ms[0].entry] else []) + Puts(ms[1..])
  }

  function LogAll(slots: seq<Slot>, log: Log, ms: seq<Mutation>, window: nat): Log
    decreases |ms|
  {
    if ms == [] then log
    else LogAll(SlotsAfter(slots, ms[0], window), LogAfter(slots, log, ms[0], window), ms[1..], window)
  }

  lemma RecentRecent(a: seq<Slot>, b: seq<Slot>, size: nat)
    ensures Recent(Recent(a, size) + b, size) == Recent(a + b, size)
  {
  }

  lemma PushThenRest(slots: seq<Slot>, s: Slot, rest: seq<Slot>, window: nat)
    ensures Recent(Pushed(slots, s, window) + rest, window) == Recent(slots + ([s] + rest), window)
  {
    RecentRecent(slots + [s], rest, window);
    assert slots + [s] + rest == slots + ([s] + rest);
  }

  lemma SlotsAfterRest(slots: seq<Slot>, ms: seq<Mutation>, window: nat)
    requires ms != []
    ensures Recent(SlotsAfter(slots, ms[0], window) + MessageSlots(ms[1..]), window) ==
        Recent(slots + MessageSlots(ms), window)
  {
    var m, rest := ms[0], MessageSlots(ms[1..]);
    if m.IdPut? && m.ns.Message? {
      PushThenRest(slots, Slot(m.source, m.surrogate), rest, window);
    } else {
      assert MessageSlots(ms) == rest;
    }
  }

  /** The slots a run handed out carry consecutive surrogate ids. */
  ghost predicate Consecutive(slots: seq<Slot>, counter: nat) {
    forall i :: 0 <= i < |slots| ==> slots[i].surrogate == Base(Message) + counter + 1 + i
  }

  lemma {:induction false} RunShape(e: Engine, slots: seq<Slot>, log: Log, ms: seq<Mutation>)
    requires Running(e, slots, log) && Recorded(e, ms)
    ensures Running(Replay(e, ms), Recent(slots + MessageSlots(ms), e.window), LogAll(slots, log, ms, e.window))
    decreases |ms|
  {
    if ms == [] {
      assert slots + [] == slots;
    } else {
      StepKeepsRunning(e, slots, log, ms[0]);
      SlotsAfterRest(slots, ms, e.window);
      RunShape(Apply(e, ms[0]), SlotsAfter(slots, ms[0], e.window), LogAfter(slots, log, ms[0], e.window), ms[1..]);
    }
  }

  lemma ConsecutiveFirst(s: Slot, rest: seq<Slot>, counter: nat)
    requires s.surrogate == Base(Message) + counter + 1 && Consecutive(rest, counter + 1)
    ensures Consecutive([s] + rest, counter)
  {
  }

  lemma {:induction false} RunCounts(e: Engine, slots: seq<Slot>, log: Log, ms: seq<Mutation>)
    requires Running(e, slots, log) && Recorded(e, ms)
    ensures Replay(e, ms).box.ids.counter == e.box.ids.counter + |MessageSlots(ms)|
    ensures Consecutive(MessageSlots(ms), e.box.ids.counter)
    decreases |ms|
  {
    if ms != [] {
      var m, rest := ms[0], MessageSlots(ms[1..]);
      StepKeepsRunning(e, slots, log, m);
      RunCounts(Apply(e, m), SlotsAfter(slots, m, e.window), LogAfter(slots, log, m, e.window), ms[1..]);
      if m.IdPut? && m.ns.Message? {
        ConsecutiveFirst(Slot(m.source, m.surrogate), rest, e.box.ids.counter);
      } else {
        assert MessageSlots(ms) == rest;
      }
    }
  }

  /** After a recorded run: the newest slots of old and new ones together, and the run's log. */
  lemma RunKeepsRunning(e: Engine, slots: seq<Slot>, log: Log, ms: seq<Mutation>)
    requires Running(e, slots, log) && Recorded(e, ms)
    ensures Running(Replay(e, ms), Recent(slots + MessageSlots(ms), e.window), LogAll(slots, log, ms, e.window))
    ensures Replay(e, ms).box.ids.counter == e.box.ids.counter + |MessageSlots(ms)|
    ensures Consecutive(MessageSlots(ms), e.box.ids.counter)
  {
    RunShape(e, slots, log, ms);
    RunCounts(e, slots, log, ms);
  }

  /** The run's log is the plain run of puts with some sources dropped. */
  lemma {:induction false} RunLog(slots: seq<Slot>, log: Log, all: Log, gone: set<Source>, ms: seq<Mutation>,
                                  window: nat)
    returns (gone': set<Source>)
    requires log == Drop(all, gone)
    ensures LogAll(slots, log, ms, window) == Drop(PutAll(all, Puts(ms)), gone')
    decreases |ms|
  {
    if ms == [] {
      gone' := gone;
    } else {
      var m := ms[0];
      var slots', log' := SlotsAfter(slots, m, window), LogAfter(slots, log, m, window);
      if m.MessagePut? {
        PutDropped(all, gone, m.entry);
        gone' := RunLog(slots', log', PutLog(all, m.entry), gone - {m.entry.source}, ms[1..], window);
        assert ([m.entry] + Puts(ms[1..]))[1..] == Puts(ms[1..]);
      } else if m.IdPut? && log' != log {
        assert Puts(ms) == Puts(ms[1..]);
        DropIsWithout(all, gone, slots[0].source);
        gone' := RunLog(slots', log', all, gone + {slots[0].source}, ms[1..], window);
      } else {
        assert Puts(ms) == Puts(ms[1..]);
        gone' := RunLog(slots', log', all, gone, ms[1..], window);
      }
    }
  }

  /** Every entry a run put was mapped by an old slot or by one of the run's. */
  lemma {:induction false} PutsOwned(e: Engine, slots: seq<Slot>, log: Log, ms: seq<Mutation>)
    requires Running(e, slots, log) && Recorded(e, ms)
    ensures forall p :: p in Puts(ms) ==> p.key == p.source && Slot(p.source, p.surrogate) in slots + MessageSlots(ms)
    decreases |ms|
  {
    if ms != [] {
      var m := ms[0];
      var slots' := SlotsAfter(slots, m, e.window);
      StepKeepsRunning(e, slots, log, m);
      PutsOwned(Apply(e, m), slots', LogAfter(slots, log, m, e.window), ms[1..]);
      if m.MessagePut? {
        var i := ForwardFrom(slots, m.entry.source);
      } else if m.IdPut? && m.ns.Message? {
        var s := Slot(m.source, m.surrogate);
        assert forall t :: t in slots' ==> t in slots + [s];
      }
    }
  }

  /** Room, thread and context mappings are never dropped. */
  lemma {:induction false} NeverForgets(e: Engine, ms: seq<Mutation>, ns: Namespace, x: Source)
    requires e.window > 0 && !ns.Message? && x in e.Table(ns).forward
    ensures x in Replay(e, ms).Table(ns).forward
    decreases |ms|
  {
    if ms != [] {
      NeverForgets(Apply(e, ms[0]), ms[1..], ns, x);
    }
  }

  lemma {:induction false} AllocatedStays(e: Engine, ms: seq<Mutation>, i: nat)
    requires e.window > 0 && Recorded(e, ms)
    requires i < |ms| && ms[i].IdPut? && !ms[i].ns.Message?
    ensures ms[i].source in Replay(e, ms).Table(ms[i].ns).forward
    decreases |ms|
  {
    var next := Apply(e, ms[0]);
    if i == 0 {
      assert NextSurrogate(e, ms[0].ns) > 0;
      NeverForgets(next, ms[1..], ms[0].ns, ms[0].source);
    } else {
      AllocatedStays(next, ms[1..], i - 1);
    }
  }

  lemma {:induction false} MessageSlotOf(ms: seq<Mutation>, i: nat)
    requires i < |ms| && ms[i].IdPut? && ms[i].ns.Message?
    ensures Slot(ms[i].source, ms[i].surrogate) in MessageSlots(ms)
  {
    if i > 0 {
      MessageSlotOf(ms[1..], i - 1);
    }
  }
}
