/**
 The sorting window of DurableIdMap: what its maintenance does to the list of (source, surrogate id)
 slots in surrogate order, how far surrogate ids can run, and that it retains the same sources as the
 FIFO deque of the hot engine.
 */
module IdMapWindow {
  import opened Seqs
  import opened HotState
  import opened HotWindow

  /** The message namespace of the payload: its counter, and its mappings by increasing surrogate id. */
  datatype IdMap = IdMap(counter: nat, slots: seq<Slot>)

  predicate Increasing(slots: seq<Slot>) {
    forall i, j :: 0 <= i < j < |slots| ==> slots[i].surrogate < slots[j].surrogate
  }

  predicate Sound(d: IdMap) {
    Distinct(d.slots) && Increasing(d.slots) && Below(d.slots, d.counter)
  }

  const EmptyIdMap := IdMap(0, [])

  function ResetCounter(window: nat): nat {
    window * 2
  }

  /** The same sources under the ids Base + 1, Base + 2, and so on. */
  function Renumbered(slots: seq<Slot>): (r: seq<Slot>)
    ensures |r| == |slots| && Names(r) == Names(slots)
  {
    var r := seq(|slots|, i requires 0 <= i < |slots| => Slot(slots[i].source, Base(Message) + i + 1));
    assert Names(r) == Names(slots);
    r
  }

  predicate Compacts(counter: nat, window: nat, force: bool) {
    force || counter >= ResetCounter(window)
  }

  /** _maintain_message_window: the lowest surrogate ids leave, then possibly everything is renumbered. */
  function Maintain(d: IdMap, window: nat, force: bool): IdMap {
    var kept := Recent(d.slots, window);
    if Compacts(d.counter, window, force) then IdMap(|kept|, Renumbered(kept)) else IdMap(d.counter, kept)
  }

  function Overflow(d: IdMap, window: nat): nat {
    if |d.slots| > window then |d.slots| - window else 0
  }

  lemma RecentIsTail(slots: seq<Slot>, window: nat)
    ensures var n := |slots|;
            Recent(slots, window) == slots[n - (if n <= window then n else window)..]
  {
  }

  lemma RenumberedMeans(slots: seq<Slot>, i: nat)
    requires i < |slots|
    ensures Renumbered(slots)[i] == Slot(slots[i].source, 3_000_000_001 + i)
  {
  }

  /**
   The newest slots are left, as many as fit; renumbered from one on, counter included, if that is asked
   for or the counter has reached twice the window, and under their old ids otherwise.
   */
  lemma MaintainMeans(d: IdMap, window: nat, force: bool)
    ensures var m, n := Maintain(d, window, force), |d.slots|;
            var kept := d.slots[n - (if n <= window then n else window)..];
            && |m.slots| == |kept| && Overflow(d, window) == n - |kept|
            && if force || d.counter >= 2 * window
               then m.counter == |kept| && forall i :: 0 <= i < |kept| ==>
                      m.slots[i] == Slot(kept[i].source, 3_000_000_001 + i)
               else m.counter == d.counter && m.slots == kept
  {
    RecentIsTail(d.slots, window);
    var left := Recent(d.slots, window);
    forall i | 0 <= i < |left|
      ensures Renumbered(left)[i] == Slot(left[i].source, 3_000_000_001 + i)
    {
      RenumberedMeans(left, i);
    }
  }

  function Appended(d: IdMap, x: Source): IdMap {
    IdMap(d.counter + 1, d.slots + [Slot(x, Base(Message) + d.counter + 1)])
  }

  function GetOrCreate(d: IdMap, window: nat, x: Source): IdMap {
    if x in Names(d.slots) then d else Maintain(Appended(d, x), window, false)
  }

  // ---- the invariant ----

  lemma RecentSound(d: IdMap, window: nat)
    requires Sound(d)
    ensures Sound(IdMap(d.counter, Recent(d.slots, window)))
  {
  }

  lemma RenumberedSound(d: IdMap)
    requires Sound(d)
    ensures Sound(IdMap(|d.slots|, Renumbered(d.slots)))
  {
  }

  lemma MaintainSound(d: IdMap, window: nat, force: bool)
    requires Sound(d)
    ensures Sound(Maintain(d, window, force))
  {
    RecentSound(d, window);
    RenumberedSound(IdMap(d.counter, Recent(d.slots, window)));
  }

  lemma GetOrCreateSound(d: IdMap, window: nat, x: Source)
    requires Sound(d)
    ensures Sound(GetOrCreate(d, window, x))
  {
    if x !in Names(d.slots) {
      forall i | 0 <= i < |d.slots|
        ensures d.slots[i].source != x
      {
        assert Names(d.slots)[i] == d.slots[i].source;
      }
      MaintainSound(Appended(d, x), window, false);
    }
  }

  /** The newest `size` sources of a list. */
  function Newest(s: seq<Source>, size: nat): seq<Source> {
    if |s| <= size then s else s[|s| - size..]
  }

  /** What the newest are when one more has been added to the list, or to its newest. */
  lemma NewestAndOne(s: seq<Source>, x: Source, size: nat)
    requires size > 0
    ensures Newest(Newest(s, size) + [x], size) == Newest(s + [x], size)
  {
  }

  // ---- against the deque of the hot engine ----

  datatype WindowOp = Create(source: Source) | SetSize(size: int) | Rebuild(force: bool)

  /** A DurableIdMap, its window, and the removed counts reported so far. */
  datatype Durable = Durable(table: IdMap, window: int, removed: seq<nat>)

  datatype Hot = Hot(engine: Engine, removed: seq<nat>)

  function DurableStep(s: Durable, op: WindowOp): Durable
    requires s.window > 0
    ensures DurableStep(s, op).window > 0
  {
    match op
    case Create(x) =>
      if x in Names(s.table.slots) then s
      else Durable(GetOrCreate(s.table, s.window, x), s.window, s.removed + [Overflow(Appended(s.table, x), s.window)])
    case SetSize(size) => s.(window := NormalizeWindow(size))
    case Rebuild(force) =>
      Durable(Maintain(s.table, s.window, force), s.window, s.removed + [Overflow(s.table, s.window)])
  }

  /** The hot engine: a fresh mapping appends to the deque and trims; a rebuild only trims. */
  function HotStep(s: Hot, op: WindowOp): Hot
    requires s.engine.window > 0
    ensures HotStep(s, op).engine.window > 0
  {
    var e := s.engine;
    match op
    case Create(x) =>
      if x in e.box.ids.forward then s
      else
        var n := Allocate(e, Message, x);
        Hot(n, s.removed + [Shrunk(|e.box.order| + 1, |n.box.order|)])
    case SetSize(size) => Hot(e.(window := NormalizeWindow(size)), s.removed)
    case Rebuild(_) =>
      var n := e.(box := Trim(e.box, e.window));
      Hot(n, s.removed + [Shrunk(|e.box.order|, |n.box.order|)])
  }

  /** How many entries a trim took away. */
  function Shrunk(before: nat, after: nat): nat {
    if before > after then before - after else 0
  }

  function DurableRun(s: Durable, ops: seq<WindowOp>): Durable
    requires s.window > 0
    decreases |ops|
  {
    if ops == [] then s else DurableRun(DurableStep(s, ops[0]), ops[1..])
  }

  function HotRun(s: Hot, ops: seq<WindowOp>): Hot
    requires s.engine.window > 0
    decreases |ops|
  {
    if ops == [] then s else HotRun(HotStep(s, ops[0]), ops[1..])
  }

  /** The deque lists each mapped source once. */
  ghost predicate Queue(b: Mailbox) {
    NoDup(b.order) && forall x :: x in b.ids.forward <==> x in b.order
  }

  lemma EvictKeepsQueue(b: Mailbox)
    requires Queue(b) && b.order != []
    ensures Queue(EvictOldest(b)) && EvictOldest(b).order == b.order[1..]
  {
    assert forall x :: x in b.order[1..] <==> x in b.order && x != b.order[0];
  }

  lemma NewestOfRest(order: seq<Source>, size: nat)
    requires |order| > size
    ensures Newest(order[1..], size) == Newest(order, size)
  {
  }

  lemma {:induction false} TrimKeepsNewest(b: Mailbox, window: int)
    requires window > 0 && Queue(b)
    ensures var r := Trim(b, window);
            Queue(r) && r.order == Newest(b.order, window)
    decreases |b.order|
  {
    if |b.order| > window {
      EvictKeepsQueue(b);
      NewestOfRest(b.order, window);
      TrimKeepsNewest(EvictOldest(b), window);
    }
  }

  lemma RecentNames(slots: seq<Slot>, window: nat)
    ensures Names(Recent(slots, window)) == Newest(Names(slots), window)
  {
  }

  lemma MaintainNames(d: IdMap, window: nat, force: bool)
    ensures Names(Maintain(d, window, force).slots) == Newest(Names(d.slots), window)
  {
    RecentNames(d.slots, window);
  }

  /** Same sources in the same order, same window, same removed counts. */
  ghost predicate Agree(s: Durable, h: Hot) {
    && s.window == h.engine.window && s.window > 0
    && Names(s.table.slots) == h.engine.box.order && Queue(h.engine.box)
    && s.removed == h.removed
  }

  lemma DurableCreates(s: Durable, x: Source)
    requires s.window > 0 && x !in Names(s.table.slots)
    ensures Names(DurableStep(s, Create(x)).table.slots) == Newest(Names(s.table.slots) + [x], s.window)
    ensures DurableStep(s, Create(x)).removed == s.removed + [Shrunk(|s.table.slots| + 1, s.window)]
  {
    AppendedList(s.table, x);
    MaintainNames(Appended(s.table, x), s.window, false);
  }

  lemma HotCreates(h: Hot, x: Source)
    requires h.engine.window > 0 && Queue(h.engine.box) && x !in h.engine.box.order
    ensures var n := HotStep(h, Create(x));
            && Queue(n.engine.box) && n.engine.window == h.engine.window
            && n.engine.box.order == Newest(h.engine.box.order + [x], h.engine.window)
            && n.removed == h.removed + [Shrunk(|h.engine.box.order| + 1, |n.engine.box.order|)]
  {
    var b := h.engine.box;
    var full := Mailbox(Put(b.ids, Message, x, NextSurrogate(h.engine, Message)), b.order + [x], b.msgs);
    assert Queue(full);
    TrimKeepsNewest(full, h.engine.window);
  }

  lemma CreateAgrees(s: Durable, h: Hot, x: Source)
    requires Agree(s, h)
    ensures Agree(DurableStep(s, Create(x)), HotStep(h, Create(x)))
  {
    if x !in h.engine.box.order {
      DurableCreates(s, x);
      HotCreates(h, x);
      assert DurableStep(s, Create(x)).window == s.window;
    }
  }

  lemma DurableRebuilds(s: Durable, force: bool)
    requires s.window > 0
    ensures var before, r := Names(s.table.slots), DurableStep(s, Rebuild(force));
            && Names(r.table.slots) == Newest(before, s.window)
            && r.window == s.window && r.removed == s.removed + [Shrunk(|before|, s.window)]
  {
    MaintainNames(s.table, s.window, force);
    assert |Names(s.table.slots)| == |s.table.slots|;
    assert DurableStep(s, Rebuild(force))
        == Durable(Maintain(s.table, s.window, force), s.window, s.removed + [Overflow(s.table, s.window)]);
  }

  lemma HotRebuilds(h: Hot, force: bool)
    requires h.engine.window > 0 && Queue(h.engine.box)
    ensures var before, n := h.engine.box.order, HotStep(h, Rebuild(force));
            && Queue(n.engine.box) && n.engine.window == h.engine.window
            && n.engine.box.order == Newest(before, h.engine.window)
            && n.removed == h.removed + [Shrunk(|before|, h.engine.window)]
  {
    TrimKeepsNewest(h.engine.box, h.engine.window);
  }

  lemma RebuildAgrees(s: Durable, h: Hot, force: bool)
    requires Agree(s, h)
    ensures Agree(DurableStep(s, Rebuild(force)), HotStep(h, Rebuild(force)))
  {
    DurableRebuilds(s, force);
    HotRebuilds(h, force);
  }

  /**
   The FIFO deque refines the sorting window: for the same creations, window changes and rebuilds, forced
   or not, both keep the same sources in the same order and report the same removed counts.
   */
  lemma {:induction false} DequeRefinesSortedWindow(s: Durable, h: Hot, ops: seq<WindowOp>)
    requires Agree(s, h)
    ensures var s1, h1 := DurableRun(s, ops), HotRun(h, ops);
            && Names(s1.table.slots) == h1.engine.box.order
            && (forall x :: x in h1.engine.box.ids.forward <==> x in Names(s1.table.slots))
            && s1.removed == h1.removed
    decreases |ops|
  {
    if ops != [] {
      var op := ops[0];
      match op {
        case Create(x) => CreateAgrees(s, h, x);
        case SetSize(size) =>
        case Rebuild(force) => RebuildAgrees(s, h, force);
      }
      DequeRefinesSortedWindow(DurableStep(s, op), HotStep(h, op), ops[1..]);
    }
  }

  /** Both start empty. */
  lemma StartAgrees(window: int)
    requires window > 0
    ensures Agree(Durable(EmptyIdMap, window, []), Hot(Empty(window), []))
  {
    assert Names([]) == [];
  }

  /** The same for the two stores as they are created. */
  lemma SameWindowFromStart(window: int, ops: seq<WindowOp>)
    requires window > 0
    ensures var s, h := DurableRun(Durable(EmptyIdMap, window, []), ops), HotRun(Hot(Empty(window), []), ops);
            && Names(s.table.slots) == h.engine.box.order
            && (forall x :: x in h.engine.box.ids.forward <==> x in Names(s.table.slots))
            && s.removed == h.removed
  {
    StartAgrees(window);
    DequeRefinesSortedWindow(Durable(EmptyIdMap, window, []), Hot(Empty(window), []), ops);
  }

  // ---- compaction with a constant window ----

  /** A run of get_or_create calls: the map, every source created so far, and the compactions. */
  datatype History = History(table: IdMap, created: seq<Source>, compactions: nat)

  function Record(h: History, window: nat, x: Source): History {
    if x in Names(h.table.slots) then h
    else History(GetOrCreate(h.table, window, x), h.created + [x],
                 if Compacts(h.table.counter + 1, window, false) then h.compactions + 1 else h.compactions)
  }

  function RecordAll(h: History, window: nat, xs: seq<Source>): History
    decreases |xs|
  {
    if xs == [] then h else RecordAll(Record(h, window, xs[0]), window, xs[1..])
  }

  /** The surrogate ids in use are consecutive and end at the counter. */
  predicate Consecutive(d: IdMap) {
    |d.slots| <= d.counter &&
    forall i :: 0 <= i < |d.slots| ==> d.slots[i].surrogate == Base(Message) + d.counter - |d.slots| + i + 1
  }

  predicate Bounded(h: History, window: nat) {
    && Distinct(h.table.slots)
    && Consecutive(h.table)
    && h.table.counter <= 2 * window - 1
    && h.table.counter + window * h.compactions == |h.created|
    && Names(h.table.slots) == Newest(h.created, window)
  }

  lemma CompactionCounts(window: nat, compactions: nat, created: nat)
    requires 2 * window + window * compactions == created
    ensures window + window * (compactions + 1) == created && created >= window
  {
  }

  lemma AppendedNames(h: History, window: nat, x: Source)
    requires Bounded(h, window) && window > 0
    ensures Names(Recent(Appended(h.table, x).slots, window)) == Newest(h.created + [x], window)
  {
    AppendedList(h.table, x);
    RecentNames(Appended(h.table, x).slots, window);
    NewestAndOne(h.created, x, window);
  }

  lemma AppendedList(d: IdMap, x: Source)
    ensures Names(Appended(d, x).slots) == Names(d.slots) + [x]
  {
  }

  lemma MaintainedNames(h: History, window: nat, x: Source)
    requires Bounded(h, window) && window > 0
    ensures Names(Maintain(Appended(h.table, x), window, false).slots) == Newest(h.created + [x], window)
  {
    AppendedNames(h, window, x);
  }

  lemma MaintainedCounts(h: History, window: nat, x: Source)
    requires Bounded(h, window) && window > 0
    ensures var a := Appended(h.table, x);
            var m := Maintain(a, window, false);
            var compactions := if Compacts(a.counter, window, false) then h.compactions + 1 else h.compactions;
            m.counter <= 2 * window - 1 && m.counter + window * compactions == |h.created| + 1
  {
    var a := Appended(h.table, x);
    AppendedNames(h, window, x);
    if Compacts(a.counter, window, false) {
      CompactionCounts(window, h.compactions, |h.created| + 1);
    }
  }

  lemma AppendedConsecutive(d: IdMap, x: Source)
    requires Consecutive(d) && Distinct(d.slots) && x !in Names(d.slots)
    ensures Consecutive(Appended(d, x)) && Distinct(Appended(d, x).slots)
  {
    assert forall i :: 0 <= i < |d.slots| ==> Names(d.slots)[i] == d.slots[i].source;
  }

  lemma MaintainConsecutive(d: IdMap, window: nat, force: bool)
    requires Consecutive(d) && Distinct(d.slots)
    ensures Consecutive(Maintain(d, window, force)) && Distinct(Maintain(d, window, force).slots)
  {
  }

  lemma BoundedByParts(h: History, window: nat, x: Source, m: IdMap)
    requires x !in Names(h.table.slots) && m == Maintain(Appended(h.table, x), window, false)
    requires Distinct(m.slots) && Consecutive(m) && m.counter <= 2 * window - 1
    requires var compactions := if Compacts(h.table.counter + 1, window, false) then h.compactions + 1
             else h.compactions;
             m.counter + window * compactions == |h.created| + 1
    requires Names(m.slots) == Newest(h.created + [x], window)
    ensures Bounded(Record(h, window, x), window)
  {
    assert Record(h, window, x).table == m;
  }

  /** Every creation lands in the window under the highest surrogate id. */
  lemma RecordBounded(h: History, window: nat, x: Source)
    requires Bounded(h, window) && window > 0
    ensures Bounded(Record(h, window, x), window)
  {
    if x !in Names(h.table.slots) {
      var a := Appended(h.table, x);
      AppendedConsecutive(h.table, x);
      MaintainConsecutive(a, window, false);
      MaintainedNames(h, window, x);
      MaintainedCounts(h, window, x);
      BoundedByParts(h, window, x, Maintain(a, window, false));
    }
  }

  /**
   Window compaction with a constant window: after any calls, exactly the newest min(window, created)
   sources remain, in creation order, under consecutive surrogate ids between Base + 1 and
   Base + 2 * window - 1; counter and compactions account for every creation.
   */
  lemma {:induction false} CompactionBounds(h: History, window: nat, xs: seq<Source>)
    requires Bounded(h, window) && window > 0
    ensures var r := RecordAll(h, window, xs);
            && Names(r.table.slots) == r.created[|r.created| - Min(window, |r.created|)..]
            && (forall i :: 0 <= i < |r.table.slots| ==>
                  Base(Message) + 1 <= r.table.slots[i].surrogate <= Base(Message) + 2 * window - 1)
            && r.table.counter + window * r.compactions == |r.created|
            && r.compactions * window <= |r.created|
    decreases |xs|
  {
    if xs != [] {
      RecordBounded(h, window, xs[0]);
      CompactionBounds(Record(h, window, xs[0]), window, xs[1..]);
    }
  }

  lemma EmptyBounded(window: nat)
    requires window > 0
    ensures Bounded(History(EmptyIdMap, [], 0), window)
  {
    var none: seq<Source> := [];
    assert Names(EmptyIdMap.slots) == none;
    assert window * 0 == 0;
  }

  lemma {:induction false} RecordAllSound(h: History, window: nat, xs: seq<Source>)
    requires Sound(h.table)
    ensures Sound(RecordAll(h, window, xs).table)
    decreases |xs|
  {
    if xs != [] {
      GetOrCreateSound(h.table, window, xs[0]);
      RecordAllSound(Record(h, window, xs[0]), window, xs[1..]);
    }
  }

  /**
   From an empty map: the newest sources that were not there when they were asked for, each under one id,
   ids increasing in creation order and none above the counter.
   */
  lemma CompactionFromStart(window: nat, xs: seq<Source>)
    requires window > 0
    ensures var r := RecordAll(History(EmptyIdMap, [], 0), window, xs);
            && Sound(r.table) && Names(r.table.slots) == r.created[|r.created| - Min(window, |r.created|)..]
            && r.table.counter + window * r.compactions == |r.created|
            && (forall i :: 0 <= i < |r.table.slots| ==> r.table.slots[i].surrogate <= Base(Message) + 2 * window - 1)
  {
    EmptyBounded(window);
    CompactionBounds(History(EmptyIdMap, [], 0), window, xs);
    RecordAllSound(History(EmptyIdMap, [], 0), window, xs);
  }
}
