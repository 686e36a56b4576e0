/**
 The message window against one list of (source, surrogate id) slots, oldest first: the forward map,
 the reverse map and the order deque of the engine are all functions of that list.
 */
module HotWindow {
  import opened Seqs
  import opened HotState
  import opened HotIndex

  datatype Slot = Slot(source: Source, surrogate: int)

  function Names(slots: seq<Slot>): (r: seq<Source>)
    ensures |r| == |slots|
    ensures forall i :: 0 <= i < |slots| ==> r[i] == slots[i].source
  {
    seq(|slots|, i requires 0 <= i < |slots| => slots[i].source)
  }

  function Forward(slots: seq<Slot>): map<Source, int> {
    if slots == [] then map[] else Forward(slots[..|slots| - 1])[Last(slots).source := Last(slots).surrogate]
  }

  function Reverse(slots: seq<Slot>): map<int, Source> {
    if slots == [] then map[] else Reverse(slots[..|slots| - 1])[Last(slots).surrogate := Last(slots).source]
  }

  predicate Distinct(slots: seq<Slot>) {
    forall i, j :: 0 <= i < j < |slots| ==>
      slots[i].source != slots[j].source && slots[i].surrogate != slots[j].surrogate
  }

  predicate Below(slots: seq<Slot>, counter: nat) {
    forall i :: 0 <= i < |slots| ==> Base(Message) < slots[i].surrogate <= Base(Message) + counter
  }

  /** The newest `size` slots. */
  function Recent(slots: seq<Slot>, size: nat): seq<Slot> {
    if |slots| <= size then slots else slots[|slots| - size..]
  }

  lemma ForwardSnoc(slots: seq<Slot>, s: Slot)
    ensures Forward(slots + [s]) == Forward(slots)[s.source := s.surrogate]
    ensures Reverse(slots + [s]) == Reverse(slots)[s.surrogate := s.source]
  {
    assert (slots + [s])[..|slots|] == slots;
  }

  lemma {:induction false} MapsAt(slots: seq<Slot>, i: nat)
    requires Distinct(slots) && i < |slots|
    ensures slots[i].source in Forward(slots) && Forward(slots)[slots[i].source] == slots[i].surrogate
    ensures slots[i].surrogate in Reverse(slots) && Reverse(slots)[slots[i].surrogate] == slots[i].source
  {
    if i < |slots| - 1 {
      MapsAt(slots[..|slots| - 1], i);
    }
  }

  lemma {:induction false} ForwardFrom(slots: seq<Slot>, x: Source) returns (i: nat)
    requires x in Forward(slots)
    ensures i < |slots| && slots[i] == Slot(x, Forward(slots)[x])
  {
    if Last(slots).source == x {
      i := |slots| - 1;
    } else {
      i := ForwardFrom(slots[..|slots| - 1], x);
    }
  }

  lemma {:induction false} ReverseFrom(slots: seq<Slot>, s: int) returns (i: nat)
    requires s in Reverse(slots)
    ensures i < |slots| && slots[i].surrogate == s && slots[i].source == Reverse(slots)[s]
  {
    if Last(slots).surrogate == s {
      i := |slots| - 1;
    } else {
      i := ReverseFrom(slots[..|slots| - 1], s);
    }
  }

  lemma {:induction false} ForwardTail(slots: seq<Slot>)
    requires Distinct(slots) && slots != []
    ensures Forward(slots[1..]) == Forward(slots) - {slots[0].source}
    ensures Reverse(slots[1..]) == Reverse(slots) - {slots[0].surrogate}
  {
    if |slots| == 1 {
      assert slots[1..] == [];
      assert slots[..0] == [];
    } else {
      var front, s := slots[..|slots| - 1], Last(slots);
      ForwardTail(front);
      assert slots[1..] == front[1..] + [s];
      ForwardSnoc(front[1..], s);
      assert slots[0] == front[0] && slots[|slots| - 1] == s;
    }
  }

  /**
   The mailbox is exactly: these slots, oldest first, within the window and with ids no larger than
   the counter; and this list of retained entries.
   */
  ghost predicate Shape(b: Mailbox, window: int, slots: seq<Slot>, log: Log) {
    && |slots| <= window
    && Distinct(slots) && Below(slots, b.ids.counter) && WellFormed(log)
    && b == Boxed(b.ids.counter, slots, log)
  }

  predicate SameWindow(a: Mailbox, b: Mailbox) {
    a.ids == b.ids && a.order == b.order
  }

  function Boxed(counter: nat, slots: seq<Slot>, log: Log): Mailbox {
    Mailbox(IdTable(counter, Forward(slots), Reverse(slots)), Names(slots), TablesOf(log))
  }

  function Pushed(slots: seq<Slot>, s: Slot, window: nat): seq<Slot> {
    Recent(slots + [s], window)
  }

  function LogAfterPush(slots: seq<Slot>, log: Log, window: nat): Log {
    if |slots| < window || slots == [] then log else Without(log, slots[0].source)
  }

  lemma DropOldest(counter: nat, slots: seq<Slot>, log: Log)
    requires slots != [] && Distinct(slots) && WellFormed(log)
    ensures EvictOldest(Boxed(counter, slots, log)) == Boxed(counter, slots[1..], Without(log, slots[0].source))
  {
    MapsAt(slots, 0);
    ForwardTail(slots);
    RemoveFollowsLog(log, slots[0].source);
    assert Names(slots)[1..] == Names(slots[1..]);
  }

  lemma AppendDistinct(slots: seq<Slot>, s: Slot)
    requires Distinct(slots)
    requires s.source !in Forward(slots) && s.surrogate !in Reverse(slots)
    ensures Distinct(slots + [s])
  {
    forall i | 0 <= i < |slots|
      ensures slots[i].source != s.source && slots[i].surrogate != s.surrogate
    {
      MapsAt(slots, i);
    }
  }

  lemma TrimOne(counter: nat, window: nat, slots: seq<Slot>, log: Log)
    requires window > 0 && |slots| <= window + 1
    requires Distinct(slots) && WellFormed(log)
    ensures Trim(Boxed(counter, slots, log), window)
            == Boxed(counter, Recent(slots, window), if |slots| <= window then log else Without(log, slots[0].source))
  {
    if |slots| > window {
      DropOldest(counter, slots, log);
      assert Recent(slots, window) == slots[1..];
      var b := EvictOldest(Boxed(counter, slots, log));
      assert |b.order| == window;
    }
  }

  lemma PushDistinct(slots: seq<Slot>, s: Slot, window: nat, counter: nat)
    requires window > 0 && Distinct(slots) && Below(slots, counter)
    requires s.source !in Forward(slots) && s.surrogate !in Reverse(slots) && s.surrogate > Base(Message)
    ensures Distinct(slots + [s]) && Distinct(Pushed(slots, s, window))
    ensures Below(Pushed(slots, s, window), Max(counter, s.surrogate - Base(Message)))
  {
    AppendDistinct(slots, s);
  }

  lemma PushWellFormed(slots: seq<Slot>, log: Log, window: nat)
    requires WellFormed(log)
    ensures WellFormed(LogAfterPush(slots, log, window))
  {
    if slots != [] {
      WithoutWellFormed(log, slots[0].source);
    }
  }

  lemma BoxedAppend(counter: nat, slots: seq<Slot>, log: Log, s: Slot)
    ensures var b := Boxed(counter, slots, log);
            Mailbox(Put(b.ids, Message, s.source, s.surrogate), b.order + [s.source], b.msgs)
            == Boxed(Max(counter, s.surrogate - Base(Message)), slots + [s], log)
  {
    ForwardSnoc(slots, s);
    assert Names(slots + [s]) == Names(slots) + [s.source];
  }

  lemma BoxedPush(counter: nat, window: nat, slots: seq<Slot>, log: Log, s: Slot)
    requires window > 0 && |slots| <= window && Distinct(slots + [s]) && WellFormed(log)
    ensures Receive(Boxed(counter, slots, log), window, s.source, s.surrogate)
            == Boxed(Max(counter, s.surrogate - Base(Message)), Pushed(slots, s, window),
                LogAfterPush(slots, log, window))
  {
    BoxedAppend(counter, slots, log, s);
    TrimOne(Max(counter, s.surrogate - Base(Message)), window, slots + [s], log);
    assert slots != [] ==> (slots + [s])[0] == slots[0];
  }

  /**
   A fresh message mapping: the new slot is the newest, at most one slot, the oldest, leaves, and its
   message leaves the tables with it.
   */
  lemma ReceiveShape(b: Mailbox, window: nat, slots: seq<Slot>, log: Log, s: Slot)
    requires window > 0 && Shape(b, window, slots, log)
    requires s.source !in b.ids.forward && s.surrogate !in b.ids.reverse && s.surrogate > Base(Message)
    ensures Shape(Receive(b, window, s.source, s.surrogate), window, Pushed(slots, s, window),
            LogAfterPush(slots, log, window))
    ensures Receive(b, window, s.source, s.surrogate).ids.counter == Max(b.ids.counter, s.surrogate - Base(Message))
  {
    PushDistinct(slots, s, window, b.ids.counter);
    PushWellFormed(slots, log, window);
    BoxedPush(b.ids.counter, window, slots, log, s);
  }

  lemma RecentAppend(slots: seq<Slot>, more: seq<Slot>, s: Slot, size: nat)
    requires size > 0
    ensures Pushed(Recent(slots + more, size), s, size) == Recent(slots + (more + [s]), size)
  {
    assert slots + (more + [s]) == (slots + more) + [s];
  }
}
