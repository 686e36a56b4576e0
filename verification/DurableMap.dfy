/**
 DurableIdMap on its payload dictionaries: get_or_create, the maintenance that sorts the reverse map, and
 compaction. The dictionaries are kept against the list of slots in surrogate order.
 */
module DurableMap {
  import opened Seqs
  import opened HotState
  import opened HotWindow
  import opened IdMapWindow

  lemma Member<T>(s: set<T>) returns (x: T)
    requires s != {}
    ensures x in s
  {
    x :| x in s;
  }

  lemma {:induction false} HasMinimum(keys: set<int>) returns (m: int)
    requires keys != {}
    ensures m in keys && forall k :: k in keys ==> m <= k
    decreases |keys|
  {
    var x := Member(keys);
    m := x;
    if y :| y in keys && y != x {
      assert y in keys - {x};
      var rest := HasMinimum(keys - {x});
      m := if rest < x then rest else x;
      forall k | k in keys
        ensures m <= k
      {
        assert k == x || k in keys - {x};
      }
    }
  }

  /** sorted() on distinct integers. */
  function Sorted(keys: set<int>): seq<int>
    decreases |keys|
  {
    if keys == {} then []
    else
      assert exists m :: m in keys && forall k :: k in keys ==> m <= k by {
        var m := HasMinimum(keys);
      }
      var m :| m in keys && forall k :: k in keys ==> m <= k;
      [m] + Sorted(keys - {m})
  }

  function Surrogates(slots: seq<Slot>): seq<int> {
    seq(|slots|, i requires 0 <= i < |slots| => slots[i].surrogate)
  }

  lemma SortedFirst(keys: set<int>, m: int)
    requires m in keys && forall k :: k in keys ==> m <= k
    ensures Sorted(keys) == [m] + Sorted(keys - {m})
  {
  }

  lemma LowestFirst(slots: seq<Slot>)
    requires Distinct(slots) && Increasing(slots) && slots != []
    ensures Distinct(slots[1..]) && Increasing(slots[1..])
    ensures slots[0].surrogate in Reverse(slots) && forall k :: k in Reverse(slots) ==> slots[0].surrogate <= k
  {
    MapsAt(slots, 0);
    forall k | k in Reverse(slots)
      ensures slots[0].surrogate <= k
    {
      var i := ReverseFrom(slots, k);
    }
  }

  /** Sorting the reverse map gives the slots in their order. */
  lemma {:induction false} SortedReverse(slots: seq<Slot>)
    requires Distinct(slots) && Increasing(slots)
    ensures Sorted(Reverse(slots).Keys) == Surrogates(slots)
    decreases |slots|
  {
    if slots != [] {
      var keys, m := Reverse(slots).Keys, slots[0].surrogate;
      LowestFirst(slots);
      SortedFirst(keys, m);
      ForwardTail(slots);
      assert Reverse(slots[1..]).Keys == keys - {m};
      SortedReverse(slots[1..]);
      assert Surrogates(slots) == [m] + Surrogates(slots[1..]);
    }
  }

  lemma {:induction false} ForwardSize(slots: seq<Slot>)
    requires Distinct(slots)
    ensures |Forward(slots)| == |slots|
    decreases |slots|
  {
    if slots != [] {
      var front := slots[..|slots| - 1];
      ForwardSize(front);
      assert Last(slots).source !in Forward(front) by {
        if Last(slots).source in Forward(front) {
          var i := ForwardFrom(front, Last(slots).source);
          assert false;
        }
      }
      assert Forward(slots).Keys == Forward(front).Keys + {Last(slots).source};
    }
  }

  datatype WindowReport = WindowReport(changed: bool, removedCount: nat, compacted: bool, activeCount: nat)

  lemma Oldest(slots: seq<Slot>)
    requires slots != [] && Distinct(slots)
    ensures Distinct(slots[1..])
    ensures slots[0].surrogate in Reverse(slots) && Reverse(slots)[slots[0].surrogate] == slots[0].source
    ensures Forward(slots[1..]) == Forward(slots) - {slots[0].source}
    ensures Reverse(slots[1..]) == Reverse(slots) - {slots[0].surrogate}
  {
    MapsAt(slots, 0);
    ForwardTail(slots);
  }

  lemma OldestAt(slots: seq<Slot>, k: nat)
    requires k < |slots| && Distinct(slots)
    ensures slots[k].surrogate in Reverse(slots[k..]) && Reverse(slots[k..])[slots[k].surrogate] == slots[k].source
    ensures Forward(slots[k + 1..]) == Forward(slots[k..]) - {slots[k].source}
    ensures Reverse(slots[k + 1..]) == Reverse(slots[k..]) - {slots[k].surrogate}
  {
    Oldest(slots[k..]);
    assert slots[k..][1..] == slots[k + 1..];
  }

  class DurableIdMap {
    var window: int
    var counter: nat
    var forward: map<Source, int>
    var reverse: map<int, Source>

    /** The message namespace as a list of slots in surrogate order. */
    ghost var table: IdMap

    ghost predicate Valid()
      reads this
    {
      window > 0 && Sound(table) && counter == table.counter && forward == Forward(table.slots) &&
          reverse == Reverse(table.slots)
    }

    constructor (size: int)
      ensures Valid() && table == EmptyIdMap && window == NormalizeWindow(size)
    {
      window := NormalizeWindow(size);
      counter, forward, reverse, table := 0, map[], map[], EmptyIdMap;
    }

    method SetMessageWindowSize(size: int)
      requires Valid()
      modifies this`window
      ensures Valid() && window == NormalizeWindow(size)
    {
      window := NormalizeWindow(size);
    }

    /** Pop the lowest surrogate ids until the window fits. */
    method DropOverflow() returns (removed: nat)
      requires Valid()
      modifies this`forward, this`reverse, this`table
      ensures Valid() && table == IdMap(old(table).counter, Recent(old(table).slots, window))
      ensures removed == Overflow(old(table), window)
    {
      ghost var all := table.slots;
      ForwardSize(all);
      RecentSound(table, window);
      var overflow := |forward| - window;
      removed := 0;
      if overflow > 0 {
        SortedReverse(all);
        var ordered := Sorted(reverse.Keys);
        assert ordered == Surrogates(all);
        while removed < overflow
          invariant 0 <= removed <= overflow
          invariant forward == Forward(all[removed..]) && reverse == Reverse(all[removed..])
          invariant table == old(table)
        {
          OldestAt(all, removed);
          var source := reverse[ordered[removed]];
          reverse := reverse - {ordered[removed]};
          forward := forward - {source};
          removed := removed + 1;
        }
      }
      table := IdMap(table.counter, Recent(table.slots, window));
    }

    /** _compact_message_window: the ids Base + 1, Base + 2, ... in the order of the old ones. */
    method CompactMessageWindow() returns (changed: bool)
      requires Valid()
      modifies this`counter, this`forward, this`reverse, this`table
      ensures Valid() && table == IdMap(|old(table).slots|, Renumbered(old(table).slots))
      ensures changed <==> table.slots != old(table).slots
    {
      ghost var slots, renumbered := table.slots, Renumbered(table.slots);
      SortedReverse(slots);
      RenumberedSound(table);
      var ordered := Sorted(reverse.Keys);
      assert ordered == Surrogates(slots);
      table := IdMap(|slots|, renumbered);
      if ordered == [] {
        counter := 0;
        return false;
      }
      forward, reverse, changed := Renumber(ordered, slots);
      counter := |ordered|;
    }

    /** The loop of compaction: dictionaries under fresh ids, and whether any id differs from before. */
    method Renumber(ordered: seq<int>, ghost slots: seq<Slot>)
      returns (newForward: map<Source, int>, newReverse: map<int, Source>, changed: bool)
      requires Distinct(slots) && ordered == Surrogates(slots) && forward == Forward(slots) && reverse == Reverse(slots)
      ensures newForward == Forward(Renumbered(slots)) && newReverse == Reverse(Renumbered(slots))
      ensures changed <==> Renumbered(slots) != slots
    {
      ghost var renumbered := Renumbered(slots);
      newForward, newReverse := map[], map[];
      changed := false;
      var i := 0;
      while i < |ordered|
        invariant 0 <= i <= |ordered|
        invariant newForward == Forward(renumbered[..i]) && newReverse == Reverse(renumbered[..i])
        invariant changed <==> renumbered[..i] != slots[..i]
      {
        MapsAt(slots, i);
        var source := reverse[ordered[i]];
        var surrogate := Base(Message) + i + 1;
        if forward[source] != surrogate {
          changed := true;
        }
        newForward := newForward[source := surrogate];
        newReverse := newReverse[surrogate := source];
        PrefixStep(renumbered, slots, i);
        ForwardSnoc(renumbered[..i], renumbered[i]);
        i := i + 1;
      }
      assert renumbered[..i] == renumbered && slots[..i] == slots;
    }

    method MaintainMessageWindow(force: bool) returns (r: WindowReport)
      requires Valid()
      modifies this`counter, this`forward, this`reverse, this`table
      ensures Valid() && table == Maintain(old(table), window, force)
      ensures r.removedCount == Overflow(old(table), window) && r.activeCount == |table.slots|
      ensures r.compacted <==> Compacts(old(counter), window, force) && table.slots != []
      ensures r.changed <==> table.slots != old(table).slots
    {
      MaintainChanges(table, window, force);
      var removed := DropOverflow();
      var changed, compacted := removed > 0, false;
      if force || counter >= ResetCounter(window) {
        compacted := forward != map[];
        ForwardEmpty(table.slots);
        var renumbered := CompactMessageWindow();
        changed := renumbered || changed;
      }
      ForwardSize(table.slots);
      r := WindowReport(changed, removed, compacted, |forward|);
    }

    /** The next id for a source that has none; the window may now be too full. */
    method Push(x: Source)
      requires Valid() && x !in forward
      modifies this`counter, this`forward, this`reverse, this`table
      ensures Valid() && table == Appended(old(table), x)
    {
      ForwardNames(table.slots, x);
      AppendedSound(table, x);
      AppendedMaps(table, x);
      counter := counter + 1;
      var surrogate := Base(Message) + counter;
      forward := forward[x := surrogate];
      reverse := reverse[surrogate := x];
      table := Appended(table, x);
    }

    /** get_or_create in the message namespace: the id it returns is the one after maintenance. */
    method GetOrCreateMapping(x: Source) returns (surrogate: int)
      requires Valid()
      modifies this`counter, this`forward, this`reverse, this`table
      ensures Valid() && table == GetOrCreate(old(table), window, x)
      ensures x in forward && surrogate == forward[x]
      ensures x !in old(forward) ==> table.slots != [] && Last(table.slots) == Slot(x, surrogate)
    {
      ForwardNames(table.slots, x);
      if x in forward {
        return forward[x];
      }
      CreatedLast(table, window, x);
      Push(x);
      var r := MaintainMessageWindow(false);
      LastMapped(table.slots);
      surrogate := forward[x];
    }
  }

  lemma PrefixStep(a: seq<Slot>, b: seq<Slot>, i: nat)
    requires i < |a| && |a| == |b|
    ensures a[..i + 1] == a[..i] + [a[i]]
    ensures a[..i + 1] == b[..i + 1] <==> a[..i] == b[..i] && a[i] == b[i]
  {
    assert b[..i + 1] == b[..i] + [b[i]];
    if a[..i + 1] == b[..i + 1] {
      assert a[..i] == a[..i + 1][..i] == b[..i];
      assert a[i] == a[..i + 1][i] == b[i];
    }
  }

  /** What _maintain_message_window reports as changed. */
  lemma MaintainChanges(d: IdMap, window: int, force: bool)
    requires window > 0
    ensures var kept := Recent(d.slots, window);
            Maintain(d, window, force).slots != d.slots <==>
            Overflow(d, window) > 0 || (Compacts(d.counter, window, force) && Renumbered(kept) != kept)
    ensures Maintain(d, window, force).slots == [] <==> d.slots == []
  {
  }

  lemma ForwardEmpty(slots: seq<Slot>)
    ensures Forward(slots) == map[] <==> slots == []
  {
    if slots != [] {
      assert Last(slots).source in Forward(slots);
    }
  }

  lemma LastMapped(slots: seq<Slot>)
    requires slots != []
    ensures Last(slots).source in Forward(slots) && Forward(slots)[Last(slots).source] == Last(slots).surrogate
  {
  }

  lemma AppendedMaps(d: IdMap, x: Source)
    ensures Forward(Appended(d, x).slots) == Forward(d.slots)[x := Base(Message) + d.counter + 1]
    ensures Reverse(Appended(d, x).slots) == Reverse(d.slots)[Base(Message) + d.counter + 1 := x]
  {
    ForwardSnoc(d.slots, Slot(x, Base(Message) + d.counter + 1));
  }

  lemma AppendedSound(d: IdMap, x: Source)
    requires Sound(d) && x !in Names(d.slots)
    ensures Sound(Appended(d, x))
  {
    assert forall i :: 0 <= i < |d.slots| ==> Names(d.slots)[i] == d.slots[i].source;
  }

  lemma CreatedLast(d: IdMap, window: int, x: Source)
    requires window > 0 && Sound(d) && x !in Names(d.slots)
    ensures var m := Maintain(Appended(d, x), window, false);
            m.slots != [] && Last(m.slots).source == x
  {
  }

  lemma ForwardNames(slots: seq<Slot>, x: Source)
    requires Distinct(slots)
    ensures x in Forward(slots) <==> x in Names(slots)
  {
    if x in Forward(slots) {
      var i := ForwardFrom(slots, x);
      assert Names(slots)[i] == x;
    }
    if x in Names(slots) {
      var i :| 0 <= i < |slots| && Names(slots)[i] == x;
      MapsAt(slots, i);
    }
  }
}
