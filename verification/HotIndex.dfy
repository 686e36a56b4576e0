/**
 The message tables against a naive model: one list of the retained entries, in the order in which
 they were last put. Every table of the engine is a function of that list.
 */
module HotIndex {
  import opened Seqs
  import opened HotState

  /** Retained entries; `last` is the one put most recently. */
  datatype Log = Nil | Snoc(init: Log, last: Entry)

  /** The list without the entries put under source x. */
  function Without(log: Log, x: Source): Log {
    match log
    case Nil => Nil
    case Snoc(init, e) => if e.source == x then Without(init, x) else Snoc(Without(init, x), e)
  }

  function PutLog(log: Log, e: Entry): Log {
    Snoc(Without(log, e.source), e)
  }

  /** The scan the index replaces: the most recently put entry of a (context, sender) pair. */
  function Newest(log: Log, p: Pair): Option<Entry> {
    match log
    case Nil => None
    case Snoc(init, e) => if PairOf(e) == Some(p) then Some(e) else Newest(init, p)
  }

  /** The sources of the retained entries of a pair, in the order they were last put. */
  function PairSources(log: Log, p: Pair): seq<Source> {
    match log
    case Nil => []
    case Snoc(init, e) => PairSources(init, p) + (if PairOf(e) == Some(p) then [e.source] else [])
  }

  function BySource(log: Log): map<Source, Entry> {
    match log
    case Nil => map[]
    case Snoc(init, e) => BySource(init)[e.source := e]
  }

  function BySurrogate(log: Log): (r: map<int, Entry>)
    ensures 0 !in r
  {
    match log
    case Nil => map[]
    case Snoc(init, e) => if e.surrogate != 0 then BySurrogate(init)[e.surrogate := e] else BySurrogate(init)
  }

  function Latest(log: Log): map<Pair, Fragment> {
    match log
    case Nil => map[]
    case Snoc(init, e) =>
      if PairOf(e).Some? then Latest(init)[PairOf(e).value := FragmentOf(e)] else Latest(init)
  }

  function OrderAt(orders: map<Pair, seq<Source>>, p: Pair): seq<Source> {
    if p in orders then orders[p] else []
  }

  function PairOrder(log: Log): map<Pair, seq<Source>> {
    match log
    case Nil => map[]
    case Snoc(init, e) =>
      if PairOf(e).Some?
      then var p := PairOf(e).value; PairOrder(init)[p := OrderAt(PairOrder(init), p) + [e.source]]
      else PairOrder(init)
  }

  /** All four tables, read off the list. */
  function TablesOf(log: Log): Tables {
    Tables(BySource(log), BySurrogate(log), Latest(log), PairOrder(log))
  }

  /** Entry e repeats neither a source nor a surrogate id, and stripping leaves its source alone. */
  predicate Fits(log: Log, e: Entry) {
    e.source !in BySource(log) && e.surrogate !in BySurrogate(log) && e.key == e.source
  }

  predicate WellFormed(log: Log) {
    match log
    case Nil => true
    case Snoc(init, e) => WellFormed(init) && Fits(init, e)
  }

  // ---- the tables point by point ----

  lemma {:induction false} PairTables(log: Log, p: Pair)
    ensures OrderAt(PairOrder(log), p) == PairSources(log, p)
    ensures p in PairOrder(log) <==> PairSources(log, p) != []
    ensures p in Latest(log) <==> Newest(log, p).Some?
    ensures p in Latest(log) ==> Latest(log)[p] == FragmentOf(Newest(log, p).value)
    ensures p in PairOrder(log) <==> p in Latest(log)
  {
    if log.Snoc? {
      PairTables(log.init, p);
    }
  }

  lemma {:induction false} NewestIsLast(log: Log, p: Pair)
    requires WellFormed(log) && Newest(log, p).Some?
    ensures var e := Newest(log, p).value;
            && PairOf(e) == Some(p)
            && PairSources(log, p) != [] && Last(PairSources(log, p)) == e.source
            && e.source in BySource(log) && BySource(log)[e.source] == e
  {
    if PairOf(log.last) != Some(p) {
      NewestIsLast(log.init, p);
    }
  }

  lemma {:induction false} PairSourcesListed(log: Log, p: Pair, x: Source)
    requires WellFormed(log)
    ensures x in PairSources(log, p) <==> x in BySource(log) && PairOf(BySource(log)[x]) == Some(p)
  {
    if log.Snoc? {
      PairSourcesListed(log.init, p, x);
    }
  }

  lemma {:induction false} PairSourcesDistinct(log: Log, p: Pair)
    requires WellFormed(log)
    ensures NoDup(PairSources(log, p))
  {
    if log.Snoc? {
      PairSourcesDistinct(log.init, p);
      PairSourcesListed(log.init, p, log.last.source);
      assert forall i :: 0 <= i < |PairSources(log.init, p)| ==>
          PairSources(log.init, p)[i] in PairSources(log.init, p);
    }
  }

  lemma {:induction false} SurrogateOnRecord(log: Log, x: Source)
    requires x in BySource(log)
    ensures BySource(log)[x].source == x
    ensures BySource(log)[x].surrogate != 0 ==> BySource(log)[x].surrogate in BySurrogate(log)
  {
    if log.last.source != x {
      SurrogateOnRecord(log.init, x);
    }
  }

  // ---- removal ----

  lemma {:induction false} WithoutAbsent(log: Log, x: Source)
    requires x !in BySource(log)
    ensures Without(log, x) == log
  {
    if log.Snoc? {
      WithoutAbsent(log.init, x);
    }
  }

  lemma {:induction false} WithoutBySource(log: Log, x: Source)
    ensures BySource(Without(log, x)) == BySource(log) - {x}
  {
    if log.Snoc? {
      WithoutBySource(log.init, x);
    }
  }

  lemma {:induction false} WithoutBySurrogate(log: Log, x: Source)
    requires WellFormed(log) && x in BySource(log)
    ensures BySurrogate(Without(log, x)) == BySurrogate(log) - {BySource(log)[x].surrogate}
  {
    var init, e := log.init, log.last;
    if e.source == x {
      WithoutAbsent(init, x);
    } else {
      WithoutBySurrogate(init, x);
      SurrogateOnRecord(init, x);
    }
  }

  lemma {:induction false} WithoutShrinks(log: Log, x: Source)
    requires WellFormed(log)
    ensures BySurrogate(Without(log, x)).Keys <= BySurrogate(log).Keys
  {
    if x in BySource(log) {
      WithoutBySurrogate(log, x);
    } else {
      WithoutAbsent(log, x);
    }
  }

  lemma {:induction false} WithoutWellFormed(log: Log, x: Source)
    requires WellFormed(log)
    ensures WellFormed(Without(log, x))
  {
    if log.Snoc? {
      WithoutWellFormed(log.init, x);
      WithoutBySource(log.init, x);
      WithoutShrinks(log.init, x);
    }
  }

  lemma TailFirst(s: seq<Source>, t: seq<Source>)
    requires s != []
    ensures (s + t)[0] == s[0] && (s + t)[1..] == s[1..] + t && s == [s[0]] + s[1..]
  {
  }

  lemma JoinFirst(x: Source, s: seq<Source>, t: seq<Source>)
    ensures [x] + (s + t) == ([x] + s) + t
  {
  }

  lemma {:induction false} RemoveFirstAppend(s: seq<Source>, t: seq<Source>, x: Source)
    ensures RemoveFirst(s + t, x) == if x in s then RemoveFirst(s, x) + t else s + RemoveFirst(t, x)
  {
    if s == [] {
      assert s + t == t;
    } else {
      TailFirst(s, t);
      RemoveFirstAppend(s[1..], t, x);
      JoinFirst(s[0], RemoveFirst(s[1..], x), t);
      JoinFirst(s[0], s[1..], RemoveFirst(t, x));
    }
  }

  lemma {:induction false} WithoutPairSources(log: Log, x: Source, p: Pair)
    requires WellFormed(log)
    ensures PairSources(Without(log, x), p) == RemoveFirst(PairSources(log, p), x)
  {
    if log.Snoc? {
      var init, e := log.init, log.last;
      var s := PairSources(init, p);
      WithoutPairSources(init, x, p);
      PairSourcesListed(init, p, x);
      RemoveFirstAppend(s, if PairOf(e) == Some(p) then [e.source] else [], x);
      if x !in s {
        RemoveFirstAbsent(s, x);
      }
      assert [e.source][1..] == [];
      if e.source == x {
        assert x !in s;
      }
    }
  }

  lemma {:induction false} WithoutOtherPair(log: Log, x: Source, p: Pair)
    requires WellFormed(log) && x in BySource(log) && PairOf(BySource(log)[x]) != Some(p)
    ensures Newest(Without(log, x), p) == Newest(log, p)
    ensures PairSources(Without(log, x), p) == PairSources(log, p)
  {
    var init, e := log.init, log.last;
    if e.source == x {
      WithoutAbsent(init, x);
    } else {
      WithoutOtherPair(init, x, p);
    }
  }

  /** Refreshing a pair whose deque already lists exactly the retained sources keeps that deque. */
  lemma RefreshAgrees(t: Tables, p: Pair, log: Log)
    requires WellFormed(log)
    requires t.bySource == BySource(log)
    requires p in t.pairOrder && t.pairOrder[p] == PairSources(log, p)
    ensures Newest(log, p).None? ==> Refresh(t, p) == t.(pairOrder := t.pairOrder - {p}, latest := t.latest - {p})
    ensures Newest(log, p).Some? ==>
              Refresh(t, p) == t.(pairOrder := t.pairOrder[p := PairSources(log, p)],
                                  latest := t.latest[p := FragmentOf(Newest(log, p).value)])
  {
    PairTables(log, p);
    if Newest(log, p).Some? {
      NewestIsLast(log, p);
    }
  }

  /** The tables during the removal of x, when only the deque and the fragment of its pair are left to do. */
  function Removing(log: Log, x: Source, p: Pair): Tables
    requires p in PairOrder(log)
  {
    var rest := Without(log, x);
    Tables(BySource(rest), BySurrogate(rest), Latest(log), PairOrder(log)[p := RemoveFirst(PairOrder(log)[p], x)])
  }

  lemma OtherPairsKept(log: Log, x: Source, p: Pair)
    requires WellFormed(log) && x in BySource(log) && PairOf(BySource(log)[x]) == Some(p)
    ensures Latest(Without(log, x)) - {p} == Latest(log) - {p}
    ensures PairOrder(Without(log, x)) - {p} == PairOrder(log) - {p}
  {
    var rest := Without(log, x);
    forall q | q != p
      ensures q in Latest(rest) <==> q in Latest(log)
      ensures q in Latest(rest) ==> Latest(rest)[q] == Latest(log)[q]
      ensures q in PairOrder(rest) <==> q in PairOrder(log)
      ensures q in PairOrder(rest) ==> PairOrder(rest)[q] == PairOrder(log)[q]
    {
      PairTables(rest, q);
      PairTables(log, q);
      WithoutOtherPair(log, x, q);
    }
  }

  lemma UpdatedAt<K, V>(a: map<K, V>, b: map<K, V>, k: K)
    requires a - {k} == b - {k}
    ensures k !in b ==> a - {k} == b
    ensures k in b ==> a[k := b[k]] == b
  {
    forall x | x != k
      ensures x in a <==> x in b
      ensures x in a ==> a[x] == b[x]
    {
      assert x in a - {k} <==> x in b - {k};
    }
  }

  lemma RemoveRefreshes(log: Log, x: Source, p: Pair)
    requires WellFormed(log) && x in BySource(log) && PairOf(BySource(log)[x]) == Some(p)
    ensures p in PairOrder(log) && Refresh(Removing(log, x, p), p) == TablesOf(Without(log, x))
  {
    var rest := Without(log, x);
    PairSourcesListed(log, p, x);
    PairTables(log, p);
    PairTables(rest, p);
    WithoutPairSources(log, x, p);
    WithoutWellFormed(log, x);
    RefreshAgrees(Removing(log, x, p), p, rest);
    OtherPairsKept(log, x, p);
    UpdatedAt(Latest(log), Latest(rest), p);
    UpdatedAt(PairOrder(log), PairOrder(rest), p);
  }

  lemma RemoveUnpaired(log: Log, x: Source)
    requires WellFormed(log) && x in BySource(log) && PairOf(BySource(log)[x]).None?
    ensures Latest(Without(log, x)) == Latest(log)
    ensures PairOrder(Without(log, x)) == PairOrder(log)
  {
    var rest := Without(log, x);
    forall q
      ensures q in Latest(rest) <==> q in Latest(log)
      ensures q in Latest(rest) ==> Latest(rest)[q] == Latest(log)[q]
      ensures q in PairOrder(rest) <==> q in PairOrder(log)
      ensures q in PairOrder(rest) ==> PairOrder(rest)[q] == PairOrder(log)[q]
    {
      PairTables(rest, q);
      PairTables(log, q);
      WithoutOtherPair(log, x, q);
    }
  }

  /**
   _remove_message_entry_locked on the tables is removal from the list: the per-pair deque keeps
   exactly the other sources in order, the latest fragment falls back to the newest one left, and a
   pair that becomes empty leaves both tables.
   */
  lemma RemoveFollowsLog(log: Log, x: Source)
    requires WellFormed(log)
    ensures RemoveMessage(TablesOf(log), x) == TablesOf(Without(log, x))
  {
    if x !in BySource(log) {
      WithoutAbsent(log, x);
    } else {
      var was := BySource(log)[x];
      WithoutBySource(log, x);
      WithoutBySurrogate(log, x);
      assert was.surrogate == 0 ==> BySurrogate(log) - {was.surrogate} == BySurrogate(log);
      if PairOf(was).None? {
        RemoveUnpaired(log, x);
      } else {
        RemoveRefreshes(log, x, PairOf(was).value);
      }
    }
  }

  // ---- putting ----

  /** Putting an entry moves it to the end of the list, whatever context or sender it had before. */
  lemma PutFollowsLog(log: Log, e: Entry)
    requires WellFormed(log) && WellFormed(PutLog(log, e))
    ensures PutMessage(TablesOf(log), e) == TablesOf(PutLog(log, e))
  {
    var rest := Without(log, e.source);
    RemoveFollowsLog(log, e.source);
    if PairOf(e).Some? {
      var p := PairOf(e).value;
      PairTables(rest, p);
      PairSourcesListed(rest, p, e.source);
      RemoveFirstAbsent(PairSources(rest, p), e.source);
    }
  }

  // ---- what the index promises ----

  /** The entry counts for the latest index, and for this pair. */
  predicate OfPair(e: Entry, p: Pair) {
    && e.context == p.context && e.context != "" && e.sender == p.sender && e.sender != ""
    && e.room != "" && e.key != ""
  }

  /** A scan for the newest message of a pair: n is of the pair, and nothing put after it is. */
  ghost predicate NewestOf(log: Log, p: Pair, n: Entry) {
    log.Snoc? && if OfPair(log.last, p) then n == log.last else NewestOf(log.init, p, n)
  }

  lemma {:induction false} NewestByScan(log: Log, p: Pair, n: Entry)
    ensures NewestOf(log, p, n) <==> Newest(log, p) == Some(n)
  {
    if log.Snoc? {
      NewestByScan(log.init, p, n);
    }
  }

  /**
   The guarantee of the index, in terms of a scan: a fragment is on record for a pair exactly when a
   retained message has that pair and it describes the most recently put one; the per-pair deque
   lists exactly those messages, each once, the newest last; a pair without messages is in neither
   table.
   */
  lemma LatestIsNaiveScan(log: Log, p: Pair)
    requires WellFormed(log)
    ensures var t := TablesOf(log);
            && (p in t.latest <==> p in t.pairOrder)
            && (p in t.latest <==> exists x :: x in t.bySource && OfPair(t.bySource[x], p))
            && (p in t.latest <==> Newest(log, p).Some? && NewestOf(log, p, Newest(log, p).value))
            && (forall n :: NewestOf(log, p, n) ==>
                  && p in t.latest && t.latest[p] == Fragment(n.source, n.room, n.thread, n.timestamp)
                  && t.pairOrder[p] != [] && Last(t.pairOrder[p]) == n.source)
            && (p in t.pairOrder ==>
                  && NoDup(t.pairOrder[p])
                  && forall x :: x in t.pairOrder[p] <==> x in t.bySource && OfPair(t.bySource[x], p))
  {
    forall n
      ensures NewestOf(log, p, n) <==> Newest(log, p) == Some(n)
    {
      NewestByScan(log, p, n);
    }
    PairTables(log, p);
    PairSourcesDistinct(log, p);
    forall x
      ensures x in PairSources(log, p) <==> x in BySource(log) && PairOf(BySource(log)[x]) == Some(p)
    {
      PairSourcesListed(log, p, x);
    }
    if Newest(log, p).Some? {
      NewestIsLast(log, p);
    }
    if PairSources(log, p) != [] {
      assert PairSources(log, p)[0] in PairSources(log, p);
    }
  }

  /**
   A put follows the list exactly when stripping leaves the source alone or the entry is not indexed at
   all; surrounding white space puts the stripped source in the deque of the pair.
   */
  lemma PutFollowsLogIff(log: Log, e: Entry)
    requires WellFormed(log) && WellFormed(PutLog(log, e.(key := e.source)))
    ensures PutMessage(TablesOf(log), e) == TablesOf(PutLog(log, e)) <==> e.key == e.source || PairOf(e).None?
  {
    var rest := Without(log, e.source);
    RemoveFollowsLog(log, e.source);
    if PairOf(e).Some? {
      var p := PairOf(e).value;
      var did, want := PutMessage(TablesOf(log), e).pairOrder, TablesOf(PutLog(log, e)).pairOrder;
      assert Last(did[p]) == e.key && Last(want[p]) == e.source;
      if e.key == e.source {
        PutFollowsLog(log, e);
      }
    }
  }

  /**
   The condition on sources is needed: an id with surrounding white space is stored under itself but
   indexed under its stripped form, so evicting another message of the pair loses it from the index.
   */
  lemma UnstrippedSourceBreaksIndex()
    ensures var padded := Entry(" a", "a", 1, "c", "s", "r", "", 0, 0, "");
            var other := Entry("b", "b", 2, "c", "s", "r", "", 0, 0, "");
            var t := RemoveMessage(PutMessage(PutMessage(EmptyTables, padded), other), "b");
            && t.bySource == map[" a" := padded]
            && PairOf(padded) == Some(Pair("c", "s"))
            && t.latest == map[]
  {
    var padded := Entry(" a", "a", 1, "c", "s", "r", "", 0, 0, "");
    var other := Entry("b", "b", 2, "c", "s", "r", "", 0, 0, "");
    var p := Pair("c", "s");
    assert PairOf(padded) == Some(p) && PairOf(other) == Some(p);
    var t1 := PaddedStored(padded, p);
    var t2 := OtherStored(t1, padded, other, p);
    RemoveFirstAppend(["a"], ["b"], "b");
    assert RemoveFirst(["b"], "b") == [];
    assert t2.bySource - {"b"} == map[" a" := padded];
    assert DropMissing(["a"], map[" a" := padded]) == [];
  }

  lemma PaddedStored(padded: Entry, p: Pair) returns (t: Tables)
    requires padded.source == " a" && padded.key == "a" && padded.surrogate == 1 && PairOf(padded) == Some(p)
    ensures t == PutMessage(EmptyTables, padded)
    ensures t == Tables(map[" a" := padded], map[1 := padded], map[p := FragmentOf(padded)], map[p := ["a"]])
  {
    t := PutMessage(EmptyTables, padded);
    assert RemoveFirst<Source>([], "a") + ["a"] == ["a"];
  }

  lemma OtherStored(t: Tables, padded: Entry, other: Entry, p: Pair) returns (u: Tables)
    requires t == Tables(map[" a" := padded], map[1 := padded], map[p := FragmentOf(padded)], map[p := ["a"]])
    requires other.source == other.key == "b" && PairOf(other) == Some(p)
    ensures u == PutMessage(t, other)
    ensures u.bySource == map[" a" := padded, "b" := other] && u.pairOrder == map[p := ["a", "b"]]
    ensures u.latest == map[p := FragmentOf(other)]
  {
    u := PutMessage(t, other);
    RemoveFirstAbsent(["a"], "b");
    assert ["a"] + ["b"] == ["a", "b"];
  }
}
