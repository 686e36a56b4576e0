/**
 Putting a run of messages twice. Lists of retained entries under puts and evictions, without any
 window: the algebra behind the replay of message records.
 */
module HotPuts {
  import opened HotState
  import opened HotIndex

  function PutAll(log: Log, puts: seq<Entry>): Log
    decreases |puts|
  {
    if puts == [] then log else PutAll(PutLog(log, puts[0]), puts[1..])
  }

  function SourcesOf(puts: seq<Entry>): set<Source> {
    set e | e in puts :: e.source
  }

  /** The list without the entries of a set of sources. */
  function Drop(log: Log, gone: set<Source>): Log {
    match log
    case Nil => Nil
    case Snoc(init, e) => if e.source in gone then Drop(init, gone) else Snoc(Drop(init, gone), e)
  }

  function Append(a: Log, b: Log): Log {
    match b
    case Nil => a
    case Snoc(init, e) => Snoc(Append(a, init), e)
  }

  lemma {:induction false} DropEmpty(log: Log)
    ensures Drop(log, {}) == log
  {
    if log.Snoc? {
      DropEmpty(log.init);
    }
  }

  lemma {:induction false} DropIsWithout(log: Log, gone: set<Source>, x: Source)
    ensures Without(Drop(log, gone), x) == Drop(log, gone + {x})
    ensures Drop(Without(log, x), gone) == Drop(log, gone + {x})
  {
    if log.Snoc? {
      DropIsWithout(log.init, gone, x);
    }
  }

  lemma {:induction false} DropTwice(log: Log, gone: set<Source>)
    ensures Drop(Drop(log, gone), gone) == Drop(log, gone)
  {
    if log.Snoc? {
      DropTwice(log.init, gone);
    }
  }

  lemma {:induction false} DropKeys(log: Log, gone: set<Source>)
    ensures BySource(Drop(log, gone)).Keys == BySource(log).Keys - gone
  {
    if log.Snoc? {
      DropKeys(log.init, gone);
    }
  }

  lemma {:induction false} DropAppend(a: Log, b: Log, gone: set<Source>)
    ensures Drop(Append(a, b), gone) == Append(Drop(a, gone), Drop(b, gone))
  {
    if b.Snoc? {
      DropAppend(a, b.init, gone);
    }
  }

  lemma {:induction false} AppendAssoc(a: Log, b: Log, c: Log)
    ensures Append(Append(a, b), c) == Append(a, Append(b, c))
  {
    if c.Snoc? {
      AppendAssoc(a, b, c.init);
    }
  }

  lemma {:induction false} AppendNil(b: Log)
    ensures Append(Nil, b) == b
  {
    if b.Snoc? {
      AppendNil(b.init);
    }
  }

  lemma {:induction false} DropAll(log: Log, gone: set<Source>)
    requires BySource(log).Keys <= gone
    ensures Drop(log, gone) == Nil
  {
    if log.Snoc? {
      assert log.last.source in BySource(log);
      DropAll(log.init, gone);
    }
  }

  lemma WithoutKeys(log: Log, x: Source)
    ensures BySource(Without(log, x)).Keys == BySource(log).Keys - {x}
  {
    WithoutBySource(log, x);
  }

  lemma {:induction false} PutAllKeys(log: Log, puts: seq<Entry>)
    ensures BySource(PutAll(log, puts)).Keys == BySource(log).Keys + SourcesOf(puts)
    decreases |puts|
  {
    if puts != [] {
      PutAllKeys(PutLog(log, puts[0]), puts[1..]);
      WithoutKeys(log, puts[0].source);
      assert puts == [puts[0]] + puts[1..];
    }
  }

  /** A put of a source that is kept commutes with the drop. */
  lemma PutKept(log: Log, gone: set<Source>, e: Entry)
    requires e.source !in gone
    ensures PutLog(Drop(log, gone), e) == Drop(PutLog(log, e), gone)
  {
    DropIsWithout(log, gone, e.source);
  }

  lemma {:induction false} PutAllKept(log: Log, gone: set<Source>, puts: seq<Entry>)
    requires SourcesOf(puts) !! gone
    ensures PutAll(Drop(log, gone), puts) == Drop(PutAll(log, puts), gone)
    decreases |puts|
  {
    if puts != [] {
      assert puts[0].source in SourcesOf(puts);
      assert SourcesOf(puts[1..]) <= SourcesOf(puts);
      PutKept(log, gone, puts[0]);
      PutAllKept(PutLog(log, puts[0]), gone, puts[1..]);
    }
  }

  /** A put of a dropped source: the source comes back, with the new entry only. */
  lemma PutDropped(log: Log, gone: set<Source>, e: Entry)
    ensures PutLog(Drop(log, gone), e) == Drop(PutLog(log, e), gone - {e.source})
  {
    var kept := gone - {e.source};
    DropIsWithout(log, gone, e.source);
    DropIsWithout(log, kept, e.source);
    assert gone + {e.source} == kept + {e.source};
  }

  /** What a run of puts leaves: the untouched entries first, then the put ones. */
  lemma {:induction false} PutAllSplits(log: Log, puts: seq<Entry>)
    ensures PutAll(log, puts) == Append(Drop(log, SourcesOf(puts)), PutAll(Nil, puts))
    decreases |puts|
  {
    if puts == [] {
      assert SourcesOf(puts) == {};
      DropEmpty(log);
    } else {
      var e, rest := puts[0], puts[1..];
      var later := SourcesOf(rest);
      assert puts == [e] + rest;
      assert SourcesOf(puts) == later + {e.source};
      PutAllSplits(PutLog(log, e), rest);
      PutAllSplits(Snoc(Nil, e), rest);
      DropIsWithout(log, later, e.source);
      assert PutLog(Nil, e) == Snoc(Nil, e);
      if e.source in later {
        AppendNil(PutAll(Nil, rest));
      } else {
        AppendAssoc(Drop(log, SourcesOf(puts)), Snoc(Nil, e), PutAll(Nil, rest));
      }
    }
  }

  /** Replaying a run of puts over its own result changes nothing. */
  lemma PutAllIdempotent(log: Log, puts: seq<Entry>)
    ensures PutAll(PutAll(log, puts), puts) == PutAll(log, puts)
  {
    var touched, tail := SourcesOf(puts), PutAll(Nil, puts);
    PutAllSplits(log, puts);
    PutAllSplits(PutAll(log, puts), puts);
    DropAppend(Drop(log, touched), tail, touched);
    DropTwice(log, touched);
    PutAllKeys(Nil, puts);
    DropAll(tail, touched);
  }

  /**
   The same with evictions in between: once some sources have been dropped, replaying the puts changes
   nothing exactly when every put source is still there.
   */
  lemma ReplayedPuts(log: Log, puts: seq<Entry>, gone: set<Source>)
    ensures var left := Drop(PutAll(log, puts), gone);
            PutAll(left, puts) == left <==> SourcesOf(puts) <= BySource(left).Keys
  {
    var all := PutAll(log, puts);
    var left := Drop(all, gone);
    DropKeys(all, gone);
    if SourcesOf(puts) <= BySource(left).Keys {
      PutAllKept(all, gone, puts);
      PutAllIdempotent(log, puts);
    }
    PutAllKeys(left, puts);
  }

  // ---- only the first of the puts again ----

  predicate EndsWith(log: Log, tail: Log) {
    match tail
    case Nil => true
    case Snoc(init, e) => log.Snoc? && log.last == e && EndsWith(log.init, init)
  }

  lemma {:induction false} AppendEnds(a: Log, b: Log)
    ensures EndsWith(Append(a, b), b)
  {
    if b.Snoc? {
      AppendEnds(a, b.init);
    }
  }

  lemma {:induction false} EndsAppend(log: Log, tail: Log) returns (a: Log)
    requires EndsWith(log, tail)
    ensures log == Append(a, tail)
  {
    if tail.Nil? {
      a := log;
    } else {
      a := EndsAppend(log.init, tail.init);
    }
  }

  lemma {:induction false} DropNone(log: Log, gone: set<Source>)
    requires BySource(log).Keys !! gone
    ensures Drop(log, gone) == log
  {
    if log.Snoc? {
      assert log.last.source in BySource(log);
      DropNone(log.init, gone);
    }
  }

  lemma {:induction false} AppendApart(a: Log, b: Log)
    requires WellFormed(Append(a, b))
    ensures BySource(a).Keys !! BySource(b).Keys && BySource(a).Keys <= BySource(Append(a, b)).Keys
  {
    if b.Snoc? {
      AppendApart(a, b.init);
    }
  }

  /** Putting some messages again changes nothing exactly when they are the newest retained, as put. */
  lemma PutAgain(log: Log, puts: seq<Entry>)
    requires WellFormed(log)
    ensures PutAll(log, puts) == log <==> EndsWith(log, PutAll(Nil, puts))
  {
    var tail, touched := PutAll(Nil, puts), SourcesOf(puts);
    PutAllSplits(log, puts);
    AppendEnds(Drop(log, touched), tail);
    if EndsWith(log, tail) {
      var a := EndsAppend(log, tail);
      PutAllKeys(Nil, puts);
      AppendApart(a, tail);
      DropAppend(a, tail, touched);
      DropNone(a, touched);
      DropAll(tail, touched);
    }
  }

  lemma {:induction false} DropBySource(log: Log, gone: set<Source>)
    ensures BySource(Drop(log, gone)) == BySource(log) - gone
  {
    if log.Snoc? {
      DropBySource(log.init, gone);
    }
  }

  lemma {:induction false} AppendBySource(a: Log, b: Log)
    ensures BySource(Append(a, b)) == BySource(a) + BySource(b)
  {
    if b.Snoc? {
      AppendBySource(a, b.init);
    }
  }

  lemma OverwriteAll(had: map<Source, Entry>, put: map<Source, Entry>)
    ensures had - put.Keys + put == had + put
  {
  }

  lemma OverwriteNothing(had: map<Source, Entry>, put: map<Source, Entry>)
    ensures had + put == had <==> forall x :: x in put ==> x in had && had[x] == put[x]
  {
    if had + put == had {
      assert forall x :: x in put ==> (had + put)[x] == put[x];
    }
  }

  /** By source it changes nothing exactly when each is retained as it was put last. */
  lemma PutAgainBySource(log: Log, puts: seq<Entry>)
    ensures BySource(PutAll(log, puts)) == BySource(log) + BySource(PutAll(Nil, puts))
    ensures BySource(PutAll(log, puts)) == BySource(log) <==>
            forall x :: x in BySource(PutAll(Nil, puts)) ==>
              x in BySource(log) && BySource(log)[x] == BySource(PutAll(Nil, puts))[x]
  {
    var had, put := BySource(log), BySource(PutAll(Nil, puts));
    PutAllSplits(log, puts);
    PutAllKeys(Nil, puts);
    DropBySource(log, SourcesOf(puts));
    AppendBySource(Drop(log, SourcesOf(puts)), PutAll(Nil, puts));
    OverwriteAll(had, put);
    OverwriteNothing(had, put);
  }
}
