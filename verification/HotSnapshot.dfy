/**
 Snapshots: what export_snapshot_payload keeps, what load_snapshot_payload rebuilds, and when the
 two indexes that are rebuilt rather than stored come back unchanged.
 */
module HotSnapshot {
  import opened Seqs
  import opened HotState
  import opened HotIndex

  datatype Snapshot = Snapshot(window: int,
                               room: IdTable, message: IdTable, thread: IdTable, context: IdTable,
                               order: seq<Source>,
                               bySource: map<Source, Entry>,
                               latest: map<Pair, Fragment>, pairOrder: map<Pair, seq<Source>>,
                               privBySource: map<Source, Source>, privBySurrogate: map<int, Source>,
                               ctxBySource: map<Source, ContextEntry>)

  /** The by-surrogate indexes of messages and context rooms are not part of a snapshot. */
  function Export(e: Engine): Snapshot {
    var t, r := e.box.msgs, e.rooms;
    Snapshot(e.window, e.room, e.box.ids, e.thread, e.context, e.box.order, t.bySource, t.latest, t.pairOrder,
             r.privBySource, r.privBySurrogate, r.ctxBySource)
  }

  /** An index built by walking the entries in some order, a later entry replacing an earlier one. */
  ghost predicate RebuiltMessages(entries: map<Source, Entry>, index: map<int, Entry>) {
    && (forall x :: x in entries && entries[x].surrogate != 0 ==> entries[x].surrogate in index)
    && (forall k :: k in index ==>
        k != 0 && index[k].surrogate == k && exists x :: x in entries && entries[x] == index[k])
  }

  ghost predicate RebuiltContexts(entries: map<Source, ContextEntry>, index: map<int, ContextEntry>) {
    && (forall x :: x in entries && entries[x].surrogate != 0 ==> entries[x].surrogate in index)
    && (forall k :: k in index ==>
        k != 0 && index[k].surrogate == k && exists x :: x in entries && entries[x] == index[k])
  }

  /** e is a result of load_snapshot_payload, whatever order the dictionaries are walked in. */
  ghost predicate Loaded(s: Snapshot, e: Engine) {
    && Export(e) == s
    && RebuiltMessages(s.bySource, e.box.msgs.bySurrogate)
    && RebuiltContexts(s.ctxBySource, e.rooms.ctxBySurrogate)
  }

  /**
   The context-room tables are each other's inverse: one surrogate id per context, one context per
   surrogate id.
   */
  ghost predicate ContextIndexed(r: Rooms) {
    && (forall x :: x in r.ctxBySource ==> ListedBySurrogate(r, r.ctxBySource[x]) && r.ctxBySource[x].context == x)
    && (forall k :: k in r.ctxBySurrogate ==>
        ListedBySource(r, r.ctxBySurrogate[k]) && r.ctxBySurrogate[k].surrogate == k)
  }

  ghost predicate ListedBySurrogate(r: Rooms, c: ContextEntry) {
    c.surrogate != 0 && c.surrogate in r.ctxBySurrogate && r.ctxBySurrogate[c.surrogate] == c
  }

  ghost predicate ListedBySource(r: Rooms, c: ContextEntry) {
    c.context in r.ctxBySource && r.ctxBySource[c.context] == c
  }

  /** The bind keeps the context's surrogate id and does not take another context's. */
  predicate StableSurrogate(r: Rooms, c: ContextEntry) {
    && c.surrogate != 0
    && (c.context in r.ctxBySource ==> r.ctxBySource[c.context].surrogate == c.surrogate)
    && (c.surrogate in r.ctxBySurrogate ==> r.ctxBySurrogate[c.surrogate].context == c.context)
  }

  lemma StableBindKeepsIndex(r: Rooms, c: ContextEntry)
    requires ContextIndexed(r) && Accepts(r, c) && StableSurrogate(r, c)
    ensures ContextIndexed(BindContext(r, c))
  {
    var n := BindContext(r, c);
    forall x | x in n.ctxBySource
      ensures ListedBySurrogate(n, n.ctxBySource[x]) && n.ctxBySource[x].context == x
    {
      if x != c.context {
        assert ListedBySurrogate(r, r.ctxBySource[x]);
      }
    }
    forall k | k in n.ctxBySurrogate
      ensures ListedBySource(n, n.ctxBySurrogate[k]) && n.ctxBySurrogate[k].surrogate == k
    {
      if k != c.surrogate {
        assert ListedBySource(r, r.ctxBySurrogate[k]);
      }
    }
  }

  lemma UnstableBindBreaksIndex(r: Rooms, c: ContextEntry)
    requires ContextIndexed(r) && Accepts(r, c) && !StableSurrogate(r, c)
    ensures !ContextIndexed(BindContext(r, c))
  {
    var n := BindContext(r, c);
    if c.surrogate == 0 {
      assert !ListedBySurrogate(n, n.ctxBySource[c.context]);
    } else if c.context in r.ctxBySource && r.ctxBySource[c.context].surrogate != c.surrogate {
      assert ListedBySurrogate(r, r.ctxBySource[c.context]);
      var k := r.ctxBySource[c.context].surrogate;
      assert k in n.ctxBySurrogate && !ListedBySource(n, n.ctxBySurrogate[k]);
    } else {
      assert ListedBySource(r, r.ctxBySurrogate[c.surrogate]);
      var x := r.ctxBySurrogate[c.surrogate].context;
      assert x in n.ctxBySource && !ListedBySurrogate(n, n.ctxBySource[x]);
    }
  }

  /** Exactly the binds that keep the two context tables inverse, so that a snapshot can carry them. */
  lemma BindKeepsContextIndex(r: Rooms, c: ContextEntry)
    requires ContextIndexed(r) && Accepts(r, c)
    ensures ContextIndexed(BindContext(r, c)) <==> StableSurrogate(r, c)
  {
    if StableSurrogate(r, c) {
      StableBindKeepsIndex(r, c);
    } else {
      UnstableBindBreaksIndex(r, c);
    }
  }

  lemma {:induction false} BySurrogateAt(log: Log, k: int)
    requires WellFormed(log) && k in BySurrogate(log)
    ensures var e := BySurrogate(log)[k];
            e.surrogate == k && e.source in BySource(log) && BySource(log)[e.source] == e
  {
    if log.last.surrogate != k {
      BySurrogateAt(log.init, k);
    }
  }

  lemma {:induction false} BySourceAt(log: Log, x: Source)
    requires WellFormed(log) && x in BySource(log) && BySource(log)[x].surrogate != 0
    ensures var e := BySource(log)[x];
            e.surrogate in BySurrogate(log) && BySurrogate(log)[e.surrogate] == e
  {
    if log.last.source != x {
      BySourceAt(log.init, x);
    }
  }

  lemma RebuiltMessagesUnique(log: Log, index: map<int, Entry>)
    requires WellFormed(log) && RebuiltMessages(BySource(log), index)
    ensures index == BySurrogate(log)
  {
    forall k
      ensures k in index <==> k in BySurrogate(log)
      ensures k in index ==> index[k] == BySurrogate(log)[k]
    {
      if k in index {
        var x :| x in BySource(log) && BySource(log)[x] == index[k];
        BySourceAt(log, x);
      }
      if k in BySurrogate(log) {
        BySurrogateAt(log, k);
      }
    }
  }

  /** Loading what was exported gives the engine back, both rebuilt indexes included. */
  lemma SnapshotRoundTrip(e: Engine, log: Log, r: Engine)
    requires WellFormed(log) && e.box.msgs == TablesOf(log) && ContextIndexed(e.rooms)
    requires Loaded(Export(e), r)
    ensures r == e
  {
    RebuiltMessagesUnique(log, r.box.msgs.bySurrogate);
    forall k
      ensures k in r.rooms.ctxBySurrogate <==> k in e.rooms.ctxBySurrogate
      ensures k in r.rooms.ctxBySurrogate ==> r.rooms.ctxBySurrogate[k] == e.rooms.ctxBySurrogate[k]
    {
      if k in r.rooms.ctxBySurrogate {
        var x :| x in e.rooms.ctxBySource && e.rooms.ctxBySource[x] == r.rooms.ctxBySurrogate[k];
        assert ListedBySurrogate(e.rooms, e.rooms.ctxBySource[x]);
      }
      if k in e.rooms.ctxBySurrogate {
        assert ListedBySource(e.rooms, e.rooms.ctxBySurrogate[k]);
      }
    }
    assert r.rooms.ctxBySurrogate == e.rooms.ctxBySurrogate;
  }

  /**
   Without that condition a snapshot loses a binding: the context was bound under surrogate 7, then
   under 8, and only the second is reachable after loading.
   */
  lemma StaleSurrogateLost(r: Engine)
    requires var c7, c8 := ContextEntry("c", 7, None, ""), ContextEntry("c", 8, None, "");
             var e := Empty(3).(rooms := BindContext(BindContext(Empty(3).rooms, c7), c8));
             Loaded(Export(e), r)
    ensures var c7, c8 := ContextEntry("c", 7, None, ""), ContextEntry("c", 8, None, "");
            var e := Empty(3).(rooms := BindContext(BindContext(Empty(3).rooms, c7), c8));
            7 in e.rooms.ctxBySurrogate && 7 !in r.rooms.ctxBySurrogate
  {
  }
}
