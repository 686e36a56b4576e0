/**
 Single calls in plain terms: which ids are handed out, what a replayed id does, what a put stores, and
 which traces of earlier releases make start-up purge what.
 */
module HotCalls {
  import opened HotState
  import opened HotJournal
  import opened HotSnapshot
  import opened HotRecovery

  function OffsetOf(ns: Namespace): int {
    match ns
    case Room => 2_000_000_000
    case Message => 3_000_000_000
    case Thread => 4_000_000_000
    case Context => 5_000_000_000
  }

  /** Only the id table of ns may differ, and it is t. */
  predicate OnlyTable(e: Engine, n: Engine, ns: Namespace, t: IdTable) {
    && n.Table(ns) == t && n.window == e.window && n.rooms == e.rooms
    && n.box.msgs == e.box.msgs && n.box.order == e.box.order
    && forall other: Namespace :: other != ns ==> n.Table(other) == e.Table(other)
  }

  /**
   A room, thread or context keeps its id; a new one gets the next of its namespace, above the namespace's
   offset, in both directions, and nothing else changes.
   */
  lemma AllocateMeans(e: Engine, ns: Namespace, x: Source)
    requires e.window > 0 && !ns.Message?
    ensures var t, n := e.Table(ns), Allocate(e, ns, x);
            var id := OffsetOf(ns) + t.counter + 1;
            if x in t.forward then n == e
            else OnlyTable(e, n, ns, IdTable(t.counter + 1, t.forward[x := id], t.reverse[id := x]))
  {
  }

  /**
   A replayed id is taken over as it is, and the counter raised to it if it was lower; an empty source, an
   id that is not positive and a source that has an id are passed over.
   */
  lemma ReplayedIdMeans(e: Engine, ns: Namespace, x: Source, id: int)
    requires e.window > 0 && !ns.Message?
    ensures var t, n, k := e.Table(ns), Apply(e, IdPut(ns, x, id)), id - OffsetOf(ns);
            if x == "" || id <= 0 || x in t.forward then n == e
            else OnlyTable(e, n, ns, IdTable(if k > t.counter then k else t.counter, t.forward[x := id],
                                             t.reverse[id := x]))
  {
  }

  /** A put stores the entry under its source and under its id, in place of what was there. */
  lemma PutStores(t: Tables, e: Entry)
    ensures PutMessage(t, e).bySource == t.bySource[e.source := e]
    ensures e.surrogate != 0 ==>
              e.surrogate in PutMessage(t, e).bySurrogate && PutMessage(t, e).bySurrogate[e.surrogate] == e
    ensures forall k :: k in PutMessage(t, e).bySurrogate && k != e.surrogate ==>
              k in t.bySurrogate && PutMessage(t, e).bySurrogate[k] == t.bySurrogate[k]
  {
  }

  /** A user id record, or an id from the range of user ids in a message or a private room. */
  predicate Trace(m: Mutation) {
    match m
    case IdPut(_, _, _) => false
    case LegacyUserPut => true
    case MessagePut(entry) => 1_000_000_000 <= entry.senderSurrogate < 2_000_000_000
    case PrivateBind(_, userSurrogate, _) => 1_000_000_000 <= userSurrogate < 2_000_000_000
    case ContextBind(_) => false
  }

  lemma LegacyTraces(ms: seq<Mutation>)
    ensures AnyLegacy(ms) <==> exists i :: 0 <= i < |ms| && Trace(ms[i])
  {
    if AnyLegacy(ms) {
      var m :| m in ms && LegacyMutation(m);
      var i :| 0 <= i < |ms| && ms[i] == m;
      assert Trace(ms[i]);
    }
    if i :| 0 <= i < |ms| && Trace(ms[i]) {
      assert ms[i] in ms && LegacyMutation(ms[i]);
    }
  }

  /**
   What start-up finishes with: without a private room by surrogate in the snapshot and without a trace in
   the journal the engine as it is; otherwise without messages and private rooms by surrogate, all ids, the
   window order and all other rooms being kept.
   */
  lemma FinishMeans(e: Engine, s: Snapshot, ms: seq<Mutation>)
    requires e.window > 0 && |e.box.order| <= e.window
    ensures var r := Finish(e, LegacySeen(s, ms), e.window);
            if s.privBySurrogate == map[] && forall i :: 0 <= i < |ms| ==> !Trace(ms[i]) then r == e
            else
              && r.box.msgs == EmptyTables && r.rooms.privBySurrogate == map[]
              && r.box.ids == e.box.ids && r.box.order == e.box.order && r.window == e.window
              && r.room == e.room && r.thread == e.thread && r.context == e.context
              && r.rooms.privBySource == e.rooms.privBySource
              && r.rooms.ctxBySource == e.rooms.ctxBySource && r.rooms.ctxBySurrogate == e.rooms.ctxBySurrogate
  {
    LegacyTraces(ms);
  }
}
