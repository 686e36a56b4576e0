/**
 RuntimeStateEngine itself: dictionaries and a deque updated in place, and the records it hands to the
 journal writer. Every method is proved against the functions of HotState, about which the other
 modules prove what the engine is for.
 */
module HotEngine {
  import opened Seqs
  import opened HotState
  import opened HotJournal
  import opened HotSnapshot

  datatype WindowSnapshot = WindowSnapshot(activeMappings: map<Source, int>, changed: bool, removedCount: nat,
      activeCount: nat, maxEntries: int)

  class RuntimeStateEngine {
    var window: int
    var room: IdTable
    var thread: IdTable
    var context: IdTable
    var message: IdTable
    var order: seq<Source>
    var bySource: map<Source, Entry>
    var bySurrogate: map<int, Entry>
    var latest: map<Pair, Fragment>
    var pairOrder: map<Pair, seq<Source>>
    var privBySource: map<Source, Source>
    var privBySurrogate: map<int, Source>
    var ctxBySource: map<Source, ContextEntry>
    var ctxBySurrogate: map<int, ContextEntry>

    /** Traces of user ids of earlier releases were met while loading or replaying. */
    var legacySeen: bool

    /** The records of mutations enqueued with the writer so far. */
    var journal: seq<Record>

    /** The mappings in the message_rebuild records enqueued so far; their replay is not modelled. */
    var rebuilds: seq<map<Source, int>>

    ghost predicate Valid()
      reads this`window
    {
      window > 0
    }

    function TableOf(ns: Namespace): IdTable
      reads this`room, this`message, this`thread, this`context
    {
      match ns
      case Room => room
      case Message => message
      case Thread => thread
      case Context => context
    }

    function TablesNow(): Tables
      reads this`bySource, this`bySurrogate, this`latest, this`pairOrder
    {
      Tables(bySource, bySurrogate, latest, pairOrder)
    }

    function Box(): Mailbox
      reads this`message, this`order, this`bySource, this`bySurrogate, this`latest, this`pairOrder
    {
      Mailbox(message, order, TablesNow())
    }

    function RoomsNow(): Rooms
      reads this`privBySource, this`privBySurrogate, this`ctxBySource, this`ctxBySurrogate
    {
      Rooms(privBySource, privBySurrogate, ctxBySource, ctxBySurrogate)
    }

    function State(): Engine
      reads this
    {
      Engine(window, room, thread, context, Box(), RoomsNow())
    }

    constructor (messageWindowSize: int)
      ensures Valid() && State() == Empty(NormalizeWindow(messageWindowSize))
      ensures journal == [] && rebuilds == [] && !legacySeen
      ensures window == if messageWindowSize > 0 then messageWindowSize else 1000
    {
      window := NormalizeWindow(messageWindowSize);
      room, message, thread, context := EmptyTable, EmptyTable, EmptyTable, EmptyTable;
      order, bySource, bySurrogate, latest, pairOrder := [], map[], map[], map[], map[];
      privBySource, privBySurrogate, ctxBySource, ctxBySurrogate := map[], map[], map[], map[];
      journal, rebuilds, legacySeen := [], [], false;
    }

    // ---- message tables ----

    /** _refresh_latest_for_pair_locked: pop sources without an entry, then describe the newest left. */
    method RefreshLatest(p: Pair)
      requires p in pairOrder
      modifies this`latest, this`pairOrder
      ensures TablesNow() == Refresh(old(TablesNow()), p)
    {
      ghost var before := TablesNow();
      var left := pairOrder[p];
      while left != []
        invariant DropMissing(left, bySource) == DropMissing(before.pairOrder[p], bySource)
        invariant TablesNow() == before.(pairOrder := before.pairOrder[p := left])
      {
        if Last(left) in bySource {
          latest := latest[p := FragmentOf(bySource[Last(left)])];
          return;
        }
        left := left[..|left| - 1];
        pairOrder := pairOrder[p := left];
      }
      pairOrder := pairOrder - {p};
      latest := latest - {p};
    }

    /** _remove_message_entry_locked. */
    method RemoveMessageEntry(x: Source)
      modifies this`bySource, this`bySurrogate, this`latest, this`pairOrder
      ensures TablesNow() == RemoveMessage(old(TablesNow()), x)
    {
      if x !in bySource {
        return;
      }
      var existing := bySource[x];
      bySource := bySource - {x};
      if existing.surrogate != 0 {
        bySurrogate := bySurrogate - {existing.surrogate};
      }
      match PairOf(existing) {
        case None =>
        case Some(p) =>
          if p in pairOrder {
            var left := pairOrder[p];
            if left != [] && left[0] == x {
              left := left[1..];
            } else {
              left := RemoveFirst(left, x);
            }
            pairOrder := pairOrder[p := left];
            RefreshLatest(p);
          }
      }
    }

    /** _index_latest_context_sender_locked. */
    method IndexLatestEntry(entry: Entry)
      modifies this`latest, this`pairOrder
      ensures TablesNow() == IndexLatest(old(TablesNow()), entry)
    {
      match PairOf(entry) {
        case None =>
        case Some(p) =>
          if p !in pairOrder {
            pairOrder := pairOrder[p := []];
          }
          pairOrder := pairOrder[p := RemoveFirst(pairOrder[p], entry.key)];
          pairOrder := pairOrder[p := pairOrder[p] + [entry.key]];
          latest := latest[p := FragmentOf(entry)];
      }
    }

    method PutWithoutRecord(entry: Entry)
      modifies this`bySource, this`bySurrogate, this`latest, this`pairOrder
      ensures TablesNow() == PutMessage(old(TablesNow()), entry)
    {
      RemoveMessageEntry(entry.source);
      bySource := bySource[entry.source := entry];
      if entry.surrogate != 0 {
        bySurrogate := bySurrogate[entry.surrogate := entry];
      }
      IndexLatestEntry(entry);
    }

    // ---- id maps and the window ----

    /** The body of the trimming loop: popleft, and forget the source everywhere. */
    method ForgetOldest()
      requires order != []
      modifies this`message, this`order, this`bySource, this`bySurrogate, this`latest, this`pairOrder
      ensures Box() == EvictOldest(old(Box()))
    {
      var x := order[0];
      order := order[1..];
      if x in message.forward {
        var surrogate := message.forward[x];
        message := IdTable(message.counter, message.forward - {x}, message.reverse - {surrogate});
      }
      RemoveMessageEntry(x);
    }

    /** _trim_message_window_locked: the oldest sources leave until the window fits. */
    method TrimMessageWindow() returns (removed: nat)
      requires Valid()
      modifies this`message, this`order, this`bySource, this`bySurrogate, this`latest, this`pairOrder
      ensures Box() == Trim(old(Box()), window)
      ensures removed == old(|order|) - |order|
    {
      removed := 0;
      while |order| > window
        invariant Trim(Box(), window) == Trim(old(Box()), window)
        invariant removed + |order| == old(|order|)
      {
        ForgetOldest();
        removed := removed + 1;
      }
    }

    method SetTable(ns: Namespace, t: IdTable)
      modifies this`room, this`message, this`thread, this`context
      ensures State() == old(State()).With(ns, t)
    {
      match ns {
        case Room => room := t;
        case Message => message := t;
        case Thread => thread := t;
        case Context => context := t;
      }
    }

    /** Enter a mapping in the tables of its namespace, and in the window if it is a message. */
    method Enter(ns: Namespace, x: Source, surrogate: int, counter: nat)
      requires Valid() && counter == Max(TableOf(ns).counter, surrogate - Base(ns))
      modifies this`room, this`message, this`thread, this`context, this`order
      modifies this`bySource, this`bySurrogate, this`latest, this`pairOrder
      ensures State() == InsertMapping(old(State()), ns, x, surrogate)
    {
      var t := TableOf(ns);
      SetTable(ns, IdTable(counter, t.forward[x := surrogate], t.reverse[surrogate := x]));
      if ns == Message {
        order := order + [x];
        var removed := TrimMessageWindow();
      }
    }

    /** _allocate_mapping_locked. */
    method AllocateWithoutRecord(ns: Namespace, x: Source) returns (surrogate: int, created: bool)
      requires Valid()
      modifies this`room, this`message, this`thread, this`context, this`order
      modifies this`bySource, this`bySurrogate, this`latest, this`pairOrder
      ensures State() == Allocate(old(State()), ns, x)
      ensures created <==> x !in old(TableOf(ns)).forward
      ensures surrogate == if created then NextSurrogate(old(State()), ns) else old(TableOf(ns)).forward[x]
    {
      var t := TableOf(ns);
      if x in t.forward {
        return t.forward[x], false;
      }
      surrogate, created := Base(ns) + t.counter + 1, true;
      Enter(ns, x, surrogate, t.counter + 1);
    }

    /** allocate_mapping: the record follows the change. */
    method AllocateMapping(ns: Namespace, x: Source) returns (surrogate: int)
      requires Valid()
      modifies this
      ensures rebuilds == old(rebuilds)
      ensures Valid() && State() == Live(old(State()), AllocateId(ns, x))
      ensures journal == old(journal) + RecordsOf(old(State()), Direct(AllocateId(ns, x)))
    {
      var created;
      surrogate, created := AllocateWithoutRecord(ns, x);
      OneOp(old(State()), AllocateId(ns, x));
      if created {
        journal := journal + [One(IdPut(ns, x, surrogate))];
      }
    }

    method PutMessageEntry(entry: Entry)
      requires Valid()
      modifies this
      ensures rebuilds == old(rebuilds)
      ensures Valid() && State() == Live(old(State()), PutEntry(entry))
      ensures journal == old(journal) + RecordsOf(old(State()), Direct(PutEntry(entry)))
    {
      PutWithoutRecord(entry);
      OneOp(old(State()), PutEntry(entry));
      journal := journal + [One(MessagePut(entry))];
    }

    // ---- room bindings ----

    method BindPrivateWithoutRecord(user: Source, userSurrogate: int, room: Source)
      modifies this`privBySource, this`privBySurrogate
      ensures RoomsNow() == BindPrivate(old(RoomsNow()), user, userSurrogate, room)
    {
      privBySource := privBySource[user := room];
      privBySurrogate := privBySurrogate[userSurrogate := room];
    }

    method BindContextWithoutRecord(c: ContextEntry) returns (bound: bool)
      modifies this`ctxBySource, this`ctxBySurrogate
      ensures RoomsNow() == BindContext(old(RoomsNow()), c)
      ensures bound <==> Accepts(old(RoomsNow()), c)
      ensures bound ==> c.context in ctxBySource && ctxBySource[c.context] == c
      ensures !bound <==> c.timestamp.Some? && c.context in old(ctxBySource) &&
                          var had := old(ctxBySource)[c.context];
                          c.timestamp.value < if had.timestamp.Some? then had.timestamp.value else 0
    {
      if c.timestamp.Some? && c.context in ctxBySource {
        if Stamp(ctxBySource[c.context]) > c.timestamp.value {
          return false;
        }
      }
      ctxBySource := ctxBySource[c.context := c];
      ctxBySurrogate := ctxBySurrogate[c.surrogate := c];
      return true;
    }

    method BindPrivateRoomRecorded(user: Source, userSurrogate: int, room: Source)
      requires Valid()
      modifies this
      ensures rebuilds == old(rebuilds)
      ensures Valid() && State() == Live(old(State()), BindPrivateRoom(user, userSurrogate, room))
      ensures journal == old(journal) + RecordsOf(old(State()), Direct(BindPrivateRoom(user, userSurrogate, room)))
    {
      BindPrivateWithoutRecord(user, userSurrogate, room);
      OneOp(old(State()), BindPrivateRoom(user, userSurrogate, room));
      journal := journal + [One(PrivateBind(user, userSurrogate, room))];
    }

    method BindContextRoomRecorded(c: ContextEntry)
      requires Valid()
      modifies this
      ensures rebuilds == old(rebuilds)
      ensures Valid() && State() == Live(old(State()), BindContextRoom(c))
      ensures journal == old(journal) + RecordsOf(old(State()), Direct(BindContextRoom(c)))
    {
      var bound := BindContextWithoutRecord(c);
      OneOp(old(State()), BindContextRoom(c));
      if bound {
        journal := journal + [One(ContextBind(c))];
      }
    }

    // ---- replay ----

    /** _apply_id_put with persist=False: an id that is already mapped is left alone. */
    method ApplyIdPut(ns: Namespace, x: Source, surrogate: int)
      requires Valid()
      modifies this`room, this`message, this`thread, this`context, this`order
      modifies this`bySource, this`bySurrogate, this`latest, this`pairOrder
      ensures State() == Apply(old(State()), IdPut(ns, x, surrogate))
    {
      if x == "" || surrogate <= 0 {
        return;
      }
      if x !in TableOf(ns).forward {
        Enter(ns, x, surrogate, Max(TableOf(ns).counter, surrogate - Base(ns)));
      }
    }

    /** The change of the tables in _apply_record with persist=False. */
    method ApplyToTables(m: Mutation)
      requires Valid()
      modifies this`room, this`message, this`thread, this`context, this`order
      modifies this`bySource, this`bySurrogate, this`latest, this`pairOrder
      modifies this`privBySource, this`privBySurrogate, this`ctxBySource, this`ctxBySurrogate
      ensures State() == Apply(old(State()), m)
    {
      match m {
        case IdPut(ns, x, surrogate) => ApplyIdPut(ns, x, surrogate);
        case LegacyUserPut =>
        case MessagePut(entry) => PutWithoutRecord(entry);
        case PrivateBind(user, userSurrogate, room) => BindPrivateWithoutRecord(user, userSurrogate, room);
        case ContextBind(c) => var bound := BindContextWithoutRecord(c);
      }
    }

    /** _apply_record with persist=False; what points to user ids of earlier releases is remembered. */
    method ApplyMutation(m: Mutation)
      requires Valid()
      modifies this
      ensures rebuilds == old(rebuilds)
      ensures Valid() && State() == Apply(old(State()), m) && journal == old(journal)
      ensures legacySeen == (old(legacySeen) || LegacyMutation(m))
    {
      if LegacyMutation(m) {
        legacySeen := true;
      }
      ApplyToTables(m);
    }

    method ApplyRecord(r: Record)
      requires Valid()
      modifies this
      ensures rebuilds == old(rebuilds)
      ensures Valid() && State() == Replay(old(State()), MutationsOf(r)) && journal == old(journal)
      ensures legacySeen == (old(legacySeen) || AnyLegacy(MutationsOf(r)))
    {
      var ms := MutationsOf(r);
      var j := 0;
      while j < |ms|
        invariant 0 <= j <= |ms| && Valid() && journal == old(journal) && rebuilds == old(rebuilds)
        invariant Replay(State(), ms[j..]) == Replay(old(State()), ms)
        invariant legacySeen == (old(legacySeen) || AnyLegacy(ms[..j]))
      {
        ApplyMutation(ms[j]);
        assert ms[j..][1..] == ms[j + 1..];
        assert ms[..j + 1] == ms[..j] + [ms[j]];
        AnyLegacyAppend(ms[..j], [ms[j]]);
        j := j + 1;
      }
      assert ms[..j] == ms;
    }

    /** replay_journal. */
    method ReplayJournal(records: seq<Record>)
      requires Valid()
      modifies this
      ensures rebuilds == old(rebuilds)
      ensures Valid() && State() == ReplayRecords(old(State()), records) && journal == old(journal)
      ensures legacySeen == (old(legacySeen) || AnyLegacy(Mutations(records)))
    {
      var i := 0;
      while i < |records|
        invariant 0 <= i <= |records| && Valid() && journal == old(journal) && rebuilds == old(rebuilds)
        invariant ReplayRecords(State(), records[i..]) == ReplayRecords(old(State()), records)
        invariant (legacySeen || AnyLegacy(Mutations(records[i..])))
                  == (old(legacySeen) || AnyLegacy(Mutations(records)))
      {
        AnyLegacyAppend(MutationsOf(records[i]), Mutations(records[i..][1..]));
        ApplyRecord(records[i]);
        assert records[i..][1..] == records[i + 1..];
        i := i + 1;
      }
    }

    // ---- snapshots and start-up ----

    /** export_snapshot_payload copies the containers of one moment. */
    method ExportSnapshotPayload() returns (s: Snapshot)
      ensures s == Export(State())
    {
      s := Snapshot(window, room, message, thread, context, order, bySource, latest, pairOrder,
                    privBySource, privBySurrogate, ctxBySource);
    }

    /** The message index that snapshots leave out, entry by entry in whatever order the dictionary has. */
    method RebuildMessageIndex()
      modifies this`bySurrogate
      ensures RebuiltMessages(bySource, bySurrogate)
    {
      bySurrogate := map[];
      var left := bySource.Keys;
      while left != {}
        invariant left <= bySource.Keys
        invariant RebuiltMessages(map x | x in bySource && x !in left :: bySource[x], bySurrogate)
        decreases |left|
      {
        var x :| x in left;
        ghost var was := bySurrogate;
        ghost var seen := map y | y in bySource && y !in left :: bySource[y];
        if bySource[x].surrogate != 0 {
          bySurrogate := bySurrogate[bySource[x].surrogate := bySource[x]];
        }
        left := left - {x};
        MessageIndexStep(seen, was, x, bySource[x]);
        assert (map y | y in bySource && y !in left :: bySource[y]) == seen[x := bySource[x]];
      }
      assert (map x | x in bySource && x !in left :: bySource[x]) == bySource;
    }

    method RebuildContextIndex()
      modifies this`ctxBySurrogate
      ensures RebuiltContexts(ctxBySource, ctxBySurrogate)
    {
      ctxBySurrogate := map[];
      var left := ctxBySource.Keys;
      while left != {}
        invariant left <= ctxBySource.Keys
        invariant RebuiltContexts(map x | x in ctxBySource && x !in left :: ctxBySource[x], ctxBySurrogate)
        decreases |left|
      {
        var x :| x in left;
        ghost var was := ctxBySurrogate;
        ghost var seen := map y | y in ctxBySource && y !in left :: ctxBySource[y];
        if ctxBySource[x].surrogate != 0 {
          ctxBySurrogate := ctxBySurrogate[ctxBySource[x].surrogate := ctxBySource[x]];
        }
        left := left - {x};
        ContextIndexStep(seen, was, x, ctxBySource[x]);
        assert (map y | y in ctxBySource && y !in left :: ctxBySource[y]) == seen[x := ctxBySource[x]];
      }
      assert (map x | x in ctxBySource && x !in left :: ctxBySource[x]) == ctxBySource;
    }

    /** The tables of a payload, their message index rebuilt. */
    ghost predicate HasTables(s: Snapshot)
      reads this`room, this`message, this`thread, this`context, this`order
      reads this`bySource, this`bySurrogate, this`latest, this`pairOrder
    {
      && room == s.room && message == s.message && thread == s.thread && context == s.context && order == s.order
      && bySource == s.bySource && latest == s.latest && pairOrder == s.pairOrder
      && RebuiltMessages(s.bySource, bySurrogate)
    }

    ghost predicate HasRooms(s: Snapshot)
      reads this`privBySource, this`privBySurrogate, this`ctxBySource, this`ctxBySurrogate
    {
      && privBySource == s.privBySource && privBySurrogate == s.privBySurrogate && ctxBySource == s.ctxBySource
      && RebuiltContexts(s.ctxBySource, ctxBySurrogate)
    }

    method LoadTables(s: Snapshot)
      modifies this`room, this`message, this`thread, this`context, this`order
      modifies this`bySource, this`bySurrogate, this`latest, this`pairOrder
      ensures HasTables(s)
    {
      room, message, thread, context, order := s.room, s.message, s.thread, s.context, s.order;
      bySource := s.bySource;
      RebuildMessageIndex();
      latest, pairOrder := s.latest, s.pairOrder;
    }

    method LoadRooms(s: Snapshot)
      modifies this`privBySource, this`privBySurrogate, this`ctxBySource, this`ctxBySurrogate, this`legacySeen
      ensures HasRooms(s)
      ensures legacySeen == (old(legacySeen) || s.privBySurrogate != map[])
    {
      privBySource, privBySurrogate := s.privBySource, s.privBySurrogate;
      if privBySurrogate != map[] {
        legacySeen := true;
      }
      ctxBySource := s.ctxBySource;
      RebuildContextIndex();
    }

    /** load_snapshot_payload; a window of 0 in the payload keeps the engine's own. */
    method LoadSnapshotPayload(s: Snapshot)
      requires Valid()
      modifies this`window, this`room, this`message, this`thread, this`context, this`order
      modifies this`bySource, this`bySurrogate, this`latest, this`pairOrder
      modifies this`privBySource, this`privBySurrogate, this`ctxBySource, this`ctxBySurrogate, this`legacySeen
      ensures Valid() && window == NormalizeWindow(if s.window != 0 then s.window else old(window))
      ensures HasTables(s) && HasRooms(s)
      ensures legacySeen == (old(legacySeen) || s.privBySurrogate != map[])
    {
      window := NormalizeWindow(if s.window != 0 then s.window else window);
      LoadTables(s);
      LoadRooms(s);
    }

    /** purge_legacy_user_dependent_state. */
    method PurgeLegacyUserDependentState()
      modifies this`window, this`room, this`message, this`thread, this`context, this`order
      modifies this`bySource, this`bySurrogate, this`latest, this`pairOrder
      modifies this`privBySource, this`privBySurrogate, this`ctxBySource, this`ctxBySurrogate, this`legacySeen
      ensures State() == Purge(old(State())) && journal == old(journal)
    {
      bySource, bySurrogate, latest, pairOrder := map[], map[], map[], map[];
      privBySurrogate := map[];
    }

    /** rebuild_message_window(force_compact=False), which only trims, and records that if it changed anything. */
    method RebuildMessageWindow() returns (r: WindowSnapshot)
      requires Valid()
      modifies this`message, this`order, this`bySource, this`bySurrogate, this`latest, this`pairOrder, this`rebuilds
      ensures Valid() && State() == old(State()).(box := Trim(old(Box()), window))
      ensures var removed := old(|order|) - |order|;
              r == WindowSnapshot(message.forward, removed > 0, removed, |message.forward|, window)
      ensures rebuilds == old(rebuilds) + (if old(|order|) > window then [message.forward] else [])
    {
      var removed := TrimMessageWindow();
      r := WindowSnapshot(message.forward, removed > 0, removed, |message.forward|, window);
      TrimFits(old(Box()), window);
      if r.changed {
        rebuilds := rebuilds + [r.activeMappings];
      }
    }

    method SetMessageWindowSize(size: int)
      requires Valid()
      modifies this`window
      ensures Valid() && window == NormalizeWindow(size)
    {
      window := NormalizeWindow(size);
    }
  }

  /** RuntimeStateMutationBatch: changes at once, records at commit. */
  class MutationBatch {
    const engine: RuntimeStateEngine
    var mutations: seq<Mutation>
    var committed: bool

    constructor (e: RuntimeStateEngine)
      ensures engine == e && mutations == [] && !committed
    {
      engine := e;
      mutations := [];
      committed := false;
    }

    method GetOrCreateMapping(ns: Namespace, x: Source) returns (surrogate: int)
      requires engine.Valid()
      modifies this`mutations, engine
      ensures engine.Valid() && engine.State() == Live(old(engine.State()), AllocateId(ns, x)) &&
              engine.journal == old(engine.journal)
      ensures mutations == old(mutations) + Emitted(old(engine.State()), AllocateId(ns, x))
    {
      var created;
      surrogate, created := engine.AllocateWithoutRecord(ns, x);
      if created {
        mutations := mutations + [IdPut(ns, x, surrogate)];
      }
    }

    method PutMessageEntry(entry: Entry)
      requires engine.Valid()
      modifies this`mutations, engine
      ensures engine.Valid() && engine.State() == Live(old(engine.State()), PutEntry(entry)) &&
              engine.journal == old(engine.journal)
      ensures mutations == old(mutations) + Emitted(old(engine.State()), PutEntry(entry))
    {
      engine.PutWithoutRecord(entry);
      mutations := mutations + [MessagePut(entry)];
    }

    method BindPrivate(user: Source, userSurrogate: int, room: Source)
      requires engine.Valid()
      modifies this`mutations, engine
      ensures engine.Valid() && engine.State() == Live(old(engine.State()), BindPrivateRoom(user, userSurrogate, room))
      ensures engine.journal == old(engine.journal)
      ensures mutations == old(mutations) + Emitted(old(engine.State()), BindPrivateRoom(user, userSurrogate, room))
    {
      engine.BindPrivateWithoutRecord(user, userSurrogate, room);
      mutations := mutations + [PrivateBind(user, userSurrogate, room)];
    }

    method BindContext(c: ContextEntry)
      requires engine.Valid()
      modifies this`mutations, engine
      ensures engine.Valid() && engine.State() == Live(old(engine.State()), BindContextRoom(c))
      ensures engine.journal == old(engine.journal)
      ensures mutations == old(mutations) + Emitted(old(engine.State()), BindContextRoom(c))
    {
      var bound := engine.BindContextWithoutRecord(c);
      if bound {
        mutations := mutations + [ContextBind(c)];
      }
    }

    /** commit: one batch record with everything collected, once. */
    method Commit()
      requires engine.Valid()
      modifies this`committed, engine`journal
      ensures engine.Valid() && committed
      ensures engine.journal
              == old(engine.journal) + (if old(committed) || mutations == [] then [] else [Batch(mutations)])
    {
      if committed {
        return;
      }
      if mutations != [] {
        engine.journal := engine.journal + [Batch(mutations)];
      }
      committed := true;
    }
  }

  /** Trimming removes nothing exactly when the window fits. */
  lemma TrimFits(b: Mailbox, window: int)
    requires window > 0
    ensures |Trim(b, window).order| == Min(|b.order|, window)
    decreases |b.order|
  {
    if |b.order| > window {
      TrimFits(EvictOldest(b), window);
    }
  }

  /** Together these are a result of load_snapshot_payload. */
  lemma LoadedByParts(e: RuntimeStateEngine, s: Snapshot)
    requires e.HasTables(s) && e.HasRooms(s)
    ensures Loaded(s.(window := e.window), e.State())
  {
  }

  lemma MessageIndexStep(entries: map<Source, Entry>, index: map<int, Entry>, x: Source, e: Entry)
    requires RebuiltMessages(entries, index) && x !in entries
    ensures RebuiltMessages(entries[x := e], if e.surrogate != 0 then index[e.surrogate := e] else index)
  {
    var all, next := entries[x := e], if e.surrogate != 0 then index[e.surrogate := e] else index;
    forall k | k in next
      ensures k != 0 && next[k].surrogate == k && exists y :: y in all && all[y] == next[k]
    {
      if e.surrogate != 0 && k == e.surrogate {
        assert all[x] == next[k];
      } else {
        var y :| y in entries && entries[y] == index[k];
        assert all[y] == next[k];
      }
    }
  }

  lemma ContextIndexStep(entries: map<Source, ContextEntry>, index: map<int, ContextEntry>, x: Source, c: ContextEntry)
    requires RebuiltContexts(entries, index) && x !in entries
    ensures RebuiltContexts(entries[x := c], if c.surrogate != 0 then index[c.surrogate := c] else index)
  {
    var all, next := entries[x := c], if c.surrogate != 0 then index[c.surrogate := c] else index;
    forall k | k in next
      ensures k != 0 && next[k].surrogate == k && exists y :: y in all && all[y] == next[k]
    {
      if c.surrogate != 0 && k == c.surrogate {
        assert all[x] == next[k];
      } else {
        var y :| y in entries && entries[y] == index[k];
        assert all[y] == next[k];
      }
    }
  }

  lemma OneOp(e: Engine, op: Op)
    requires e.window > 0
    ensures RecordsOf(e, Direct(op)) == if Emitted(e, op) == [] then [] else [One(Emitted(e, op)[0])]
  {
    assert [op][1..] == [];
    assert EmittedAll(e, [op]) == Emitted(e, op);
  }
}
