/**
 The tables of RuntimeStateEngine as one value, and what each locked engine call does to them.

 Python dictionaries are maps and deques are sequences. A surrogate id used as a dictionary key is
 the decimal text of an integer there and the integer itself here.
 */
module HotState {
  import opened Seqs

  type Source = string

  datatype Namespace = Room | Message | Thread | Context

  const DEFAULT_WINDOW := 1000

  function Base(ns: Namespace): int {
    match ns
    case Room => 2_000_000_000
    case Message => 3_000_000_000
    case Thread => 4_000_000_000
    case Context => 5_000_000_000
  }

  /** DurableIdMap.normalize_message_window_size on an integer. */
  function NormalizeWindow(n: int): (w: int)
    ensures w > 0
  {
    if n > 0 then n else DEFAULT_WINDOW
  }

  datatype IdTable = IdTable(counter: nat, forward: map<Source, int>, reverse: map<int, Source>)

  const EmptyTable := IdTable(0, map[], map[])

  /**
   A message entry. The latest index strips white space from the fields it reads: context, sender,
   room, thread and key are those stripped texts, key being the stripped form of source. Surrogate 0
   stands for an absent surrogate id, body for all fields that no table looks at.
   */
  datatype Entry = Entry(source: Source, key: Source, surrogate: int, context: string, sender: string,
                         room: string, thread: string, timestamp: int, senderSurrogate: int, body: string)

  datatype Pair = Pair(context: string, sender: string)

  datatype Fragment = Fragment(source: string, room: string, thread: string, timestamp: int)

  datatype ContextEntry = ContextEntry(context: Source, surrogate: int, timestamp: Option<int>, details: string)

  datatype Tables = Tables(bySource: map<Source, Entry>, bySurrogate: map<int, Entry>,
                           latest: map<Pair, Fragment>, pairOrder: map<Pair, seq<Source>>)

  const EmptyTables := Tables(map[], map[], map[], map[])

  /** The message half of the engine: id map, window order and entry tables. */
  datatype Mailbox = Mailbox(ids: IdTable, order: seq<Source>, msgs: Tables)

  datatype Rooms = Rooms(privBySource: map<Source, Source>, privBySurrogate: map<int, Source>,
                         ctxBySource: map<Source, ContextEntry>, ctxBySurrogate: map<int, ContextEntry>)

  datatype Engine = Engine(window: int, room: IdTable, thread: IdTable, context: IdTable, box: Mailbox, rooms: Rooms)
  {
    function Table(ns: Namespace): IdTable {
      match ns
      case Room => room
      case Message => box.ids
      case Thread => thread
      case Context => context
    }

    /** The engine with another id table for ns; used for the namespaces without a window. */
    function With(ns: Namespace, t: IdTable): Engine {
      match ns
      case Room => this.(room := t)
      case Message => this.(box := box.(ids := t))
      case Thread => this.(thread := t)
      case Context => this.(context := t)
    }
  }

  const EmptyMailbox := Mailbox(EmptyTable, [], EmptyTables)

  function Empty(window: int): Engine {
    Engine(window, EmptyTable, EmptyTable, EmptyTable, EmptyMailbox, Rooms(map[], map[], map[], map[]))
  }

  // ---- message tables and the latest-by-(context, sender) index ----

  function PairOf(e: Entry): Option<Pair> {
    if e.context == "" || e.sender == "" || e.room == "" || e.key == ""
    then None
    else Some(Pair(e.context, e.sender))
  }

  function FragmentOf(e: Entry): Fragment {
    Fragment(e.key, e.room, e.thread, e.timestamp)
  }

  /** The tail of a per-pair deque after popping sources that have no entry any more. */
  function DropMissing(order: seq<Source>, present: map<Source, Entry>): (r: seq<Source>)
    ensures r <= order
    ensures r != [] ==> Last(r) in present
  {
    if order == [] then []
    else if Last(order) in present then order
    else DropMissing(order[..|order| - 1], present)
  }

  function Refresh(t: Tables, p: Pair): Tables
    requires p in t.pairOrder
  {
    var order := DropMissing(t.pairOrder[p], t.bySource);
    if order == [] then t.(pairOrder := t.pairOrder - {p}, latest := t.latest - {p})
    else t.(pairOrder := t.pairOrder[p := order], latest := t.latest[p := FragmentOf(t.bySource[Last(order)])])
  }

  function RemoveMessage(t: Tables, x: Source): Tables {
    if x !in t.bySource then t
    else
      var was := t.bySource[x];
      var t1 := t.(bySource := t.bySource - {x},
                   bySurrogate := if was.surrogate != 0 then t.bySurrogate - {was.surrogate} else t.bySurrogate);
      match PairOf(was)
      case None => t1
      case Some(p) =>
        if p in t1.pairOrder
        then Refresh(t1.(pairOrder := t1.pairOrder[p := RemoveFirst(t1.pairOrder[p], x)]), p)
        else t1
  }

  function IndexLatest(t: Tables, e: Entry): Tables {
    match PairOf(e)
    case None => t
    case Some(p) =>
      var order := if p in t.pairOrder then t.pairOrder[p] else [];
      t.(pairOrder := t.pairOrder[p := RemoveFirst(order, e.key) + [e.key]],
         latest := t.latest[p := FragmentOf(e)])
  }

  function StoreMessage(t: Tables, e: Entry): Tables {
    t.(bySource := t.bySource[e.source := e],
       bySurrogate := if e.surrogate != 0 then t.bySurrogate[e.surrogate := e] else t.bySurrogate)
  }

  function PutMessage(t: Tables, e: Entry): Tables {
    IndexLatest(StoreMessage(RemoveMessage(t, e.source), e), e)
  }

  // ---- id maps and the message window ----

  function EvictOldest(b: Mailbox): Mailbox
    requires b.order != []
  {
    var x := b.order[0];
    var t := b.ids;
    Mailbox(if x in t.forward then IdTable(t.counter, t.forward - {x}, t.reverse - {t.forward[x]}) else t,
            b.order[1..],
            RemoveMessage(b.msgs, x))
  }

  function Trim(b: Mailbox, window: int): (r: Mailbox)
    requires window > 0
    ensures |r.order| <= window
    decreases |b.order|
  {
    if |b.order| <= window then b else Trim(EvictOldest(b), window)
  }

  function Put(t: IdTable, ns: Namespace, x: Source, surrogate: int): IdTable {
    IdTable(Max(t.counter, surrogate - Base(ns)), t.forward[x := surrogate], t.reverse[surrogate := x])
  }

  function NextSurrogate(e: Engine, ns: Namespace): int {
    Base(ns) + e.Table(ns).counter + 1
  }

  /** A fresh message mapping: append it to the window and trim. */
  function Receive(b: Mailbox, window: int, x: Source, surrogate: int): Mailbox
    requires window > 0
  {
    Trim(Mailbox(Put(b.ids, Message, x, surrogate), b.order + [x], b.msgs), window)
  }

  /** Record a fresh mapping. */
  function InsertMapping(e: Engine, ns: Namespace, x: Source, surrogate: int): (r: Engine)
    requires e.window > 0
    ensures r.window == e.window
  {
    if ns.Message? then e.(box := Receive(e.box, e.window, x, surrogate))
    else e.With(ns, Put(e.Table(ns), ns, x, surrogate))
  }

  function Allocate(e: Engine, ns: Namespace, x: Source): (r: Engine)
    requires e.window > 0
    ensures r.window == e.window
  {
    if x in e.Table(ns).forward then e else InsertMapping(e, ns, x, NextSurrogate(e, ns))
  }

  function Post(b: Mailbox, entry: Entry): Mailbox {
    b.(msgs := PutMessage(b.msgs, entry))
  }

  // ---- room bindings ----

  function BindPrivate(r: Rooms, user: Source, userSurrogate: int, room: Source): Rooms {
    r.(privBySource := r.privBySource[user := room], privBySurrogate := r.privBySurrogate[userSurrogate := room])
  }

  function Stamp(c: ContextEntry): int {
    if c.timestamp.Some? then c.timestamp.value else 0
  }

  /** A bind is refused only when it carries a timestamp older than the one on record. */
  predicate Accepts(r: Rooms, c: ContextEntry) {
    c.timestamp.Some? && c.context in r.ctxBySource ==> Stamp(r.ctxBySource[c.context]) <= c.timestamp.value
  }

  function BindContext(r: Rooms, c: ContextEntry): Rooms {
    if Accepts(r, c)
    then r.(ctxBySource := r.ctxBySource[c.context := c], ctxBySurrogate := r.ctxBySurrogate[c.surrogate := c])
    else r
  }

  // ---- journal mutations and their replay ----

  datatype Mutation =
    | IdPut(ns: Namespace, source: Source, surrogate: int)
    | LegacyUserPut
    | MessagePut(entry: Entry)
    | PrivateBind(user: Source, userSurrogate: int, room: Source)
    | ContextBind(binding: ContextEntry)

  /** _apply_record with persist=False for one mutation. */
  function Apply(e: Engine, m: Mutation): (r: Engine)
    requires e.window > 0
    ensures r.window == e.window
  {
    match m
    case IdPut(ns, x, surrogate) =>
      if x == "" || surrogate <= 0 || x in e.Table(ns).forward then e else InsertMapping(e, ns, x, surrogate)
    case LegacyUserPut => e
    case MessagePut(entry) => e.(box := Post(e.box, entry))
    case PrivateBind(user, userSurrogate, room) => e.(rooms := BindPrivate(e.rooms, user, userSurrogate, room))
    case ContextBind(c) => e.(rooms := BindContext(e.rooms, c))
  }

  function Replay(e: Engine, ms: seq<Mutation>): (r: Engine)
    requires e.window > 0
    ensures r.window == e.window
    decreases |ms|
  {
    if ms == [] then e else Replay(Apply(e, ms[0]), ms[1..])
  }

  lemma ReplayOne(e: Engine, m: Mutation)
    requires e.window > 0
    ensures Replay(e, [m]) == Apply(e, m)
  {
    assert [m][1..] == [];
  }

  lemma {:induction false} ReplayAppend(e: Engine, a: seq<Mutation>, b: seq<Mutation>)
    requires e.window > 0
    ensures Replay(e, a + b) == Replay(Replay(e, a), b)
    decreases |a|
  {
    if a == [] {
      assert a + b == b;
    } else {
      assert (a + b)[1..] == a[1..] + b;
      ReplayAppend(Apply(e, a[0]), a[1..], b);
    }
  }
}
