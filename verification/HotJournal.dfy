/**
 What the engine writes to its journal while it runs, and that replaying it gives the engine back.

 A live operation changes the tables first and records at most one mutation afterwards. A batch
 changes the tables operation by operation and records all its mutations as one record at commit.
 */
module HotJournal {
  import opened Seqs
  import opened HotState

  datatype Op =
    | AllocateId(ns: Namespace, source: Source)
    | PutEntry(entry: Entry)
    | BindPrivateRoom(user: Source, userSurrogate: int, room: Source)
    | BindContextRoom(binding: ContextEntry)

  function Live(e: Engine, op: Op): (r: Engine)
    requires e.window > 0
    ensures r.window == e.window
  {
    match op
    case AllocateId(ns, x) => Allocate(e, ns, x)
    case PutEntry(entry) => e.(box := Post(e.box, entry))
    case BindPrivateRoom(user, userSurrogate, room) => e.(rooms := BindPrivate(e.rooms, user, userSurrogate, room))
    case BindContextRoom(c) => e.(rooms := BindContext(e.rooms, c))
  }

  /** The mutation an operation records, if any, when it runs in state e. */
  function Emitted(e: Engine, op: Op): seq<Mutation> {
    match op
    case AllocateId(ns, x) => if x in e.Table(ns).forward then [] else [IdPut(ns, x, NextSurrogate(e, ns))]
    case PutEntry(entry) => [MessagePut(entry)]
    case BindPrivateRoom(user, userSurrogate, room) => [PrivateBind(user, userSurrogate, room)]
    case BindContextRoom(c) => if Accepts(e.rooms, c) then [ContextBind(c)] else []
  }

  function LiveAll(e: Engine, ops: seq<Op>): (r: Engine)
    requires e.window > 0
    ensures r.window == e.window
    decreases |ops|
  {
    if ops == [] then e else LiveAll(Live(e, ops[0]), ops[1..])
  }

  function EmittedAll(e: Engine, ops: seq<Op>): seq<Mutation>
    requires e.window > 0
    decreases |ops|
  {
    if ops == [] then [] else Emitted(e, ops[0]) + EmittedAll(Live(e, ops[0]), ops[1..])
  }

  /** An allocation whose journal record replay would ignore. */
  predicate LosesRecord(e: Engine, op: Op) {
    op.AllocateId? && op.source == "" && "" !in e.Table(op.ns).forward
  }

  /** Trimming never touches the counter. */
  lemma {:induction false} TrimKeepsCounter(b: Mailbox, window: int)
    requires window > 0
    ensures Trim(b, window).ids.counter == b.ids.counter
    decreases |b.order|
  {
    if |b.order| > window {
      TrimKeepsCounter(EvictOldest(b), window);
    }
  }

  lemma InsertCounts(e: Engine, ns: Namespace, x: Source, surrogate: int)
    requires e.window > 0
    ensures InsertMapping(e, ns, x, surrogate).Table(ns).counter == Max(e.Table(ns).counter, surrogate - Base(ns))
  {
    if ns.Message? {
      var b := e.box;
      TrimKeepsCounter(Mailbox(Put(b.ids, Message, x, surrogate), b.order + [x], b.msgs), e.window);
    }
  }

  /** A created mapping: replay reproduces it unless the source id is empty. */
  lemma AllocationRefines(e: Engine, ns: Namespace, x: Source)
    requires e.window > 0 && x !in e.Table(ns).forward
    ensures Apply(e, IdPut(ns, x, NextSurrogate(e, ns))) == Allocate(e, ns, x) <==> x != ""
  {
    var surrogate := NextSurrogate(e, ns);
    assert surrogate > 0;
    InsertCounts(e, ns, x, surrogate);
    assert Allocate(e, ns, x) != e;
  }

  lemma OtherOpsRefine(e: Engine, op: Op)
    requires e.window > 0 && !op.AllocateId? && Emitted(e, op) != []
    ensures Apply(e, Emitted(e, op)[0]) == Live(e, op)
  {
  }

  /**
   One operation: replaying what it recorded reproduces its effect, evictions and refused binds
   included, unless it creates a mapping for the empty source id, which replay skips.
   */
  lemma StepRefines(e: Engine, op: Op)
    requires e.window > 0
    ensures Replay(e, Emitted(e, op)) == Live(e, op) <==> !LosesRecord(e, op)
  {
    if Emitted(e, op) != [] {
      var m := Emitted(e, op)[0];
      assert Emitted(e, op) == [m];
      ReplayOne(e, m);
      if op.AllocateId? {
        AllocationRefines(e, op.ns, op.source);
      } else {
        OtherOpsRefine(e, op);
      }
    }
  }

  predicate NamesSources(ops: seq<Op>) {
    forall i :: 0 <= i < |ops| && ops[i].AllocateId? ==> ops[i].source != ""
  }

  lemma {:induction false} RunRefines(e: Engine, ops: seq<Op>)
    requires e.window > 0 && NamesSources(ops)
    ensures Replay(e, EmittedAll(e, ops)) == LiveAll(e, ops)
    decreases |ops|
  {
    if ops != [] {
      var op := ops[0];
      StepRefines(e, op);
      ReplayAppend(e, Emitted(e, op), EmittedAll(Live(e, op), ops[1..]));
      RunRefines(Live(e, op), ops[1..]);
    }
  }

  // ---- records, batches and coalesced frames ----

  datatype Record = One(mutation: Mutation) | Batch(mutations: seq<Mutation>)

  function MutationsOf(r: Record): seq<Mutation> {
    match r
    case One(m) => [m]
    case Batch(ms) => ms
  }

  function Mutations(rs: seq<Record>): seq<Mutation> {
    if rs == [] then [] else MutationsOf(rs[0]) + Mutations(rs[1..])
  }

  /** replay_journal: one record after the other, a batch by its mutations in order. */
  function ReplayRecords(e: Engine, rs: seq<Record>): (r: Engine)
    requires e.window > 0
    ensures r.window == e.window
    decreases |rs|
  {
    if rs == [] then e else ReplayRecords(Replay(e, MutationsOf(rs[0])), rs[1..])
  }

  /** How mutations are grouped into records does not matter to replay. */
  lemma {:induction false} GroupingIrrelevant(e: Engine, rs: seq<Record>)
    requires e.window > 0
    ensures ReplayRecords(e, rs) == Replay(e, Mutations(rs))
    decreases |rs|
  {
    if rs != [] {
      ReplayAppend(e, MutationsOf(rs[0]), Mutations(rs[1..]));
      GroupingIrrelevant(Replay(e, MutationsOf(rs[0])), rs[1..]);
    }
  }

  /** Any two journals with the same mutations in the same order replay alike, coalesced or not. */
  lemma CoalescingIrrelevant(e: Engine, rs: seq<Record>, coalesced: seq<Record>)
    requires e.window > 0 && Mutations(rs) == Mutations(coalesced)
    ensures ReplayRecords(e, rs) == ReplayRecords(e, coalesced)
  {
    GroupingIrrelevant(e, rs);
    GroupingIrrelevant(e, coalesced);
  }

  /** A direct engine call, or a batch that runs to its commit before the next action. */
  datatype Action = Direct(op: Op) | Committed(ops: seq<Op>)

  function OpsOf(a: Action): seq<Op> {
    match a
    case Direct(op) => [op]
    case Committed(ops) => ops
  }

  function RecordsOf(e: Engine, a: Action): seq<Record>
    requires e.window > 0
  {
    var ms := EmittedAll(e, OpsOf(a));
    if ms == [] then []
    else match a
         case Direct(_) => [One(ms[0])]
         case Committed(_) => [Batch(ms)]
  }

  function RunActions(e: Engine, actions: seq<Action>): (r: Engine)
    requires e.window > 0
    ensures r.window == e.window
    decreases |actions|
  {
    if actions == [] then e else RunActions(LiveAll(e, OpsOf(actions[0])), actions[1..])
  }

  function JournalOf(e: Engine, actions: seq<Action>): seq<Record>
    requires e.window > 0
    decreases |actions|
  {
    if actions == [] then []
    else RecordsOf(e, actions[0]) + JournalOf(LiveAll(e, OpsOf(actions[0])), actions[1..])
  }

  lemma ActionRecords(e: Engine, a: Action)
    requires e.window > 0
    ensures Mutations(RecordsOf(e, a)) == EmittedAll(e, OpsOf(a))
  {
    var rs := RecordsOf(e, a);
    if rs != [] {
      assert rs[1..] == [];
      if a.Direct? {
        assert [a.op][1..] == [];
        assert EmittedAll(e, [a.op]) == Emitted(e, a.op);
      }
    }
  }

  lemma {:induction false} MutationsAppend(a: seq<Record>, b: seq<Record>)
    ensures Mutations(a + b) == Mutations(a) + Mutations(b)
  {
    if a == [] {
      assert a + b == b;
    } else {
      assert (a + b)[1..] == a[1..] + b;
      MutationsAppend(a[1..], b);
    }
  }

  /**
   Journal refinement: for every run of direct calls and batches, replaying the records it enqueued
   from the state it started in ends in the live state.
   */
  lemma {:induction false} JournalRefinesLive(e: Engine, actions: seq<Action>)
    requires e.window > 0
    requires forall i :: 0 <= i < |actions| ==> NamesSources(OpsOf(actions[i]))
    ensures ReplayRecords(e, JournalOf(e, actions)) == RunActions(e, actions)
    decreases |actions|
  {
    if actions != [] {
      var a := actions[0];
      var next := LiveAll(e, OpsOf(a));
      var here, later := RecordsOf(e, a), JournalOf(next, actions[1..]);
      ActionRecords(e, a);
      RunRefines(e, OpsOf(a));
      GroupingIrrelevant(e, here + later);
      MutationsAppend(here, later);
      ReplayAppend(e, Mutations(here), Mutations(later));
      GroupingIrrelevant(next, later);
      JournalRefinesLive(next, actions[1..]);
    }
  }

  // ---- traces of earlier releases ----

  predicate LegacyUserId(id: int) {
    1_000_000_000 <= id < 2_000_000_000
  }

  /** A record left over from the incremental user ids of earlier releases. */
  predicate LegacyMutation(m: Mutation) {
    match m
    case LegacyUserPut => true
    case MessagePut(entry) => LegacyUserId(entry.senderSurrogate)
    case PrivateBind(_, userSurrogate, _) => LegacyUserId(userSurrogate)
    case _ => false
  }

  predicate AnyLegacy(ms: seq<Mutation>) {
    exists m :: m in ms && LegacyMutation(m)
  }

  lemma AnyLegacyAppend(a: seq<Mutation>, b: seq<Mutation>)
    ensures AnyLegacy(a + b) <==> AnyLegacy(a) || AnyLegacy(b)
  {
    if AnyLegacy(a) {
      var m :| m in a && LegacyMutation(m);
      assert m in a + b;
    }
    if AnyLegacy(b) {
      var m :| m in b && LegacyMutation(m);
      assert m in a + b;
    }
  }

  /** What purge_legacy_user_dependent_state leaves. */
  function Purge(e: Engine): Engine {
    e.(box := e.box.(msgs := EmptyTables), rooms := e.rooms.(privBySurrogate := map[]))
  }
}
