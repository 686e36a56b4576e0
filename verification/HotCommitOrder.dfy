/**
 Batches that overlap in time. A batch changes the engine at once but records its mutations only when
 it commits, so the journal may hold them in another order than the one they happened in. For the
 namespaces that never evict, every commit order replays to the live tables.
 */
module HotCommitOrder {
  import opened HotState
  import opened HotJournal

  /** One operation made on behalf of a batch. */
  datatype Step = Step(batch: nat, op: Op)

  function OpsOfSteps(steps: seq<Step>): (r: seq<Op>)
    ensures |r| == |steps| && forall i :: 0 <= i < |steps| ==> r[i] == steps[i].op
  {
    seq(|steps|, i requires 0 <= i < |steps| => steps[i].op)
  }

  /** What a batch has collected by the end of the interleaved run. */
  function Collected(e: Engine, steps: seq<Step>, batch: nat): seq<Mutation>
    requires e.window > 0
    decreases |steps|
  {
    if steps == [] then []
    else
      (if steps[0].batch == batch then Emitted(e, steps[0].op) else []) +
      Collected(Live(e, steps[0].op), steps[1..], batch)
  }

  /** The journal when the batches commit in this order. */
  function Committed(e: Engine, steps: seq<Step>, commits: seq<nat>): seq<Mutation>
    requires e.window > 0
    decreases |commits|
  {
    if commits == [] then [] else Collected(e, steps, commits[0]) + Committed(e, steps, commits[1..])
  }

  /** Reverse keys stay at or below the counter. */
  ghost predicate Counted(t: IdTable, ns: Namespace) {
    forall k :: k in t.reverse ==> k <= Base(ns) + t.counter
  }

  /** Table t holds nothing that u does not. */
  ghost predicate Within(t: IdTable, u: IdTable) {
    && t.counter <= u.counter
    && (forall x :: x in t.forward ==> x in u.forward && u.forward[x] == t.forward[x])
    && (forall k :: k in t.reverse ==> k in u.reverse && u.reverse[k] == t.reverse[k])
  }

  /** Table t has the mapping, and its counter covers it. */
  ghost predicate Has(t: IdTable, ns: Namespace, x: Source, k: int) {
    && x in t.forward && t.forward[x] == k && k in t.reverse && t.reverse[k] == x
    && 0 < k <= Base(ns) + t.counter
  }

  lemma StepGrows(e: Engine, op: Op, ns: Namespace)
    requires e.window > 0 && !ns.Message? && Counted(e.Table(ns), ns)
    ensures Within(e.Table(ns), Live(e, op).Table(ns)) && Counted(Live(e, op).Table(ns), ns)
    ensures forall m :: m in Emitted(e, op) && m.IdPut? && m.ns == ns ==>
            Has(Live(e, op).Table(ns), ns, m.source, m.surrogate)
  {
  }

  lemma WithinTransitive(t: IdTable, u: IdTable, v: IdTable)
    requires Within(t, u) && Within(u, v)
    ensures Within(t, v)
  {
  }

  /** The final live table holds every mapping the run emitted. */
  lemma {:induction false} LiveHoldsEmitted(e: Engine, ops: seq<Op>, ns: Namespace)
    requires e.window > 0 && !ns.Message? && Counted(e.Table(ns), ns)
    ensures var final := LiveAll(e, ops).Table(ns);
            && Within(e.Table(ns), final)
            && forall m :: m in EmittedAll(e, ops) && m.IdPut? && m.ns == ns ==> Has(final, ns, m.source, m.surrogate)
    decreases |ops|
  {
    if ops != [] {
      var next := Live(e, ops[0]);
      StepGrows(e, ops[0], ns);
      LiveHoldsEmitted(next, ops[1..], ns);
      WithinTransitive(e.Table(ns), next.Table(ns), LiveAll(e, ops).Table(ns));
    }
  }

  /** And nothing else. */
  ghost predicate Explained(t: IdTable, final: IdTable, ns: Namespace, ms: seq<Mutation>) {
    && (forall x :: x in final.forward && x !in t.forward ==>
        exists m :: m in ms && m.IdPut? && m.ns == ns && m.source == x)
    && (forall k :: k in final.reverse && k !in t.reverse ==>
        exists m :: m in ms && m.IdPut? && m.ns == ns && m.surrogate == k)
    && (final.counter > t.counter ==>
        exists m :: m in ms && m.IdPut? && m.ns == ns && m.surrogate == Base(ns) + final.counter)
  }

  lemma StepExplained(e: Engine, op: Op, ns: Namespace)
    requires e.window > 0 && !ns.Message?
    ensures Explained(e.Table(ns), Live(e, op).Table(ns), ns, Emitted(e, op))
  {
    if op.AllocateId? && op.ns == ns && op.source !in e.Table(ns).forward {
      assert IdPut(ns, op.source, NextSurrogate(e, ns)) in Emitted(e, op);
    }
  }

  lemma ExplainedTransitive(t: IdTable, u: IdTable, v: IdTable, ns: Namespace, a: seq<Mutation>, b: seq<Mutation>)
    requires Explained(t, u, ns, a) && Explained(u, v, ns, b) && t.counter <= u.counter <= v.counter
    ensures Explained(t, v, ns, a + b)
  {
    forall x | x in v.forward && x !in t.forward
      ensures exists m :: m in a + b && m.IdPut? && m.ns == ns && m.source == x
    {
      var m :| (m in a || m in b) && m.IdPut? && m.ns == ns && m.source == x;
      assert m in a + b;
    }
    forall k | k in v.reverse && k !in t.reverse
      ensures exists m :: m in a + b && m.IdPut? && m.ns == ns && m.surrogate == k
    {
      var m :| (m in a || m in b) && m.IdPut? && m.ns == ns && m.surrogate == k;
      assert m in a + b;
    }
    if v.counter > t.counter {
      var m :| (m in a || m in b) && m.IdPut? && m.ns == ns && m.surrogate == Base(ns) + v.counter;
      assert m in a + b;
    }
  }

  lemma {:induction false} LiveExplained(e: Engine, ops: seq<Op>, ns: Namespace)
    requires e.window > 0 && !ns.Message? && Counted(e.Table(ns), ns)
    ensures Explained(e.Table(ns), LiveAll(e, ops).Table(ns), ns, EmittedAll(e, ops))
    decreases |ops|
  {
    if ops != [] {
      var next := Live(e, ops[0]);
      StepGrows(e, ops[0], ns);
      StepExplained(e, ops[0], ns);
      LiveExplained(next, ops[1..], ns);
      LiveHoldsEmitted(next, ops[1..], ns);
      ExplainedTransitive(e.Table(ns), next.Table(ns), LiveAll(e, ops).Table(ns), ns, Emitted(e, ops[0]),
          EmittedAll(next, ops[1..]));
    }
  }

  /** Forward and reverse are inverse, and no id exceeds the counter. */
  ghost predicate Sound(t: IdTable, ns: Namespace) {
    forall x :: x in t.forward ==> Has(t, ns, x, t.forward[x])
  }

  lemma ReplayStep(e: Engine, m: Mutation, ns: Namespace, final: IdTable)
    requires e.window > 0 && !ns.Message? && Within(e.Table(ns), final) && Sound(e.Table(ns), ns)
    requires m.IdPut? && m.ns == ns ==> m.source != "" && Has(final, ns, m.source, m.surrogate)
    ensures var t := Apply(e, m).Table(ns);
            && Within(t, final) && Within(e.Table(ns), t) && Sound(t, ns)
            && (m.IdPut? && m.ns == ns ==> m.source in t.forward)
  {
    if m.IdPut? && m.ns == ns && m.source !in e.Table(ns).forward {
      var t, u := e.Table(ns), Apply(e, m).Table(ns);
      forall x | x in u.forward
        ensures Has(u, ns, x, u.forward[x])
      {
        if x != m.source {
          assert Has(t, ns, x, t.forward[x]);
        }
      }
    }
  }

  /** Replay order does not matter as long as every record agrees with one and the same table. */
  lemma {:induction false} ReplayStaysWithin(e: Engine, ms: seq<Mutation>, ns: Namespace, final: IdTable)
    requires e.window > 0 && !ns.Message? && Within(e.Table(ns), final) && Sound(e.Table(ns), ns)
    requires forall m :: m in ms && m.IdPut? && m.ns == ns ==> m.source != "" && Has(final, ns, m.source, m.surrogate)
    ensures var t := Replay(e, ms).Table(ns);
            && Within(t, final) && Within(e.Table(ns), t) && Sound(t, ns)
            && forall m :: m in ms && m.IdPut? && m.ns == ns ==> m.source in t.forward
    decreases |ms|
  {
    if ms != [] {
      var next := Apply(e, ms[0]);
      assert ms[0] in ms;
      ReplayStep(e, ms[0], ns, final);
      assert forall m :: m in ms[1..] ==> m in ms;
      ReplayStaysWithin(next, ms[1..], ns, final);
      WithinTransitive(e.Table(ns), next.Table(ns), Replay(e, ms).Table(ns));
    }
  }

  lemma Complete(t: IdTable, u: IdTable, final: IdTable, ns: Namespace, ms: seq<Mutation>)
    requires Within(t, u) && Within(u, final) && Sound(u, ns) && Explained(t, final, ns, ms)
    requires forall m :: m in ms && m.IdPut? && m.ns == ns ==>
             m.source in u.forward && Has(final, ns, m.source, m.surrogate)
    ensures u == final
  {
    forall m | m in ms && m.IdPut? && m.ns == ns
      ensures Has(u, ns, m.source, m.surrogate)
    {
      assert Has(u, ns, m.source, u.forward[m.source]);
    }
    forall k | k in final.reverse
      ensures k in u.reverse
    {
      if k !in t.reverse {
        var m :| m in ms && m.IdPut? && m.ns == ns && m.surrogate == k;
        assert Has(u, ns, m.source, m.surrogate);
      }
    }
    forall k
      ensures k in u.reverse <==> k in final.reverse
      ensures k in u.reverse ==> u.reverse[k] == final.reverse[k]
    {
    }
    assert u.forward == final.forward;
    assert u.reverse == final.reverse;
  }

  // ---- which mutations reach the journal ----

  lemma {:induction false} CollectedIsEmitted(e: Engine, steps: seq<Step>, batch: nat, m: Mutation)
    requires e.window > 0 && m in Collected(e, steps, batch)
    ensures m in EmittedAll(e, OpsOfSteps(steps))
    decreases |steps|
  {
    var op, next := steps[0].op, Live(e, steps[0].op);
    assert OpsOfSteps(steps)[1..] == OpsOfSteps(steps[1..]);
    if m in Collected(next, steps[1..], batch) {
      CollectedIsEmitted(next, steps[1..], batch, m);
    }
  }

  lemma {:induction false} EmittedIsCollected(e: Engine, steps: seq<Step>, m: Mutation) returns (batch: nat)
    requires e.window > 0 && m in EmittedAll(e, OpsOfSteps(steps))
    ensures m in Collected(e, steps, batch)
    decreases |steps|
  {
    var op, next := steps[0].op, Live(e, steps[0].op);
    assert OpsOfSteps(steps)[1..] == OpsOfSteps(steps[1..]);
    if m in Emitted(e, op) {
      batch := steps[0].batch;
    } else {
      batch := EmittedIsCollected(next, steps[1..], m);
    }
  }

  lemma {:induction false} CollectedNeedsBatch(e: Engine, steps: seq<Step>, batch: nat)
    requires e.window > 0 && forall i :: 0 <= i < |steps| ==> steps[i].batch != batch
    ensures Collected(e, steps, batch) == []
    decreases |steps|
  {
    if steps != [] {
      CollectedNeedsBatch(Live(e, steps[0].op), steps[1..], batch);
    }
  }

  lemma {:induction false} CommittedMembers(e: Engine, steps: seq<Step>, commits: seq<nat>, m: Mutation)
    requires e.window > 0
    ensures m in Committed(e, steps, commits) <==> exists b :: b in commits && m in Collected(e, steps, b)
    decreases |commits|
  {
    if commits != [] {
      CommittedMembers(e, steps, commits[1..], m);
      if b: nat :| b in commits && m in Collected(e, steps, b) {
        assert b == commits[0] || b in commits[1..];
      }
      if m in Collected(e, steps, commits[0]) {
        assert commits[0] in commits;
      }
    }
  }

  lemma SameMutations(e: Engine, steps: seq<Step>, commits: seq<nat>, m: Mutation)
    requires e.window > 0 && forall i :: 0 <= i < |steps| ==> steps[i].batch in commits
    ensures m in Committed(e, steps, commits) <==> m in EmittedAll(e, OpsOfSteps(steps))
  {
    CommittedMembers(e, steps, commits, m);
    if b: nat :| b in commits && m in Collected(e, steps, b) {
      CollectedIsEmitted(e, steps, b, m);
    }
    if m in EmittedAll(e, OpsOfSteps(steps)) {
      var b := EmittedIsCollected(e, steps, m);
      if b !in commits {
        CollectedNeedsBatch(e, steps, b);
      }
    }
  }

  lemma {:induction false} EmittedNamesSources(e: Engine, ops: seq<Op>, m: Mutation)
    requires e.window > 0 && NamesSources(ops) && m in EmittedAll(e, ops) && m.IdPut?
    ensures m.source != ""
    decreases |ops|
  {
    if m !in Emitted(e, ops[0]) {
      EmittedNamesSources(Live(e, ops[0]), ops[1..], m);
    }
  }

  /**
   However the operations of several batches interleave and in whatever order the batches commit, once
   all have committed the journal replays to the live room, thread and context tables: same forward
   map, same reverse map, same counter.
   */
  lemma CommitOrderIrrelevant(e: Engine, steps: seq<Step>, commits: seq<nat>, ns: Namespace)
    requires e.window > 0 && !ns.Message? && Sound(e.Table(ns), ns) && Counted(e.Table(ns), ns)
    requires NamesSources(OpsOfSteps(steps))
    requires forall i :: 0 <= i < |steps| ==> steps[i].batch in commits
    ensures Replay(e, Committed(e, steps, commits)).Table(ns) == LiveAll(e, OpsOfSteps(steps)).Table(ns)
  {
    var ops, ms := OpsOfSteps(steps), Committed(e, steps, commits);
    var final := LiveAll(e, ops).Table(ns);
    LiveHoldsEmitted(e, ops, ns);
    LiveExplained(e, ops, ns);
    forall m
      ensures m in ms <==> m in EmittedAll(e, ops)
      ensures m in ms && m.IdPut? ==> m.source != ""
    {
      SameMutations(e, steps, commits, m);
      if m in EmittedAll(e, ops) && m.IdPut? {
        EmittedNamesSources(e, ops, m);
      }
    }
    ReplayStaysWithin(e, ms, ns, final);
    Complete(e.Table(ns), Replay(e, ms).Table(ns), final, ns, EmittedAll(e, ops));
  }
}
