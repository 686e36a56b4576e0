/**
 The engine, its writer thread and the two files as one transition system. The process can die at any
 point, also in the middle of a frame. What start-up then reads is the last snapshot and the journal up
 to the first torn frame; it may have to purge what depends on legacy user ids, and it goes on appending
 to the same journal file.
 */
module HotDurability {
  import opened Seqs
  import opened HotState
  import opened HotIndex
  import opened HotWindow
  import opened HotSnapshot
  import opened HotHistory
  import opened HotJournal
  import opened HotRecovery

  // ---- engines compared up to what no journal record brings back ----

  /**
   Everything; everything but the surrogate-keyed private rooms, which the runtime refills unrecorded;
   or what a purge leaves.
   */
  datatype Detail = Full | Unbound | Purged

  function View(d: Detail, e: Engine): Engine {
    match d
    case Full => e
    case Unbound => e.(rooms := e.rooms.(privBySurrogate := map[]))
    case Purged => Purge(e)
  }

  predicate Same(d: Detail, a: Engine, b: Engine) {
    View(d, a) == View(d, b)
  }

  lemma {:induction false} TrimIgnoresMessages(a: Mailbox, b: Mailbox, window: int)
    requires window > 0 && SameWindow(a, b)
    ensures SameWindow(Trim(a, window), Trim(b, window))
    decreases |a.order|
  {
    if |a.order| > window {
      TrimIgnoresMessages(EvictOldest(a), EvictOldest(b), window);
    }
  }

  lemma SameAfterId(d: Detail, a: Engine, b: Engine, ns: Namespace, x: Source, surrogate: int)
    requires a.window > 0 && Same(d, a, b)
    ensures Same(d, InsertMapping(a, ns, x, surrogate), InsertMapping(b, ns, x, surrogate))
  {
    if ns.Message? {
      TrimIgnoresMessages(Mailbox(Put(a.box.ids, Message, x, surrogate), a.box.order + [x], a.box.msgs),
                          Mailbox(Put(b.box.ids, Message, x, surrogate), b.box.order + [x], b.box.msgs), a.window);
    }
  }

  /** No mutation makes visible what was not: engines alike in this respect stay so. */
  lemma SameAfter(d: Detail, a: Engine, b: Engine, m: Mutation)
    requires a.window > 0 && Same(d, a, b)
    ensures Same(d, Apply(a, m), Apply(b, m))
  {
    if m.IdPut? {
      SameAfterId(d, a, b, m.ns, m.source, m.surrogate);
    }
  }

  lemma {:induction false} SameAfterAll(d: Detail, a: Engine, b: Engine, ms: seq<Mutation>)
    requires a.window > 0 && Same(d, a, b)
    ensures Same(d, Replay(a, ms), Replay(b, ms))
    decreases |ms|
  {
    if ms != [] {
      SameAfter(d, a, b, ms[0]);
      SameAfterAll(d, Apply(a, ms[0]), Apply(b, ms[0]), ms[1..]);
    }
  }

  lemma SameRecordable(a: Engine, b: Engine, m: Mutation)
    requires Same(Purged, a, b)
    ensures Recordable(a, m) <==> Recordable(b, m)
  {
  }

  ghost predicate IsRunning(e: Engine)
    ensures IsRunning(e) ==> e.window > 0
  {
    exists slots, log :: Running(e, slots, log)
  }

  lemma PurgedRuns(a: Engine, b: Engine)
    requires IsRunning(b) && Same(Purged, a, b)
    ensures IsRunning(Purge(a))
  {
    var slots, log :| Running(b, slots, log);
    assert Running(Purge(a), slots, Nil);
  }

  lemma UnboundRuns(d: Detail, a: Engine, b: Engine)
    requires IsRunning(b) && !d.Purged? && Same(d, a, b)
    ensures IsRunning(a)
  {
    var slots, log :| Running(b, slots, log);
    assert Running(a, slots, log);
  }

  lemma ReplayRuns(e: Engine, ms: seq<Mutation>)
    requires IsRunning(e) && e.window > 0 && Recorded(e, ms)
    ensures IsRunning(Replay(e, ms))
  {
    var slots, log :| Running(e, slots, log);
    RunKeepsRunning(e, slots, log, ms);
  }

  // ---- the system ----

  /**
   `base` is the engine before the first mutation of the journal file and `history` all mutations made
   since; `turn` is the engine that the last purge left after `at` of them, or else base. Of the history,
   `queued` mutations have been enqueued, `written` handed to the file, and `readable` lie there in whole
   frames in front of any torn one. The snapshot file holds the engine captured after `snap`; while
   `rotating` it has been replaced and the journal not yet truncated. `clean`: no purge since base.
   `refilled`: the private rooms by surrogate have been refilled since the last start that purged or
   found no journal.
   */
  datatype Sys = Sys(base: Engine, history: seq<Mutation>, live: Engine, turn: Engine, at: nat,
                     queued: nat, written: nat, readable: nat, torn: bool,
                     snapshot: Engine, snap: nat, rotating: bool, clean: bool, refilled: bool)

  function Boot(e: Engine): Sys {
    Sys(e, [], e, e, 0, 0, 0, 0, false, e, 0, false, true, false)
  }

  datatype Event =
    | Mutate(m: Mutation)
    | Refill(bindings: map<int, Source>)
    | Enqueue(upTo: nat)
    | Write(upTo: nat)
    | Flush(upTo: nat)
    | ReplaceSnapshot
    | Truncate
    | Restart(tear: bool)

  predicate Placed(s: Sys) {
    && s.base.window > 0 && s.live.window == s.turn.window == s.snapshot.window == s.base.window
    && s.at <= s.readable <= s.written <= s.queued <= |s.history|
    && s.snap <= |s.history| && (s.rotating ==> s.written <= s.snap)
  }

  function Surviving(s: Sys): seq<Mutation>
    requires Placed(s)
  {
    s.history[..s.readable]
  }

  /** Snapshot loaded and journal replayed, before any purge. */
  function Recovered(s: Sys): Engine
    requires Placed(s)
  {
    Replay(s.snapshot, Surviving(s))
  }

  /** Start-up suspects legacy user state. */
  predicate Suspect(s: Sys)
    requires Placed(s)
  {
    LegacySeen(Export(s.snapshot), Surviving(s))
  }

  function StartUp(s: Sys): Engine
    requires Placed(s)
  {
    if Suspect(s) then Purge(Recovered(s)) else Recovered(s)
  }

  /** How many mutations outlive a crash. */
  function Survived(s: Sys): nat {
    Max(s.snap, s.readable)
  }

  /** The readable journal is empty, or reaches the capture point behind a harmless overlap. */
  ghost predicate Exact(s: Sys)
    requires Placed(s)
  {
    s.readable == 0 || (s.snap <= s.readable && Harmless(s.base, s.history[..s.snap]))
  }

  ghost predicate Enabled(s: Sys, ev: Event)
    requires Placed(s)
  {
    match ev
    case Mutate(m) => Recordable(s.live, m)
    case Refill(_) => true
    case Enqueue(n) => s.queued <= n <= |s.history|
    case Write(n) => !s.rotating && s.written <= n <= s.queued
    case Flush(n) => s.readable <= n <= s.written
    case ReplaceSnapshot => !s.rotating
    case Truncate => s.rotating
    case Restart(tear) => Exact(s) && (s.clean || Suspect(s)) && (tear ==> s.readable < s.written)
  }

  /** What is flushed behind a torn frame stays unreadable until the journal is truncated. */
  function Do(s: Sys, ev: Event): (t: Sys)
    requires Placed(s) && Enabled(s, ev)
    ensures Placed(t)
  {
    match ev
    case Mutate(m) => s.(history := s.history + [m], live := Apply(s.live, m))
    case Refill(b) => s.(live := s.live.(rooms := s.live.rooms.(privBySurrogate := b)), refilled := true)
    case Enqueue(n) => s.(queued := n)
    case Write(n) => s.(written := n)
    case Flush(n) => s.(readable := if s.torn then s.readable else n)
    case ReplaceSnapshot => s.(snapshot := s.live, snap := |s.history|, rotating := true)
    case Truncate =>
      var b := Replay(s.turn, s.history[s.at..s.written]);
      Sys(b, s.history[s.written..], s.live, b, 0, s.queued - s.written, 0, 0, false,
          s.snapshot, s.snap - s.written, false, true, s.refilled)
    case Restart(tear) => Resume(s, tear)
  }

  /** Appending goes on behind whatever the crash left; an empty journal starts a new one. */
  function Resume(s: Sys, tear: bool): (t: Sys)
    requires Placed(s) && Exact(s)
    ensures Placed(t)
  {
    var r, n := StartUp(s), s.readable;
    if n == 0 then Sys(s.snapshot, [], r, r, 0, 0, 0, 0, s.torn || tear, s.snapshot, 0, false, !Suspect(s), false)
    else
      var t := s.(history := s.history[..n], live := r, queued := n, written := n, torn := s.torn || tear,
                  rotating := false);
      if Suspect(s) then t.(turn := r, at := n, clean := false, refilled := false) else t
  }

  ghost predicate Run(s: Sys, events: seq<Event>, t: Sys)
    requires Placed(s)
    ensures Run(s, events, t) ==> Placed(t)
    decreases |events|
  {
    if events == [] then s == t
    else Enabled(s, events[0]) && Run(Do(s, events[0]), events[1..], t)
  }

  lemma {:induction false} RunThrough(s: Sys, a: seq<Event>, t: Sys, b: seq<Event>, u: Sys)
    requires Placed(s) && Run(s, a, t) && Run(t, b, u)
    ensures Run(s, a + b, u)
    decreases |a|
  {
    if a == [] {
      assert a + b == b;
    } else {
      assert (a + b)[1..] == a[1..] + b;
      RunThrough(Do(s, a[0]), a[1..], t, b, u);
    }
  }

  lemma RunOne(s: Sys, ev: Event)
    requires Placed(s) && Enabled(s, ev)
    ensures Run(s, [ev], Do(s, ev))
  {
    assert [ev][1..] == [];
  }

  // ---- what every run keeps ----

  /** The engine after n mutations, with the last purge. */
  function Past(s: Sys, n: nat): Engine
    requires Placed(s) && s.at <= n <= |s.history|
  {
    Replay(s.turn, s.history[s.at..n])
  }

  /** The same had there never been a purge. */
  function Unpurged(s: Sys, n: nat): Engine
    requires Placed(s) && n <= |s.history|
  {
    Replay(s.base, s.history[..n])
  }

  function Bindings(s: Sys): Detail {
    if s.refilled then Unbound else Full
  }

  /** In which detail a recovery is exact. */
  function Kept(s: Sys): Detail {
    if s.clean then Bindings(s) else Purged
  }

  ghost predicate Inv(s: Sys) {
    && Placed(s) && IsRunning(s.base) && Recorded(s.base, s.history)
    && IsRunning(s.turn) && IsRunning(s.snapshot)
    && Same(Purged, s.turn, Unpurged(s, s.at)) && (s.clean ==> s.turn == s.base && s.at == 0)
    && Same(Bindings(s), s.live, Past(s, |s.history|))
    && Same(Kept(s), s.snapshot, Unpurged(s, s.snap))
    && (s.rotating ==> Same(Bindings(s), s.snapshot, Past(s, s.snap)))
    && (s.clean || Suspect(s) || s.rotating)
  }

  lemma Cut(h: seq<Mutation>, i: nat, j: nat, k: nat)
    requires i <= j <= k <= |h|
    ensures h[..j] == h[..i] + h[i..j] && h[i..k] == h[i..j] + h[j..k] && h[j..][..k - j] == h[j..k]
  {
  }

  lemma Whole(h: seq<Mutation>, i: nat)
    requires i <= |h|
    ensures h[..|h|] == h && h[i..|h|] == h[i..] && h == h[..i] + h[i..]
  {
  }

  /** Purges apart, both time lines agree. */
  lemma SamePast(s: Sys, n: nat)
    requires Placed(s) && Same(Purged, s.turn, Unpurged(s, s.at)) && s.at <= n <= |s.history|
    ensures Same(Purged, Past(s, n), Unpurged(s, n))
  {
    SameAfterAll(Purged, s.turn, Unpurged(s, s.at), s.history[s.at..n]);
    Cut(s.history, s.at, n, n);
    ReplayAppend(s.base, s.history[..s.at], s.history[s.at..n]);
  }

  lemma Coarser(d: Detail, a: Engine, b: Engine)
    requires Same(d, a, b)
    ensures Same(Purged, a, b) && (!d.Purged? ==> Same(Unbound, a, b))
  {
  }

  lemma LiveLikeUnpurged(s: Sys)
    requires Inv(s)
    ensures Same(Purged, s.live, Unpurged(s, |s.history|))
  {
    SamePast(s, |s.history|);
    Coarser(Bindings(s), s.live, Past(s, |s.history|));
  }

  lemma RecordedSoFar(s: Sys, n: nat)
    requires Inv(s) && n <= |s.history|
    ensures Recorded(s.base, s.history[..n]) && Recorded(Unpurged(s, n), s.history[n..])
    ensures IsRunning(Unpurged(s, n))
  {
    Whole(s.history, n);
    RecordedSplit(s.base, s.history[..n], s.history[n..]);
    ReplayRuns(s.base, s.history[..n]);
  }

  lemma {:induction false} SameRecorded(a: Engine, b: Engine, ms: seq<Mutation>)
    requires a.window > 0 && Same(Purged, a, b) && Recorded(b, ms)
    ensures Recorded(a, ms)
    decreases |ms|
  {
    if ms != [] {
      SameRecordable(a, b, ms[0]);
      SameAfter(Purged, a, b, ms[0]);
      SameRecorded(Apply(a, ms[0]), Apply(b, ms[0]), ms[1..]);
    }
  }

  lemma PastRuns(s: Sys, n: nat)
    requires Inv(s) && s.at <= n <= |s.history|
    ensures IsRunning(Past(s, n))
  {
    RecordedSoFar(s, s.at);
    SameRecorded(s.turn, Unpurged(s, s.at), s.history[s.at..]);
    Cut(s.history, s.at, n, |s.history|);
    Whole(s.history, s.at);
    RecordedSplit(s.turn, s.history[s.at..n], s.history[n..|s.history|]);
    ReplayRuns(s.turn, s.history[s.at..n]);
  }

  lemma Grown(h: seq<Mutation>, m: Mutation, i: nat, j: nat)
    requires i <= j <= |h|
    ensures (h + [m])[..j] == h[..j] && (h + [m])[i..j] == h[i..j] && (h + [m])[i..] == h[i..] + [m]
  {
  }

  lemma MutateKeeps(s: Sys, m: Mutation)
    requires Inv(s) && Recordable(s.live, m)
    ensures Inv(Do(s, Mutate(m)))
  {
    var h := s.history;
    LiveLikeUnpurged(s);
    Whole(h, s.at);
    SameRecordable(s.live, Unpurged(s, |h|), m);
    RecordedSplit(s.base, h, [m]);
    RecordedOne(Replay(s.base, h), m);
    Grown(h, m, s.at, s.at);
    Grown(h, m, 0, s.snap);
    Grown(h, m, 0, s.readable);
    if s.rotating {
      Grown(h, m, s.at, s.snap);
    }
    Whole(h + [m], s.at);
    SameAfter(Bindings(s), s.live, Past(s, |h|), m);
    ReplayAppend(s.turn, h[s.at..], [m]);
    ReplayOne(Past(s, |h|), m);
  }

  lemma RefillKeeps(s: Sys, b: map<int, Source>)
    requires Inv(s)
    ensures Inv(Do(s, Refill(b)))
  {
    Coarser(Bindings(s), s.live, Past(s, |s.history|));
    Coarser(Kept(s), s.snapshot, Unpurged(s, s.snap));
    if s.rotating {
      Coarser(Bindings(s), s.snapshot, Past(s, s.snap));
    }
  }

  lemma MoreSuspect(e: Engine, ms: seq<Mutation>, more: seq<Mutation>)
    requires LegacySeen(Export(e), ms)
    ensures LegacySeen(Export(e), ms + more)
  {
    AnyLegacyAppend(ms, more);
  }

  lemma FlushKeeps(s: Sys, n: nat)
    requires Inv(s) && Enabled(s, Flush(n))
    ensures Inv(Do(s, Flush(n)))
  {
    if Suspect(s) {
      Cut(s.history, s.readable, n, n);
      MoreSuspect(s.snapshot, Surviving(s), s.history[s.readable..n]);
    }
  }

  lemma ReplaceKeeps(s: Sys)
    requires Inv(s) && Enabled(s, ReplaceSnapshot)
    ensures Inv(Do(s, ReplaceSnapshot))
  {
    PastRuns(s, |s.history|);
    UnboundRuns(Bindings(s), s.live, Past(s, |s.history|));
    LiveLikeUnpurged(s);
  }

  lemma PastOnward(s: Sys, i: nat, j: nat)
    requires Placed(s) && s.at <= i <= j <= |s.history|
    ensures Past(s, j) == Replay(Past(s, i), s.history[i..j])
  {
    Cut(s.history, s.at, i, j);
    ReplayAppend(s.turn, s.history[s.at..i], s.history[i..j]);
  }

  lemma PastRecorded(s: Sys, n: nat)
    requires Inv(s) && s.at <= n <= |s.history|
    ensures Recorded(Past(s, n), s.history[n..])
  {
    SamePast(s, n);
    RecordedSoFar(s, n);
    SameRecorded(Past(s, n), Unpurged(s, n), s.history[n..]);
  }

  lemma TruncatedPast(s: Sys)
    requires Placed(s) && s.rotating
    ensures var t := Do(s, Truncate); Past(t, |t.history|) == Past(s, |s.history|)
  {
    PastOnward(s, s.written, |s.history|);
    Whole(s.history, s.written);
    Whole(s.history[s.written..], 0);
  }

  lemma TruncatedSnap(s: Sys)
    requires Placed(s) && s.rotating
    ensures var t := Do(s, Truncate); Unpurged(t, t.snap) == Past(s, s.snap) && Unpurged(t, 0) == t.base
  {
    PastOnward(s, s.written, s.snap);
    Cut(s.history, s.written, s.written, s.snap);
  }

  lemma TruncateKeeps(s: Sys)
    requires Inv(s) && s.rotating
    ensures Inv(Do(s, Truncate))
  {
    TruncatedPast(s);
    TruncatedSnap(s);
    TruncatedBase(s);
  }

  lemma TruncatedBase(s: Sys)
    requires Inv(s) && s.rotating
    ensures var t := Do(s, Truncate); IsRunning(t.base) && Recorded(t.base, t.history)
  {
    PastRuns(s, s.written);
    PastRecorded(s, s.written);
  }

  // ---- a crash ----

  lemma OverlapExact(s: Sys)
    requires Inv(s) && Exact(s)
    ensures Same(Kept(s), Recovered(s), Unpurged(s, Survived(s)))
  {
    if s.readable > 0 {
      var ms, later := s.history[..s.snap], s.history[s.snap..s.readable];
      var slots, log :| Running(s.base, slots, log);
      RecordedSoFar(s, s.snap);
      OverlappingReplay(s.base, slots, log, ms, later);
      Cut(s.history, s.snap, s.readable, s.readable);
      SameAfterAll(Kept(s), s.snapshot, Unpurged(s, s.snap), Surviving(s));
    }
  }

  /**
   What is read back is the engine after the last mutation that was captured or is readable: exactly if
   nothing was purged since the journal began, apart from the bindings the runtime refills if it has done
   so, and in all that a purge leaves in any case.
   */
  lemma RecoveredExact(s: Sys)
    requires Inv(s) && Exact(s)
    ensures Same(Kept(s), Recovered(s), Past(s, Survived(s)))
    ensures Same(Purged, Recovered(s), Past(s, Survived(s)))
  {
    OverlapExact(s);
    SamePast(s, Survived(s));
    Coarser(Kept(s), Recovered(s), Unpurged(s, Survived(s)));
  }

  lemma ResumeEmptyKeeps(s: Sys, tear: bool)
    requires Inv(s) && s.readable == 0 && (s.clean || Suspect(s))
    ensures Inv(Resume(s, tear))
  {
    var t := Resume(s, tear);
    assert Recovered(s) == s.snapshot;
    if Suspect(s) {
      PurgedRuns(s.snapshot, s.snapshot);
      assert Suspect(t);
    }
  }

  lemma KeptPrefix(s: Sys, tear: bool)
    requires Placed(s) && Exact(s) && s.readable > 0
    ensures var t := Resume(s, tear);
            && Surviving(t) == Surviving(s) && Unpurged(t, s.readable) == Unpurged(s, s.readable)
            && Unpurged(t, s.snap) == Unpurged(s, s.snap) && Unpurged(t, s.at) == Unpurged(s, s.at)
            && t.history == t.history[..s.readable]
  {
    var h := s.history[..s.readable];
    assert h[..s.readable] == h && h[..s.snap] == s.history[..s.snap] && h[..s.at] == s.history[..s.at];
  }

  lemma ResumePurgedEngine(s: Sys, tear: bool)
    requires Inv(s) && Exact(s) && Suspect(s) && s.readable > 0
    ensures var t := Resume(s, tear);
            IsRunning(t.turn) && Same(Purged, t.turn, Unpurged(t, t.at)) && t.live == Past(t, |t.history|)
  {
    var n := s.readable;
    OverlapExact(s);
    RecordedSoFar(s, n);
    KeptPrefix(s, tear);
    Coarser(Kept(s), Recovered(s), Unpurged(s, n));
    PurgedRuns(Recovered(s), Unpurged(s, n));
  }

  lemma ResumePurgedFiles(s: Sys, tear: bool)
    requires Inv(s) && Exact(s) && Suspect(s) && s.readable > 0
    ensures var t := Resume(s, tear);
            Recorded(t.base, t.history) && Same(Purged, t.snapshot, Unpurged(t, t.snap)) && Suspect(t)
  {
    RecordedSoFar(s, s.readable);
    KeptPrefix(s, tear);
    Coarser(Kept(s), s.snapshot, Unpurged(s, s.snap));
  }

  lemma ResumePurged(s: Sys, tear: bool)
    requires Inv(s) && Exact(s) && Suspect(s) && s.readable > 0
    ensures Inv(Resume(s, tear))
  {
    ResumePurgedEngine(s, tear);
    ResumePurgedFiles(s, tear);
  }

  lemma ResumeClean(s: Sys, tear: bool)
    requires Inv(s) && Exact(s) && s.clean && !Suspect(s) && s.readable > 0
    ensures Inv(Resume(s, tear))
  {
    OverlapExact(s);
    RecordedSoFar(s, s.readable);
    KeptPrefix(s, tear);
    assert s.history[..s.readable][0..] == s.history[..s.readable];
  }

  lemma ResumeKeeps(s: Sys, tear: bool)
    requires Inv(s) && Exact(s) && (s.clean || Suspect(s)) && s.readable > 0
    ensures Inv(Resume(s, tear))
  {
    if Suspect(s) {
      ResumePurged(s, tear);
    } else {
      ResumeClean(s, tear);
    }
  }

  lemma StepKeeps(s: Sys, ev: Event)
    requires Inv(s) && Enabled(s, ev)
    ensures Inv(Do(s, ev))
  {
    match ev {
      case Mutate(m) => MutateKeeps(s, m);
      case Refill(b) => RefillKeeps(s, b);
      case Enqueue(_) =>
      case Write(_) =>
      case Flush(n) => FlushKeeps(s, n);
      case ReplaceSnapshot => ReplaceKeeps(s);
      case Truncate => TruncateKeeps(s);
      case Restart(tear) =>
        if s.readable == 0 {
          ResumeEmptyKeeps(s, tear);
        } else {
          ResumeKeeps(s, tear);
        }
    }
  }

  lemma {:induction false} RunKeeps(s: Sys, events: seq<Event>, t: Sys)
    requires Inv(s) && Run(s, events, t)
    ensures Inv(t)
    decreases |events|
  {
    if events != [] {
      StepKeeps(s, events[0]);
      RunKeeps(Do(s, events[0]), events[1..], t);
    }
  }

  lemma BootInv(e: Engine)
    requires IsRunning(e)
    ensures Inv(Boot(e))
  {
  }

  /**
   Crash at any point of any run from a running engine, with earlier crashes, torn frames, purges and
   restarts in it.
   */
  lemma CrashRecoveryExact(e: Engine, events: seq<Event>, s: Sys)
    requires IsRunning(e) && Run(Boot(e), events, s) && Exact(s)
    ensures Same(Kept(s), Recovered(s), Past(s, Survived(s)))
    ensures Same(Purged, Recovered(s), Past(s, Survived(s)))
    ensures Same(Bindings(s), s.live, Past(s, |s.history|))
    ensures s.clean || Suspect(s) || s.rotating
  {
    BootInv(e);
    RunKeeps(Boot(e), events, s);
    RecoveredExact(s);
  }

  lemma EmptyRunning(window: int)
    requires window > 0
    ensures IsRunning(Empty(window))
  {
    var none: seq<Slot> := [];
    assert Names(none) == [];
    assert Running(Empty(window), none, Nil);
  }

  /** The same from the very first start, without any files. */
  lemma CrashAfterFirstStart(window: int, events: seq<Event>, s: Sys)
    requires window > 0 && Run(Boot(Empty(window)), events, s) && Exact(s)
    ensures Same(Kept(s), Recovered(s), Past(s, Survived(s)))
    ensures Same(Purged, Recovered(s), Past(s, Survived(s)))
    ensures Same(Bindings(s), s.live, Past(s, |s.history|))
    ensures s.clean || Suspect(s) || s.rotating
  {
    EmptyRunning(window);
    CrashRecoveryExact(Empty(window), events, s);
  }

  /** The final trim to a window that already fits changes nothing. */
  lemma FinishRunning(e: Engine, legacy: bool)
    requires e.window > 0 && |e.box.order| <= e.window
    ensures Finish(e, legacy, e.window) == if legacy then Purge(e) else e
  {
  }

  lemma LoadsBack(e: Engine, l: Engine)
    requires IsRunning(e) && Loaded(Export(e), l)
    ensures l == e
  {
    var slots, log :| Running(e, slots, log);
    SnapshotRoundTrip(e, log, l);
  }

  lemma FitsWindow(s: Sys)
    requires Inv(s) && Exact(s)
    ensures |Recovered(s).box.order| <= s.base.window
  {
    OverlapExact(s);
    RecordedSoFar(s, Survived(s));
    Coarser(Kept(s), Recovered(s), Unpurged(s, Survived(s)));
    var slots, log :| Running(Unpurged(s, Survived(s)), slots, log);
  }

  lemma StartUpIs(s: Sys, journal: seq<Record>, r: Engine)
    requires Inv(s) && |Recovered(s).box.order| <= s.base.window && Mutations(journal) == Surviving(s)
    requires StartsUp(Export(s.snapshot), journal, s.base.window, r)
    ensures r == StartUp(s)
  {
    var l :| Loaded(Export(s.snapshot), l) && l.window > 0 &&
             r == Finish(ReplayRecords(l, journal), LegacySeen(Export(s.snapshot), Mutations(journal)), s.base.window);
    LoadsBack(s.snapshot, l);
    GroupingIrrelevant(l, journal);
    FinishRunning(Recovered(s), Suspect(s));
  }

  lemma StartUpExact(s: Sys)
    requires Inv(s) && Exact(s)
    ensures Suspect(s) ==> StartUp(s) == Purge(Past(s, Survived(s)))
    ensures !Suspect(s) ==> Same(Kept(s), StartUp(s), Past(s, Survived(s)))
  {
    RecoveredExact(s);
  }

  /**
   The same through the real start-up: frames, rebuilt indexes, purge and final trim. It ends in the
   engine the run goes on with; if legacy user state is suspected that is the purge of the engine before
   the crash.
   */
  lemma StartUpAfterCrash(e: Engine, events: seq<Event>, s: Sys, journal: seq<Record>, r: Engine)
    requires IsRunning(e) && Run(Boot(e), events, s) && Exact(s)
    requires Mutations(journal) == Surviving(s)
    requires StartsUp(Export(s.snapshot), journal, s.base.window, r)
    ensures r == StartUp(s)
    ensures Suspect(s) ==> r == Purge(Past(s, Survived(s)))
    ensures !Suspect(s) ==> Same(Kept(s), r, Past(s, Survived(s)))
  {
    BootInv(e);
    RunKeeps(Boot(e), events, s);
    FitsWindow(s);
    StartUpIs(s, journal, r);
    StartUpExact(s);
  }
}
