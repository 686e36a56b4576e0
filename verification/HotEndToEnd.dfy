/**
 From the bytes of the journal file to the engine: the transition system of HotDurability, the frames of
 JournalFrames and the writer of JournalWriter put together.
 */
module HotEndToEnd {
  import opened HotState
  import opened HotJournal
  import opened HotSnapshot
  import opened HotRecovery
  import opened HotHistory
  import opened HotDurability
  import opened HotShortJournal
  import opened JournalFrames
  import opened JournalWriter

  lemma MutationsPrefix(rs: seq<Record>, k: nat, h: seq<Mutation>, n: nat)
    requires k <= |rs| && n <= |h| && Mutations(rs) == h[..n]
    ensures |Mutations(rs[..k])| <= n && Mutations(rs[..k]) == h[..|Mutations(rs[..k])|]
  {
    assert rs == rs[..k] + rs[k..];
    MutationsAppend(rs[..k], rs[k..]);
  }

  /** The frames of the journal file are those of everything written since the journal began. */
  predicate Holds(s: Sys, frames: seq<Record>)
    requires Placed(s)
  {
    Mutations(frames) == s.history[..s.written]
  }

  /** A crash that leaves what `read` says of these frames is one of the system. */
  lemma ReadIsFlush(e: Engine, events: seq<Event>, s: Sys, frames: seq<Record>, k: nat) returns (t: Sys)
    requires IsRunning(e) && Run(Boot(e), events, s) && !s.torn && Holds(s, frames) && k <= |frames|
    requires s.readable <= |Mutations(frames[..k])|
    ensures t == s.(readable := |Mutations(frames[..k])|) && Placed(t)
    ensures Run(Boot(e), events + [Flush(t.readable)], t) && Surviving(t) == Mutations(frames[..k])
  {
    MutationsPrefix(frames, k, s.history, s.written);
    t := Do(s, Flush(|Mutations(frames[..k])|));
    RunOne(s, Flush(t.readable));
    RunThrough(Boot(e), events, s, [Flush(t.readable)], t);
  }

  /**
   A crash cuts the journal file at any byte behind what has been flushed. The records wholly before the
   cut are read, and start-up over the last snapshot ends in the engine after the last of them, or after
   the capture if that is later; or in its purge, exactly when legacy user state is suspected. If the cut
   lies before the capture point it ends in what a short journal brings back.
   */
  lemma CutAnywhere(e: Engine, events: seq<Event>, s: Sys, c: Codec<Record>, frames: seq<Record>, cut: nat, r: Engine)
    returns (k: nat, t: Sys)
    requires IsRunning(e) && Run(Boot(e), events, s) && !s.torn && Holds(s, frames)
    requires Lawful(c, frames) && cut <= |Encode(c, frames)|
    requires s.readable <= |Mutations(Read(c, Encode(c, frames)[..cut]))|
    requires StartsUp(Export(s.snapshot), Read(c, Encode(c, frames)[..cut]), s.base.window, r)
    ensures k <= |frames| && |Encode(c, frames[..k])| <= cut && (k < |frames| ==> cut < |Encode(c, frames[..k + 1])|)
    ensures t == s.(readable := |Mutations(frames[..k])|) && Placed(t)
    ensures Exact(t) && Suspect(t) ==> r == Purge(Past(t, Survived(t)))
    ensures Exact(t) && !Suspect(t) ==> Same(Kept(t), r, Past(t, Survived(t)))
    ensures t.readable <= t.snap && |MessageSlots(t.history[..t.snap])| <= t.base.window ==> r == StartUp(t)
  {
    k := TornTail(c, frames, cut);
    t := ReadIsFlush(e, events, s, frames, k);
    if Exact(t) {
      StartUpAfterCrash(e, events + [Flush(t.readable)], t, frames[..k], r);
    }
    if t.readable <= t.snap && |MessageSlots(t.history[..t.snap])| <= t.base.window {
      StartUpShortJournal(e, events + [Flush(t.readable)], t, frames[..k], r);
    }
  }

  /**
   The same once an earlier crash has torn record k: whatever bytes were appended since and survive, if
   they do not complete it to a readable frame, start-up ends where the readable part does.
   */
  lemma CrashBehindTornFrame(e: Engine, events: seq<Event>, s: Sys, c: Codec<Record>, frames: seq<Record>, cut: nat,
                             k: nat, behind: seq<Byte>, r: Engine)
    requires IsRunning(e) && Run(Boot(e), events, s) && Exact(s) && Lawful(c, frames)
    requires k <= |frames| && |Encode(c, frames[..k])| <= cut <= |Encode(c, frames)|
    requires Mutations(frames[..k]) == Surviving(s)
    requires !Readable(c, Encode(c, frames)[|Encode(c, frames[..k])|..cut] + behind)
    requires StartsUp(Export(s.snapshot), Read(c, Encode(c, frames)[..cut] + behind), s.base.window, r)
    ensures Suspect(s) ==> r == Purge(Past(s, Survived(s)))
    ensures !Suspect(s) ==> Same(Kept(s), r, Past(s, Survived(s)))
  {
    ReadStopsAtTear(c, frames, cut, k, behind);
    StartUpAfterCrash(e, events, s, frames[..k], r);
  }

  lemma Prefixes(a: seq<Mutation>, b: seq<Mutation>, c: seq<Mutation>, all: seq<Mutation>)
    requires a + b <= all
    ensures b == all[|a|..|a + b|] && c + (a + b) == (c + all)[..|c| + |a + b|]
  {
  }

  /**
   The file of a writer session: frames an earlier session left, unless the journal has been truncated
   since, and those this session wrote after that. They hold a prefix of the history since the journal
   began, as much of it as the writer has processed.
   */
  lemma FileOfWriter(earlier: seq<Record>, processed: seq<Item>, enqueued: seq<Item>, written: seq<Record>,
                     rotated: nat,
                     session: seq<Mutation>)
    requires processed <= enqueued && Mutations(written) == Content(processed) && rotated <= |written|
    requires Content(enqueued) <= session
    ensures var n, gone := |Content(processed)|, |Mutations(written[..rotated])|;
            && gone <= n <= |session| && Mutations(written[rotated..]) == session[gone..n]
            && Mutations(earlier + written) == (Mutations(earlier) + session)[..|Mutations(earlier)| + n]
  {
    ProcessedPrefix(processed, enqueued, session);
    assert written == written[..rotated] + written[rotated..];
    MutationsAppend(written[..rotated], written[rotated..]);
    MutationsAppend(earlier, written);
    Prefixes(Mutations(written[..rotated]), Mutations(written[rotated..]), Mutations(earlier), session);
  }

  lemma ProcessedPrefix(processed: seq<Item>, enqueued: seq<Item>, session: seq<Mutation>)
    requires processed <= enqueued && Content(enqueued) <= session
    ensures Content(processed) <= session
  {
    ContentPrefix(enqueued, |processed|);
    assert enqueued[..|processed|] == processed;
    PrefixOfPrefix(Content(processed), Content(enqueued), session);
  }

  lemma PrefixOfPrefix(a: seq<Mutation>, b: seq<Mutation>, c: seq<Mutation>)
    requires a <= b <= c
    ensures a <= c
  {
  }
}
