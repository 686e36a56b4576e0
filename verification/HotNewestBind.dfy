/**
 Which binding of a context room wins: one bind against the binding on record, and any run of binds.
 */
module HotNewestBind {
  import opened HotState
  import opened HotRooms

  /**
   A bind loses only to a binding on record that is strictly newer, one without a timestamp counting as
   timestamp 0; a bind without a timestamp always wins. The tables of other contexts are not touched.
   */
  lemma BindContextWins(r: Rooms, c: ContextEntry)
    requires c.context in r.ctxBySource
    ensures var had, n := r.ctxBySource[c.context], BindContext(r, c);
            var older := c.timestamp.Some? &&
                         if had.timestamp.Some? then c.timestamp.value < had.timestamp.value else c.timestamp.value < 0;
            && n.ctxBySource == r.ctxBySource[c.context := if older then had else c]
            && n.ctxBySurrogate == (if older then r.ctxBySurrogate else r.ctxBySurrogate[c.surrogate := c])
            && n.privBySource == r.privBySource && n.privBySurrogate == r.privBySurrogate
  {
    assert r.ctxBySource[c.context := r.ctxBySource[c.context]] == r.ctxBySource;
  }

  lemma FirstBindWins(r: Rooms, c: ContextEntry)
    requires c.context !in r.ctxBySource
    ensures BindContext(r, c) == r.(ctxBySource := r.ctxBySource[c.context := c],
                                    ctxBySurrogate := r.ctxBySurrogate[c.surrogate := c])
  {
  }

  /** c has no timestamp, or one that is at least that of had, 0 if had has none. */
  predicate AsNew(c: ContextEntry, had: ContextEntry) {
    c.timestamp.Some? ==> (if had.timestamp.Some? then had.timestamp.value else 0) <= c.timestamp.value
  }

  predicate Binds(m: Mutation, x: Source) {
    m.ContextBind? && m.binding.context == x
  }

  /** The binds of x from j to i, excluded, all carry timestamps. */
  predicate TimedFrom(ms: seq<Mutation>, x: Source, j: nat, i: nat)
    requires i <= |ms|
  {
    forall k :: j <= k < i && Binds(ms[k], x) ==> ms[k].binding.timestamp.Some?
  }

  /**
   The i-th mutation binds x and stands at the end: no later bind of x is as new, and it is as new as the
   earlier ones, back to the last without a timestamp.
   */
  ghost predicate Stands(ms: seq<Mutation>, x: Source, i: nat) {
    && i < |ms| && Binds(ms[i], x)
    && (forall j :: i < j < |ms| && Binds(ms[j], x) ==> !AsNew(ms[j].binding, ms[i].binding))
    && (forall j :: 0 <= j < i && Binds(ms[j], x) && TimedFrom(ms, x, j + 1, i) ==>
          AsNew(ms[i].binding, ms[j].binding))
  }

  lemma {:induction false} ReplayRoomsSnoc(r: Rooms, ms: seq<Mutation>, m: Mutation)
    ensures ReplayRooms(r, ms + [m]) == ApplyRooms(ReplayRooms(r, ms), m)
    decreases |ms|
  {
    if ms == [] {
      assert [m][1..] == [];
      assert [] + [m] == [m];
    } else {
      assert (ms + [m])[1..] == ms[1..] + [m];
      ReplayRoomsSnoc(ApplyRooms(r, ms[0]), ms[1..], m);
    }
  }

  lemma TimedSoFar(ms: seq<Mutation>, m: Mutation, x: Source, j: nat, i: nat)
    requires i <= |ms| && TimedFrom(ms + [m], x, j, i)
    ensures TimedFrom(ms, x, j, i)
  {
    assert forall k :: 0 <= k < |ms| ==> (ms + [m])[k] == ms[k];
  }

  /** The bind that stood still does, behind a mutation that does not bind x or is not as new. */
  lemma StillStands(ms: seq<Mutation>, m: Mutation, x: Source, i: nat)
    requires Stands(ms, x, i) && (Binds(m, x) ==> !AsNew(m.binding, ms[i].binding))
    ensures Stands(ms + [m], x, i)
  {
    var all := ms + [m];
    forall j | 0 <= j < i && Binds(all[j], x) && TimedFrom(all, x, j + 1, i)
      ensures AsNew(all[i].binding, all[j].binding)
    {
      TimedSoFar(ms, m, x, j + 1, i);
    }
  }

  /** A bind that is as new takes the place of the one that stood. */
  lemma TakesOver(ms: seq<Mutation>, m: Mutation, x: Source, i: nat)
    requires Stands(ms, x, i) && Binds(m, x) && AsNew(m.binding, ms[i].binding)
    ensures Stands(ms + [m], x, |ms|)
  {
    var all := ms + [m];
    forall j | 0 <= j < |ms| && Binds(all[j], x) && TimedFrom(all, x, j + 1, |ms|)
      ensures AsNew(m.binding, all[j].binding)
    {
      if j < i {
        assert all[i] == ms[i] && Binds(all[i], x);
        TimedSoFar(ms, m, x, j + 1, i);
      }
    }
  }

  lemma StandsFirst(ms: seq<Mutation>, m: Mutation, x: Source)
    requires Binds(m, x) && forall j :: 0 <= j < |ms| ==> !Binds(ms[j], x)
    ensures Stands(ms + [m], x, |ms|)
  {
    assert forall j :: 0 <= j < |ms| ==> (ms + [m])[j] == ms[j];
  }

  /** t holds for x the bind that stands among ms, if there is any. */
  ghost predicate HoldsNewest(t: Rooms, ms: seq<Mutation>, x: Source, i: nat) {
    && (x in t.ctxBySource <==> exists j :: 0 <= j < |ms| && Binds(ms[j], x))
    && (x in t.ctxBySource ==> Stands(ms, x, i) && t.ctxBySource[x] == ms[i].binding)
  }

  lemma NextStands(t: Rooms, ms: seq<Mutation>, m: Mutation, x: Source, i: nat) returns (k: nat)
    requires HoldsNewest(t, ms, x, i)
    ensures HoldsNewest(ApplyRooms(t, m), ms + [m], x, k)
  {
    var all := ms + [m];
    assert forall j :: 0 <= j < |ms| ==> all[j] == ms[j];
    k := i;
    if Binds(m, x) {
      assert Binds(all[|ms|], x);
      if x !in t.ctxBySource {
        k := |ms|;
        StandsFirst(ms, m, x);
      } else if AsNew(m.binding, ms[i].binding) {
        k := |ms|;
        TakesOver(ms, m, x, i);
      } else {
        StillStands(ms, m, x, i);
      }
    } else if x in t.ctxBySource {
      StillStands(ms, m, x, i);
      assert Binds(all[i], x);
    }
  }

  /**
   Over any run of mutations, from tables without the context: it is bound at the end exactly if some
   mutation binds it, and then by the bind that stands.
   */
  lemma {:induction false} NewestBindStands(r: Rooms, ms: seq<Mutation>, x: Source) returns (i: nat)
    requires x !in r.ctxBySource
    ensures HoldsNewest(ReplayRooms(r, ms), ms, x, i)
    decreases |ms|
  {
    i := 0;
    if ms != [] {
      var front, m := ms[..|ms| - 1], ms[|ms| - 1];
      assert ms == front + [m];
      i := NewestBindStands(r, front, x);
      ReplayRoomsSnoc(r, front, m);
      i := NextStands(ReplayRooms(r, front), front, m, x, i);
    }
  }

  /** If all binds of x carry timestamps, the last one among those with the greatest is in the table. */
  lemma GreatestTimestampWins(r: Rooms, ms: seq<Mutation>, x: Source) returns (i: nat)
    requires x !in r.ctxBySource && (exists j :: 0 <= j < |ms| && Binds(ms[j], x))
    requires forall j :: 0 <= j < |ms| && Binds(ms[j], x) ==> ms[j].binding.timestamp.Some?
    ensures i < |ms| && Binds(ms[i], x)
    ensures x in ReplayRooms(r, ms).ctxBySource && ReplayRooms(r, ms).ctxBySource[x] == ms[i].binding
    ensures forall j :: 0 <= j < |ms| && Binds(ms[j], x) ==>
              && ms[j].binding.timestamp.value <= ms[i].binding.timestamp.value
              && (i < j ==> ms[j].binding.timestamp.value < ms[i].binding.timestamp.value)
  {
    i := NewestBindStands(r, ms, x);
    forall j | 0 <= j < i && Binds(ms[j], x)
      ensures TimedFrom(ms, x, j + 1, i)
    {
    }
  }

  /** A bind without a timestamp wins over whatever came before. */
  lemma UntimedBindWins(r: Rooms, ms: seq<Mutation>, c: ContextEntry)
    requires c.timestamp.None?
    ensures var t := ReplayRooms(r, ms + [ContextBind(c)]).ctxBySource;
            c.context in t && t[c.context] == c
  {
    ReplayRoomsSnoc(r, ms, ContextBind(c));
  }
}
