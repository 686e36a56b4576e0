/**
 Replaying room bindings over tables that already have them: last write wins for private rooms,
 and the timestamp guard for context rooms.
 */
module HotRooms {
  import opened HotState
  import opened HotSnapshot

  function ApplyRooms(r: Rooms, m: Mutation): Rooms {
    match m
    case PrivateBind(user, userSurrogate, room) => BindPrivate(r, user, userSurrogate, room)
    case ContextBind(c) => BindContext(r, c)
    case _ => r
  }

  function ReplayRooms(r: Rooms, ms: seq<Mutation>): Rooms
    decreases |ms|
  {
    if ms == [] then r else ReplayRooms(ApplyRooms(r, ms[0]), ms[1..])
  }

  /** A bind the engine has just made and recorded. */
  ghost predicate BindRecordable(r: Rooms, m: Mutation) {
    m.ContextBind? ==> Accepts(r, m.binding) && StableSurrogate(r, m.binding)
  }

  ghost predicate BindsRecorded(r: Rooms, ms: seq<Mutation>)
    decreases |ms|
  {
    ms == [] || (BindRecordable(r, ms[0]) && BindsRecorded(ApplyRooms(r, ms[0]), ms[1..]))
  }

  lemma {:induction false} RoomsAlone(e: Engine, ms: seq<Mutation>)
    requires e.window > 0
    ensures Replay(e, ms).rooms == ReplayRooms(e.rooms, ms)
    decreases |ms|
  {
    if ms != [] {
      RoomsAlone(Apply(e, ms[0]), ms[1..]);
    }
  }

  lemma BindStepKeepsIndex(r: Rooms, m: Mutation)
    requires ContextIndexed(r) && BindRecordable(r, m)
    ensures ContextIndexed(ApplyRooms(r, m))
  {
    if m.ContextBind? {
      StableBindKeepsIndex(r, m.binding);
    } else {
      var n := ApplyRooms(r, m);
      forall x | x in n.ctxBySource
        ensures ListedBySurrogate(n, n.ctxBySource[x]) && n.ctxBySource[x].context == x
      {
        assert ListedBySurrogate(r, r.ctxBySource[x]);
      }
      forall k | k in n.ctxBySurrogate
        ensures ListedBySource(n, n.ctxBySurrogate[k]) && n.ctxBySurrogate[k].surrogate == k
      {
        assert ListedBySource(r, r.ctxBySurrogate[k]);
      }
    }
  }

  // ---- private rooms ----

  /** What a run of binds leaves for each key it writes. */
  function UserWrites(ms: seq<Mutation>): map<Source, Source> {
    if ms == [] then map[]
    else (if ms[0].PrivateBind? then map[ms[0].user := ms[0].room] else map[]) + UserWrites(ms[1..])
  }

  function UserSurrogateWrites(ms: seq<Mutation>): map<int, Source> {
    if ms == [] then map[]
    else (if ms[0].PrivateBind? then map[ms[0].userSurrogate := ms[0].room] else map[]) + UserSurrogateWrites(ms[1..])
  }

  lemma PutThenMerge<K, V>(p: map<K, V>, k: K, v: V, w: map<K, V>)
    ensures p[k := v] + w == p + (map[k := v] + w)
  {
  }

  lemma {:induction false} UserRoomsAreWrites(r: Rooms, ms: seq<Mutation>)
    ensures ReplayRooms(r, ms).privBySource == r.privBySource + UserWrites(ms)
    decreases |ms|
  {
    if ms != [] {
      var m, w := ms[0], UserWrites(ms[1..]);
      UserRoomsAreWrites(ApplyRooms(r, m), ms[1..]);
      if m.PrivateBind? {
        PutThenMerge(r.privBySource, m.user, m.room, w);
      } else {
        assert map[] + w == w;
      }
    }
  }

  lemma {:induction false} UserSurrogateRoomsAreWrites(r: Rooms, ms: seq<Mutation>)
    ensures ReplayRooms(r, ms).privBySurrogate == r.privBySurrogate + UserSurrogateWrites(ms)
    decreases |ms|
  {
    if ms != [] {
      var m, w := ms[0], UserSurrogateWrites(ms[1..]);
      UserSurrogateRoomsAreWrites(ApplyRooms(r, m), ms[1..]);
      if m.PrivateBind? {
        PutThenMerge(r.privBySurrogate, m.userSurrogate, m.room, w);
      } else {
        assert map[] + w == w;
      }
    }
  }

  /** No key has two different values. */
  ghost predicate Agree<K(!new), V>(a: map<K, V>, b: map<K, V>) {
    forall k :: k in a && k in b ==> a[k] == b[k]
  }

  lemma MergeTwice<K(!new), V>(p: map<K, V>, a: map<K, V>, b: map<K, V>)
    ensures p + (a + b) + a == p + (a + b) <==> Agree(a, b)
    ensures p + a + a == p + a
  {
    var s, t := p + (a + b), p + (a + b) + a;
    forall u | u in a && u in b
      ensures t[u] == a[u] && s[u] == b[u]
    {
    }
    if Agree(a, b) {
      assert t == s;
    }
  }

  // ---- context rooms ----

  /** A bound context stays bound, under the same surrogate id. */
  lemma {:induction false} ContextStays(r: Rooms, ms: seq<Mutation>, x: Source)
    requires BindsRecorded(r, ms) && x in r.ctxBySource
    ensures var s := ReplayRooms(r, ms);
            x in s.ctxBySource && s.ctxBySource[x].surrogate == r.ctxBySource[x].surrogate
    decreases |ms|
  {
    if ms != [] {
      ContextStays(ApplyRooms(r, ms[0]), ms[1..], x);
    }
  }

  /** Per context, `t` holds either the final binding of `s` or what the live tables `l` hold now. */
  ghost predicate Between(l: Rooms, t: Rooms, s: Rooms) {
    && t.ctxBySource.Keys == s.ctxBySource.Keys
    && (forall x :: x in s.ctxBySource ==>
          && t.ctxBySource[x].surrogate == s.ctxBySource[x].surrogate
          && (t.ctxBySource[x] == s.ctxBySource[x] || (x in l.ctxBySource && t.ctxBySource[x] == l.ctxBySource[x])))
  }

  lemma BindStaysBetween(l: Rooms, t: Rooms, s: Rooms, c: ContextEntry)
    requires Between(l, t, s) && ContextIndexed(t) && ContextIndexed(s)
    requires Accepts(l, c) && c.surrogate != 0
    requires c.context in s.ctxBySource && s.ctxBySource[c.context].surrogate == c.surrogate
    ensures Between(BindContext(l, c), BindContext(t, c), s) && ContextIndexed(BindContext(t, c))
  {
    if Accepts(t, c) {
      assert ListedBySurrogate(t, t.ctxBySource[c.context]);
      StableBindKeepsIndex(t, c);
    }
  }

  lemma {:induction false} ContextsCatchUp(l: Rooms, t: Rooms, ms: seq<Mutation>)
    requires BindsRecorded(l, ms) && ContextIndexed(t) && ContextIndexed(ReplayRooms(l, ms))
    requires Between(l, t, ReplayRooms(l, ms))
    ensures ReplayRooms(t, ms).ctxBySource == ReplayRooms(l, ms).ctxBySource
    ensures ContextIndexed(ReplayRooms(t, ms))
    decreases |ms|
  {
    if ms != [] {
      var m := ms[0];
      var l', s := ApplyRooms(l, m), ReplayRooms(l, ms);
      if m.ContextBind? {
        ContextStays(l', ms[1..], m.binding.context);
        BindStaysBetween(l, t, s, m.binding);
      } else {
        BindStepKeepsIndex(t, m);
      }
      ContextsCatchUp(l', ApplyRooms(t, m), ms[1..]);
    }
  }

  lemma InverseUnique(a: Rooms, b: Rooms)
    requires ContextIndexed(a) && ContextIndexed(b) && a.ctxBySource == b.ctxBySource
    ensures a.ctxBySurrogate == b.ctxBySurrogate
  {
    forall k | k in a.ctxBySurrogate
      ensures k in b.ctxBySurrogate && b.ctxBySurrogate[k] == a.ctxBySurrogate[k]
    {
      assert ListedBySource(a, a.ctxBySurrogate[k]);
      assert ListedBySurrogate(b, b.ctxBySource[a.ctxBySurrogate[k].context]);
    }
    forall k | k in b.ctxBySurrogate
      ensures k in a.ctxBySurrogate
    {
      assert ListedBySource(b, b.ctxBySurrogate[k]);
      assert ListedBySurrogate(a, a.ctxBySource[b.ctxBySurrogate[k].context]);
    }
  }

  /**
   Replaying the binds that led to the captured tables changes nothing in them: private rooms because
   the last write wins, context rooms because a bind older than the one on record is refused and once
   one is accepted all later ones are, as they were live.
   */
  lemma RoomsReplayHarmless(r: Rooms, ms: seq<Mutation>)
    requires ContextIndexed(r) && ContextIndexed(ReplayRooms(r, ms)) && BindsRecorded(r, ms)
    ensures ReplayRooms(ReplayRooms(r, ms), ms) == ReplayRooms(r, ms)
  {
    var s := ReplayRooms(r, ms);
    var t := ReplayRooms(s, ms);
    ContextsCatchUp(r, s, ms);
    InverseUnique(s, t);
    UserRoomsAreWrites(r, ms);
    UserRoomsAreWrites(s, ms);
    UserSurrogateRoomsAreWrites(r, ms);
    UserSurrogateRoomsAreWrites(s, ms);
    MergeTwice(r.privBySource, UserWrites(ms), map[]);
    MergeTwice(r.privBySurrogate, UserSurrogateWrites(ms), map[]);
  }

  // ---- a journal that stops before the capture point ----

  /**
   Private rooms may then fall back to an older binding: replaying only the first part of the run over
   the captured tables is harmless exactly when the rest of the run wrote nothing new for the users, or
   for the surrogate ids, that part binds.
   */
  lemma ShortReplayOfPrivateRooms(r: Rooms, a: seq<Mutation>, b: seq<Mutation>)
    ensures var s := ReplayRooms(r, a + b);
            ReplayRooms(s, a).privBySource == s.privBySource <==> Agree(UserWrites(a), UserWrites(b))
    ensures var s := ReplayRooms(r, a + b);
            ReplayRooms(s, a).privBySurrogate == s.privBySurrogate
            <==> Agree(UserSurrogateWrites(a), UserSurrogateWrites(b))
  {
    ShortReplayByUser(r, a, b);
    ShortReplayBySurrogate(r, a, b);
  }

  lemma ShortReplayByUser(r: Rooms, a: seq<Mutation>, b: seq<Mutation>)
    ensures var s := ReplayRooms(r, a + b);
            ReplayRooms(s, a).privBySource == s.privBySource <==> Agree(UserWrites(a), UserWrites(b))
  {
    UserRoomsAreWrites(r, a + b);
    UserRoomsAreWrites(ReplayRooms(r, a + b), a);
    UserWritesAppend(a, b);
    MergeTwice(r.privBySource, UserWrites(a), UserWrites(b));
  }

  lemma ShortReplayBySurrogate(r: Rooms, a: seq<Mutation>, b: seq<Mutation>)
    ensures var s := ReplayRooms(r, a + b);
            ReplayRooms(s, a).privBySurrogate == s.privBySurrogate
            <==> Agree(UserSurrogateWrites(a), UserSurrogateWrites(b))
  {
    UserSurrogateRoomsAreWrites(r, a + b);
    UserSurrogateRoomsAreWrites(ReplayRooms(r, a + b), a);
    UserSurrogateWritesAppend(a, b);
    MergeTwice(r.privBySurrogate, UserSurrogateWrites(a), UserSurrogateWrites(b));
  }

  lemma MergeAssoc<K, V>(a: map<K, V>, b: map<K, V>, c: map<K, V>)
    ensures a + (b + c) == (a + b) + c
  {
  }

  lemma EmptyMerge<K, V>(a: map<K, V>)
    ensures map[] + a == a
  {
  }

  lemma {:induction false} UserWritesAppend(a: seq<Mutation>, b: seq<Mutation>)
    ensures UserWrites(a + b) == UserWrites(a) + UserWrites(b)
  {
    if a == [] {
      assert a + b == b;
      EmptyMerge(UserWrites(b));
    } else {
      assert (a + b)[1..] == a[1..] + b;
      UserWritesAppend(a[1..], b);
      var first := if a[0].PrivateBind? then map[a[0].user := a[0].room] else map[];
      MergeAssoc(first, UserWrites(a[1..]), UserWrites(b));
    }
  }

  lemma {:induction false} UserSurrogateWritesAppend(a: seq<Mutation>, b: seq<Mutation>)
    ensures UserSurrogateWrites(a + b) == UserSurrogateWrites(a) + UserSurrogateWrites(b)
  {
    if a == [] {
      assert a + b == b;
      EmptyMerge(UserSurrogateWrites(b));
    } else {
      assert (a + b)[1..] == a[1..] + b;
      UserSurrogateWritesAppend(a[1..], b);
      var first := if a[0].PrivateBind? then map[a[0].userSurrogate := a[0].room] else map[];
      MergeAssoc(first, UserSurrogateWrites(a[1..]), UserSurrogateWrites(b));
    }
  }

  lemma {:induction false} StaysBetween(l: Rooms, t: Rooms, a: seq<Mutation>, b: seq<Mutation>)
    requires BindsRecorded(l, a + b) && ContextIndexed(t) && ContextIndexed(ReplayRooms(l, a + b))
    requires Between(l, t, ReplayRooms(l, a + b))
    ensures Between(ReplayRooms(l, a), ReplayRooms(t, a), ReplayRooms(l, a + b))
    ensures ContextIndexed(ReplayRooms(t, a))
    decreases |a|
  {
    if a != [] {
      var m := a[0];
      var l', s := ApplyRooms(l, m), ReplayRooms(l, a + b);
      assert (a + b)[1..] == a[1..] + b;
      if m.ContextBind? {
        ContextStays(l', a[1..] + b, m.binding.context);
        BindStaysBetween(l, t, s, m.binding);
      } else {
        BindStepKeepsIndex(t, m);
      }
      StaysBetween(l', ApplyRooms(t, m), a[1..], b);
    }
  }

  /**
   Context rooms: no context is lost or changes its surrogate id, and each holds its captured binding or
   the one it had where the journal stops; both tables stay inverse.
   */
  lemma ShortReplayOfContextRooms(r: Rooms, a: seq<Mutation>, b: seq<Mutation>)
    requires ContextIndexed(r) && ContextIndexed(ReplayRooms(r, a + b)) && BindsRecorded(r, a + b)
    ensures var s := ReplayRooms(r, a + b);
            Between(ReplayRooms(r, a), ReplayRooms(s, a), s) && ContextIndexed(ReplayRooms(s, a))
  {
    StaysBetween(r, ReplayRooms(r, a + b), a, b);
  }
}
