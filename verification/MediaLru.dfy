/**
 Published media: an ordered dictionary of at most maxEntries tokens, least recently used first, and the
 dictionary from (bot, path) to token that mirrors it.

 A file is described by its stamp (size and modification time), None when it cannot be read. Tokens are
 random; a new one is taken to differ from every token issued before.
 */
module MediaLru {
  import opened Seqs

  type Token = string

  datatype Stamp = Stamp(size: int, mtime: int)

  datatype Key = Key(bot: string, path: string)

  datatype Entry = Entry(key: Key, filename: string, stamp: Stamp)

  const MINIMUM_ENTRIES := 128

  /** Token to entry and key to token are inverse to each other. */
  ghost predicate Mirrored(entries: map<Token, Entry>, tokens: map<Key, Token>) {
    && (forall t :: t in entries ==> entries[t].key in tokens && tokens[entries[t].key] == t)
    && (forall k :: k in tokens ==> tokens[k] in entries && entries[tokens[k]].key == k)
  }

  /** The order of an ordered dictionary lists its keys. */
  ghost predicate Ordered(order: seq<Token>, entries: map<Token, Entry>) {
    forall t {:trigger t in entries} :: t in order <==> t in entries
  }

  /** When a token was last published or resolved. */
  function UseOf(lastUse: map<Token, nat>, t: Token): int {
    if t in lastUse then lastUse[t] else -1
  }

  /** Least recently used first. */
  ghost predicate ByUse(order: seq<Token>, lastUse: map<Token, nat>, clock: nat) {
    && (forall i {:trigger UseOf(lastUse, order[i])} :: 0 <= i < |order| ==> 0 <= UseOf(lastUse, order[i]) < clock)
    && (forall i, j {:trigger UseOf(lastUse, order[i]), UseOf(lastUse, order[j])} ::
          0 <= i < j < |order| ==> UseOf(lastUse, order[i]) < UseOf(lastUse, order[j]))
  }

  lemma NoRepeats(order: seq<Token>, lastUse: map<Token, nat>, clock: nat)
    requires ByUse(order, lastUse, clock)
    ensures NoDup(order)
  {
    forall i, j | 0 <= i < j < |order|
      ensures order[i] != order[j]
    {
      assert UseOf(lastUse, order[i]) < UseOf(lastUse, order[j]);
    }
  }

  lemma {:induction false} RemoveFirstSplits(order: seq<Token>, t: Token) returns (i: nat)
    requires t in order
    ensures i < |order| && order[i] == t && RemoveFirst(order, t) == order[..i] + order[i + 1..]
  {
    if order[0] == t {
      i := 0;
    } else {
      var j := RemoveFirstSplits(order[1..], t);
      i := j + 1;
      assert order[..i] == [order[0]] + order[1..][..j];
    }
  }

  lemma Removed(order: seq<Token>, entries: map<Token, Entry>, lastUse: map<Token, nat>, clock: nat, t: Token)
    requires t in order && Ordered(order, entries) && ByUse(order, lastUse, clock)
    ensures Ordered(RemoveFirst(order, t), entries - {t}) && ByUse(RemoveFirst(order, t), lastUse, clock)
    ensures |RemoveFirst(order, t)| == |order| - 1 && t !in RemoveFirst(order, t)
  {
    NoRepeats(order, lastUse, clock);
    var i := RemoveFirstSplits(order, t);
    CutKeepsUse(order, lastUse, clock, i);
    CutMembers(order, i);
    forall x
      ensures x in order[..i] + order[i + 1..] <==> x in entries - {t}
    {
      assert x in order <==> x in entries;
    }
  }

  lemma CutKeepsUse(order: seq<Token>, lastUse: map<Token, nat>, clock: nat, i: nat)
    requires ByUse(order, lastUse, clock) && i < |order|
    ensures ByUse(order[..i] + order[i + 1..], lastUse, clock)
  {
    var left := order[..i] + order[i + 1..];
    forall k | 0 <= k < |left|
      ensures 0 <= UseOf(lastUse, left[k]) < clock
    {
      assert 0 <= UseOf(lastUse, order[if k < i then k else k + 1]) < clock;
    }
    forall j, k | 0 <= j < k < |left|
      ensures UseOf(lastUse, left[j]) < UseOf(lastUse, left[k])
    {
      assert UseOf(lastUse, order[if j < i then j else j + 1]) < UseOf(lastUse, order[if k < i then k else k + 1]);
    }
  }

  function Tokens(victims: seq<Token>): set<Token> {
    set v | v in victims
  }

  ghost predicate LeastRecentAll(victims: seq<Token>, lastUse: map<Token, nat>, maxEntries: nat) {
    forall v :: v in victims ==> exists others :: LeastRecent(v, others, lastUse, maxEntries)
  }

  lemma OneMoreVictim(victims: seq<Token>, v: Token, lastUse: map<Token, nat>, maxEntries: nat)
    requires LeastRecentAll(victims, lastUse, maxEntries) &&
             exists others :: LeastRecent(v, others, lastUse, maxEntries)
    ensures LeastRecentAll(victims + [v], lastUse, maxEntries) && Tokens(victims + [v]) == Tokens(victims) + {v}
  {
    assert forall t :: t in victims + [v] <==> t in victims || t == v;
  }

  lemma RemoveBoth(entries: map<Token, Entry>, gone: set<Token>, t: Token)
    ensures entries - gone - {t} == entries - (gone + {t})
  {
  }

  lemma MoveFirst(done: seq<Token>, t: Token, left: seq<Token>, all: seq<Token>)
    requires [t] + left == all
    ensures done + all == (done + [t]) + left
  {
  }

  /** What is left of a sequence after something was taken from its front still ends as it did. */
  lemma NewestStays(victims: seq<Token>, left: seq<Token>, all: seq<Token>)
    requires victims + left == all && left != []
    ensures Last(left) == Last(all) && Last(left) in left
  {
  }

  lemma CutMembers(order: seq<Token>, i: nat)
    requires NoDup(order) && i < |order|
    ensures forall x :: x in order[..i] + order[i + 1..] <==> x in order && x != order[i]
  {
    var left := order[..i] + order[i + 1..];
    forall x
      ensures x in left <==> x in order && x != order[i]
    {
      if x in left {
        var k :| 0 <= k < |left| && left[k] == x;
        assert order[if k < i then k else k + 1] == x;
      }
      if x in order && x != order[i] {
        var j :| 0 <= j < |order| && order[j] == x;
        assert left[if j < i then j else j - 1] == x;
      }
    }
  }

  lemma Used(order: seq<Token>, entries: map<Token, Entry>, lastUse: map<Token, nat>, clock: nat, t: Token, e: Entry)
    requires t !in order && Ordered(order, entries) && ByUse(order, lastUse, clock)
    ensures Ordered(order + [t], entries[t := e]) && ByUse(order + [t], lastUse[t := clock], clock + 1)
  {
    var longer, use := order + [t], lastUse[t := clock];
    forall x
      ensures x in longer <==> x in entries[t := e]
    {
      assert x in order <==> x in entries;
    }
    forall k | 0 <= k < |longer|
      ensures 0 <= UseOf(use, longer[k]) < clock + 1
    {
      if k < |order| {
        assert UseOf(lastUse, order[k]) < clock;
      }
    }
    forall j, k | 0 <= j < k < |longer|
      ensures UseOf(use, longer[j]) < UseOf(use, longer[k])
    {
      assert UseOf(lastUse, order[j]) < clock;
      if k < |order| {
        assert UseOf(lastUse, order[j]) < UseOf(lastUse, order[k]);
      }
    }
  }

  lemma MirrorRemove(entries: map<Token, Entry>, tokens: map<Key, Token>, t: Token)
    requires Mirrored(entries, tokens) && t in entries
    ensures Mirrored(entries - {t}, tokens - {entries[t].key})
  {
  }

  lemma MirrorAdd(entries: map<Token, Entry>, tokens: map<Key, Token>, t: Token, e: Entry)
    requires Mirrored(entries, tokens) && t !in entries && e.key !in tokens
    ensures Mirrored(entries[t := e], tokens[e.key := t])
  {
  }

  /** The tokens of a duplicate-free order are as many as its positions. */
  lemma {:induction false} DistinctTokens(order: seq<Token>)
    requires NoDup(order)
    ensures |(set t | t in order)| == |order|
  {
    if order != [] {
      var front := order[..|order| - 1];
      DistinctTokens(front);
      assert (set t | t in order) == (set t | t in front) + {Last(order)};
    }
  }

  /**
   Why a victim had to go: `others` are at least maxEntries tokens besides it that were published or
   resolved after its own last use.
   */
  ghost predicate LeastRecent(victim: Token, others: set<Token>, lastUse: map<Token, nat>, maxEntries: nat) {
    && |others| >= maxEntries && victim !in others
    && forall t :: t in others ==> UseOf(lastUse, victim) < UseOf(lastUse, t)
  }

  lemma OldestIsLeastRecent(order: seq<Token>, lastUse: map<Token, nat>, clock: nat, maxEntries: nat)
    requires ByUse(order, lastUse, clock) && |order| > maxEntries
    ensures LeastRecent(order[0], (set t | t in order[1..]), lastUse, maxEntries)
  {
    NoRepeats(order, lastUse, clock);
    DistinctTokens(order[1..]);
    forall t | t in order[1..]
      ensures UseOf(lastUse, order[0]) < UseOf(lastUse, t)
    {
      var i :| 0 <= i < |order| - 1 && order[1..][i] == t;
      assert order[i + 1] == t && UseOf(lastUse, order[0]) < UseOf(lastUse, order[i + 1]);
    }
  }

  class MediaPublicationService {
    const maxEntries: nat
    var order: seq<Token>
    var entries: map<Token, Entry>
    var tokensByPath: map<Key, Token>

    /** When each token was last published or resolved. */
    ghost var lastUse: map<Token, nat>
    ghost var clock: nat

    /** Every token ever issued. */
    ghost var issued: set<Token>

    ghost predicate Valid()
      reads this
    {
      Consistent() && |order| <= maxEntries && maxEntries >= MINIMUM_ENTRIES
    }

    ghost predicate Consistent()
      reads this`order, this`entries, this`tokensByPath, this`lastUse, this`clock, this`issued
    {
      && Ordered(order, entries) && ByUse(order, lastUse, clock) && Mirrored(entries, tokensByPath)
      && forall t :: t in entries ==> t in issued
    }

    constructor (maxEntries: int)
      ensures Valid() && entries == map[] && this.maxEntries == Max(MINIMUM_ENTRIES, maxEntries)
    {
      this.maxEntries := Max(MINIMUM_ENTRIES, maxEntries);
      order, entries, tokensByPath, lastUse, clock, issued := [], map[], map[], map[], 0, {};
    }

    /** _remove_token. */
    method RemoveToken(t: Token)
      requires Consistent()
      modifies this`order, this`entries, this`tokensByPath
      ensures Consistent() && entries == old(entries) - {t}
      ensures order == RemoveFirst(old(order), t) && |order| <= |old(order)|
      ensures t in old(entries) ==>
              tokensByPath == old(tokensByPath) - {old(entries)[t].key} && |order| == |old(order)| - 1
      ensures t !in old(entries) ==> tokensByPath == old(tokensByPath) && order == old(order)
    {
      if t !in entries {
        assert t !in order;
        RemoveFirstAbsent(order, t);
        return;
      }
      Removed(order, entries, lastUse, clock, t);
      MirrorRemove(entries, tokensByPath, t);
      var key := entries[t].key;
      order := RemoveFirst(order, t);
      entries := entries - {t};
      if key in tokensByPath && tokensByPath[key] == t {
        tokensByPath := tokensByPath - {key};
      }
    }

    /** move_to_end. */
    method Touch(t: Token)
      requires Consistent() && t in entries
      modifies this`order, this`lastUse, this`clock
      ensures Consistent() && order == RemoveFirst(old(order), t) + [t] && |order| == |old(order)|
      ensures lastUse == old(lastUse)[t := old(clock)]
    {
      Removed(order, entries, lastUse, clock, t);
      Used(RemoveFirst(order, t), entries - {t}, lastUse, clock, t, entries[t]);
      assert (entries - {t})[t := entries[t]] == entries;
      order := RemoveFirst(order, t) + [t];
      lastUse, clock := lastUse[t := clock], clock + 1;
    }

    method Insert(t: Token, e: Entry)
      requires Consistent() && t !in issued && e.key !in tokensByPath
      modifies this
      ensures Consistent() && order == old(order) + [t] && entries == old(entries)[t := e]
      ensures tokensByPath == old(tokensByPath)[e.key := t]
      ensures lastUse == old(lastUse)[t := old(clock)]
    {
      Used(order, entries, lastUse, clock, t, e);
      MirrorAdd(entries, tokensByPath, t, e);
      order := order + [t];
      entries := entries[t := e];
      tokensByPath := tokensByPath[e.key := t];
      lastUse, clock, issued := lastUse[t := clock], clock + 1, issued + {t};
    }

    /** popitem(last=False), with its path forgotten. */
    method EvictOldest() returns (oldest: Token)
      requires Consistent() && |order| > maxEntries
      modifies this`order, this`entries, this`tokensByPath
      ensures Consistent() && old(order) == [oldest] + order && entries == old(entries) - {oldest}
      ensures exists others :: LeastRecent(oldest, others, lastUse, maxEntries)
    {
      OldestIsLeastRecent(order, lastUse, clock, maxEntries);
      oldest := order[0];
      RemoveToken(oldest);
    }

    /** _evict_old_entries: the least recently used entries leave until the rest fits. */
    method EvictOldEntries() returns (ghost victims: seq<Token>)
      requires Consistent() && maxEntries >= MINIMUM_ENTRIES
      modifies this`order, this`entries, this`tokensByPath
      ensures Valid() && victims + order == old(order) && (victims != [] ==> |order| == maxEntries)
      ensures LeastRecentAll(victims, lastUse, maxEntries) && entries == old(entries) - Tokens(victims)
    {
      victims := [];
      while |order| > maxEntries
        invariant Consistent() && victims + order == old(order) && (victims != [] ==> |order| >= maxEntries)
        invariant LeastRecentAll(victims, lastUse, maxEntries) && entries == old(entries) - Tokens(victims)
        decreases |order|
      {
        ghost var before := order;
        var oldest := EvictOldest();
        MoveFirst(victims, oldest, order, before);
        OneMoreVictim(victims, oldest, lastUse, maxEntries);
        RemoveBoth(old(entries), Tokens(victims), oldest);
        victims := victims + [oldest];
      }
    }

    /**
     publish: the token under which the file can be fetched, or None if it cannot be read. A token that is
     still current is only used again; otherwise a new one takes the place of the path's old one, the least
     recently used tokens leave from the front, and all others stay as they are.
     */
    method Publish(bot: string, path: string, stamp: Option<Stamp>, filename: string, newToken: Token)
      returns (token: Option<Token>, ghost victims: seq<Token>)
      requires Valid() && newToken !in issued
      modifies this
      ensures Valid()
      ensures token.None? <==> stamp.None?
      ensures stamp.None? ==> entries == old(entries) && order == old(order)
      ensures var key := Key(bot, path);
              var current := key in old(tokensByPath) && stamp == Some(old(entries)[old(tokensByPath)[key]].stamp);
              && (current ==> token == Some(old(tokensByPath)[key]) && entries == old(entries) && victims == []
                              && order == RemoveFirst(old(order), token.value) + [token.value])
              && (!current && stamp.Some? ==>
                    && token == Some(newToken)
                    && victims + order == (if key in old(tokensByPath)
                                           then RemoveFirst(old(order), old(tokensByPath)[key])
                                           else old(order)) + [newToken]
                    && newToken in entries && entries[newToken] == Entry(key, filename, stamp.value))
      ensures LeastRecentAll(victims, lastUse, maxEntries) && forall v :: v in victims ==> v !in entries
      ensures forall t :: t in entries && t != newToken ==> t in old(entries) && entries[t] == old(entries)[t]
      ensures forall t :: t in old(entries) && t !in entries ==> t in victims || old(entries)[t].key == Key(bot, path)
    {
      victims := [];
      if stamp.None? {
        return None, victims;
      }
      var key := Key(bot, path);
      if key in tokensByPath && entries[tokensByPath[key]].stamp == stamp.value {
        var t := tokensByPath[key];
        Touch(t);
        return Some(t), victims;
      }
      victims := PublishNew(Entry(key, filename, stamp.value), newToken);
      token := Some(newToken);
    }

    /** A new token replaces the one the path may have had. */
    method PublishNew(e: Entry, newToken: Token) returns (ghost victims: seq<Token>)
      requires Valid() && newToken !in issued
      modifies this
      ensures Valid() && newToken in entries && entries[newToken] == e && order != [] && Last(order) == newToken
      ensures victims + order == (if e.key in old(tokensByPath)
                                  then RemoveFirst(old(order), old(tokensByPath)[e.key])
                                  else old(order)) + [newToken]
      ensures LeastRecentAll(victims, lastUse, maxEntries) && forall v :: v in victims ==> v !in entries
      ensures forall t :: t in entries && t != newToken ==> t in old(entries) && entries[t] == old(entries)[t]
      ensures forall t :: t in old(entries) && t !in entries ==> t in victims || old(entries)[t].key == e.key
    {
      if e.key in tokensByPath {
        RemoveToken(tokensByPath[e.key]);
      }
      Insert(newToken, e);
      ghost var all := order;
      victims := EvictOldEntries();
      NewestStays(victims, order, all);
    }

    /** resolve: a stale entry is dropped, a current one becomes the most recently used. */
    method Resolve(bot: string, t: Token, filename: string, stamp: Option<Stamp>) returns (e: Option<Entry>)
      requires Valid()
      modifies this`order, this`entries, this`tokensByPath, this`lastUse, this`clock
      ensures Valid()
      ensures e.Some? <==>
              t in old(entries) && old(entries)[t].key.bot == bot && old(entries)[t].filename == filename &&
                           stamp == Some(old(entries)[t].stamp)
      ensures e.Some? ==> e.value == old(entries)[t] && entries == old(entries) && Last(order) == t
      ensures e.Some? ==> order == RemoveFirst(old(order), t) + [t] && tokensByPath == old(tokensByPath)
      ensures e.None? ==>
                var stale := t in old(entries) && old(entries)[t].key.bot == bot &&
                             old(entries)[t].filename == filename;
                && entries == (if stale then old(entries) - {t} else old(entries))
                && order == (if stale then RemoveFirst(old(order), t) else old(order))
                && tokensByPath == (if stale then old(tokensByPath) - {old(entries)[t].key} else old(tokensByPath))
    {
      if t !in entries || entries[t].key.bot != bot || entries[t].filename != filename {
        return None;
      }
      if stamp != Some(entries[t].stamp) {
        RemoveToken(t);
        return None;
      }
      Touch(t);
      return Some(entries[t]);
    }

    /** invalidate_bot: nothing of the bot is left, everything else is. */
    method InvalidateBot(bot: string)
      requires Valid()
      modifies this`order, this`entries, this`tokensByPath
      ensures Valid()
      ensures forall t :: t in entries <==> t in old(entries) && old(entries)[t].key.bot != bot
      ensures forall t :: t in entries ==> entries[t] == old(entries)[t]
    {
      var all := order;
      var i := 0;
      while i < |all|
        invariant 0 <= i <= |all| && Valid()
        invariant entries == Spared(old(entries), all[..i], bot)
      {
        if all[i] in entries && entries[all[i]].key.bot == bot {
          RemoveToken(all[i]);
        }
        SparedNext(old(entries), all, i, bot);
        i := i + 1;
      }
      assert all[..i] == all;
      assert forall t :: t in old(entries) ==> t in all;
    }
  }

  /** The entries without those of the bot among some tokens. */
  function Spared(entries: map<Token, Entry>, seen: seq<Token>, bot: string): map<Token, Entry> {
    map t | t in entries && (entries[t].key.bot != bot || t !in seen) :: entries[t]
  }

  lemma SparedNext(entries: map<Token, Entry>, all: seq<Token>, i: nat, bot: string)
    requires i < |all|
    ensures var left := Spared(entries, all[..i], bot);
            Spared(entries, all[..i + 1], bot)
            == if all[i] in left && left[all[i]].key.bot == bot then left - {all[i]} else left
  {
    assert all[..i + 1] == all[..i] + [all[i]];
    assert forall t :: t in all[..i + 1] <==> t in all[..i] || t == all[i];
  }
}
