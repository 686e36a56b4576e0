/**
 parse_forward_nodes as the source runs it: recursive calls that append to one shared list, and a buffer
 of pending segments that is emptied before every nested node. A false result stands for ValueError.
 */
module ForwardParser {
  import opened Seqs
  import opened ForwardFlatten

  class Result {
    var items: seq<Item>

    constructor ()
      ensures items == []
    {
      items := [];
    }
  }

  /** The dictionary _validate_segment returns. */
  function AsValue(s: Segment): Value {
    Obj(s.kind, s.data, Absent, Absent, "", "")
  }

  /** Validating a validated segment changes nothing. */
  lemma Revalidated(v: Value)
    requires Validate(v).Some?
    ensures Validate(AsValue(Validate(v).value)) == Validate(v)
  {
  }

  /** A valid, flat element and what is buffered for it. */
  predicate Buffered(p: Value, v: Value) {
    !IsNode(v) && !HasMessages(v) && Validate(v).Some? && p == AsValue(Validate(v).value)
  }

  /** The buffer holds the valid, flat elements that were met since it was last emptied. */
  predicate Buffers(pending: seq<Value>, run: seq<Value>) {
    |pending| == |run| &&
    forall i {:trigger Buffered(pending[i], run[i])} :: 0 <= i < |run| ==> Buffered(pending[i], run[i])
  }

  lemma {:induction false} BufferedRun(pending: seq<Value>, run: seq<Value>)
    requires Buffers(pending, run)
    ensures ValidateAll(pending) == ValidateAll(run) && ValidateAll(run).Some?
  {
    if run != [] {
      assert Buffered(pending[0], run[0]);
      Revalidated(run[0]);
      forall i | 0 <= i < |run| - 1
        ensures Buffered(pending[1..][i], run[1..][i])
      {
        assert Buffered(pending[i + 1], run[i + 1]);
      }
      BufferedRun(pending[1..], run[1..]);
    }
  }

  lemma {:induction false} PlainRun(vs: seq<Value>, j: nat)
    requires j <= |vs| && forall i :: 0 <= i < j ==> !IsNode(vs[i]) && !HasMessages(vs[i])
    requires j < |vs| ==> IsNode(vs[j]) || HasMessages(vs[j])
    ensures RunLength(vs) == j
  {
    if j > 0 {
      PlainRun(vs[1..], j - 1);
    }
  }

  function Nested(cq: string -> seq<Value>, v: Value, k: nat): Option<seq<Item>>
    requires IsNode(v) || HasMessages(v)
  {
    if IsNode(v) then NodeItems(cq, v, k) else NestedItems(cq, v, k)
  }

  function Flushed(pending: seq<Value>, k: nat): Option<seq<Item>> {
    if pending == [] then Some([]) else RunItem(pending, k)
  }

  /** From `start` on the first elements are the buffered ones. */
  lemma PlainFrom(vs: seq<Value>, start: nat, i: nat, pending: seq<Value>)
    requires start <= i <= |vs| && Buffers(pending, vs[start..i])
    ensures vs[start..][..i - start] == vs[start..i] && |pending| == i - start
    ensures forall n {:trigger vs[start..][n]} :: 0 <= n < i - start ==>
              !IsNode(vs[start..][n]) && !HasMessages(vs[start..][n])
  {
    forall n | 0 <= n < i - start
      ensures !IsNode(vs[start..][n]) && !HasMessages(vs[start..][n])
    {
      assert vs[start..][n] == vs[start..i][n];
      assert Buffered(pending[n], vs[start..i][n]);
    }
  }

  /** From `start` on there are exactly the buffered elements, up to a nested one at i or to the end. */
  lemma RunFrom(vs: seq<Value>, start: nat, i: nat, pending: seq<Value>)
    requires start <= i <= |vs| && Buffers(pending, vs[start..i])
    requires i < |vs| ==> IsNode(vs[i]) || HasMessages(vs[i])
    ensures RunLength(vs[start..]) == i - start == |pending|
    ensures ValidateAll(pending) == ValidateAll(vs[start..][..i - start]) && ValidateAll(pending).Some?
  {
    PlainFrom(vs, start, i, pending);
    BufferedRun(pending, vs[start..i]);
    PlainRun(vs[start..], i - start);
  }

  lemma NestedAt(vs: seq<Value>, start: nat, i: nat)
    requires start <= i < |vs|
    ensures vs[start..][i - start] == vs[i] && vs[start..][i - start + 1..] == vs[i + 1..]
  {
  }

  lemma MixedEnd(cq: string -> seq<Value>, vs: seq<Value>, start: nat, pending: seq<Value>, k: nat)
    requires start <= |vs| && Buffers(pending, vs[start..|vs|])
    ensures MixedItems(cq, vs[start..], k) == Flushed(pending, k)
  {
    RunFrom(vs, start, |vs|, pending);
  }

  lemma MixedNested(cq: string -> seq<Value>, vs: seq<Value>, start: nat, i: nat, pending: seq<Value>, k: nat)
    requires start <= i < |vs| && Buffers(pending, vs[start..i]) && (IsNode(vs[i]) || HasMessages(vs[i]))
    ensures MixedItems(cq, vs[start..], k)
            == Both(Both(Flushed(pending, k), Nested(cq, vs[i], k)), MixedItems(cq, vs[i + 1..], k))
  {
    RunFrom(vs, start, i, pending);
    NestedAt(vs, start, i);
  }

  /** An invalid segment spoils the list it is in. */
  lemma {:induction false} InvalidSpoilsRun(vs: seq<Value>, n: nat)
    requires n < |vs| && Validate(vs[n]).None?
    ensures ValidateAll(vs).None?
  {
    if n > 0 {
      InvalidSpoilsRun(vs[1..], n - 1);
    }
  }

  lemma {:induction false} RunAtLeast(vs: seq<Value>, n: nat)
    requires n <= |vs| && forall i :: 0 <= i < n ==> !IsNode(vs[i]) && !HasMessages(vs[i])
    ensures RunLength(vs) >= n
  {
    if n > 0 {
      RunAtLeast(vs[1..], n - 1);
    }
  }

  lemma MixedInvalid(cq: string -> seq<Value>, vs: seq<Value>, start: nat, i: nat, pending: seq<Value>, k: nat)
    requires start <= i < |vs| && !IsNode(vs[i]) && !HasMessages(vs[i]) && Validate(vs[i]).None?
    requires Buffers(pending, vs[start..i])
    ensures MixedItems(cq, vs[start..], k).None?
  {
    var rest := vs[start..];
    PlainFrom(vs, start, i, pending);
    RunAtLeast(rest, i - start + 1);
    InvalidSpoilsRun(rest[..RunLength(rest)], i - start);
  }

  /** _append_segments. */
  method AppendSegments(segments: seq<Value>, k: nat, result: Result) returns (ok: bool)
    modifies result
    ensures ok <==> RunItem(segments, k).Some?
    ensures ok ==> result.items == old(result.items) + RunItem(segments, k).value
  {
    var validated: seq<Segment> := [];
    var i := 0;
    while i < |segments|
      invariant 0 <= i <= |segments| && result.items == old(result.items)
      invariant ValidateAll(segments[..i]) == Some(validated)
    {
      match Validate(segments[i]) {
        case None =>
          InvalidSpoilsRun(segments, i);
          return false;
        case Some(s) =>
          ValidatedSnoc(segments[..i], segments[i]);
          assert segments[..i + 1] == segments[..i] + [segments[i]];
          validated := validated + [s];
      }
      i := i + 1;
    }
    assert segments[..i] == segments;
    if validated == [] {
      return false;
    }
    result.items := result.items + [Run(k, validated)];
    return true;
  }

  lemma {:induction false} ValidatedSnoc(vs: seq<Value>, v: Value)
    requires ValidateAll(vs).Some? && Validate(v).Some?
    ensures ValidateAll(vs + [v]) == Some(ValidateAll(vs).value + [Validate(v).value])
  {
    if vs == [] {
      assert vs + [v] == [v];
      assert [v][1..] == [];
      assert [Validate(v).value] + [] == [] + [Validate(v).value];
    } else {
      assert (vs + [v])[1..] == vs[1..] + [v];
      ValidatedSnoc(vs[1..], v);
      var first, rest := Validate(vs[0]).value, ValidateAll(vs[1..]).value;
      assert [first] + (rest + [Validate(v).value]) == [first] + rest + [Validate(v).value];
    }
  }

  lemma BothNone(a: Option<seq<Item>>, b: Option<seq<Item>>, c: Option<seq<Item>>)
    ensures Both(Both(a, b), c) == Both(a, Both(b, c))
  {
    if a.Some? && b.Some? && c.Some? {
      assert a.value + b.value + c.value == a.value + (b.value + c.value);
    }
  }

  lemma EmptyBoth(a: Option<seq<Item>>)
    ensures Both(Some([]), a) == a
  {
    if a.Some? {
      assert [] + a.value == a.value;
    }
  }

  /** _expand_node. */
  method ExpandNode(cq: string -> seq<Value>, node: Value, k: nat, result: Result) returns (ok: bool)
    requires IsNode(node)
    modifies result
    ensures ok <==> NodeItems(cq, node, k).Some?
    ensures ok ==> result.items == old(result.items) + NodeItems(cq, node, k).value
    decreases Size(node), 0
  {
    if !node.data.Obj? {
      return false;
    }
    if node.data.id != "" {
      result.items := result.items + [Reference(k, node.data.id)];
      return true;
    }
    var body := Body(node.data);
    if body == Absent || body == Null {
      return false;
    }
    var before := |result.items|;
    ok := ExpandContent(cq, body, k, result);
    if ok && |result.items| == before {
      ok := false;
    }
  }

  method ExpandNodes(cq: string -> seq<Value>, nodes: seq<Value>, k: nat, result: Result) returns (ok: bool)
    requires AllNodes(nodes)
    modifies result
    ensures ok <==> NodesItems(cq, nodes, k).Some?
    ensures ok ==> result.items == old(result.items) + NodesItems(cq, nodes, k).value
    decreases SizeAll(nodes), 1
  {
    if nodes == [] {
      return true;
    }
    ok := ExpandNode(cq, nodes[0], k, result);
    if ok {
      ghost var first := NodeItems(cq, nodes[0], k).value;
      ok := ExpandNodes(cq, nodes[1..], k, result);
      if ok {
        assert old(result.items) + first + NodesItems(cq, nodes[1..], k).value ==
               old(result.items) + (first + NodesItems(cq, nodes[1..], k).value);
      }
    }
  }

  method ExpandNested(cq: string -> seq<Value>, v: Value, k: nat, result: Result) returns (ok: bool)
    requires HasMessages(v)
    modifies result
    ensures ok <==> NestedItems(cq, v, k).Some?
    ensures ok ==> result.items == old(result.items) + NestedItems(cq, v, k).value
    decreases Size(v), 2
  {
    match Unwrap(v) {
      case None => return false;
      case Some(nodes) =>
        if nodes == [] || exists i :: 0 <= i < |nodes| && !IsNode(nodes[i]) {
          return false;
        }
        ok := ExpandNodes(cq, nodes, k, result);
    }
  }

  /** _expand_content. */
  method ExpandContent(cq: string -> seq<Value>, c: Value, k: nat, result: Result) returns (ok: bool)
    modifies result
    ensures ok <==> ContentItems(cq, c, k).Some?
    ensures ok ==> result.items == old(result.items) + ContentItems(cq, c, k).value
    decreases Size(c), 3
  {
    if HasMessages(c) {
      ok := ExpandNested(cq, c, k, result);
    } else if IsNode(c) {
      ok := ExpandNode(cq, c, k, result);
    } else {
      match c {
        case Str(text) => ok := AppendSegments(cq(text), k, result);
        case Obj(_, _, _, _, _, _) => ok := AppendSegments([c], k, result);
        case List(items) =>
          if items == [] {
            return false;
          }
          if forall i :: 0 <= i < |items| ==> IsNode(items[i]) {
            ok := ExpandNodes(cq, items, k, result);
          } else if exists i :: 0 <= i < |items| && ContainsNode(items[i]) {
            ok := ExpandMixed(cq, items, k, result);
          } else {
            ok := AppendSegments(items, k, result);
          }
        case _ => return false;
      }
    }
  }

  /** Empty the buffer, then expand the nested element that follows it. */
  method FlushAndExpand(cq: string -> seq<Value>, pending: seq<Value>, item: Value, k: nat,
      result: Result) returns (ok: bool)
    requires IsNode(item) || HasMessages(item)
    modifies result
    ensures ok <==> Both(Flushed(pending, k), Nested(cq, item, k)).Some?
    ensures ok ==> result.items == old(result.items) + Both(Flushed(pending, k), Nested(cq, item, k)).value
    decreases Size(item), 3
  {
    ok := true;
    if pending != [] {
      ok := AppendSegments(pending, k, result);
    }
    if !ok {
      return;
    }
    if IsNode(item) {
      ok := ExpandNode(cq, item, k, result);
    } else {
      ok := ExpandNested(cq, item, k, result);
    }
    if ok {
      Reassociate(old(result.items), Flushed(pending, k).value, Nested(cq, item, k).value);
    }
  }

  /** A flat element of a mixed list goes into the buffer if it is a valid segment. */
  method Buffer(pending: seq<Value>, vs: seq<Value>, i: nat, ghost start: nat) returns (ok: bool, buffered: seq<Value>)
    requires start <= i < |vs| && !IsNode(vs[i]) && !HasMessages(vs[i]) && Buffers(pending, vs[start..i])
    ensures ok <==> Validate(vs[i]).Some?
    ensures ok ==> Buffers(buffered, vs[start..i + 1])
  {
    ok, buffered := Validate(vs[i]).Some?, pending;
    if ok {
      BufferSnoc(pending, vs, start, i);
      buffered := pending + [AsValue(Validate(vs[i]).value)];
    }
  }

  lemma NothingBuffered(vs: seq<Value>, i: nat)
    requires i <= |vs|
    ensures Buffers([], vs[i..i])
  {
  }

  lemma SizeInside(vs: seq<Value>, i: nat)
    requires i < |vs|
    ensures Size(vs[i]) < SizeAll(vs)
  {
    SizeSplit(vs, i);
  }

  /** A nested element of a mixed list: what was buffered before it, and what it holds. */
  method ExpandNestedElement(cq: string -> seq<Value>, vs: seq<Value>, i: nat, k: nat, pending: seq<Value>,
                             result: Result, ghost start: nat, ghost done: seq<Item>, ghost before: seq<Item>)
    returns (ok: bool, ghost more: seq<Item>)
    requires start <= i < |vs| && Buffers(pending, vs[start..i]) && (IsNode(vs[i]) || HasMessages(vs[i]))
    requires Midway(cq, vs, k, start, done) && result.items == before + done
    modifies result
    ensures ok ==> Midway(cq, vs, k, i + 1, done + more) && result.items == before + (done + more)
    ensures !ok ==> MixedItems(cq, vs, k).None?
    decreases Size(vs[i]), 4
  {
    ghost var step := Both(Flushed(pending, k), Nested(cq, vs[i], k));
    MidStep(cq, vs, k, start, done, i, pending);
    ok := FlushAndExpand(cq, pending, vs[i], k, result);
    if ok {
      more := step.value;
      Reassociate(before, done, more);
    } else {
      more := [];
    }
  }

  /** The loop has come to element i of a mixed list. */
  ghost predicate Reached(cq: string -> seq<Value>, vs: seq<Value>, k: nat, i: nat, start: nat, pending: seq<Value>,
                          done: seq<Item>)
  {
    start <= i <= |vs| && Buffers(pending, vs[start..i]) && Midway(cq, vs, k, start, done)
  }

  /** One element of a mixed list. */
  method ExpandElement(cq: string -> seq<Value>, vs: seq<Value>, i: nat, k: nat, pending: seq<Value>,
                       result: Result, ghost start: nat, ghost done: seq<Item>, ghost before: seq<Item>)
    returns (ok: bool, buffered: seq<Value>, ghost next: nat, ghost more: seq<Item>)
    requires i < |vs| && Reached(cq, vs, k, i, start, pending, done) && result.items == before + done
    modifies result
    ensures ok ==> Reached(cq, vs, k, i + 1, next, buffered, more) && result.items == before + more
    ensures !ok ==> MixedItems(cq, vs, k).None?
    decreases Size(vs[i]), 5
  {
    buffered, next, more := [], i + 1, [];
    if IsNode(vs[i]) || HasMessages(vs[i]) {
      ghost var step;
      ok, step := ExpandNestedElement(cq, vs, i, k, pending, result, start, done, before);
      NothingBuffered(vs, i + 1);
      more := done + step;
    } else {
      ok, buffered := Buffer(pending, vs, i, start);
      next, more := start, done;
      if !ok {
        MixedInvalid(cq, vs, start, i, pending, k);
      }
    }
  }

  /** The loop over a list that mixes segments and nested nodes. */
  method ExpandElements(cq: string -> seq<Value>, vs: seq<Value>, k: nat, result: Result)
    returns (ok: bool, pending: seq<Value>, ghost start: nat, ghost done: seq<Item>)
    modifies result
    ensures ok ==> Reached(cq, vs, k, |vs|, start, pending, done) && result.items == old(result.items) + done
    ensures !ok ==> MixedItems(cq, vs, k).None?
    decreases SizeAll(vs), 0
  {
    ok, pending, start, done := true, [], 0, [];
    var i := 0;
    MidStart(cq, vs, k);
    NothingBuffered(vs, 0);
    while i < |vs|
      invariant i <= |vs| && Reached(cq, vs, k, i, start, pending, done)
      invariant result.items == old(result.items) + done
    {
      SizeInside(vs, i);
      ok, pending, start, done := ExpandElement(cq, vs, i, k, pending, result, start, done, old(result.items));
      if !ok {
        return;
      }
      i := i + 1;
    }
  }

  method ExpandMixed(cq: string -> seq<Value>, vs: seq<Value>, k: nat, result: Result) returns (ok: bool)
    modifies result
    ensures ok <==> MixedItems(cq, vs, k).Some?
    ensures ok ==> result.items == old(result.items) + MixedItems(cq, vs, k).value
    decreases SizeAll(vs), 1
  {
    var pending;
    ghost var start, done;
    ok, pending, start, done := ExpandElements(cq, vs, k, result);
    if !ok {
      return;
    }
    MixedEnd(cq, vs, start, pending, k);
    if pending != [] {
      ok := AppendSegments(pending, k, result);
    }
    if ok {
      Reassociate(old(result.items), done, Flushed(pending, k).value);
    }
  }

  lemma Reassociate(a: seq<Item>, b: seq<Item>, c: seq<Item>)
    ensures a + b + c == a + (b + c)
  {
  }

  lemma BufferSnoc(pending: seq<Value>, vs: seq<Value>, start: nat, i: nat)
    requires start <= i < |vs| && Buffers(pending, vs[start..i])
    requires !IsNode(vs[i]) && !HasMessages(vs[i]) && Validate(vs[i]).Some?
    ensures Buffers(pending + [AsValue(Validate(vs[i]).value)], vs[start..i + 1])
  {
    var longer, run := pending + [AsValue(Validate(vs[i]).value)], vs[start..i + 1];
    assert run == vs[start..i] + [vs[i]];
    forall n | 0 <= n < |run|
      ensures Buffered(longer[n], run[n])
    {
      assert n < i - start ==> Buffered(pending[n], vs[start..i][n]);
    }
  }

  /** The elements before `start` have been expanded to `done`. */
  ghost predicate Midway(cq: string -> seq<Value>, vs: seq<Value>, k: nat, start: nat, done: seq<Item>)
    requires start <= |vs|
  {
    MixedItems(cq, vs, k) == Both(Some(done), MixedItems(cq, vs[start..], k))
  }

  lemma MidStart(cq: string -> seq<Value>, vs: seq<Value>, k: nat)
    ensures Midway(cq, vs, k, 0, [])
  {
    assert vs[0..] == vs;
    EmptyBoth(MixedItems(cq, vs, k));
  }

  lemma MidStep(cq: string -> seq<Value>, vs: seq<Value>, k: nat, start: nat, done: seq<Item>, i: nat,
                pending: seq<Value>)
    requires start <= i < |vs| && Midway(cq, vs, k, start, done) && Buffers(pending, vs[start..i])
    requires IsNode(vs[i]) || HasMessages(vs[i])
    ensures var step := Both(Flushed(pending, k), Nested(cq, vs[i], k));
            if step.Some? then Midway(cq, vs, k, i + 1, done + step.value) else MixedItems(cq, vs, k).None?
  {
    MixedNested(cq, vs, start, i, pending, k);
    BothNone(Some(done), Both(Flushed(pending, k), Nested(cq, vs[i], k)), MixedItems(cq, vs[i + 1..], k));
  }

  /** The loop over the outermost nodes. */
  method ExpandOuter(cq: string -> seq<Value>, nodes: seq<Value>, result: Result) returns (ok: bool)
    requires AllNodes(nodes) && result.items == []
    modifies result
    ensures ok <==> TopItems(cq, nodes, 1).Some?
    ensures ok ==> result.items == TopItems(cq, nodes, 1).value
  {
    var i := 0;
    assert nodes[0..] == nodes;
    EmptyBoth(TopItems(cq, nodes, 1));
    while i < |nodes|
      invariant 0 <= i <= |nodes|
      invariant TopItems(cq, nodes, 1) == Both(Some(result.items), TopItems(cq, nodes[i..], i + 1))
    {
      assert nodes[i..][1..] == nodes[i + 1..];
      BothNone(Some(result.items), NodeItems(cq, nodes[i], i + 1), TopItems(cq, nodes[i + 1..], i + 2));
      ok := ExpandNode(cq, nodes[i], i + 1, result);
      if !ok {
        return;
      }
      i := i + 1;
    }
    ok := true;
  }

  /** parse_forward_nodes. */
  method ParseForwardNodes(cq: string -> seq<Value>, payload: Value) returns (ok: bool, items: seq<Item>)
    ensures ok <==> Parse(cq, payload).Some?
    ensures ok ==> items == Parse(cq, payload).value
  {
    items := [];
    var unwrapped := Unwrap(payload);
    if unwrapped.None? || unwrapped.value == [] || !AllNodes(unwrapped.value) {
      return false, [];
    }
    var result := new Result();
    ok := ExpandOuter(cq, unwrapped.value, result);
    if ok {
      ParseFlattens(cq, payload);
      items := result.items;
      if items == [] {
        ok := false;
      }
    }
  }
}
