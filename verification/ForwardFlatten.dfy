/**
 Merged forwards: a tree of nodes, nested message lists and segments becomes a flat list of items, each a
 run of segments or a reference. None stands for the ValueError that rejects the whole payload.
 */
module ForwardFlatten {
  import opened Seqs

  /**
   A decoded JSON value. An object keeps the fields that the parser reads: type in lower case, data,
   messages and content (Absent if there is no such key), and the texts it takes from id and from
   file or url ("" if blank).
   */
  datatype Value =
    | Absent
    | Null
    | Scalar
    | Str(text: string)
    | List(items: seq<Value>)
    | Obj(kind: string, data: Value, messages: Value, content: Value, id: string, file: string)

  const EmptyObject := Obj("", Absent, Absent, Absent, "", "")

  datatype Segment = Segment(kind: string, data: Value)

  datatype Item = Run(nodeIndex: nat, segments: seq<Segment>) | Reference(nodeIndex: nat, id: string)

  const SUPPORTED := {"text", "at", "reply", "image", "file", "record", "video", "markdown"}

  function Size(v: Value): nat {
    match v
    case List(items) => 1 + SizeAll(items)
    case Obj(_, data, messages, content, _, _) => 1 + Size(data) + Size(messages) + Size(content)
    case _ => 1
  }

  function SizeAll(vs: seq<Value>): nat {
    if vs == [] then 0 else 1 + Size(vs[0]) + SizeAll(vs[1..])
  }

  lemma {:induction false} SizeSplit(vs: seq<Value>, j: nat)
    requires j < |vs|
    ensures SizeAll(vs) >= 1 + Size(vs[j]) + SizeAll(vs[j + 1..])
  {
    if j > 0 {
      SizeSplit(vs[1..], j - 1);
      assert vs[1..][j..] == vs[j + 1..];
    }
  }

  predicate IsNode(v: Value) {
    v.Obj? && v.kind == "node"
  }

  predicate HasMessages(v: Value) {
    v.Obj? && v.messages != Absent
  }

  predicate AllNodes(vs: seq<Value>) {
    forall i :: 0 <= i < |vs| ==> IsNode(vs[i])
  }

  /** _contains_node. */
  predicate ContainsNode(v: Value) {
    IsNode(v) ||
    (v.Obj? && v.messages != Absent && v.messages != Null && ContainsNode(v.messages)) ||
    (v.List? && exists i :: 0 <= i < |v.items| && ContainsNode(v.items[i]))
  }

  /** _unwrap_node_list. */
  function Unwrap(v: Value): (r: Option<seq<Value>>)
    ensures r.Some? ==> SizeAll(r.value) <= 1 + Size(v)
    ensures r.Some? && HasMessages(v) ==> SizeAll(r.value) <= Size(v)
  {
    if HasMessages(v) then Unwrap(v.messages)
    else if IsNode(v) then Some([v])
    else if v.List? then Some(v.items)
    else None
  }

  /** data.get("content", data.get("messages")). */
  function Body(data: Value): (r: Value)
    requires data.Obj?
    ensures Size(r) < Size(data)
  {
    if data.content != Absent then data.content else data.messages
  }

  /** _validate_segment; a segment without data gets an empty one. */
  function Validate(v: Value): Option<Segment> {
    if !v.Obj? || v.kind !in SUPPORTED then None
    else
      var data := if v.data == Absent then EmptyObject else v.data;
      if !data.Obj? then None
      else if v.kind == "reply" && data.id == "" then None
      else if v.kind in {"image", "file", "record", "video"} && data.file == "" then None
      else Some(Segment(v.kind, data))
  }

  function ValidateAll(vs: seq<Value>): (r: Option<seq<Segment>>)
    ensures r.Some? ==> |r.value| == |vs| && forall i :: 0 <= i < |vs| ==> Validate(vs[i]) == Some(r.value[i])
  {
    if vs == [] then Some([])
    else match Validate(vs[0])
         case None => None
         case Some(s) =>
           match ValidateAll(vs[1..])
           case None => None
           case Some(rest) => Some([s] + rest)
  }

  /** _append_segments: one item for a non-empty list of valid segments. */
  function RunItem(vs: seq<Value>, k: nat): Option<seq<Item>> {
    match ValidateAll(vs)
    case None => None
    case Some(segments) => if segments == [] then None else Some([Run(k, segments)])
  }

  function Both(a: Option<seq<Item>>, b: Option<seq<Item>>): Option<seq<Item>> {
    if a.Some? && b.Some? then Some(a.value + b.value) else None
  }

  /** The length of the longest prefix without nested nodes or message lists. */
  function RunLength(vs: seq<Value>): (j: nat)
    ensures j <= |vs|
    ensures forall i :: 0 <= i < j ==> !IsNode(vs[i]) && !HasMessages(vs[i])
    ensures j < |vs| ==> IsNode(vs[j]) || HasMessages(vs[j])
  {
    if vs != [] && !IsNode(vs[0]) && !HasMessages(vs[0]) then 1 + RunLength(vs[1..]) else 0
  }

  // ---- what a payload expands to ----

  function NodeItems(cq: string -> seq<Value>, node: Value, k: nat): Option<seq<Item>>
    requires IsNode(node)
    decreases Size(node), 0
  {
    if !node.data.Obj? then None
    else if node.data.id != "" then Some([Reference(k, node.data.id)])
    else
      var body := Body(node.data);
      if body == Absent || body == Null then None
      else match ContentItems(cq, body, k)
           case None => None
           case Some(items) => if items == [] then None else Some(items)
  }

  function NodesItems(cq: string -> seq<Value>, nodes: seq<Value>, k: nat): Option<seq<Item>>
    requires AllNodes(nodes)
    decreases SizeAll(nodes), 1
  {
    if nodes == [] then Some([]) else Both(NodeItems(cq, nodes[0], k), NodesItems(cq, nodes[1..], k))
  }

  /** A nested list of messages: not empty, and nodes only. */
  function NestedItems(cq: string -> seq<Value>, v: Value, k: nat): Option<seq<Item>>
    requires HasMessages(v)
    decreases Size(v), 2
  {
    match Unwrap(v)
    case None => None
    case Some(nodes) => if nodes == [] || !AllNodes(nodes) then None else NodesItems(cq, nodes, k)
  }

  function ContentItems(cq: string -> seq<Value>, c: Value, k: nat): Option<seq<Item>>
    decreases Size(c), 3
  {
    if HasMessages(c) then NestedItems(cq, c, k)
    else if IsNode(c) then NodeItems(cq, c, k)
    else match c
         case Str(text) => RunItem(cq(text), k)
         case Obj(_, _, _, _, _, _) => RunItem([c], k)
         case List(items) =>
           if items == [] then None
           else if AllNodes(items) then NodesItems(cq, items, k)
           else if exists i :: 0 <= i < |items| && ContainsNode(items[i]) then MixedItems(cq, items, k)
           else RunItem(items, k)
         case _ => None
  }

  /** A mixed list: maximal runs of segments, and between them what is nested. */
  function MixedItems(cq: string -> seq<Value>, vs: seq<Value>, k: nat): Option<seq<Item>>
    decreases SizeAll(vs), 1
  {
    var j := RunLength(vs);
    var run := if j == 0 then Some([]) else RunItem(vs[..j], k);
    if j == |vs| then run
    else
      SizeSplit(vs, j);
      var nested := if IsNode(vs[j]) then NodeItems(cq, vs[j], k) else NestedItems(cq, vs[j], k);
      Both(Both(run, nested), MixedItems(cq, vs[j + 1..], k))
  }

  /** The outermost nodes, numbered from k on. */
  function TopItems(cq: string -> seq<Value>, nodes: seq<Value>, k: nat): Option<seq<Item>>
    requires AllNodes(nodes)
  {
    if nodes == [] then Some([]) else Both(NodeItems(cq, nodes[0], k), TopItems(cq, nodes[1..], k + 1))
  }

  function OuterNodes(payload: Value): Option<seq<Value>> {
    match Unwrap(payload)
    case None => None
    case Some(nodes) => if nodes == [] || !AllNodes(nodes) then None else Some(nodes)
  }

  /** parse_forward_nodes. */
  function Parse(cq: string -> seq<Value>, payload: Value): Option<seq<Item>> {
    match OuterNodes(payload)
    case None => None
    case Some(nodes) => TopItems(cq, nodes, 1)
  }

  // ---- the in-order leaves of a payload, without any grouping ----

  datatype Leaf = SegmentLeaf(segment: Segment) | ReferenceLeaf(id: string)

  function Normal(v: Value): Segment
    requires v.Obj?
  {
    Segment(v.kind, if v.data == Absent then EmptyObject else v.data)
  }

  function SegmentLeaves(vs: seq<Value>): seq<Leaf> {
    if vs == [] then [] else (if vs[0].Obj? then [SegmentLeaf(Normal(vs[0]))] else []) + SegmentLeaves(vs[1..])
  }

  function NodeLeaves(cq: string -> seq<Value>, node: Value): seq<Leaf>
    decreases Size(node), 0
  {
    if !node.Obj? || !node.data.Obj? then []
    else if node.data.id != "" then [ReferenceLeaf(node.data.id)]
    else
      assert Size(node.data.messages) < Size(node.data) && Size(node.data.content) < Size(node.data);
      if node.data.content == Absent then ContentLeaves(cq, node.data.messages)
      else ContentLeaves(cq, node.data.content)
  }

  function NodesLeaves(cq: string -> seq<Value>, nodes: seq<Value>): seq<Leaf>
    decreases SizeAll(nodes), 1
  {
    if nodes == [] then [] else NodeLeaves(cq, nodes[0]) + NodesLeaves(cq, nodes[1..])
  }

  /** A payload or a nested message list: objects around the messages, a lone node, or a list of nodes. */
  function MessagesLeaves(cq: string -> seq<Value>, v: Value): seq<Leaf>
    decreases Size(v), 2
  {
    if v.Obj? && v.messages != Absent then MessagesLeaves(cq, v.messages)
    else if v.Obj? then NodeLeaves(cq, v)
    else if v.List? then NodesLeaves(cq, v.items)
    else []
  }

  /** An element of a list: a node, a nested message list or a segment. */
  function ElementLeaves(cq: string -> seq<Value>, v: Value): seq<Leaf>
    decreases Size(v), 3
  {
    if IsNode(v) then NodeLeaves(cq, v)
    else if HasMessages(v) then MessagesLeaves(cq, v)
    else if v.Obj? then [SegmentLeaf(Normal(v))]
    else []
  }

  function ListLeaves(cq: string -> seq<Value>, vs: seq<Value>): seq<Leaf>
    decreases SizeAll(vs), 1
  {
    if vs == [] then [] else ElementLeaves(cq, vs[0]) + ListLeaves(cq, vs[1..])
  }

  function ContentLeaves(cq: string -> seq<Value>, c: Value): seq<Leaf>
    decreases Size(c), 4
  {
    if HasMessages(c) then MessagesLeaves(cq, c)
    else match c
         case Str(text) => SegmentLeaves(cq(text))
         case List(items) =>
           if exists i :: 0 <= i < |items| && ContainsNode(items[i]) then ListLeaves(cq, items)
               else SegmentLeaves(items)
         case _ => ElementLeaves(cq, c)
  }

  // ---- items against leaves ----

  function LeavesOf(item: Item): seq<Leaf> {
    match item
    case Run(_, segments) => seq(|segments|, i requires 0 <= i < |segments| => SegmentLeaf(segments[i]))
    case Reference(_, id) => [ReferenceLeaf(id)]
  }

  function Contents(items: seq<Item>): seq<Leaf> {
    if items == [] then [] else LeavesOf(items[0]) + Contents(items[1..])
  }

  /** A supported segment with what its type needs: an id to reply to, a file to send. */
  predicate Sendable(s: Segment) {
    && s.kind in SUPPORTED && s.data.Obj?
    && (s.kind == "reply" ==> s.data.id != "")
    && (s.kind in {"image", "file", "record", "video"} ==> s.data.file != "")
  }

  /** A non-empty run of sendable segments, or a reference to something. */
  predicate NonEmpty(item: Item) {
    match item
    case Run(_, segments) => segments != [] && forall i :: 0 <= i < |segments| ==> Sendable(segments[i])
    case Reference(_, id) => id != ""
  }

  /** Items of node k: at least one, none of them empty. */
  predicate Proper(items: seq<Item>, k: nat) {
    items != [] && forall i :: 0 <= i < |items| ==> items[i].nodeIndex == k && NonEmpty(items[i])
  }

  lemma {:induction false} ContentsAppend(a: seq<Item>, b: seq<Item>)
    ensures Contents(a + b) == Contents(a) + Contents(b)
  {
    if a == [] {
      assert a + b == b;
    } else {
      assert (a + b)[1..] == a[1..] + b;
      ContentsAppend(a[1..], b);
    }
  }

  lemma {:induction false} ValidLeaves(vs: seq<Value>)
    requires ValidateAll(vs).Some?
    ensures SegmentLeaves(vs) == LeavesOf(Run(0, ValidateAll(vs).value))
  {
    if vs != [] {
      ValidLeaves(vs[1..]);
      var all, rest := ValidateAll(vs).value, ValidateAll(vs[1..]).value;
      assert all == [Validate(vs[0]).value] + rest;
      assert LeavesOf(Run(0, all)) == [SegmentLeaf(all[0])] + LeavesOf(Run(0, rest));
    }
  }

  lemma SingleLeaf(v: Value)
    requires v.Obj?
    ensures SegmentLeaves([v]) == [SegmentLeaf(Normal(v))]
  {
    assert [v][1..] == [];
  }

  lemma RunItemLeaves(vs: seq<Value>, k: nat)
    requires RunItem(vs, k).Some?
    ensures Contents(RunItem(vs, k).value) == SegmentLeaves(vs) && Proper(RunItem(vs, k).value, k)
  {
    ValidLeaves(vs);
    var items := RunItem(vs, k).value;
    assert items[1..] == [];
    assert LeavesOf(items[0]) == LeavesOf(Run(0, ValidateAll(vs).value));
  }

  lemma {:induction false} PlainListLeaves(cq: string -> seq<Value>, vs: seq<Value>, j: nat)
    requires j <= |vs| && forall i :: 0 <= i < j ==> !IsNode(vs[i]) && !HasMessages(vs[i])
    ensures ListLeaves(cq, vs) == SegmentLeaves(vs[..j]) + ListLeaves(cq, vs[j..])
    decreases j
  {
    if j > 0 {
      PlainListLeaves(cq, vs[1..], j - 1);
      assert vs[1..][..j - 1] == vs[..j][1..];
      assert vs[1..][j - 1..] == vs[j..];
    }
  }

  // ---- flattening keeps the leaves and their order ----

  lemma OneNode(cq: string -> seq<Value>, node: Value)
    ensures NodesLeaves(cq, [node]) == NodeLeaves(cq, node)
  {
    assert [node][1..] == [];
  }

  lemma {:induction false} UnwrapLeaves(cq: string -> seq<Value>, v: Value)
    requires Unwrap(v).Some?
    ensures NodesLeaves(cq, Unwrap(v).value) == MessagesLeaves(cq, v)
    decreases v
  {
    if HasMessages(v) {
      UnwrapLeaves(cq, v.messages);
    } else if IsNode(v) {
      OneNode(cq, v);
    }
  }

  lemma ProperAppend(a: seq<Item>, b: seq<Item>, k: nat)
    requires Proper(a, k) && (b == [] || Proper(b, k))
    ensures Proper(a + b, k)
  {
  }

  lemma {:induction false} NodeFlattens(cq: string -> seq<Value>, node: Value, k: nat)
    requires IsNode(node) && NodeItems(cq, node, k).Some?
    ensures Contents(NodeItems(cq, node, k).value) == NodeLeaves(cq, node) && Proper(NodeItems(cq, node, k).value, k)
    decreases Size(node), 0
  {
    var items := NodeItems(cq, node, k).value;
    if node.data.id != "" {
      assert items[1..] == [];
    } else {
      ContentFlattens(cq, Body(node.data), k);
    }
  }

  lemma {:induction false} NodesFlatten(cq: string -> seq<Value>, nodes: seq<Value>, k: nat)
    requires AllNodes(nodes) && NodesItems(cq, nodes, k).Some?
    ensures Contents(NodesItems(cq, nodes, k).value) == NodesLeaves(cq, nodes)
    ensures if nodes == [] then NodesItems(cq, nodes, k).value == [] else Proper(NodesItems(cq, nodes, k).value, k)
    decreases SizeAll(nodes), 1
  {
    if nodes != [] {
      NodeFlattens(cq, nodes[0], k);
      NodesFlatten(cq, nodes[1..], k);
      var a, b := NodeItems(cq, nodes[0], k).value, NodesItems(cq, nodes[1..], k).value;
      ContentsAppend(a, b);
      ProperAppend(a, b, k);
    }
  }

  lemma {:induction false} NestedFlattens(cq: string -> seq<Value>, v: Value, k: nat)
    requires HasMessages(v) && NestedItems(cq, v, k).Some?
    ensures Contents(NestedItems(cq, v, k).value) == MessagesLeaves(cq, v) && Proper(NestedItems(cq, v, k).value, k)
    decreases Size(v), 2
  {
    NodesFlatten(cq, Unwrap(v).value, k);
    UnwrapLeaves(cq, v);
  }

  lemma {:induction false} ContentFlattens(cq: string -> seq<Value>, c: Value, k: nat)
    requires ContentItems(cq, c, k).Some?
    ensures Contents(ContentItems(cq, c, k).value) == ContentLeaves(cq, c) && Proper(ContentItems(cq, c, k).value, k)
    decreases Size(c), 3
  {
    if HasMessages(c) {
      NestedFlattens(cq, c, k);
    } else if IsNode(c) {
      NodeFlattens(cq, c, k);
    } else {
      match c {
        case Str(text) => RunItemLeaves(cq(text), k);
        case List(items) => ListFlattens(cq, c, k);
        case Obj(_, _, _, _, _, _) =>
          RunItemLeaves([c], k);
          SingleLeaf(c);
        case _ =>
      }
    }
  }

  lemma {:induction false} ListFlattens(cq: string -> seq<Value>, c: Value, k: nat)
    requires c.List? && ContentItems(cq, c, k).Some?
    ensures Contents(ContentItems(cq, c, k).value) == ContentLeaves(cq, c) && Proper(ContentItems(cq, c, k).value, k)
    decreases Size(c), 2
  {
    var items := c.items;
    if AllNodes(items) {
      NodesFlatten(cq, items, k);
      NodesAreElements(cq, items);
      assert ContainsNode(items[0]);
    } else if exists i :: 0 <= i < |items| && ContainsNode(items[i]) {
      MixedFlattens(cq, items, k);
    } else {
      RunItemLeaves(items, k);
    }
  }

  lemma {:induction false} NodesAreElements(cq: string -> seq<Value>, nodes: seq<Value>)
    requires AllNodes(nodes)
    ensures ListLeaves(cq, nodes) == NodesLeaves(cq, nodes)
  {
    if nodes != [] {
      NodesAreElements(cq, nodes[1..]);
    }
  }

  lemma {:induction false} MixedFlattens(cq: string -> seq<Value>, vs: seq<Value>, k: nat)
    requires MixedItems(cq, vs, k).Some?
    ensures Contents(MixedItems(cq, vs, k).value) == ListLeaves(cq, vs)
    ensures if vs == [] then MixedItems(cq, vs, k).value == [] else Proper(MixedItems(cq, vs, k).value, k)
    decreases SizeAll(vs), 1
  {
    var j := RunLength(vs);
    var run := if j == 0 then Some([]) else RunItem(vs[..j], k);
    PlainListLeaves(cq, vs, j);
    assert run.Some?;
    if j > 0 {
      RunItemLeaves(vs[..j], k);
    }
    if j < |vs| {
      SizeSplit(vs, j);
      var nested := if IsNode(vs[j]) then NodeItems(cq, vs[j], k) else NestedItems(cq, vs[j], k);
      if IsNode(vs[j]) {
        NodeFlattens(cq, vs[j], k);
      } else {
        NestedFlattens(cq, vs[j], k);
      }
      MixedFlattens(cq, vs[j + 1..], k);
      MixedJoin(cq, vs, j, run.value, nested.value, MixedItems(cq, vs[j + 1..], k).value, k);
    } else {
      assert vs[..j] == vs;
    }
  }

  lemma LeavesJoin(cq: string -> seq<Value>, vs: seq<Value>, j: nat)
    requires j < |vs|
    requires ListLeaves(cq, vs) == SegmentLeaves(vs[..j]) + ListLeaves(cq, vs[j..])
    ensures ListLeaves(cq, vs) == SegmentLeaves(vs[..j]) + ElementLeaves(cq, vs[j]) + ListLeaves(cq, vs[j + 1..])
  {
    var rest := vs[j..];
    assert rest[0] == vs[j] && rest[1..] == vs[j + 1..];
    assert ListLeaves(cq, rest) == ElementLeaves(cq, vs[j]) + ListLeaves(cq, vs[j + 1..]);
    JoinLeaves(SegmentLeaves(vs[..j]), ElementLeaves(cq, vs[j]), ListLeaves(cq, vs[j + 1..]));
  }

  lemma JoinLeaves(a: seq<Leaf>, b: seq<Leaf>, c: seq<Leaf>)
    ensures a + (b + c) == a + b + c
  {
  }

  lemma MixedJoin(cq: string -> seq<Value>, vs: seq<Value>, j: nat, run: seq<Item>, nested: seq<Item>,
      rest: seq<Item>, k: nat)
    requires j < |vs| && (IsNode(vs[j]) || HasMessages(vs[j]))
    requires Contents(run) == SegmentLeaves(vs[..j]) && (run == [] || Proper(run, k))
    requires ListLeaves(cq, vs) == SegmentLeaves(vs[..j]) + ListLeaves(cq, vs[j..])
    requires Contents(nested) == ElementLeaves(cq, vs[j]) && Proper(nested, k)
    requires Contents(rest) == ListLeaves(cq, vs[j + 1..]) && (rest == [] || Proper(rest, k))
    ensures Contents(run + nested + rest) == ListLeaves(cq, vs) && Proper(run + nested + rest, k)
  {
    ContentsAppend(run, nested);
    ContentsAppend(run + nested, rest);
    assert vs[j..][1..] == vs[j + 1..];
    if run == [] {
      assert run + nested == nested;
    } else {
      ProperAppend(run, nested, k);
    }
    ProperAppend(run + nested, rest, k);
    LeavesJoin(cq, vs, j);
  }

  // ---- the whole payload ----

  function Indices(items: seq<Item>): set<nat> {
    set i | 0 <= i < |items| :: items[i].nodeIndex
  }

  predicate NonDecreasing(items: seq<Item>) {
    forall i, j :: 0 <= i < j < |items| ==> items[i].nodeIndex <= items[j].nodeIndex
  }

  /** The items that come from node k. */
  function OfNode(items: seq<Item>, k: nat): seq<Item> {
    if items == [] then []
    else (if items[0].nodeIndex == k then [items[0]] else []) + OfNode(items[1..], k)
  }

  lemma {:induction false} OfNodeAppend(a: seq<Item>, b: seq<Item>, k: nat)
    ensures OfNode(a + b, k) == OfNode(a, k) + OfNode(b, k)
  {
    if a == [] {
      assert a + b == b;
    } else {
      assert (a + b)[1..] == a[1..] + b;
      OfNodeAppend(a[1..], b, k);
      JoinItems(if a[0].nodeIndex == k then [a[0]] else [], OfNode(a[1..], k), OfNode(b, k));
    }
  }

  lemma JoinItems(a: seq<Item>, b: seq<Item>, c: seq<Item>)
    ensures a + (b + c) == (a + b) + c
  {
  }

  lemma {:induction false} AllOfNode(items: seq<Item>, k: nat, j: nat)
    requires forall i :: 0 <= i < |items| ==> items[i].nodeIndex == k
    ensures OfNode(items, j) == if j == k then items else []
  {
    if items != [] {
      AllOfNode(items[1..], k, j);
    }
  }

  lemma {:induction false} NoneOfNode(items: seq<Item>, k: nat)
    requires forall i :: 0 <= i < |items| ==> items[i].nodeIndex != k
    ensures OfNode(items, k) == []
  {
    if items != [] {
      NoneOfNode(items[1..], k);
    }
  }

  /** Items of n outermost nodes, numbered from k on in their order, none empty. */
  ghost predicate TopShape(items: seq<Item>, k: nat, n: nat) {
    && NonDecreasing(items) && (forall x :: x in Indices(items) <==> k <= x < k + n)
    && forall i :: 0 <= i < |items| ==> k <= items[i].nodeIndex < k + n && NonEmpty(items[i])
  }

  lemma TopJoin(a: seq<Item>, b: seq<Item>, k: nat, n: nat)
    requires Proper(a, k) && TopShape(b, k + 1, n)
    ensures TopShape(a + b, k, n + 1)
  {
    var all := a + b;
    assert forall i :: 0 <= i < |a| ==> all[i] == a[i];
    assert forall i :: 0 <= i < |b| ==> all[|a| + i] == b[i];
    JoinNonDecreasing(a, b, k);
    forall x
      ensures x in Indices(all) <==> x == k || x in Indices(b)
    {
      if x == k {
        assert all[0].nodeIndex == k;
      } else if x in Indices(b) {
        var i :| 0 <= i < |b| && b[i].nodeIndex == x;
        assert all[|a| + i].nodeIndex == x;
      }
    }
  }

  lemma JoinNonDecreasing(a: seq<Item>, b: seq<Item>, k: nat)
    requires Proper(a, k) && NonDecreasing(b) && forall i :: 0 <= i < |b| ==> k < b[i].nodeIndex
    ensures NonDecreasing(a + b)
  {
  }

  lemma TopEmpty(k: nat)
    ensures TopShape([], k, 0)
  {
  }

  lemma {:induction false} TopFlattens(cq: string -> seq<Value>, nodes: seq<Value>, k: nat)
    requires AllNodes(nodes) && TopItems(cq, nodes, k).Some?
    ensures var items := TopItems(cq, nodes, k).value;
            Contents(items) == NodesLeaves(cq, nodes) && TopShape(items, k, |nodes|)
    decreases |nodes|
  {
    if nodes == [] {
      TopEmpty(k);
    } else {
      var a, b := NodeItems(cq, nodes[0], k).value, TopItems(cq, nodes[1..], k + 1).value;
      NodeFlattens(cq, nodes[0], k);
      TopFlattens(cq, nodes[1..], k + 1);
      ContentsAppend(a, b);
      TopJoin(a, b, k, |nodes| - 1);
    }
  }

  lemma FirstNumber(a: seq<Item>, b: seq<Item>, k: nat, n: nat)
    requires Proper(a, k) && TopShape(b, k + 1, n)
    ensures OfNode(a + b, k) == a
  {
    OfNodeAppend(a, b, k);
    AllOfNode(a, k, k);
    NoneOfNode(b, k);
    assert a + [] == a;
  }

  lemma LaterNumber(a: seq<Item>, b: seq<Item>, k: nat, j: nat)
    requires Proper(a, k) && j != k
    ensures OfNode(a + b, j) == OfNode(b, j)
  {
    OfNodeAppend(a, b, j);
    AllOfNode(a, k, j);
    assert [] + OfNode(b, j) == OfNode(b, j);
  }

  lemma TopSplits(cq: string -> seq<Value>, nodes: seq<Value>, k: nat)
    requires AllNodes(nodes) && TopItems(cq, nodes, k).Some? && nodes != []
    ensures NodeItems(cq, nodes[0], k).Some? && TopItems(cq, nodes[1..], k + 1).Some?
    ensures var a, b := NodeItems(cq, nodes[0], k).value, TopItems(cq, nodes[1..], k + 1).value;
            TopItems(cq, nodes, k).value == a + b && Proper(a, k) && TopShape(b, k + 1, |nodes| - 1)
            && Contents(a) == NodeLeaves(cq, nodes[0])
  {
    NodeFlattens(cq, nodes[0], k);
    TopFlattens(cq, nodes[1..], k + 1);
  }

  /** Each outermost node's own leaves are in the items that carry its number. */
  lemma {:induction false} TopNumbers(cq: string -> seq<Value>, nodes: seq<Value>, k: nat, m: nat, items: seq<Item>)
    requires AllNodes(nodes) && TopItems(cq, nodes, k) == Some(items) && k <= m < k + |nodes|
    ensures Contents(OfNode(items, m)) == NodeLeaves(cq, nodes[m - k])
    decreases |nodes|
  {
    TopSplits(cq, nodes, k);
    var a, b := NodeItems(cq, nodes[0], k).value, TopItems(cq, nodes[1..], k + 1).value;
    if m == k {
      FirstNumber(a, b, k, |nodes| - 1);
    } else {
      LaterNumber(a, b, k, m);
      TopNumbers(cq, nodes[1..], k + 1, m, b);
      assert nodes[1..][m - (k + 1)] == nodes[m - k];
    }
  }

  /** How many outermost nodes a payload has. */
  function NodeCount(payload: Value): nat {
    if payload.Obj? && payload.messages != Absent then NodeCount(payload.messages)
    else if payload.List? then |payload.items|
    else 1
  }

  lemma {:induction false} UnwrapCount(v: Value)
    requires Unwrap(v).Some?
    ensures |Unwrap(v).value| == NodeCount(v)
    decreases v
  {
    if HasMessages(v) {
      UnwrapCount(v.messages);
    }
  }

  /**
   Flattening: the items of an accepted payload hold exactly its leaves in order, none is empty, and their
   node numbers never go down and are 1 to the number of outermost nodes.
   */
  lemma ParseFlattens(cq: string -> seq<Value>, payload: Value)
    requires Parse(cq, payload).Some?
    ensures var items := Parse(cq, payload).value;
            && Contents(items) == MessagesLeaves(cq, payload)
            && (forall i :: 0 <= i < |items| ==> NonEmpty(items[i]))
            && NonDecreasing(items)
            && (forall x :: x in Indices(items) <==> 1 <= x <= NodeCount(payload)) && NodeCount(payload) > 0
  {
    TopFlattens(cq, OuterNodes(payload).value, 1);
    UnwrapLeaves(cq, payload);
    UnwrapCount(payload);
  }

  /** A list of nodes: all of its nodes are in the items, the first under 1, the next under 2, and so on. */
  lemma ListFlattensByNode(cq: string -> seq<Value>, nodes: seq<Value>, j: nat)
    requires Parse(cq, List(nodes)).Some? && j < |nodes|
    ensures var items := Parse(cq, List(nodes)).value;
            && Contents(items) == NodesLeaves(cq, nodes)
            && Contents(OfNode(items, j + 1)) == NodeLeaves(cq, nodes[j])
            && (forall x :: x in Indices(items) <==> 1 <= x <= |nodes|)
  {
    TopFlattens(cq, nodes, 1);
    TopNumbers(cq, nodes, 1, j + 1, Parse(cq, List(nodes)).value);
  }
}
