/**
 Which merged forwards are accepted: a description of good payloads by their structure, and that the
 parser accepts exactly these, however the messages are wrapped.
 */
module ForwardAccept {
  import opened ForwardFlatten

  /** A supported segment whose data is an object or missing, with what its type needs. */
  predicate GoodSegment(v: Value) {
    && v.Obj? && v.kind in {"text", "at", "reply", "image", "file", "record", "video", "markdown"}
    && (v.data == Absent || v.data.Obj?)
    && (v.kind == "reply" ==> v.data.Obj? && v.data.id != "")
    && (v.kind in {"image", "file", "record", "video"} ==> v.data.Obj? && v.data.file != "")
  }

  predicate GoodSegments(vs: seq<Value>) {
    forall i :: 0 <= i < |vs| ==> GoodSegment(vs[i])
  }

  /** A node with an id to refer to or with content that is good. */
  predicate GoodNode(cq: string -> seq<Value>, v: Value)
    decreases Size(v), 0
  {
    && v.Obj? && v.kind == "node" && v.data.Obj?
    && (v.data.id != "" ||
        (assert Size(v.data.messages) < Size(v.data) && Size(v.data.content) < Size(v.data);
         if v.data.content == Absent then GoodContent(cq, v.data.messages) else GoodContent(cq, v.data.content)))
  }

  predicate GoodNodes(cq: string -> seq<Value>, vs: seq<Value>)
    decreases SizeAll(vs), 1
  {
    vs == [] || (GoodNode(cq, vs[0]) && GoodNodes(cq, vs[1..]))
  }

  /** Objects around messages, a good node, or a list of good nodes that is not empty. */
  predicate GoodMessages(cq: string -> seq<Value>, v: Value)
    decreases Size(v), 2
  {
    if v.Obj? && v.messages != Absent then GoodMessages(cq, v.messages)
    else if v.List? then v.items != [] && GoodNodes(cq, v.items)
    else GoodNode(cq, v)
  }

  /** An element of a list in which there is a node somewhere. */
  predicate GoodElement(cq: string -> seq<Value>, v: Value)
    decreases Size(v), 3
  {
    if v.Obj? && v.kind == "node" then GoodNode(cq, v)
    else if v.Obj? && v.messages != Absent then GoodMessages(cq, v)
    else GoodSegment(v)
  }

  predicate GoodElements(cq: string -> seq<Value>, vs: seq<Value>)
    decreases SizeAll(vs), 1
  {
    vs == [] || (GoodElement(cq, vs[0]) && GoodElements(cq, vs[1..]))
  }

  predicate GoodContent(cq: string -> seq<Value>, c: Value)
    decreases Size(c), 4
  {
    if c.Obj? && c.messages != Absent then GoodMessages(cq, c)
    else match c
         case Str(text) => cq(text) != [] && GoodSegments(cq(text))
         case Obj(kind, _, _, _, _, _) => if kind == "node" then GoodNode(cq, c) else GoodSegment(c)
         case List(items) =>
           items != [] &&
           if exists i :: 0 <= i < |items| && ContainsNode(items[i]) then GoodElements(cq, items)
           else GoodSegments(items)
         case _ => false
  }

  lemma {:induction false} ValidExactly(vs: seq<Value>)
    ensures ValidateAll(vs).Some? <==> GoodSegments(vs)
  {
    if vs != [] {
      ValidExactly(vs[1..]);
      assert GoodSegments(vs) <==> GoodSegment(vs[0]) && GoodSegments(vs[1..]) by {
        assert forall i :: 0 < i < |vs| ==> vs[i] == vs[1..][i - 1];
      }
    }
  }

  lemma RunExactly(vs: seq<Value>, k: nat)
    ensures RunItem(vs, k).Some? <==> vs != [] && GoodSegments(vs)
  {
    ValidExactly(vs);
  }

  lemma {:induction false} NodeExactly(cq: string -> seq<Value>, node: Value, k: nat)
    requires IsNode(node)
    ensures NodeItems(cq, node, k).Some? <==> GoodNode(cq, node)
    decreases Size(node), 0
  {
    if node.data.Obj? && node.data.id == "" {
      var body := Body(node.data);
      ContentExactly(cq, body, k);
      if ContentItems(cq, body, k).Some? {
        ContentFlattens(cq, body, k);
      }
    }
  }

  lemma {:induction false} NodesExactly(cq: string -> seq<Value>, nodes: seq<Value>, k: nat)
    requires AllNodes(nodes)
    ensures NodesItems(cq, nodes, k).Some? <==> GoodNodes(cq, nodes)
    decreases SizeAll(nodes), 1
  {
    if nodes != [] {
      NodeExactly(cq, nodes[0], k);
      NodesExactly(cq, nodes[1..], k);
    }
  }

  lemma {:induction false} GoodAreNodes(cq: string -> seq<Value>, vs: seq<Value>)
    requires GoodNodes(cq, vs)
    ensures AllNodes(vs)
  {
    if vs != [] {
      GoodAreNodes(cq, vs[1..]);
      assert forall i :: 0 < i < |vs| ==> vs[i] == vs[1..][i - 1];
    }
  }

  /** In terms of the unwrapped list. */
  lemma {:induction false} UnwrapExactly(cq: string -> seq<Value>, v: Value)
    ensures GoodMessages(cq, v) <==>
            Unwrap(v).Some? && Unwrap(v).value != [] && AllNodes(Unwrap(v).value) && GoodNodes(cq, Unwrap(v).value)
    decreases v
  {
    if HasMessages(v) {
      UnwrapExactly(cq, v.messages);
    } else if IsNode(v) {
      assert [v][1..] == [];
    } else if v.List? && GoodNodes(cq, v.items) {
      GoodAreNodes(cq, v.items);
    }
  }

  lemma {:induction false} NestedExactly(cq: string -> seq<Value>, v: Value, k: nat)
    requires HasMessages(v)
    ensures NestedItems(cq, v, k).Some? <==> GoodMessages(cq, v)
    decreases Size(v), 2
  {
    UnwrapExactly(cq, v);
    if Unwrap(v).Some? && AllNodes(Unwrap(v).value) {
      NodesExactly(cq, Unwrap(v).value, k);
    }
  }

  lemma {:induction false} PlainElements(cq: string -> seq<Value>, vs: seq<Value>, j: nat)
    requires j <= |vs| && forall i :: 0 <= i < j ==> !IsNode(vs[i]) && !HasMessages(vs[i])
    ensures GoodElements(cq, vs) <==> GoodSegments(vs[..j]) && GoodElements(cq, vs[j..])
    decreases j
  {
    if j > 0 {
      PlainElements(cq, vs[1..], j - 1);
      assert vs[1..][..j - 1] == vs[..j][1..] && vs[1..][j - 1..] == vs[j..];
      FirstGood(vs[..j]);
    }
  }

  lemma FirstGood(vs: seq<Value>)
    requires vs != []
    ensures GoodSegments(vs) <==> GoodSegment(vs[0]) && GoodSegments(vs[1..])
  {
    assert forall i :: 0 < i < |vs| ==> vs[i] == vs[1..][i - 1];
  }

  lemma GoodElementsAt(cq: string -> seq<Value>, vs: seq<Value>, j: nat)
    requires j < |vs| && forall i :: 0 <= i < j ==> !IsNode(vs[i]) && !HasMessages(vs[i])
    ensures GoodElements(cq, vs) <==>
            GoodSegments(vs[..j]) && GoodElement(cq, vs[j]) && GoodElements(cq, vs[j + 1..])
  {
    PlainElements(cq, vs, j);
    assert vs[j..][0] == vs[j] && vs[j..][1..] == vs[j + 1..];
  }

  lemma {:induction false} ElementExactly(cq: string -> seq<Value>, v: Value, k: nat)
    requires IsNode(v) || HasMessages(v)
    ensures (if IsNode(v) then NodeItems(cq, v, k) else NestedItems(cq, v, k)).Some? <==> GoodElement(cq, v)
    decreases Size(v), 3
  {
    if IsNode(v) {
      NodeExactly(cq, v, k);
    } else {
      NestedExactly(cq, v, k);
    }
  }

  lemma {:induction false} MixedExactly(cq: string -> seq<Value>, vs: seq<Value>, k: nat)
    ensures MixedItems(cq, vs, k).Some? <==> GoodElements(cq, vs)
    decreases SizeAll(vs), 1
  {
    var j := RunLength(vs);
    RunExactly(vs[..j], k);
    if j < |vs| {
      SizeSplit(vs, j);
      GoodElementsAt(cq, vs, j);
      ElementExactly(cq, vs[j], k);
      MixedExactly(cq, vs[j + 1..], k);
    } else {
      PlainElements(cq, vs, j);
      assert vs[..j] == vs && vs[j..] == [];
    }
  }

  lemma {:induction false} NodesGood(cq: string -> seq<Value>, nodes: seq<Value>)
    requires AllNodes(nodes)
    ensures GoodElements(cq, nodes) <==> GoodNodes(cq, nodes)
  {
    if nodes != [] {
      NodesGood(cq, nodes[1..]);
    }
  }

  lemma {:induction false} ListExactly(cq: string -> seq<Value>, c: Value, k: nat)
    requires c.List?
    ensures ContentItems(cq, c, k).Some? <==> GoodContent(cq, c)
    decreases Size(c), 2
  {
    var items := c.items;
    if items != [] {
      if AllNodes(items) {
        assert ContainsNode(items[0]);
        NodesExactly(cq, items, k);
        NodesGood(cq, items);
      } else if exists i :: 0 <= i < |items| && ContainsNode(items[i]) {
        MixedExactly(cq, items, k);
      } else {
        RunExactly(items, k);
      }
    }
  }

  lemma {:induction false} ContentExactly(cq: string -> seq<Value>, c: Value, k: nat)
    ensures ContentItems(cq, c, k).Some? <==> GoodContent(cq, c)
    decreases Size(c), 3
  {
    if HasMessages(c) {
      NestedExactly(cq, c, k);
    } else if IsNode(c) {
      NodeExactly(cq, c, k);
    } else {
      match c {
        case Str(text) => RunExactly(cq(text), k);
        case List(items) => ListExactly(cq, c, k);
        case Obj(_, _, _, _, _, _) => RunExactly([c], k);
        case _ =>
      }
    }
  }

  lemma {:induction false} TopExactly(cq: string -> seq<Value>, nodes: seq<Value>, k: nat)
    requires AllNodes(nodes)
    ensures TopItems(cq, nodes, k).Some? <==> GoodNodes(cq, nodes)
    decreases |nodes|
  {
    if nodes != [] {
      NodeExactly(cq, nodes[0], k);
      TopExactly(cq, nodes[1..], k + 1);
    }
  }

  /** Exactly the payloads that are accepted: messages, however wrapped, that are good nodes throughout. */
  lemma AcceptedExactly(cq: string -> seq<Value>, payload: Value)
    ensures Parse(cq, payload).Some? <==> GoodMessages(cq, payload)
  {
    UnwrapExactly(cq, payload);
    if Unwrap(payload).Some? && AllNodes(Unwrap(payload).value) {
      TopExactly(cq, Unwrap(payload).value, 1);
    }
  }

  /** Objects around the messages and a lone node make no difference, neither outermost nor nested. */
  lemma WrappingIrrelevant(cq: string -> seq<Value>, v: Value, k: nat)
    requires v.Obj?
    ensures v.messages != Absent ==> Parse(cq, v) == Parse(cq, v.messages)
    ensures v.messages == Absent && v.kind == "node" ==> Parse(cq, v) == Parse(cq, List([v]))
    ensures v.messages.Obj? && v.messages.messages != Absent ==>
              ContentItems(cq, v, k) == ContentItems(cq, v.messages, k)
    ensures v.messages.Obj? && v.messages.messages == Absent && v.messages.kind == "node" ==>
              ContentItems(cq, v, k) == ContentItems(cq, List([v.messages]), k)
    ensures v.messages.List? && v.messages.items != [] && AllNodes(v.messages.items) ==>
              ContentItems(cq, v, k) == ContentItems(cq, v.messages, k)
  {
  }

  /** What counts as containing a node: a node, and messages or an element that contains one. */
  lemma {:induction false} NodeInside(cq: string -> seq<Value>, v: Value)
    ensures GoodMessages(cq, v) ==> ContainsNode(v)
    ensures v.Obj? && v.kind != "node" && v.messages in {Absent, Null} ==> !ContainsNode(v)
    ensures !v.Obj? && !v.List? ==> !ContainsNode(v)
    decreases v
  {
    if v.Obj? && v.messages != Absent {
      NodeInside(cq, v.messages);
    } else if v.List? {
      if v.items != [] && GoodNodes(cq, v.items) {
        GoodAreNodes(cq, v.items);
        assert IsNode(v.items[0]) && ContainsNode(v.items[0]);
      }
    } else {
      assert GoodMessages(cq, v) <==> GoodNode(cq, v);
    }
  }
}
