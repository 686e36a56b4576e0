/**
 Delivery of a merged forward: every item is translated before anything is sent, then the items go out
 one after the other until something fails. In thread mode a header opens a thread for them.
 */
module ForwardDelivery {
  import opened Seqs
  import opened SegmentSend

  datatype Outbound = Outbound(segments: seq<Segment>, quote: string, mentions: seq<string>, replyMention: string)

  /** How one item fares before sending: translated, rejected, or an unexpected exception. */
  datatype Translation = Ready(outbound: Outbound) | Rejected | Broken

  /** item: the position, counted from 0, of the item that failed. */
  datatype Response = Success(id: int) | Failed(retcode: int, item: nat, sentCount: nat) | Raises

  /** What the server can say about its thread setting. */
  datatype ThreadSetting = Enabled | Disabled | Unknown

  /** Where the forward goes: into a thread or the room itself, nowhere, or an unexpected exception. */
  datatype Destination = Found(thread: string) | NotFound | LookupBroken

  const START := Progress(0, None)

  predicate Acceptable(t: Translation) {
    t.Ready? && (t.outbound.segments != [] || t.outbound.quote != "")
  }

  function ItemPlan(norm: string -> string, o: Outbound): seq<Send> {
    Sends(Plan(norm, o.segments, 0, Pending(o.quote, o.mentions, o.replyMention)))
  }

  function Plans(norm: string -> string, items: seq<Outbound>): (r: seq<seq<Send>>)
    ensures |r| == |items|
  {
    seq(|items|, i requires 0 <= i < |items| => ItemPlan(norm, items[i]))
  }

  /**
   An item goes out as a message of its own: every segment in order, its quote exactly once, and its mentions
   with the first text.
   */
  lemma ItemSaysAll(norm: string -> string, o: Outbound) returns (blocks: seq<Block>)
    ensures Tiles(norm, o.segments, blocks, 0) && ItemPlan(norm, o) == Sends(blocks)
    ensures FirstTextCarries(ItemPlan(norm, o), Pending(o.quote, o.mentions, o.replyMention))
    ensures Quotes(ItemPlan(norm, o)) == if o.quote != "" then [o.quote] else []
  {
    var p := Pending(o.quote, o.mentions, o.replyMention);
    blocks := Plan(norm, o.segments, 0, p);
    PlanTiles(norm, o.segments, 0, p);
    PlanCarries(norm, o.segments, 0, p);
  }

  // ---- one item after the other, until one fails ----

  lemma {:induction false} DeliverSplit(answer: nat -> Outcome, n: nat, a: seq<Send>, b: seq<Send>, strict: bool,
      p: Progress)
    ensures var d := Deliver(answer, n, a, strict, p);
            Deliver(answer, n, a + b, strict, p) ==
            if d.ok then Prepend(a, Deliver(answer, n + Reaching(a), b, strict, d.progress)) else d
    decreases |a|
  {
    if a == [] {
      assert a + b == b;
    } else {
      assert (a + b)[1..] == a[1..] + b;
      var o, next := Result(answer, n, a[0]), Next(n, a[0]);
      if !Aborts(o, strict) {
        DeliverSplit(answer, next, a[1..], b, strict, Advance(p, o));
        var d := Deliver(answer, next, a[1..], strict, Advance(p, o));
        if d.ok {
          PrependTwice([a[0]], a[1..], Deliver(answer, n + Reaching(a), b, strict, d.progress));
          assert [a[0]] + a[1..] == a;
        }
      }
    }
  }

  /** A failing item stops the whole forward: the attempts are those of the items before it and some of its own. */
  lemma FailingItemStops(answer: nat -> Outcome, n: nat, plans: seq<seq<Send>>, i: nat, p: Progress)
    requires i < |plans| && Deliver(answer, n, Flatten(plans[..i]), true, p).ok
    requires !Deliver(answer, n, Flatten(plans[..i + 1]), true, p).ok
    ensures var d := Deliver(answer, n, Flatten(plans), true, p);
            && !d.ok && Flatten(plans[..i]) < d.attempted <= Flatten(plans[..i + 1])
            && d == Deliver(answer, n, Flatten(plans[..i + 1]), true, p)
  {
    var before, upTo := Flatten(plans[..i]), Flatten(plans[..i + 1]);
    assert plans == plans[..i + 1] + plans[i + 1..];
    FlattenAppend(plans[..i + 1], plans[i + 1..]);
    DeliverSplit(answer, n, upTo, Flatten(plans[i + 1..]), true, p);
    assert plans[..i + 1] == plans[..i] + [plans[i]];
    FlattenAppend(plans[..i], [plans[i]]);
    FlattenSingle(plans[i]);
    DeliverSplit(answer, n, before, plans[i], true, p);
    var q := Deliver(answer, n, before, true, p).progress;
    DeliverPrefix(answer, n + Reaching(before), plans[i], true, q);
    DeliverFailed(answer, n + Reaching(before), plans[i], true, q);
  }

  lemma FlattenGrows(plans: seq<seq<Send>>, i: nat)
    requires i < |plans|
    ensures Flatten(plans[..i + 1]) == Flatten(plans[..i]) + plans[i]
  {
    assert plans[..i + 1] == plans[..i] + [plans[i]];
    FlattenAppend(plans[..i], [plans[i]]);
    FlattenSingle(plans[i]);
  }

  /**
   A forward that succeeds has sent every item in full, and reports the OneBot id of the last message
   of the last item.
   */
  lemma SuccessReportsLastBody(answer: nat -> Outcome, n: nat, plans: seq<seq<Send>>)
    requires Flatten(plans) != [] && Deliver(answer, n, Flatten(plans), true, START).ok
    ensures var d := Deliver(answer, n, Flatten(plans), true, START);
            var last := Result(answer, n + |Flatten(plans)| - 1, Last(Flatten(plans)));
            && d.attempted == Flatten(plans)
            && last.Mapped? && d.progress.lastId == Some(last.id)
            && d.progress.sentCount == Returned(answer, n, Flatten(plans))
  {
    DeliverPrefix(answer, n, Flatten(plans), true, START);
    DeliverCounts(answer, n, Flatten(plans), true, START);
    StrictSuccessReportsLast(answer, n, Flatten(plans), START);
  }

  // ---- the handler ----

  predicate AllAcceptable(items: seq<Translation>) {
    forall i :: 0 <= i < |items| ==> Acceptable(items[i])
  }

  predicate Sendable(items: seq<Translation>) {
    items != [] && AllAcceptable(items)
  }

  /** The answer to a forward that is turned down before anything is sent: the first bad item decides. */
  predicate TurnedDown(items: seq<Translation>, r: Response) {
    if items == [] then r == Failed(1400, 0, 0)
    else exists i :: 0 <= i < |items| && AllAcceptable(items[..i]) && !Acceptable(items[i]) &&
                     r == if items[i].Broken? then Raises else Failed(1400, i, 0)
  }

  /** The preflight loop: all items or none. */
  method Preflight(items: seq<Translation>) returns (prepared: seq<Outbound>, problem: Option<Response>)
    ensures problem.None? <==> Sendable(items)
    ensures problem.None? <==>
              items != [] && forall i :: 0 <= i < |items| ==>
                items[i].Ready? && (items[i].outbound.segments != [] || items[i].outbound.quote != "")
    ensures problem.None? ==> |prepared| == |items| && forall i :: 0 <= i < |items| ==> items[i] == Ready(prepared[i])
    ensures problem.Some? ==> TurnedDown(items, problem.value)
  {
    prepared := [];
    var i := 0;
    while i < |items|
      invariant 0 <= i <= |items| && |prepared| == i
      invariant forall k :: 0 <= k < i ==> items[k] == Ready(prepared[k]) && Acceptable(items[k])
    {
      match items[i] {
        case Broken => return prepared, Some(Raises);
        case Rejected => return prepared, Some(Failed(1400, i, 0));
        case Ready(o) =>
          if o.segments == [] && o.quote == "" {
            return prepared, Some(Failed(1400, i, 0));
          }
          prepared := prepared + [o];
      }
      i := i + 1;
    }
    if prepared == [] {
      return prepared, Some(Failed(1400, 0, 0));
    }
    problem := None;
  }

  /** The forward as far as item i (excluded) has been delivered without a failure. */
  ghost predicate SentUpTo(answer: nat -> Outcome, log: seq<Call>, now: seq<Call>, plans: seq<seq<Send>>,
                           thread: string,
                           i: nat, p: Progress)
    requires i <= |plans|
  {
    && Deliver(answer, |log|, Flatten(plans[..i]), true, START) == Delivery(Flatten(plans[..i]), true, p)
    && now == log + Calls(thread, Flatten(plans[..i]))
  }

  /** The forward ended in item i. */
  ghost predicate StoppedIn(answer: nat -> Outcome, log: seq<Call>, now: seq<Call>, plans: seq<seq<Send>>,
                            thread: string,
                            i: nat, sentCount: nat)
    requires i < |plans|
  {
    var d := Deliver(answer, |log|, Flatten(plans), true, START);
    && !d.ok && now == log + Calls(thread, d.attempted) && sentCount == d.progress.sentCount
    && Flatten(plans[..i]) < d.attempted <= Flatten(plans[..i + 1])
  }

  /** Item i has been attempted as far as it went. */
  lemma ItemStep(answer: nat -> Outcome, log: seq<Call>, before: seq<Call>, plans: seq<seq<Send>>, thread: string,
                 i: nat,
                 p: Progress, d: Delivery)
    requires i < |plans| && SentUpTo(answer, log, before, plans, thread, i, p)
    requires d == Deliver(answer, |before|, plans[i], true, p)
    ensures var now := before + Calls(thread, d.attempted);
            if d.ok then SentUpTo(answer, log, now, plans, thread, i + 1, d.progress)
            else StoppedIn(answer, log, now, plans, thread, i, d.progress.sentCount)
  {
    var done := Flatten(plans[..i]);
    CallsReaching(thread, done);
    FlattenGrows(plans, i);
    DeliverSplit(answer, |log|, done, plans[i], true, START);
    DeliverPrefix(answer, |before|, plans[i], true, p);
    LogTwice(log, thread, done, d.attempted);
    if !d.ok {
      FailingItemStops(answer, |log|, plans, i, START);
    }
  }

  method SendItem(server: Server, norm: string -> string, o: Outbound, thread: string, before: Progress,
                  ghost log: seq<Call>, ghost plans: seq<seq<Send>>, ghost i: nat)
    returns (ok: bool, progress: Progress)
    requires i < |plans| && plans[i] == ItemPlan(norm, o)
    requires SentUpTo(server.answer, log, server.log, plans, thread, i, before)
    modifies server
    ensures if ok then SentUpTo(server.answer, log, server.log, plans, thread, i + 1, progress)
            else StoppedIn(server.answer, log, server.log, plans, thread, i, progress.sentCount)
  {
    ItemStep(server.answer, log, server.log, plans, thread, i, before,
             Deliver(server.answer, |server.log|, plans[i], true, before));
    ok, progress := SendMessageSegments(server, norm, o.segments, thread, o.quote, o.mentions, o.replyMention, true,
        before);
  }

  /**
   The prepared items went out in order: what was called, and the answer. It reports the last mapped
   message, or the item that failed and how many messages came back before.
   */
  ghost predicate Sent(answer: nat -> Outcome, log: seq<Call>, now: seq<Call>, plans: seq<seq<Send>>, thread: string,
                       r: Response)
  {
    var d := Deliver(answer, |log|, Flatten(plans), true, START);
    && now == log + Calls(thread, d.attempted)
    && (d.ok && d.progress.lastId.Some? ==> r == Success(d.progress.lastId.value))
    && (d.ok && d.progress.lastId.None? ==> r == Failed(1500, |plans|, d.progress.sentCount))
    && (!d.ok ==> r.Failed? && r.retcode == 1500 && r.item < |plans| &&
                  StoppedIn(answer, log, now, plans, thread, r.item, r.sentCount))
  }

  /** The send loop over the prepared items. */
  method SendItems(server: Server, norm: string -> string, prepared: seq<Outbound>, thread: string)
    returns (r: Response)
    modifies server
    ensures Sent(server.answer, old(server.log), server.log, Plans(norm, prepared), thread, r)
  {
    ghost var plans := Plans(norm, prepared);
    var progress := START;
    var i := 0;
    while i < |prepared|
      invariant 0 <= i <= |prepared| && SentUpTo(server.answer, old(server.log), server.log, plans, thread, i, progress)
    {
      var ok;
      ok, progress := SendItem(server, norm, prepared[i], thread, progress, old(server.log), plans, i);
      if !ok {
        return Failed(1500, i, progress.sentCount);
      }
      i := i + 1;
    }
    assert plans[..i] == plans;
    match progress.lastId {
      case None => r := Failed(1500, |prepared|, progress.sentCount);
      case Some(id) => r := Success(id);
    }
  }

  function HeaderCall(title: string): Call {
    Call("", TextSend(title, "", [], ""))
  }

  /**
   A forward in a thread: the header goes out, outside any thread, before every body message, and only a
   header that is mapped lets them follow, in its thread. The count is that of body messages.
   */
  ghost predicate SentInThread(answer: nat -> Outcome, log: seq<Call>, now: seq<Call>, plans: seq<seq<Send>>,
                               setting: ThreadSetting, title: string, headerId: string, r: Response)
  {
    if setting != Enabled then now == log && r == Failed(1500, 0, 0)
    else if answer(|log|).Mapped? && headerId != ""
    then Sent(answer, log + [HeaderCall(title)], now, plans, headerId, r)
    else now == log + [HeaderCall(title)] && r == Failed(1500, 0, 0)
  }

  /** _send_forward_in_thread. */
  method SendForwardInThread(server: Server, norm: string -> string, prepared: seq<Outbound>, setting: ThreadSetting,
                             title: string, headerId: string)
    returns (r: Response)
    modifies server
    ensures SentInThread(server.answer, old(server.log), server.log, Plans(norm, prepared), setting, title, headerId, r)
  {
    if setting != Enabled {
      return Failed(1500, 0, 0);
    }
    CallsOne("", TextSend(title, "", [], ""));
    var o := server.Submit("", TextSend(title, "", [], ""));
    if !o.Mapped? || headerId == "" {
      return Failed(1500, 0, 0);
    }
    r := SendItems(server, norm, prepared, headerId);
  }

  /**
   In a thread as outside one: success means that every item went out in full, with the id of the last body
   message; failure names the item, keeps the items before it whole and counts what came back.
   */
  lemma SentMeans(answer: nat -> Outcome, log: seq<Call>, now: seq<Call>, plans: seq<seq<Send>>, thread: string,
                  r: Response)
    requires Sent(answer, log, now, plans, thread, r)
    ensures r.Success? ==>
              && Flatten(plans) != [] && now == log + Calls(thread, Flatten(plans))
              && Result(answer, |log| + |Flatten(plans)| - 1, Last(Flatten(plans))) == Mapped(r.id)
    ensures r.Failed? ==> r.retcode == 1500 && r.item <= |plans|
    ensures r.Failed? && r.item < |plans| ==>
              exists part :: part <= Flatten(plans[..r.item + 1]) && Flatten(plans[..r.item]) < part &&
                             now == log + Calls(thread, part) && r.sentCount == Returned(answer, |log|, part)
    ensures r.Failed? && r.item == |plans| ==> now == log + Calls(thread, Flatten(plans)) && Flatten(plans) == []
    ensures !r.Raises?
  {
    var d := Deliver(answer, |log|, Flatten(plans), true, START);
    DeliverCounts(answer, |log|, Flatten(plans), true, START);
    DeliverPrefix(answer, |log|, Flatten(plans), true, START);
    if d.ok && Flatten(plans) != [] {
      SuccessReportsLastBody(answer, |log|, plans);
    }
  }

  /** _handle_forward_send: parsed is None when the nodes cannot be parsed. */
  method HandleForwardSend(server: Server, norm: string -> string, parsed: Option<seq<Translation>>, threadMode: bool,
                           destination: Destination, setting: ThreadSetting, title: string, headerId: string)
    returns (r: Response, ghost prepared: seq<Outbound>)
    modifies server
    ensures parsed.None? ==> server.log == old(server.log) && r == Failed(1400, 0, 0)
    ensures parsed.Some? && destination.NotFound? ==> server.log == old(server.log) && r == Failed(1400, 0, 0)
    ensures parsed.Some? && destination.LookupBroken? ==> server.log == old(server.log) && r == Raises
    ensures parsed.Some? && destination.Found? && !Sendable(parsed.value) ==>
              server.log == old(server.log) && TurnedDown(parsed.value, r)
    ensures parsed.Some? && destination.Found? && Sendable(parsed.value) ==>
              var plans := Plans(norm, prepared);
              && |prepared| == |parsed.value| &&
                  (forall i :: 0 <= i < |prepared| ==> parsed.value[i] == Ready(prepared[i]))
              && if threadMode
                 then SentInThread(server.answer, old(server.log), server.log, plans, setting, title, headerId, r)
                 else Sent(server.answer, old(server.log), server.log, plans, destination.thread, r)
  {
    prepared := [];
    if parsed.None? {
      return Failed(1400, 0, 0), prepared;
    }
    match destination {
      case NotFound => return Failed(1400, 0, 0), prepared;
      case LookupBroken => return Raises, prepared;
      case Found(_) =>
    }
    var ready, problem := Preflight(parsed.value);
    prepared := ready;
    if problem.Some? {
      return problem.value, prepared;
    }
    if threadMode {
      r := SendForwardInThread(server, norm, ready, setting, title, headerId);
    } else {
      r := SendItems(server, norm, ready, destination.thread);
    }
  }
}
