/**
 The inbound side of the Rocket.Chat client: bounded queues chosen by room, and workers that are started
 on demand, retire when idle and are replaced from their completion callback.

 Each method is one uninterrupted stretch of the event loop, so any interleaving of coroutines is a
 sequence of calls.
 */
module InboundWorkers {
  import opened Seqs

  const QUEUE_MAX_SIZE := 256

  datatype Message = Message(room: string, id: int)

  /**
   Handed: the task that wait_for runs queue.get in has the message, and the worker has not resumed yet.
   Ended: done, with the completion callback still to come.
   */
  datatype Phase = Waiting | Handed(message: Message) | Handling(message: Message) | Ended | Collected

  datatype Task = Task(bucket: nat, phase: Phase)

  predicate Live(t: Task) {
    t.phase.Waiting? || t.phase.Handed? || t.phase.Handling?
  }

  function InHand(phase: Phase): seq<Message> {
    if phase.Handed? || phase.Handling? then [phase.message] else []
  }

  /** The workers that have been handed a message and do not know yet. */
  function HandedTo(tasks: map<nat, Task>): set<nat> {
    set t | t in tasks && tasks[t].phase.Handed?
  }

  lemma HandedAfter(tasks: map<nat, Task>, t: nat, task: Task)
    ensures HandedTo(tasks[t := task])
            == if task.phase.Handed? then HandedTo(tasks) + {t} else HandedTo(tasks) - {t}
  {
  }

  // ---- logs by bucket and by room ----

  function Bucket(hash: string -> int, room: string, count: nat): (b: nat)
    requires count > 0
    ensures b < count
  {
    hash(room) % count
  }

  /** The messages of one bucket in a log, in order. */
  function InBucket(log: seq<Message>, hash: string -> int, count: nat, b: nat): seq<Message>
    requires count > 0
  {
    if log == [] then []
    else
      InBucket(log[..|log| - 1], hash, count, b) +
      (if Bucket(hash, Last(log).room, count) == b then [Last(log)] else [])
  }

  function InRoom(log: seq<Message>, room: string): seq<Message> {
    if log == [] then []
    else InRoom(log[..|log| - 1], room) + (if Last(log).room == room then [Last(log)] else [])
  }

  lemma InBucketSnoc(log: seq<Message>, m: Message, hash: string -> int, count: nat, b: nat)
    requires count > 0
    ensures InBucket(log + [m], hash, count, b) ==
            InBucket(log, hash, count, b) + (if Bucket(hash, m.room, count) == b then [m] else [])
  {
    assert (log + [m])[..|log|] == log;
  }

  lemma InRoomOne(m: Message, room: string)
    ensures InRoom([m], room) == if m.room == room then [m] else []
  {
    assert [m][..0] == [];
  }

  lemma {:induction false} InRoomAppend(a: seq<Message>, b: seq<Message>, room: string)
    ensures InRoom(a + b, room) == InRoom(a, room) + InRoom(b, room)
  {
    if b == [] {
      assert a + b == a;
    } else {
      var front := b[..|b| - 1];
      assert (a + b)[..|a + b| - 1] == a + front;
      InRoomAppend(a, front, room);
    }
  }

  lemma {:induction false} RoomWithinBucket(log: seq<Message>, hash: string -> int, count: nat, room: string)
    requires count > 0
    ensures InRoom(InBucket(log, hash, count, Bucket(hash, room, count)), room) == InRoom(log, room)
  {
    if log != [] {
      var b, front, m := Bucket(hash, room, count), log[..|log| - 1], Last(log);
      RoomWithinBucket(front, hash, count, room);
      InRoomAppend(InBucket(front, hash, count, b), if Bucket(hash, m.room, count) == b then [m] else [], room);
      InRoomOne(m, room);
    }
  }

  /**
   Room order: whatever the workers did, the messages of a room are taken up in the order in which they
   were accepted, and those not taken up yet are exactly its messages still in its queue.
   */
  lemma RoomOrder(accepted: seq<Message>, started: seq<Message>, queued: seq<Message>,
                  hash: string -> int, count: nat, room: string)
    requires count > 0
    requires var b := Bucket(hash, room, count);
             InBucket(accepted, hash, count, b) == InBucket(started, hash, count, b) + queued
    ensures InRoom(accepted, room) == InRoom(started, room) + InRoom(queued, room)
  {
    var b := Bucket(hash, room, count);
    RoomWithinBucket(accepted, hash, count, room);
    RoomWithinBucket(started, hash, count, room);
    InRoomAppend(InBucket(started, hash, count, b), queued, room);
  }

  // ---- queue depth ----

  function Total(queues: seq<seq<Message>>): nat {
    if queues == [] then 0 else Total(queues[..|queues| - 1]) + |Last(queues)|
  }

  lemma {:induction false} TotalUpdate(queues: seq<seq<Message>>, b: nat, q: seq<Message>)
    requires b < |queues|
    ensures Total(queues[b := q]) == Total(queues) - |queues[b]| + |q|
    ensures Total(queues) >= |queues[b]|
  {
    if b < |queues| - 1 {
      var front := queues[..|queues| - 1];
      assert queues[b := q][..|queues| - 1] == front[b := q];
      TotalUpdate(front, b, q);
    } else {
      assert queues[b := q][..|queues| - 1] == queues[..|queues| - 1];
    }
  }

  lemma {:induction false} TotalEmpty(queues: seq<seq<Message>>)
    requires forall i :: 0 <= i < |queues| ==> queues[i] == []
    ensures Total(queues) == 0
  {
    if queues != [] {
      TotalEmpty(queues[..|queues| - 1]);
    }
  }

  // ---- workers ----

  /** At most one live worker a bucket, and it is the registered one; a registered one is not collected. */
  ghost predicate Registered(workers: map<nat, nat>, tasks: map<nat, Task>, count: nat) {
    && (forall t :: t in tasks ==> tasks[t].bucket < count)
    && (forall t :: t in tasks && Live(tasks[t]) ==> tasks[t].bucket in workers && workers[tasks[t].bucket] == t)
    && (forall b :: b in workers ==>
        workers[b] in tasks && tasks[workers[b]].bucket == b && tasks[workers[b]].phase != Collected)
  }

  /** A bucket with messages has a worker: live, or ended with its callback still to come. */
  ghost predicate Served(queues: seq<seq<Message>>, workers: map<nat, nat>) {
    forall b :: 0 <= b < |queues| && queues[b] != [] ==> b in workers
  }

  lemma ServedButOne(queues: seq<seq<Message>>, before: map<nat, nat>, after: map<nat, nat>, b: nat)
    requires Served(queues, before) && forall c :: c in before && c != b ==> c in after
    requires b < |queues| && queues[b] != [] ==> b in after
    ensures Served(queues, after)
  {
  }

  lemma OneLiveWorker(workers: map<nat, nat>, tasks: map<nat, Task>, count: nat, t: nat, u: nat)
    requires Registered(workers, tasks, count) && t in tasks && u in tasks
    requires Live(tasks[t]) && Live(tasks[u]) && tasks[t].bucket == tasks[u].bucket
    ensures t == u
  {
  }

  /** What the worker of a bucket is working on. */
  function HandOf(workers: map<nat, nat>, tasks: map<nat, Task>, b: nat): seq<Message> {
    if b in workers && workers[b] in tasks then InHand(tasks[workers[b]].phase) else []
  }

  function Hands(workers: map<nat, nat>, tasks: map<nat, Task>, count: nat): seq<seq<Message>> {
    seq(count, b requires 0 <= b < count => HandOf(workers, tasks, b))
  }

  /** A live worker moves on to another phase. */
  lemma PhaseChange(workers: map<nat, nat>, tasks: map<nat, Task>, count: nat, t: nat, phase: Phase)
    requires Registered(workers, tasks, count) && t in tasks && Live(tasks[t]) && phase != Collected
    ensures var b := tasks[t].bucket;
            var next := tasks[t := Task(b, phase)];
            && Registered(workers, next, count)
            && Hands(workers, tasks, count)[b] == InHand(tasks[t].phase)
            && Hands(workers, next, count) == Hands(workers, tasks, count)[b := InHand(phase)]
  {
  }

  lemma Hired(workers: map<nat, nat>, tasks: map<nat, Task>, count: nat, b: nat, id: nat)
    requires Registered(workers, tasks, count) && b < count && id !in tasks &&
             (b in workers ==> !Live(tasks[workers[b]]))
    ensures Registered(workers[b := id], tasks[id := Task(b, Waiting)], count)
    ensures Hands(workers[b := id], tasks[id := Task(b, Waiting)], count) == Hands(workers, tasks, count)
  {
  }

  lemma Dismissed(workers: map<nat, nat>, tasks: map<nat, Task>, count: nat, t: nat)
    requires Registered(workers, tasks, count) && t in tasks && tasks[t].phase.Ended?
    ensures var b := tasks[t].bucket;
            var left := if b in workers && workers[b] == t then workers - {b} else workers;
            var next := tasks[t := Task(b, Collected)];
            Registered(left, next, count) && Hands(left, next, count) == Hands(workers, tasks, count)
  {
  }

  // ---- conservation ----

  /** In every bucket: what was accepted is what was taken up and then what is queued. */
  ghost predicate Queued(accepted: seq<Message>, started: seq<Message>, queues: seq<seq<Message>>,
                         hash: string -> int) {
    |queues| > 0 && forall b {:trigger InBucket(accepted, hash, |queues|, b)} :: 0 <= b < |queues| ==>
      InBucket(accepted, hash, |queues|, b) == InBucket(started, hash, |queues|, b) + queues[b]
  }

  /** In every bucket: what was taken up is what is done with and then what is in hand. */
  ghost predicate Held(started: seq<Message>, finished: seq<Message>, hands: seq<seq<Message>>, hash: string -> int) {
    |hands| > 0 && forall b {:trigger InBucket(started, hash, |hands|, b)} :: 0 <= b < |hands| ==>
      InBucket(started, hash, |hands|, b) == InBucket(finished, hash, |hands|, b) + hands[b]
  }

  lemma Accept(accepted: seq<Message>, started: seq<Message>, queues: seq<seq<Message>>, hash: string -> int,
               m: Message)
    requires Queued(accepted, started, queues, hash)
    ensures var b := Bucket(hash, m.room, |queues|);
            Queued(accepted + [m], started, queues[b := queues[b] + [m]], hash)
  {
    forall c | 0 <= c < |queues|
      ensures InBucket(accepted + [m], hash, |queues|, c) ==
              InBucket(accepted, hash, |queues|, c) + (if Bucket(hash, m.room, |queues|) == c then [m] else [])
    {
      InBucketSnoc(accepted, m, hash, |queues|, c);
    }
  }

  lemma {:induction false} InBucketOnly(log: seq<Message>, hash: string -> int, count: nat, b: nat, i: nat)
    requires count > 0 && i < |InBucket(log, hash, count, b)|
    ensures Bucket(hash, InBucket(log, hash, count, b)[i].room, count) == b
  {
    if i < |InBucket(log[..|log| - 1], hash, count, b)| {
      InBucketOnly(log[..|log| - 1], hash, count, b, i);
    }
  }

  lemma HeadBelongs(accepted: seq<Message>, started: seq<Message>, queues: seq<seq<Message>>, hash: string -> int,
                    b: nat)
    requires Queued(accepted, started, queues, hash) && b < |queues| && queues[b] != []
    ensures Bucket(hash, queues[b][0].room, |queues|) == b
  {
    InBucketOnly(accepted, hash, |queues|, b, |InBucket(started, hash, |queues|, b)|);
  }

  lemma Start(accepted: seq<Message>, started: seq<Message>, queues: seq<seq<Message>>, hash: string -> int, b: nat)
    requires Queued(accepted, started, queues, hash) && b < |queues| && queues[b] != []
    ensures Queued(accepted, started + [queues[b][0]], queues[b := queues[b][1..]], hash)
    ensures Bucket(hash, queues[b][0].room, |queues|) == b
  {
    var m := queues[b][0];
    HeadBelongs(accepted, started, queues, hash, b);
    forall c | 0 <= c < |queues|
      ensures InBucket(started + [m], hash, |queues|, c) + queues[b := queues[b][1..]][c] ==
              InBucket(started, hash, |queues|, c) + queues[c]
    {
      InBucketSnoc(started, m, hash, |queues|, c);
      if c == b {
        assert queues[b] == [m] + queues[b][1..];
      }
    }
  }

  lemma Hold(started: seq<Message>, finished: seq<Message>, hands: seq<seq<Message>>, hash: string -> int, b: nat,
      m: Message)
    requires Held(started, finished, hands, hash) && b < |hands| && hands[b] == [] && Bucket(hash, m.room, |hands|) == b
    ensures Held(started + [m], finished, hands[b := [m]], hash)
  {
    forall c | 0 <= c < |hands|
      ensures InBucket(started + [m], hash, |hands|, c) == InBucket(finished, hash, |hands|, c) + hands[b := [m]][c]
    {
      InBucketSnoc(started, m, hash, |hands|, c);
    }
  }

  lemma Release(started: seq<Message>, finished: seq<Message>, hands: seq<seq<Message>>, hash: string -> int, b: nat,
      m: Message)
    requires Held(started, finished, hands, hash) && b < |hands| && hands[b] == [m]
    ensures Held(started, finished + [m], hands[b := []], hash)
  {
    assert InBucket(started, hash, |hands|, b)[|InBucket(finished, hash, |hands|, b)|] == m;
    InBucketOnly(started, hash, |hands|, b, |InBucket(finished, hash, |hands|, b)|);
    forall c | 0 <= c < |hands|
      ensures InBucket(started, hash, |hands|, c) == InBucket(finished + [m], hash, |hands|, c) + hands[b := []][c]
    {
      InBucketSnoc(finished, m, hash, |hands|, c);
    }
  }

  lemma StillServed(queues: seq<seq<Message>>, before: map<nat, nat>, after: map<nat, nat>, b: nat, q: seq<Message>)
    requires Served(queues, before) && b < |queues| && (q == [] || b in after)
    requires forall c :: c in before && c != b ==> c in after
    ensures Served(queues[b := q], after)
  {
  }

  lemma HoldStep(workers: map<nat, nat>, tasks: map<nat, Task>, count: nat,
                 started: seq<Message>, finished: seq<Message>, hash: string -> int, t: nat, m: Message)
    requires Registered(workers, tasks, count) && Held(started, finished, Hands(workers, tasks, count), hash)
    requires t in tasks && tasks[t].phase.Waiting? && Bucket(hash, m.room, count) == tasks[t].bucket
    ensures var next := tasks[t := Task(tasks[t].bucket, Handed(m))];
            Registered(workers, next, count) && Held(started + [m], finished, Hands(workers, next, count), hash)
  {
    PhaseChange(workers, tasks, count, t, Handed(m));
    Hold(started, finished, Hands(workers, tasks, count), hash, tasks[t].bucket, m);
  }

  lemma ResumeStep(workers: map<nat, nat>, tasks: map<nat, Task>, count: nat, t: nat)
    requires Registered(workers, tasks, count) && t in tasks && tasks[t].phase.Handed?
    ensures var next := tasks[t := Task(tasks[t].bucket, Handling(tasks[t].phase.message))];
            Registered(workers, next, count) && Hands(workers, next, count) == Hands(workers, tasks, count)
  {
    PhaseChange(workers, tasks, count, t, Handling(tasks[t].phase.message));
  }

  lemma ReleaseStep(workers: map<nat, nat>, tasks: map<nat, Task>, count: nat,
                    started: seq<Message>, finished: seq<Message>, hash: string -> int, t: nat)
    requires Registered(workers, tasks, count) && Held(started, finished, Hands(workers, tasks, count), hash)
    requires t in tasks && tasks[t].phase.Handling?
    ensures var next := tasks[t := Task(tasks[t].bucket, Waiting)];
            Registered(workers, next, count) &&
                Held(started, finished + [tasks[t].phase.message], Hands(workers, next, count), hash)
  {
    PhaseChange(workers, tasks, count, t, Waiting);
    Release(started, finished, Hands(workers, tasks, count), hash, tasks[t].bucket, tasks[t].phase.message);
  }

  class RocketChatClient {
    const hash: string -> int
    const count: nat
    var running: bool
    var queues: seq<seq<Message>>
    var workers: map<nat, nat>
    var tasks: map<nat, Task>
    var depth: nat
    var accepted: nat
    var dropped: nat

    /** Every message offered, accepted, taken up and done with, in the order of those events. */
    ghost var offeredLog: seq<Message>
    ghost var acceptedLog: seq<Message>
    ghost var startedLog: seq<Message>
    ghost var finishedLog: seq<Message>

    /** The depth counts the messages queued, and those handed out that the worker has not seen yet. */
    ghost predicate Bounded()
      reads this`queues, this`depth, this`tasks
    {
      && |queues| == count > 0 && depth == Total(queues) + |HandedTo(tasks)|
      && forall b :: 0 <= b < |queues| ==> |queues[b]| <= QUEUE_MAX_SIZE
    }

    /** The state of a running client. */
    ghost predicate Valid()
      reads this
    {
      && Bounded() && Served(queues, workers)
      && Registered(workers, tasks, count)
      && Queued(acceptedLog, startedLog, queues, hash)
      && Held(startedLog, finishedLog, Hands(workers, tasks, count), hash)
      && Tallied()
    }

    constructor (hash: string -> int, count: nat)
      requires count > 0
      ensures Valid() && running && offeredLog == []
    {
      this.hash, this.count := hash, count;
      running := true;
      queues := seq(count, _ => []);
      workers, tasks, depth, accepted, dropped := map[], map[], 0, 0, 0;
      offeredLog, acceptedLog, startedLog, finishedLog := [], [], [], [];
      new;
      TotalEmpty(queues);
      assert HandedTo(tasks) == {};
    }

    /** _ensure_inbound_worker: a worker of the bucket that is not done is left alone. */
    method EnsureInboundWorker(b: nat, id: nat)
      requires Registered(workers, tasks, count) && b < count && id !in tasks
      modifies this`tasks, this`workers
      ensures Registered(workers, tasks, count) && b in workers && Live(tasks[workers[b]])
      ensures forall c :: c in old(workers) ==> c in workers
      ensures forall t :: t in old(tasks) ==> t in tasks && tasks[t] == old(tasks)[t]
      ensures Hands(workers, tasks, count) == old(Hands(workers, tasks, count))
      ensures HandedTo(tasks) == old(HandedTo(tasks))
    {
      if b in workers && Live(tasks[workers[b]]) {
        return;
      }
      Hired(workers, tasks, count, b, id);
      HandedAfter(tasks, id, Task(b, Waiting));
      tasks := tasks[id := Task(b, Waiting)];
      workers := workers[b := id];
    }

    ghost predicate Tallied()
      reads this`accepted, this`dropped, this`acceptedLog, this`offeredLog
    {
      accepted == |acceptedLog| && |offeredLog| == accepted + dropped
    }

    /** put_nowait on a queue with room. */
    method Admit(m: Message)
      requires Bounded() && Queued(acceptedLog, startedLog, queues, hash) && Tallied()
      requires |queues[Bucket(hash, m.room, count)]| < QUEUE_MAX_SIZE
      modifies this`queues, this`depth, this`acceptedLog, this`accepted, this`offeredLog
      ensures Bounded() && Queued(acceptedLog, startedLog, queues, hash) && Tallied()
      ensures var b := Bucket(hash, m.room, count);
              queues == old(queues)[b := old(queues)[b] + [m]]
      ensures acceptedLog == old(acceptedLog) + [m] && offeredLog == old(offeredLog) + [m]
    {
      var b := Bucket(hash, m.room, count);
      TotalUpdate(queues, b, queues[b] + [m]);
      Accept(acceptedLog, startedLog, queues, hash, m);
      queues := queues[b := queues[b] + [m]];
      depth := depth + 1;
      accepted := accepted + 1;
      acceptedLog := acceptedLog + [m];
      offeredLog := offeredLog + [m];
    }

    method CountDropped(m: Message)
      requires Valid()
      modifies this`dropped, this`offeredLog
      ensures Valid() && offeredLog == old(offeredLog) + [m] && dropped == old(dropped) + 1
    {
      offeredLog := offeredLog + [m];
      dropped := dropped + 1;
    }

    /** One queue has changed: see to it that it has a worker. */
    method ServeBucket(b: nat, id: nat, ghost before: seq<seq<Message>>)
      requires Registered(workers, tasks, count) && Served(before, workers) && id !in tasks
      requires b < count == |before| && |queues| == count && queues == before[b := queues[b]]
      modifies this`tasks, this`workers
      ensures Registered(workers, tasks, count) && Served(queues, workers)
      ensures Hands(workers, tasks, count) == old(Hands(workers, tasks, count))
      ensures HandedTo(tasks) == old(HandedTo(tasks))
    {
      EnsureInboundWorker(b, id);
      StillServed(before, old(workers), workers, b, queues[b]);
    }

    /** The message joins its queue, which is then served. */
    method AcceptMessage(m: Message, id: nat)
      requires Valid() && id !in tasks && |queues[Bucket(hash, m.room, count)]| < QUEUE_MAX_SIZE
      modifies this`queues, this`workers, this`tasks, this`depth, this`accepted, this`offeredLog, this`acceptedLog
      ensures Valid() && offeredLog == old(offeredLog) + [m] && acceptedLog == old(acceptedLog) + [m]
      ensures var b := Bucket(hash, m.room, count);
              queues == old(queues)[b := old(queues)[b] + [m]]
    {
      var b := Bucket(hash, m.room, count);
      Admit(m);
      ServeBucket(b, id, old(queues));
    }

    /** _enqueue_incoming_message: the newest message is dropped when its queue is full. */
    method EnqueueIncomingMessage(m: Message, id: nat)
      requires Valid() && id !in tasks
      modifies this`queues, this`workers, this`tasks, this`depth, this`accepted, this`dropped, this`offeredLog,
          this`acceptedLog
      ensures Valid() && offeredLog == old(offeredLog) + [m]
      ensures var b := hash(m.room) % count;
              if |old(queues)[b]| < QUEUE_MAX_SIZE
              then acceptedLog == old(acceptedLog) + [m] && queues == old(queues)[b := old(queues)[b] + [m]] &&
                  dropped == old(dropped)
              else acceptedLog == old(acceptedLog) && queues == old(queues) && dropped == old(dropped) + 1
    {
      if |queues[Bucket(hash, m.room, count)]| >= QUEUE_MAX_SIZE {
        CountDropped(m);
      } else {
        AcceptMessage(m, id);
      }
    }

    /** queue.get on a queue with messages. */
    method Remove(b: nat) returns (m: Message)
      requires Bounded() && Queued(acceptedLog, startedLog, queues, hash) && b < count && queues[b] != []
      modifies this`queues, this`startedLog
      ensures Queued(acceptedLog, startedLog, queues, hash) && Bucket(hash, m.room, count) == b
      ensures |queues| == count && Total(queues) == Total(old(queues)) - 1
      ensures m == old(queues)[b][0] && queues == old(queues)[b := old(queues)[b][1..]] &&
              startedLog == old(startedLog) + [m]
    {
      m := queues[b][0];
      TotalUpdate(queues, b, queues[b][1..]);
      Start(acceptedLog, startedLog, queues, hash, b);
      queues := queues[b := queues[b][1..]];
      startedLog := startedLog + [m];
    }

    /** A worker's queue.get returns: the head of its bucket's queue is in hand, and still counted as queued. */
    method TakeUp(t: nat)
      requires Valid() && t in tasks && tasks[t].phase.Waiting? && queues[tasks[t].bucket] != []
      modifies this`tasks, this`queues, this`startedLog
      ensures Valid()
      ensures var b := old(tasks)[t].bucket;
              var m := old(queues)[b][0];
              && tasks == old(tasks)[t := Task(b, Handed(m))] && queues == old(queues)[b := old(queues)[b][1..]]
              && startedLog == old(startedLog) + [m]
    {
      var b := tasks[t].bucket;
      var m := Remove(b);
      HoldStep(workers, tasks, count, old(startedLog), finishedLog, hash, t, m);
      HandedAfter(tasks, t, Task(b, Handed(m)));
      tasks := tasks[t := Task(b, Handed(m))];
    }

    /** The worker resumes behind wait_for with the message it was handed. */
    method BeginMessage(t: nat)
      requires Valid() && t in tasks && tasks[t].phase.Handed?
      modifies this`tasks, this`depth
      ensures Valid() && depth == old(depth) - 1
      ensures tasks == old(tasks)[t := Task(old(tasks)[t].bucket, Handling(old(tasks)[t].phase.message))]
    {
      var next := Task(tasks[t].bucket, Handling(tasks[t].phase.message));
      ResumeStep(workers, tasks, count, t);
      HandedAfter(tasks, t, next);
      assert t in HandedTo(tasks);
      depth := Max(0, depth - 1);
      tasks := tasks[t := next];
    }

    /** The handler is done with the message in hand, whether it raised or not. */
    method FinishMessage(t: nat)
      requires Valid() && t in tasks && tasks[t].phase.Handling?
      modifies this`tasks, this`finishedLog
      ensures Valid() && tasks == old(tasks)[t := Task(old(tasks)[t].bucket, Waiting)]
      ensures finishedLog == old(finishedLog) + [old(tasks)[t].phase.message]
    {
      var b, m := tasks[t].bucket, tasks[t].phase.message;
      ReleaseStep(workers, tasks, count, startedLog, finishedLog, hash, t);
      HandedAfter(tasks, t, Task(b, Waiting));
      finishedLog := finishedLog + [m];
      tasks := tasks[t := Task(b, Waiting)];
    }

    /** wait_for times out: the worker retires, even if a message has arrived in the meantime. */
    method Retire(t: nat)
      requires Valid() && t in tasks && tasks[t].phase.Waiting?
      modifies this`tasks
      ensures Valid() && tasks == old(tasks)[t := Task(old(tasks)[t].bucket, Ended)]
    {
      PhaseChange(workers, tasks, count, t, Ended);
      assert Hands(workers, tasks, count)[tasks[t].bucket := []] == Hands(workers, tasks, count);
      HandedAfter(tasks, t, Task(tasks[t].bucket, Ended));
      tasks := tasks[t := Task(tasks[t].bucket, Ended)];
    }

    method Forget(t: nat)
      requires Registered(workers, tasks, count) && t in tasks && tasks[t].phase.Ended?
      modifies this`tasks, this`workers
      ensures Registered(workers, tasks, count) && tasks == old(tasks)[t := Task(old(tasks)[t].bucket, Collected)]
      ensures Hands(workers, tasks, count) == old(Hands(workers, tasks, count))
      ensures HandedTo(tasks) == old(HandedTo(tasks))
      ensures forall c :: c in old(workers) && c != old(tasks)[t].bucket ==> c in workers
    {
      var b := tasks[t].bucket;
      Dismissed(workers, tasks, count, t);
      HandedAfter(tasks, t, Task(b, Collected));
      tasks := tasks[t := Task(b, Collected)];
      if b in workers && workers[b] == t {
        workers := workers - {b};
      }
    }

    /** _on_inbound_worker_done: forget the worker, and replace it if messages are waiting. */
    method OnInboundWorkerDone(t: nat, id: nat)
      requires Valid() && running && t in tasks && tasks[t].phase.Ended? && id !in tasks
      modifies this`tasks, this`workers
      ensures Valid()
      ensures t in tasks && tasks[t].phase.Collected?
      ensures var b := old(tasks)[t].bucket;
              queues[b] != [] ==> b in workers && Live(tasks[workers[b]])
    {
      Replace(t, id);
    }

    method Replace(t: nat, id: nat)
      requires Registered(workers, tasks, count) && Served(queues, workers) && |queues| == count
      requires t in tasks && tasks[t].phase.Ended? && id !in tasks
      modifies this`tasks, this`workers
      ensures Registered(workers, tasks, count) && Served(queues, workers)
      ensures Hands(workers, tasks, count) == old(Hands(workers, tasks, count))
      ensures HandedTo(tasks) == old(HandedTo(tasks))
      ensures t in tasks && tasks[t].phase.Collected?
      ensures var b := old(tasks)[t].bucket;
              b < count && (queues[b] != [] ==> b in workers && Live(tasks[workers[b]]))
    {
      var b := tasks[t].bucket;
      Forget(t);
      if queues[b] != [] {
        EnsureInboundWorker(b, id);
      }
      ServedButOne(queues, old(workers), workers, b);
    }
  }
}
