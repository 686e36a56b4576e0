/**
 The asynchronous log dispatcher: two bounded queues, and which record gives way when one is full.

 Every record carries the number of its submission, so that order and identity can be spoken about.
 */
module LogDispatcher {
  import opened Seqs

  const DEBUG := 10
  const WARNING := 30
  const ERROR := 40

  datatype LogRecord = LogRecord(level: int, serial: nat)

  datatype Class = Debug | Info | Warning | Error

  /** The four classes _count_drop tells apart. */
  function ClassOf(r: LogRecord): Class {
    if r.level >= ERROR then Error
    else if r.level >= WARNING then Warning
    else if r.level <= DEBUG then Debug
    else Info
  }

  /** In terms of the levels of the logging module. */
  lemma ClassesByLevel(r: LogRecord)
    ensures ClassOf(r) == Error <==> r.level >= 40
    ensures ClassOf(r) == Warning <==> 30 <= r.level < 40
    ensures ClassOf(r) == Info <==> 10 < r.level < 30
    ensures ClassOf(r) == Debug <==> r.level <= 10
    ensures Urgent(r) <==> r.level >= 30
  {
  }

  predicate Urgent(r: LogRecord) {
    ClassOf(r) == Warning || ClassOf(r) == Error
  }

  function Count(rs: seq<LogRecord>, c: Class): nat {
    if rs == [] then 0 else Count(rs[..|rs| - 1], c) + (if ClassOf(Last(rs)) == c then 1 else 0)
  }

  predicate InOrder(rs: seq<LogRecord>) {
    forall i, j :: 0 <= i < j < |rs| ==> rs[i].serial < rs[j].serial
  }

  function Without(rs: seq<LogRecord>, i: nat): seq<LogRecord>
    requires i < |rs|
  {
    rs[..i] + rs[i + 1..]
  }

  lemma WithoutOne(rs: seq<LogRecord>, i: nat)
    requires i < |rs|
    ensures multiset(rs) == multiset(Without(rs, i)) + multiset{rs[i]}
    ensures InOrder(rs) ==> InOrder(Without(rs, i))
  {
    assert rs == rs[..i] + [rs[i]] + rs[i + 1..];
    WithoutInOrder(rs, i);
  }

  lemma WithoutInOrder(rs: seq<LogRecord>, i: nat)
    requires i < |rs|
    ensures InOrder(rs) ==> InOrder(Without(rs, i))
  {
  }

  lemma CountSnoc(rs: seq<LogRecord>, r: LogRecord, c: Class)
    ensures Count(rs + [r], c) == Count(rs, c) + (if ClassOf(r) == c then 1 else 0)
  {
    assert (rs + [r])[..|rs|] == rs;
  }

  lemma {:induction false} CountAppend(a: seq<LogRecord>, b: seq<LogRecord>, c: Class)
    ensures Count(a + b, c) == Count(a, c) + Count(b, c)
  {
    if b == [] {
      assert a + b == a;
    } else {
      assert (a + b)[..|a + b| - 1] == a + b[..|b| - 1];
      CountAppend(a, b[..|b| - 1], c);
    }
  }

  lemma CountWithout(rs: seq<LogRecord>, i: nat, c: Class)
    requires i < |rs|
    ensures Count(rs, c) == Count(Without(rs, i), c) + (if ClassOf(rs[i]) == c then 1 else 0)
  {
    assert rs == (rs[..i] + [rs[i]]) + rs[i + 1..];
    CountAppend(rs[..i] + [rs[i]], rs[i + 1..], c);
    CountSnoc(rs[..i], rs[i], c);
    CountAppend(rs[..i], rs[i + 1..], c);
  }

  /** Two lists with the same records have as many of each class. */
  lemma {:induction false} CountOfSameRecords(a: seq<LogRecord>, b: seq<LogRecord>, c: Class)
    requires multiset(a) == multiset(b)
    ensures Count(a, c) == Count(b, c)
    decreases |a|
  {
    if a == [] {
      assert |b| == |multiset(b)| == |multiset(a)|;
    } else {
      assert a[0] in multiset(b);
      var i :| 0 <= i < |b| && b[i] == a[0];
      WithoutOne(a, 0);
      WithoutOne(b, i);
      assert multiset(Without(a, 0)) == multiset(a) - multiset{a[0]};
      assert multiset(Without(b, i)) == multiset(b) - multiset{a[0]};
      CountOfSameRecords(Without(a, 0), Without(b, i), c);
      CountWithout(a, 0, c);
      CountWithout(b, i, c);
    }
  }

  /**
   Conservation: when every submitted record is in exactly one of the places where it can be, each class
   has been submitted as often as it was handled, is queued, or was dropped.
   */
  lemma ConservedPerClass(submitted: seq<LogRecord>, handled: seq<LogRecord>, queued: seq<LogRecord>,
      dropped: seq<LogRecord>, c: Class)
    requires multiset(submitted) == multiset(handled) + multiset(queued) + multiset(dropped)
    ensures Count(submitted, c) == Count(handled, c) + Count(queued, c) + Count(dropped, c)
  {
    var all := handled + queued + dropped;
    assert multiset(all) == multiset(submitted);
    CountOfSameRecords(submitted, all, c);
    CountAppend(handled + queued, dropped, c);
    CountAppend(handled, queued, c);
  }

  /**
   A full queue takes in r: the oldest record of the expendable class gives way, or r itself if it is of
   that class or there is none.
   */
  ghost predicate GivesWay(before: seq<LogRecord>, r: LogRecord, after: seq<LogRecord>,
                           dropped: seq<LogRecord>, droppedBefore: seq<LogRecord>, expendable: Class) {
    || (dropped == droppedBefore + [r] && after == before &&
        (ClassOf(r) == expendable || forall q :: q in before ==> ClassOf(q) != expendable))
    || (ClassOf(r) != expendable &&
        exists i :: 0 <= i < |before| && ClassOf(before[i]) == expendable && after == Without(before, i) + [r] &&
                    dropped == droppedBefore + [before[i]] && forall k :: 0 <= k < i ==>
                        ClassOf(before[k]) != expendable)
  }

  /** The records of one queue, taken or still there: of its kind, in order, and among the first n. */
  ghost predicate Line(rs: seq<LogRecord>, urgent: bool, n: nat) {
    InOrder(rs) && forall i :: 0 <= i < |rs| ==> Urgent(rs[i]) == urgent && rs[i].serial < n
  }

  lemma RemoveKeepsLine(taken: seq<LogRecord>, queue: seq<LogRecord>, i: nat, urgent: bool, n: nat)
    requires i < |queue| && Line(taken + queue, urgent, n)
    ensures Line(taken + Without(queue, i), urgent, n)
  {
    assert Without(taken + queue, |taken| + i) == taken + Without(queue, i);
  }

  lemma AppendKeepsLine(taken: seq<LogRecord>, queue: seq<LogRecord>, r: LogRecord, urgent: bool)
    requires Line(taken + queue, urgent, r.serial) && Urgent(r) == urgent
    ensures Line(taken + (queue + [r]), urgent, r.serial + 1)
  {
    assert taken + (queue + [r]) == (taken + queue) + [r];
  }

  /**
   A full critical queue takes in r: a warning is turned away, an error takes the place of the oldest
   warning, and only if there is none that of the oldest error.
   */
  ghost predicate CriticalGivesWay(before: seq<LogRecord>, r: LogRecord, after: seq<LogRecord>,
                                   dropped: seq<LogRecord>, droppedBefore: seq<LogRecord>) {
    if ClassOf(r) != Error then dropped == droppedBefore + [r] && after == before
    else if forall q :: q in before ==> ClassOf(q) == Error
    then before != [] && dropped == droppedBefore + [before[0]] && after == before[1..] + [r]
    else exists i :: 0 <= i < |before| && ClassOf(before[i]) != Error && after == Without(before, i) + [r] &&
                     dropped == droppedBefore + [before[i]] && forall k :: 0 <= k < i ==> ClassOf(before[k]) == Error
  }

  class AsyncLogDispatcher {
    const normalCapacity: nat
    const criticalCapacity: nat
    var normal: seq<LogRecord>
    var critical: seq<LogRecord>
    var running: bool
    var highWaterNormal: nat
    var highWaterCritical: nat
    var dropped: map<Class, nat>

    /** Every record submitted, taken from each queue, and dropped. */
    ghost var submitted: seq<LogRecord>
    ghost var takenNormal: seq<LogRecord>
    ghost var takenCritical: seq<LogRecord>
    ghost var droppedLog: seq<LogRecord>

    ghost predicate Valid()
      reads this
    {
      NormalOk() && CriticalOk() && Accounted() && DropsCounted()
    }

    ghost predicate NormalOk()
      reads this`normal, this`takenNormal, this`submitted, this`highWaterNormal
    {
      |normal| <= normalCapacity && |normal| <= highWaterNormal && Line(takenNormal + normal, false, |submitted|)
    }

    ghost predicate CriticalOk()
      reads this`critical, this`takenCritical, this`submitted, this`highWaterCritical
    {
      && 0 < criticalCapacity && |critical| <= criticalCapacity && |critical| <= highWaterCritical
      && Line(takenCritical + critical, true, |submitted|)
    }

    /** Every submitted record is handled, queued or dropped, and nothing else is. */
    ghost predicate Accounted()
      reads this`submitted, this`takenNormal, this`takenCritical, this`normal, this`critical, this`droppedLog
    {
      multiset(submitted) ==
      (multiset(takenNormal) + multiset(normal)) + (multiset(takenCritical) + multiset(critical)) + multiset(droppedLog)
    }

    ghost predicate DropsCounted()
      reads this`dropped, this`droppedLog
    {
      forall c: Class :: c in dropped && dropped[c] == Count(droppedLog, c)
    }

    constructor (normalCapacity: int, criticalCapacity: int)
      ensures Valid() && running && submitted == []
    {
      this.normalCapacity, this.criticalCapacity := Max(1, normalCapacity), Max(1, criticalCapacity);
      normal, critical, running := [], [], true;
      highWaterNormal, highWaterCritical := 0, 0;
      dropped := map[Debug := 0, Info := 0, Warning := 0, Error := 0];
      submitted, takenNormal, takenCritical, droppedLog := [], [], [], [];
      new;
      forall c: Class
        ensures c in dropped && dropped[c] == 0
      {
        match c {
          case Debug =>
          case Info =>
          case Warning =>
          case Error =>
        }
      }
    }

    method Drop(r: LogRecord)
      requires DropsCounted()
      modifies this`dropped, this`droppedLog
      ensures DropsCounted() && droppedLog == old(droppedLog) + [r]
    {
      forall c: Class
        ensures Count(droppedLog + [r], c) == Count(droppedLog, c) + (if ClassOf(r) == c then 1 else 0)
      {
        CountSnoc(droppedLog, r, c);
      }
      dropped := dropped[ClassOf(r) := dropped[ClassOf(r)] + 1];
      droppedLog := droppedLog + [r];
    }

    /** The first queued record of a class, or the length of the queue. */
    method FirstOf(queue: seq<LogRecord>, c: Class) returns (i: nat)
      ensures i <= |queue|
      ensures i < |queue| ==> ClassOf(queue[i]) == c
      ensures forall k :: 0 <= k < i ==> ClassOf(queue[k]) != c
    {
      i := 0;
      while i < |queue|
        invariant 0 <= i <= |queue|
        invariant forall k :: 0 <= k < i ==> ClassOf(queue[k]) != c
      {
        if ClassOf(queue[i]) == c {
          return;
        }
        i := i + 1;
      }
    }

    /** A record is turned away. */
    method TurnAway(r: LogRecord)
      requires Valid()
      modifies this`dropped, this`droppedLog, this`submitted
      ensures Valid() && submitted == old(submitted) + [r] && droppedLog == old(droppedLog) + [r]
    {
      Drop(r);
      submitted := submitted + [r];
    }

    /** The record at i of the normal queue is dropped and r takes its turn at the end. */
    method ReplaceNormal(i: nat, r: LogRecord)
      requires Valid() && i < |normal| && !Urgent(r) && r.serial == |submitted|
      modifies this`normal, this`dropped, this`droppedLog, this`submitted
      ensures Valid() && submitted == old(submitted) + [r]
      ensures normal == Without(old(normal), i) + [r] && droppedLog == old(droppedLog) + [old(normal)[i]]
    {
      WithoutOne(normal, i);
      RemoveKeepsLine(takenNormal, normal, i, false, |submitted|);
      AppendKeepsLine(takenNormal, Without(normal, i), r, false);
      Drop(normal[i]);
      normal := Without(normal, i) + [r];
      submitted := submitted + [r];
    }

    /** _submit_normal: a full queue gives up its oldest debug record for anything above debug. */
    method SubmitNormal(r: LogRecord)
      requires Valid() && !Urgent(r) && r.serial == |submitted|
      modifies this`normal, this`highWaterNormal, this`dropped, this`droppedLog, this`submitted
      ensures Valid() && submitted == old(submitted) + [r]
      ensures |old(normal)| < normalCapacity ==> normal == old(normal) + [r] && droppedLog == old(droppedLog)
      ensures |old(normal)| >= normalCapacity ==> GivesWay(old(normal), r, normal, droppedLog, old(droppedLog), Debug)
      ensures highWaterNormal == Max(old(highWaterNormal), |normal|)
    {
      if |normal| < normalCapacity {
        AppendKeepsLine(takenNormal, normal, r, false);
        normal := normal + [r];
        submitted := submitted + [r];
        highWaterNormal := Max(highWaterNormal, |normal|);
        return;
      }
      if ClassOf(r) == Debug {
        TurnAway(r);
        return;
      }
      var i := FirstOf(normal, Debug);
      if i == |normal| {
        TurnAway(r);
      } else {
        ReplaceNormal(i, r);
      }
    }

    method ReplaceCritical(i: nat, r: LogRecord)
      requires Valid() && i < |critical| && Urgent(r) && r.serial == |submitted|
      modifies this`critical, this`dropped, this`droppedLog, this`submitted
      ensures Valid() && submitted == old(submitted) + [r]
      ensures critical == Without(old(critical), i) + [r] && droppedLog == old(droppedLog) + [old(critical)[i]]
    {
      WithoutOne(critical, i);
      RemoveKeepsLine(takenCritical, critical, i, true, |submitted|);
      AppendKeepsLine(takenCritical, Without(critical, i), r, true);
      Drop(critical[i]);
      critical := Without(critical, i) + [r];
      submitted := submitted + [r];
    }

    /** _submit_critical with the queue full. */
    method MakeRoomForCritical(r: LogRecord)
      requires Valid() && Urgent(r) && r.serial == |submitted| && |critical| >= criticalCapacity
      modifies this`critical, this`dropped, this`droppedLog, this`submitted
      ensures Valid() && submitted == old(submitted) + [r] && |critical| == |old(critical)|
      ensures CriticalGivesWay(old(critical), r, critical, droppedLog, old(droppedLog))
    {
      if ClassOf(r) != Error {
        TurnAway(r);
        return;
      }
      AllUrgent(takenCritical, critical, |submitted|);
      var i := FirstOf(critical, Warning);
      if i < |critical| {
        ReplaceCritical(i, r);
      } else {
        ReplaceCritical(0, r);
        assert Without(old(critical), 0) == old(critical)[1..];
      }
    }

    /** _submit_critical. */
    method SubmitCritical(r: LogRecord)
      requires Valid() && Urgent(r) && r.serial == |submitted|
      modifies this`critical, this`highWaterCritical, this`dropped, this`droppedLog, this`submitted
      ensures Valid() && submitted == old(submitted) + [r]
      ensures |old(critical)| < criticalCapacity ==> critical == old(critical) + [r] && droppedLog == old(droppedLog)
      ensures |old(critical)| >= criticalCapacity ==>
              CriticalGivesWay(old(critical), r, critical, droppedLog, old(droppedLog))
      ensures highWaterCritical == Max(old(highWaterCritical), |critical|)
    {
      if |critical| < criticalCapacity {
        AppendKeepsLine(takenCritical, critical, r, true);
        critical := critical + [r];
        submitted := submitted + [r];
        highWaterCritical := Max(highWaterCritical, |critical|);
      } else {
        MakeRoomForCritical(r);
      }
    }

    /** submit. */
    method Submit(r: LogRecord)
      requires Valid() && r.serial == |submitted|
      modifies this
      ensures Valid() && submitted == old(submitted) + [r] && running == old(running)
      ensures !running ==> normal == old(normal) && critical == old(critical) && droppedLog == old(droppedLog) + [r]
      ensures running && Urgent(r) ==>
                && normal == old(normal)
                && if |old(critical)| < criticalCapacity then critical == old(critical) + [r] &&
                    droppedLog == old(droppedLog)
                   else CriticalGivesWay(old(critical), r, critical, droppedLog, old(droppedLog))
      ensures running && !Urgent(r) ==>
                && critical == old(critical)
                && if |old(normal)| < normalCapacity then normal == old(normal) + [r] && droppedLog == old(droppedLog)
                   else GivesWay(old(normal), r, normal, droppedLog, old(droppedLog), Debug)
      ensures takenNormal == old(takenNormal) && takenCritical == old(takenCritical)
    {
      if !running {
        TurnAway(r);
      } else if r.level >= WARNING {
        SubmitCritical(r);
      } else {
        SubmitNormal(r);
      }
    }

    method TakeCritical() returns (r: LogRecord)
      requires Valid() && critical != []
      modifies this`critical, this`takenCritical
      ensures Valid() && r == old(critical)[0] && critical == old(critical)[1..] &&
              takenCritical == old(takenCritical) + [r]
    {
      Moved(takenCritical, critical);
      r := critical[0];
      takenCritical := takenCritical + [r];
      critical := critical[1..];
    }

    method TakeNormal() returns (r: LogRecord)
      requires Valid() && normal != []
      modifies this`normal, this`takenNormal
      ensures Valid() && r == old(normal)[0] && normal == old(normal)[1..] && takenNormal == old(takenNormal) + [r]
    {
      Moved(takenNormal, normal);
      r := normal[0];
      takenNormal := takenNormal + [r];
      normal := normal[1..];
    }

    /** The worker takes the next record, the critical ones first; it exits only when told to and with nothing left. */
    method Next() returns (record: Option<LogRecord>, exits: bool)
      requires Valid()
      modifies this`normal, this`critical, this`takenNormal, this`takenCritical
      ensures Valid()
      ensures exits <==> !running && old(normal) == [] && old(critical) == []
      ensures if old(critical) != [] then
                && record == Some(old(critical)[0]) && critical == old(critical)[1..] && normal == old(normal)
                && takenCritical == old(takenCritical) + [old(critical)[0]] && takenNormal == old(takenNormal)
              else if old(normal) != [] then
                && record == Some(old(normal)[0]) && normal == old(normal)[1..] && critical == []
                && takenNormal == old(takenNormal) + [old(normal)[0]] && takenCritical == old(takenCritical)
              else record == None && normal == [] && critical == []
    {
      record, exits := None, false;
      if critical != [] {
        var r := TakeCritical();
        record := Some(r);
      } else if normal != [] {
        var r := TakeNormal();
        record := Some(r);
      } else if !running {
        exits := true;
      }
    }

    method Stop()
      requires Valid()
      modifies this`running
      ensures Valid() && !running
    {
      running := false;
    }
  }

  lemma AllUrgent(taken: seq<LogRecord>, queue: seq<LogRecord>, n: nat)
    requires Line(taken + queue, true, n)
    ensures forall i :: 0 <= i < |queue| ==> ClassOf(queue[i]) == Warning || ClassOf(queue[i]) == Error
  {
    forall i | 0 <= i < |queue|
      ensures Urgent(queue[i])
    {
      assert (taken + queue)[|taken| + i] == queue[i];
    }
  }

  lemma Moved(taken: seq<LogRecord>, queue: seq<LogRecord>)
    requires queue != []
    ensures (taken + [queue[0]]) + queue[1..] == taken + queue
    ensures multiset(taken + [queue[0]]) + multiset(queue[1..]) == multiset(taken) + multiset(queue)
  {
    assert queue == [queue[0]] + queue[1..];
  }
}
