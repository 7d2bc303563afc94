/** The transactional producer (pkg/client/transactional_producer.go). */
module Transactions {
  import opened Common
  import opened Producer

  /** A topic and partition number; the number is checked only when messages are written. */
  datatype Where = Where(topic: string, partition: int)

  datatype Pending = Pending(at: Where, message: Message)

  // ---------------------------------------------------------------------
  // Writing a transaction's messages
  // ---------------------------------------------------------------------

  /** The messages sent to one partition among the first k, in send order. */
  function Sends(ms: seq<Pending>, at: Where, k: nat): seq<Message>
    requires k <= |ms|
  {
    if k == 0 then [] else Sends(ms, at, k - 1) + if ms[k - 1].at == at then [ms[k - 1].message] else []
  }

  /** A message stands behind exactly those of its partition that were sent before it. */
  lemma {:induction false} SendsInOrder(ms: seq<Pending>, at: Where, k: nat, i: nat)
    requires i < k <= |ms| && ms[i].at == at
    ensures |Sends(ms, at, i)| < |Sends(ms, at, k)| && Sends(ms, at, k)[|Sends(ms, at, i)|] == ms[i].message
  {
    if i < k - 1 { SendsInOrder(ms, at, k - 1, i); }
  }

  /** The partitions of the first k messages, in the order first seen. */
  function FirstSeen(ms: seq<Pending>, k: nat): seq<Where>
    requires k <= |ms|
  {
    if k == 0 then []
    else
      var rest := FirstSeen(ms, k - 1);
      if ms[k - 1].at in rest then rest else rest + [ms[k - 1].at]
  }

  /** Partitions come in the order of their first messages. */
  lemma {:induction false} FirstSeenOrder(ms: seq<Pending>, k: nat, i: nat, j: nat)
    requires k <= |ms| && i < j < |FirstSeen(ms, k)|
    ensures exists a :: 0 <= a < k && ms[a].at == FirstSeen(ms, k)[i] && forall b :: 0 <= b <= a ==> ms[b].at != FirstSeen(ms, k)[j]
  {
    var rest := FirstSeen(ms, k - 1);
    if j < |rest| {
      FirstSeenOrder(ms, k - 1, i, j);
    } else {
      SeenSomewhere(ms, k - 1, i);
      var a :| 0 <= a < k - 1 && ms[a].at == rest[i];
      forall b | 0 <= b <= a ensures ms[b].at != ms[k - 1].at { Seen(ms, b, k - 1); }
    }
  }

  lemma {:induction false} SeenSomewhere(ms: seq<Pending>, k: nat, i: nat)
    requires k <= |ms| && i < |FirstSeen(ms, k)|
    ensures exists a :: 0 <= a < k && ms[a].at == FirstSeen(ms, k)[i]
  {
    if i < |FirstSeen(ms, k - 1)| { SeenSomewhere(ms, k - 1, i); }
  }

  /** One request per partition, in the order of the partitions. */
  ghost predicate OneEach(wire: seq<Attempt>, order: seq<Where>) {
    |wire| <= |order| && forall i :: 0 <= i < |wire| ==> wire[i].topic == order[i].topic && wire[i].partition == order[i].partition
  }

  /** No message ever waits in a batch: batches hold at most one, or every partition has more messages than a batch holds. */
  ghost predicate NothingWaits(ms: seq<Pending>, batchSize: int) {
    batchSize <= 1 || forall i :: 0 <= i < |ms| ==> |Sends(ms, ms[i].at, |ms|)| > batchSize
  }

  /** The first partition from position i on whose messages fit a batch. */
  function FirstBatched(ms: seq<Pending>, batchSize: int, order: seq<Where>, i: nat): (v: nat)
    requires i <= |order|
    ensures i <= v <= |order|
    ensures forall j :: i <= j < v ==> |Sends(ms, order[j], |ms|)| > batchSize
    ensures v < |order| ==> |Sends(ms, order[v], |ms|)| <= batchSize
    decreases |order| - i
  {
    if i == |order| || |Sends(ms, order[i], |ms|)| <= batchSize then i else FirstBatched(ms, batchSize, order, i + 1)
  }

  ghost function Wanted(ms: seq<Pending>, clock: Where -> int, t: string, n: nat): seq<Message> {
    var sends := Sends(ms, Where(t, n), |ms|);
    Stamped(sends, clock(Where(t, n)), |sends|)
  }

  /** Batches hold each partition's messages among the first k, in order. */
  ghost predicate Split(ms: seq<Pending>, k: nat, batches: map<Where, seq<Message>>)
    requires k <= |ms|
  {
    forall at :: Sends(ms, at, k) == if at in batches then batches[at] else []
  }

  /** The first k messages, grouped. */
  ghost predicate Grouped(ms: seq<Pending>, k: nat, order: seq<Where>, batches: map<Where, seq<Message>>)
    requires k <= |ms|
  {
    && Split(ms, k, batches) && order == FirstSeen(ms, k) && Distinct(order) && Elems(order) == batches.Keys
    && forall at :: at in batches ==> batches[at] != []
  }

  lemma SplitStep(ms: seq<Pending>, k: nat, batches: map<Where, seq<Message>>)
    requires k < |ms| && Split(ms, k, batches)
    ensures Split(ms, k + 1, batches[ms[k].at := (if ms[k].at in batches then batches[ms[k].at] else []) + [ms[k].message]])
  {
    var at := ms[k].at;
    var more := batches[at := (if at in batches then batches[at] else []) + [ms[k].message]];
    forall w ensures Sends(ms, w, k + 1) == if w in more then more[w] else [] {
      assert Sends(ms, w, k) == if w in batches then batches[w] else [];
    }
  }

  lemma OrderStep(order: seq<Where>, at: Where)
    requires Distinct(order) && at !in Elems(order)
    ensures Distinct(order + [at]) && Elems(order + [at]) == Elems(order) + {at}
  {
  }

  lemma InElems(order: seq<Where>, at: Where)
    ensures at in order <==> at in Elems(order)
  {
  }

  lemma NothingGrouped(ms: seq<Pending>)
    ensures Grouped(ms, 0, [], map[])
  {
  }

  /** Groups messages by partition: partitions in the order first seen, messages in the order sent. */
  method Group(ms: seq<Pending>) returns (order: seq<Where>, batches: map<Where, seq<Message>>)
    ensures Grouped(ms, |ms|, order, batches)
  {
    hide Split, Distinct, Elems, Sends;
    order, batches := [], map[];
    NothingGrouped(ms);
    for i := 0 to |ms|
      invariant Grouped(ms, i, order, batches)
    {
      SplitStep(ms, i, batches);
      var at := ms[i].at;
      assert at in order <==> at in batches by { InElems(order, at); }
      if at !in batches {
        OrderStep(order, at);
        assert [] + [ms[i].message] == [ms[i].message];
        order := order + [at];
        batches := batches[at := [ms[i].message]];
      } else {
        batches := batches[at := batches[at] + [ms[i].message]];
      }
    }
  }

  /** Partitions among the first i of the order have all their messages accounted for, the others none. */
  ghost predicate Written(p: Pipe, ms: seq<Pending>, clock: Where -> int, order: seq<Where>, i: nat)
    requires i <= |order|
  {
    forall t, n: nat :: Accounted(p, t, n) == if Where(t, n) in order[..i] then Wanted(ms, clock, t, n) else []
  }

  /** Every partition has been handed some of its messages, in order, from the first on. */
  ghost predicate Prefixes(wire: seq<Attempt>, ms: seq<Pending>, clock: Where -> int) {
    forall t, n: nat :: Handed(wire, t, n, |wire|) <= Wanted(ms, clock, t, n)
  }

  ghost predicate Complete(wire: seq<Attempt>, ms: seq<Pending>, clock: Where -> int) {
    forall t, n: nat :: Handed(wire, t, n, |wire|) == Wanted(ms, clock, t, n)
  }

  ghost predicate Delivered(wire: seq<Attempt>, ms: seq<Pending>, clock: Where -> int) {
    forall t, n: nat :: Landed(wire, t, n, |wire|) == Wanted(ms, clock, t, n)
  }

  ghost predicate Writable(ms: seq<Pending>) {
    forall i :: 0 <= i < |ms| ==> ms[i].at.partition >= 0 && ms[i].at.topic != ""
  }

  /** Accounts that hold a prefix of what is wanted. */
  ghost predicate Partly(p: Pipe, ms: seq<Pending>, clock: Where -> int) {
    forall t, n: nat :: Accounted(p, t, n) <= Wanted(ms, clock, t, n)
  }

  lemma WrittenIsPartly(p: Pipe, ms: seq<Pending>, clock: Where -> int, order: seq<Where>, i: nat)
    requires i <= |order| && Written(p, ms, clock, order, i)
    ensures Partly(p, ms, clock)
  {
    hide Accounted, Wanted;
  }

  lemma WrittenStep(p: Pipe, q: Pipe, ms: seq<Pending>, clock: Where -> int, order: seq<Where>, i: nat, taken: nat)
    requires i < |order| && Distinct(order) && order[i].partition >= 0 && Written(p, ms, clock, order, i)
    requires OthersSame(p, q, order[i].topic, order[i].partition)
    requires taken <= |Wanted(ms, clock, order[i].topic, order[i].partition)|
    requires Accounted(q, order[i].topic, order[i].partition) == Wanted(ms, clock, order[i].topic, order[i].partition)[..taken]
    ensures Partly(q, ms, clock)
    ensures taken == |Wanted(ms, clock, order[i].topic, order[i].partition)| ==> Written(q, ms, clock, order, i + 1)
  {
    hide Accounted, Wanted;
    assert order[..i + 1] == order[..i] + [order[i]];
    forall t, n: nat | Where(t, n) != order[i] ensures Accounted(q, t, n) == Accounted(p, t, n) {
      assert (t, n) != (order[i].topic, order[i].partition);
    }
  }

  lemma NothingWritten(ms: seq<Pending>, clock: Where -> int, order: seq<Where>)
    ensures Written(Pipe(map[], []), ms, clock, order, 0)
  {
  }

  lemma FreeOf(p: Pipe, ms: seq<Pending>, clock: Where -> int, order: seq<Where>, i: nat)
    requires i < |order| && Distinct(order) && order[i].partition >= 0 && Written(p, ms, clock, order, i)
    ensures Accounted(p, order[i].topic, order[i].partition) == [] && Buffered(p.batches, order[i].topic, order[i].partition) == []
  {
    hide Handed, Wanted;
    assert order[i] !in order[..i];
    var n: nat := order[i].partition;
    assert Where(order[i].topic, n) == order[i];
  }

  ghost predicate AllAccounted(p: Pipe, ms: seq<Pending>, clock: Where -> int) {
    forall t, n: nat :: Accounted(p, t, n) == Wanted(ms, clock, t, n)
  }

  /** Once nothing waits, what is accounted for has been handed over. */
  lemma Settled(p: Pipe, r: Pipe, ms: seq<Pending>, clock: Where -> int)
    requires SameAccounts(p, r) && Drained(r)
    ensures Partly(p, ms, clock) ==> Prefixes(r.wire, ms, clock)
    ensures AllAccounted(p, ms, clock) ==> Complete(r.wire, ms, clock)
  {
    hide Wanted, Handed;
    forall t, n: nat ensures Handed(r.wire, t, n, |r.wire|) == Accounted(p, t, n) {
      assert Accounted(p, t, n) == Accounted(r, t, n);
    }
  }

  lemma DeliveredIff(wire: seq<Attempt>, ms: seq<Pending>, clock: Where -> int)
    requires NoneEmpty(wire) && Quiet(wire, 0) && Complete(wire, ms, clock)
    ensures Delivered(wire, ms, clock) <==> TicksSucceeded(wire)
  {
    hide Wanted, Handed, Landed;
    LandedIffTicksSucceed(wire);
    forall t, n: nat
      ensures Landed(wire, t, n, |wire|) == Handed(wire, t, n, |wire|) <==> Landed(wire, t, n, |wire|) == Wanted(ms, clock, t, n)
    {
      assert Handed(wire, t, n, |wire|) == Wanted(ms, clock, t, n);
    }
  }

  /** All partitions of the order are written, and the order holds every partition with messages. */
  lemma WrittenIsAll(p: Pipe, ms: seq<Pending>, clock: Where -> int, order: seq<Where>, batches: map<Where, seq<Message>>)
    requires Grouped(ms, |ms|, order, batches) && Written(p, ms, clock, order, |order|)
    ensures AllAccounted(p, ms, clock)
  {
    hide Accounted, Sends;
    assert order[..|order|] == order;
    forall t, n: nat ensures Accounted(p, t, n) == Wanted(ms, clock, t, n) {
      var at := Where(t, n);
      assert Sends(ms, at, |ms|) == if at in batches then batches[at] else [];
      assert at in order <==> at in Elems(order);
      assert Accounted(p, t, n) == if at in order[..|order|] then Wanted(ms, clock, t, n) else [];
    }
  }

  lemma {:induction false} SentToIsPending(ms: seq<Pending>, at: Where, k: nat)
    requires k <= |ms| && Sends(ms, at, k) != []
    ensures exists i :: 0 <= i < k && ms[i].at == at
  {
    if ms[k - 1].at != at { SentToIsPending(ms, at, k - 1); }
  }

  lemma {:induction false} PendingIsSentTo(ms: seq<Pending>, i: nat, k: nat)
    requires i < k <= |ms|
    ensures Sends(ms, ms[i].at, k) != []
  {
    if i < k - 1 { PendingIsSentTo(ms, i, k - 1); }
  }

  /** The partitions of the order are those of the messages. */
  lemma OrderWritable(ms: seq<Pending>, order: seq<Where>, batches: map<Where, seq<Message>>)
    requires Grouped(ms, |ms|, order, batches)
    ensures Writable(ms) <==> forall i :: 0 <= i < |order| ==> order[i].partition >= 0 && order[i].topic != ""
  {
    hide Sends, Distinct;
    forall i | 0 <= i < |ms| ensures exists j :: 0 <= j < |order| && order[j] == ms[i].at {
      PendingIsSentTo(ms, i, |ms|);
      assert Sends(ms, ms[i].at, |ms|) == if ms[i].at in batches then batches[ms[i].at] else [];
      assert ms[i].at in Elems(order);
    }
    forall j | 0 <= j < |order| ensures exists i :: 0 <= i < |ms| && ms[i].at == order[j] {
      assert order[j] in Elems(order);
      assert Sends(ms, order[j], |ms|) == if order[j] in batches then batches[order[j]] else [];
      SentToIsPending(ms, order[j], |ms|);
    }
  }

  lemma BatchIs(ms: seq<Pending>, order: seq<Where>, batches: map<Where, seq<Message>>, i: nat)
    requires Grouped(ms, |ms|, order, batches) && i < |order|
    ensures order[i] in batches && batches[order[i]] == Sends(ms, order[i], |ms|) && batches[order[i]] != []
  {
    hide Sends, Distinct;
    assert order[i] in Elems(order);
    assert Sends(ms, order[i], |ms|) == if order[i] in batches then batches[order[i]] else [];
  }

  /** Sends the next partition's batch. */
  method WriteNext(producer: Producer, ghost ms: seq<Pending>, clock: Where -> int, order: seq<Where>, batches: map<Where, seq<Message>>, i: nat)
      returns (ok: bool)
    requires Grouped(ms, |ms|, order, batches) && i < |order|
    requires producer.Valid() && !producer.closed && Quiet(producer.pipe.wire, 0) && Written(producer.pipe, ms, clock, order, i)
    modifies producer
    ensures producer.Valid() && !producer.closed && Partly(producer.pipe, ms, clock) && old(producer.pipe.wire) <= producer.pipe.wire
    ensures ok ==> Written(producer.pipe, ms, clock, order, i + 1)
    ensures ok <==> Quiet(producer.pipe.wire, 0) && order[i].partition >= 0 && order[i].topic != ""
    ensures Strides(|Sends(ms, order[i], |ms|)|, producer.batchSize, producer.ticks, old(producer.step), old(producer.pipe),
                    producer.step, producer.pipe, order[i].partition >= 0 && order[i].topic != "")
    ensures !ok && (order[i].partition < 0 || order[i].topic == "") ==> producer.pipe == old(producer.pipe)
    ensures Drained(old(producer.pipe)) && |Sends(ms, order[i], |ms|)| > producer.batchSize > 1 && order[i].partition >= 0 && order[i].topic != "" ==>
      producer.pipe == Sent(old(producer.pipe), Attempt(order[i].topic, order[i].partition, Wanted(ms, clock, order[i].topic, order[i].partition), ok, false))
  {
    hide Written, Partly, Wanted, Accounted, Buffered, OthersSame, Sends, Open, Split, Distinct, Drained, Count;
    ghost var before := producer.pipe;
    WrittenIsPartly(before, ms, clock, order, i);
    var at := order[i];
    if at.partition < 0 { return false; }
    BatchIs(ms, order, batches, i);
    FreeOf(before, ms, clock, order, i);
    var r, taken := producer.SendMessagesToPartition(at.topic, at.partition, batches[at], clock(at));
    QuietJoins(producer.pipe.wire, before.wire, 0);
    ghost var wanted := Wanted(ms, clock, at.topic, at.partition);
    assert wanted == Stamped(batches[at], clock(at), |batches[at]|) by { WantedIs(ms, clock, at); }
    assert Accounted(producer.pipe, at.topic, at.partition) == wanted[..taken];
    WrittenStep(before, producer.pipe, ms, clock, order, i, taken);
    return r.None?;
  }

  /** How sending a partition's messages moves the producer, when nothing waited before and when something did. */
  ghost predicate Strides(count: nat, batchSize: int, ticks: nat -> bool, step: nat, p: Pipe, step': nat, q: Pipe, writable: bool) {
    && (Drained(p) && (batchSize <= 1 || count > batchSize) ==> Drained(q) && NoTicks(q.wire, |p.wire|))
    && (writable && Drained(p) && count > batchSize > 1 ==> step' == step + 1 && |q.wire| == |p.wire| + 1)
    && (writable && Drained(p) && 1 <= count <= batchSize && batchSize > 1 && ticks(step + 1) ==>
          TickMade(q.wire, |p.wire|) || (step' == step + 1 && q.wire == p.wire && !Drained(q)))
    && (writable && ticks(step) && !Drained(p) && count > 0 ==> TickMade(q.wire, |p.wire|))
  }

  lemma WantedIs(ms: seq<Pending>, clock: Where -> int, at: Where)
    requires at.partition >= 0
    ensures var sends := Sends(ms, at, |ms|);
            Wanted(ms, clock, at.topic, at.partition) == Stamped(sends, clock(at), |sends|)
  {
  }

  /** A schedule in which the first waiting message is flushed in the background: everything before it succeeds, and then a tick. */
  ghost predicate TickWhenWaiting(ms: seq<Pending>, batchSize: int, answers: nat -> bool, ticks: nat -> bool) {
    var order := FirstSeen(ms, |ms|);
    var v := FirstBatched(ms, batchSize, order, 0);
    batchSize > 1 && Writable(ms) && v < |order| && (forall i :: 0 <= i < v ==> answers(i)) && ticks(v + 1)
  }

  /** Where such a run stands after i partitions: before the waiting message, waiting, or past the background flush. */
  ghost predicate OnCourse(v: nat, i: nat, ok: bool, step: nat, p: Pipe) {
    && (i <= v && ok ==> step == i && |p.wire| == i && Drained(p))
    && (i > v || !ok ==> TickMade(p.wire, v) || (step == v + 1 && |p.wire| == v && !Drained(p)))
  }

  /**
    * Writes a transaction's messages through a producer of its own and closes it. Each partition is handed its messages in send
    * order, all of them when the call succeeds, and nothing else. The call succeeds exactly when every partition can be written
    * and no request it waited for failed. Everything has then landed exactly when no background flush failed, which is so whatever
    * the broker answers when no message ever waits, and whatever the schedule when the broker answers every request.
    */
  method FlushMessages(ms: seq<Pending>, clock: Where -> int, batchSize: int, answers: nat -> bool, ticks: nat -> bool)
      returns (ok: bool, wire: seq<Attempt>)
    ensures NoneEmpty(wire) && Prefixes(wire, ms, clock) && Answered(wire, answers)
    ensures ok <==> Quiet(wire, 0) && Writable(ms)
    ensures ok ==> Complete(wire, ms, clock)
    ensures ok ==> (Delivered(wire, ms, clock) <==> TicksSucceeded(wire))
    ensures NothingWaits(ms, batchSize) ==> NoTicks(wire, 0) && (ok ==> Delivered(wire, ms, clock))
    ensures NothingWaits(ms, batchSize) && batchSize > 1 ==> OneEach(wire, FirstSeen(ms, |ms|))
    ensures (forall i :: answers(i)) ==> (ok <==> Writable(ms)) && (ok ==> Delivered(wire, ms, clock))
    ensures TickWhenWaiting(ms, batchSize, answers, ticks) ==> TickMade(wire, FirstBatched(ms, batchSize, FirstSeen(ms, |ms|), 0))
  {
    hide Written, Partly, Wanted, Accounted, Prefixes, Complete, Delivered, Writable, Split, Distinct, AllAccounted, SameAccounts, Drained,
      Sends, Open, Count, NothingWaits, OnCourse, FirstSeen, FirstBatched, TickWhenWaiting;
    var order, batches := Group(ms);
    var producer := new Producer(batchSize, answers, ticks);
    ghost var i;
    ok, i := WriteAll(producer, ms, clock, order, batches);
    ghost var written, stepped, all := producer.pipe, producer.step, ok;
    if ok { WrittenIsAll(written, ms, clock, order, batches); }
    ok := FinishFlush(producer, ok);
    wire := producer.pipe.wire;
    Settled(written, producer.pipe, ms, clock);
    if TickWhenWaiting(ms, batchSize, answers, ticks) { EndsOnCourse(ms, batchSize, answers, ticks, i, all, stepped, written); }
    if ok { DeliveredIff(wire, ms, clock); }
  }

  /** Sends every partition's batch in turn, until one fails. */
  method WriteAll(producer: Producer, ghost ms: seq<Pending>, clock: Where -> int, order: seq<Where>, batches: map<Where, seq<Message>>)
      returns (ok: bool, ghost i: nat)
    requires Grouped(ms, |ms|, order, batches)
    requires producer.Valid() && !producer.closed && producer.pipe == Pipe(map[], []) && producer.step == 0
    modifies producer
    ensures producer.Valid() && !producer.closed && Partly(producer.pipe, ms, clock) && i <= |order| && (ok ==> i == |order|)
    ensures ok <==> Quiet(producer.pipe.wire, 0) && Writable(ms)
    ensures ok ==> Written(producer.pipe, ms, clock, order, |order|)
    ensures NothingWaits(ms, producer.batchSize) ==> Drained(producer.pipe) && NoTicks(producer.pipe.wire, 0)
    ensures NothingWaits(ms, producer.batchSize) && producer.batchSize > 1 ==> OneEach(producer.pipe.wire, order)
    ensures TickWhenWaiting(ms, producer.batchSize, producer.answers, producer.ticks) ==>
      OnCourse(FirstBatched(ms, producer.batchSize, order, 0), i, ok, producer.step, producer.pipe)
  {
    hide Written, Partly, Wanted, Accounted, Writable, Split, Distinct, Drained, Sends, Open, Count, NothingWaits, OnCourse, FirstSeen,
      TickWhenWaiting, Strides, FirstBatched;
    OrderWritable(ms, order, batches);
    NothingWritten(ms, clock, order);
    WrittenIsPartly(producer.pipe, ms, clock, order, 0);
    ghost var v := FirstBatched(ms, producer.batchSize, order, 0);
    StartOnCourse(v);
    ok := true;
    var k := 0;
    while ok && k < |order|
      invariant 0 <= k <= |order| && producer.Valid() && !producer.closed && Partly(producer.pipe, ms, clock)
      invariant ok ==> Quiet(producer.pipe.wire, 0) && Written(producer.pipe, ms, clock, order, k)
      invariant ok ==> forall j :: 0 <= j < k ==> order[j].partition >= 0 && order[j].topic != ""
      invariant !ok ==> !(Quiet(producer.pipe.wire, 0) && Writable(ms))
      invariant NothingWaits(ms, producer.batchSize) ==> Drained(producer.pipe) && NoTicks(producer.pipe.wire, 0)
      invariant NothingWaits(ms, producer.batchSize) && producer.batchSize > 1 ==>
        OneEach(producer.pipe.wire, order) && (ok ==> |producer.pipe.wire| == k)
      invariant TickWhenWaiting(ms, producer.batchSize, producer.answers, producer.ticks) ==>
        OnCourse(v, k, ok, producer.step, producer.pipe)
      decreases |order| - k, ok
    {
      ghost var step, p := producer.step, producer.pipe;
      if NothingWaits(ms, producer.batchSize) && producer.batchSize > 1 { AllLarge(ms, producer.batchSize, order, batches, k); }
      ok := WriteNext(producer, ms, clock, order, batches, k);
      StaysDrained(ms, producer.batchSize, order, batches, k, producer.ticks, step, p, producer.step, producer.pipe);
      StaysOnCourse(ms, producer.batchSize, producer.answers, producer.ticks, order, batches, k, step, p, ok, producer.step, producer.pipe);
      if ok { k := k + 1; }
    }
    i := k;
  }

  lemma AllLarge(ms: seq<Pending>, batchSize: int, order: seq<Where>, batches: map<Where, seq<Message>>, i: nat)
    requires Grouped(ms, |ms|, order, batches) && i < |order| && NothingWaits(ms, batchSize) && batchSize > 1
    ensures |Sends(ms, order[i], |ms|)| > batchSize
  {
    hide Sends, Split, Distinct;
    BatchIs(ms, order, batches, i);
    SentToIsPending(ms, order[i], |ms|);
  }

  lemma StartOnCourse(v: nat)
    ensures OnCourse(v, 0, true, 0, Pipe(map[], [])) && Drained(Pipe(map[], []))
  {
  }

  lemma StaysDrained(ms: seq<Pending>, batchSize: int, order: seq<Where>, batches: map<Where, seq<Message>>, i: nat, ticks: nat -> bool,
      step: nat, p: Pipe, step': nat, q: Pipe)
    requires Grouped(ms, |ms|, order, batches) && i < |order| && p.wire <= q.wire
    requires Strides(|Sends(ms, order[i], |ms|)|, batchSize, ticks, step, p, step', q, order[i].partition >= 0 && order[i].topic != "")
    ensures NothingWaits(ms, batchSize) && Drained(p) && NoTicks(p.wire, 0) ==> Drained(q) && NoTicks(q.wire, 0)
  {
    hide Sends, Split, Distinct, Drained;
    BatchIs(ms, order, batches, i);
    SentToIsPending(ms, order[i], |ms|);
    assert forall j :: 0 <= j < |p.wire| ==> p.wire[j] == q.wire[j];
  }

  lemma StaysOnCourse(ms: seq<Pending>, batchSize: int, answers: nat -> bool, ticks: nat -> bool, order: seq<Where>,
      batches: map<Where, seq<Message>>, i: nat, step: nat, p: Pipe, ok: bool, step': nat, q: Pipe)
    requires Grouped(ms, |ms|, order, batches) && i < |order| && p.wire <= q.wire
    requires Strides(|Sends(ms, order[i], |ms|)|, batchSize, ticks, step, p, step', q, order[i].partition >= 0 && order[i].topic != "")
    requires Answered(q.wire, answers) && Quiet(p.wire, 0)
    requires ok <==> Quiet(q.wire, 0) && order[i].partition >= 0 && order[i].topic != ""
    ensures var v := FirstBatched(ms, batchSize, order, 0);
            TickWhenWaiting(ms, batchSize, answers, ticks) && OnCourse(v, i, true, step, p) ==>
              OnCourse(v, if ok then i + 1 else i, ok, step', q)
  {
    hide Sends, Drained, Writable, FirstSeen, Split, Distinct;
    BatchIs(ms, order, batches, i);
    OrderWritable(ms, order, batches);
    assert forall j :: 0 <= j < |p.wire| ==> p.wire[j] == q.wire[j];
  }

  lemma EndsOnCourse(ms: seq<Pending>, batchSize: int, answers: nat -> bool, ticks: nat -> bool, i: nat, ok: bool, step: nat, p: Pipe)
    requires TickWhenWaiting(ms, batchSize, answers, ticks) && i <= |FirstSeen(ms, |ms|)| && (ok ==> i == |FirstSeen(ms, |ms|)|)
    requires OnCourse(FirstBatched(ms, batchSize, FirstSeen(ms, |ms|), 0), i, ok, step, p)
    ensures var v := FirstBatched(ms, batchSize, FirstSeen(ms, |ms|), 0);
            TickMade(p.wire, v) || (ticks(step) && |p.wire| == v && !Drained(p))
  {
    hide Drained, FirstSeen, Writable;
  }

  /** The flush after the last partition, unless something failed, and the close that always follows; ticks may come before each. */
  method FinishFlush(producer: Producer, written: bool) returns (ok: bool)
    requires producer.Valid() && !producer.closed && (written ==> Quiet(producer.pipe.wire, 0))
    modifies producer
    ensures producer.Valid() && Drained(producer.pipe)
    ensures SameAccounts(old(producer.pipe), producer.pipe) && old(producer.pipe.wire) <= producer.pipe.wire
    ensures ok <==> written && Quiet(producer.pipe.wire, 0)
    ensures Drained(old(producer.pipe)) ==> producer.pipe == old(producer.pipe)
    ensures producer.ticks(old(producer.step)) && !Drained(old(producer.pipe)) ==> TickMade(producer.pipe.wire, |old(producer.pipe.wire)|)
  {
    hide SameAccounts, Open, Drained;
    ok := written;
    ghost var p0 := producer.pipe;
    producer.Tick();
    ghost var p1 := producer.pipe;
    SameSelf(p1);
    if ok {
      QuietJoins(p1.wire, p0.wire, 0);
      var r := producer.FlushAll(false);
      ok := r.None?;
      QuietJoins(producer.pipe.wire, p1.wire, 0);
    }
    ghost var p2 := producer.pipe;
    SameTrans(p0, p1, p2);
    producer.Tick();
    ghost var p3 := producer.pipe;
    SameTrans(p0, p2, p3);
    if ok { QuietJoins(p3.wire, p2.wire, 0); }
    var _ := producer.Close();
    SameTrans(p0, p3, producer.pipe);
    if written && !ok { QuietShrinks(producer.pipe.wire, p2.wire); }
  }

  lemma QuietShrinks(wire: seq<Attempt>, before: seq<Attempt>)
    requires before <= wire
    ensures Quiet(wire, 0) ==> Quiet(before, 0)
  {
    assert forall i :: 0 <= i < |before| ==> before[i] == wire[i];
  }

  /**
    * Whenever some message does wait, there is a run of FlushMessages that succeeds and loses it: the broker refuses one request, the
    * one the background flusher makes for the first message that waits.
    */
  method LosesMessages(ms: seq<Pending>, clock: Where -> int, batchSize: int)
      returns (answers: nat -> bool, ticks: nat -> bool, ok: bool, wire: seq<Attempt>)
    requires Writable(ms) && !NothingWaits(ms, batchSize)
    ensures ok && !Delivered(wire, ms, clock)
    ensures Answered(wire, answers) && exists v: nat :: v < |wire| && wire[v].byTick && forall i :: answers(i) <==> i != v
  {
    hide Sends, FirstSeen, Delivered, Writable, Complete, Prefixes;
    SomeBatched(ms, batchSize);
    var v := FirstBatched(ms, batchSize, FirstSeen(ms, |ms|), 0);
    answers, ticks := i => i != v, i => i == v + 1;
    ok, wire := FlushMessages(ms, clock, batchSize, answers, ticks);
    assert TickWhenWaiting(ms, batchSize, answers, ticks);
  }

  lemma SomeBatched(ms: seq<Pending>, batchSize: int)
    requires !NothingWaits(ms, batchSize)
    ensures FirstBatched(ms, batchSize, FirstSeen(ms, |ms|), 0) < |FirstSeen(ms, |ms|)|
  {
    hide Sends, FirstSeen;
    var i :| 0 <= i < |ms| && |Sends(ms, ms[i].at, |ms|)| <= batchSize;
    Seen(ms, i, |ms|);
    var order := FirstSeen(ms, |ms|);
    var j :| 0 <= j < |order| && order[j] == ms[i].at;
  }

  lemma {:induction false} Seen(ms: seq<Pending>, i: nat, k: nat)
    requires i < k <= |ms|
    ensures ms[i].at in FirstSeen(ms, k)
  {
    if i < k - 1 { Seen(ms, i, k - 1); }
  }

  /** The smallest such run: one message, batches of two, a tick before the final flush, and the first request refused. */
  method FailedTickLoses(m: Message, clock: Where -> int) returns (ok: bool, wire: seq<Attempt>)
    ensures ok && !Delivered(wire, [Pending(Where("t", 0), m)], clock)
    ensures Answered(wire, i => i != 0)
  {
    hide Delivered, Complete, Prefixes;
    var ms := [Pending(Where("t", 0), m)];
    assert FirstSeen(ms, 0) == [] && FirstSeen(ms, 1) == [Where("t", 0)];
    assert Sends(ms, Where("t", 0), 0) == [] && Sends(ms, Where("t", 0), 1) == [m];
    assert FirstBatched(ms, 2, FirstSeen(ms, 1), 0) == 0;
    ok, wire := FlushMessages(ms, clock, 2, i => i != 0, i => i == 1);
    assert TickWhenWaiting(ms, 2, i => i != 0, i => i == 1);
  }
}
