/** Batching in the producer, with its background flusher interleaved (pkg/client/producer.go). */
module Producer {
  import opened Common
  import opened PartitionKeys

  datatype Message = Message(key: string, value: string, timestamp: int)

  datatype Batch = Batch(topic: string, partition: nat, messages: seq<Message>)

  /** One produce request and how it ended; byTick when the background flusher made it. */
  datatype Attempt = Attempt(topic: string, partition: nat, messages: seq<Message>, ok: bool, byTick: bool) {
    predicate To(t: string, n: nat) { topic == t && partition == n }
  }

  /** The open batches and every request made so far. */
  datatype Pipe = Pipe(batches: map<string, Batch>, wire: seq<Attempt>)

  datatype SendError = Closed | InvalidTopic | Broker

  // ---------------------------------------------------------------------
  // What each partition has been handed, and what still waits
  // ---------------------------------------------------------------------

  /** The messages of the first k requests to a partition, in order. */
  ghost function Handed(wire: seq<Attempt>, t: string, n: nat, k: nat): seq<Message>
    requires k <= |wire|
  {
    if k == 0 then [] else Handed(wire, t, n, k - 1) + if wire[k - 1].To(t, n) then wire[k - 1].messages else []
  }

  /** Of those, the ones whose request succeeded. */
  ghost function Landed(wire: seq<Attempt>, t: string, n: nat, k: nat): seq<Message>
    requires k <= |wire|
  {
    if k == 0 then []
    else Landed(wire, t, n, k - 1) + if wire[k - 1].To(t, n) && wire[k - 1].ok then wire[k - 1].messages else []
  }

  ghost function Buffered(batches: map<string, Batch>, t: string, n: nat): seq<Message> {
    var key := PartitionKey(t, n);
    if key in batches then batches[key].messages else []
  }

  /** Everything accepted for a partition: handed over, then waiting. */
  ghost function Accounted(p: Pipe, t: string, n: nat): seq<Message> {
    Handed(p.wire, t, n, |p.wire|) + Buffered(p.batches, t, n)
  }

  ghost predicate SameAccounts(p: Pipe, q: Pipe) {
    forall t, n: nat :: Accounted(p, t, n) == Accounted(q, t, n)
  }

  /** Every other partition's account is as it was. */
  ghost predicate OthersSame(p: Pipe, q: Pipe, t: string, n: nat) {
    forall u, m: nat :: (u, m) != (t, n) ==> Accounted(p, u, m) == Accounted(q, u, m)
  }

  /** Batches are stored under their own partition's key and hold fewer than size messages. */
  ghost predicate Open(batches: map<string, Batch>, size: int) {
    forall key :: key in batches ==>
      key == PartitionKey(batches[key].topic, batches[key].partition) && |batches[key].messages| < size
  }

  /** No request is empty. */
  ghost predicate NoneEmpty(wire: seq<Attempt>) { forall i :: 0 <= i < |wire| ==> wire[i].messages != [] }

  /** No request the caller waited for has failed since the first from. */
  ghost predicate Quiet(wire: seq<Attempt>, from: nat) {
    forall i :: from <= i < |wire| && !wire[i].byTick ==> wire[i].ok
  }

  /** Every request ended as the broker answered it. */
  ghost predicate Answered(wire: seq<Attempt>, answers: nat -> bool) {
    forall i :: 0 <= i < |wire| ==> wire[i].ok == answers(i)
  }

  /** No request from the first from on was the background flusher's. */
  ghost predicate NoTicks(wire: seq<Attempt>, from: nat) {
    forall i :: from <= i < |wire| ==> !wire[i].byTick
  }

  /** Request number v was made, by the background flusher. */
  ghost predicate TickMade(wire: seq<Attempt>, v: nat) { v < |wire| && wire[v].byTick }

  ghost predicate TicksSucceeded(wire: seq<Attempt>) {
    forall i :: 0 <= i < |wire| && wire[i].byTick ==> wire[i].ok
  }

  lemma {:induction false} HandedExtends(wire: seq<Attempt>, more: seq<Attempt>, t: string, n: nat, k: nat)
    requires k <= |wire|
    ensures Handed(wire + more, t, n, k) == Handed(wire, t, n, k)
  {
    if k > 0 { HandedExtends(wire, more, t, n, k - 1); }
  }

  lemma HandedOne(wire: seq<Attempt>, a: Attempt, t: string, n: nat)
    ensures Handed(wire + [a], t, n, |wire| + 1) == Handed(wire, t, n, |wire|) + if a.To(t, n) then a.messages else []
  {
    HandedExtends(wire, [a], t, n, |wire|);
  }

  // ---------------------------------------------------------------------
  // The steps on values
  // ---------------------------------------------------------------------

  function Sent(p: Pipe, a: Attempt): Pipe { p.(wire := p.wire + [a]) }

  function Flushed(p: Pipe, key: string, ok: bool, byTick: bool): Pipe
    requires key in p.batches
  {
    var b := p.batches[key];
    if b.messages == [] then p
    else Sent(p.(batches := p.batches[key := b.(messages := [])]), Attempt(b.topic, b.partition, b.messages, ok, byTick))
  }

  function Added(p: Pipe, t: string, n: nat, m: Message): Pipe {
    var key := PartitionKey(t, n);
    var b := if key in p.batches then p.batches[key] else Batch(t, n, []);
    p.(batches := p.batches[key := b.(messages := b.messages + [m])])
  }

  /** Flushing a batch moves its messages from the buffer to the requests and changes no partition's account. */
  lemma FlushKeeps(p: Pipe, key: string, ok: bool, byTick: bool)
    requires key in p.batches && key == PartitionKey(p.batches[key].topic, p.batches[key].partition)
    ensures SameAccounts(p, Flushed(p, key, ok, byTick))
  {
    hide PartitionKey, Handed;
    var b := p.batches[key];
    var q := Flushed(p, key, ok, byTick);
    forall t, n: nat ensures Accounted(p, t, n) == Accounted(q, t, n) {
      if b.messages != [] {
        HandedOne(p.wire, Attempt(b.topic, b.partition, b.messages, ok, byTick), t, n);
        if PartitionKey(t, n) == key { KeyInjective(t, n, b.topic, b.partition); }
      }
    }
  }

  lemma AddKeeps(p: Pipe, size: int, t: string, n: nat, m: Message)
    requires Open(p.batches, size) && size > 0
    ensures var q := Added(p, t, n, m);
            && OthersSame(p, q, t, n) && Accounted(q, t, n) == Accounted(p, t, n) + [m]
            && Open(q.batches, size + 1)
            && forall key :: key in q.batches && key != PartitionKey(t, n) ==> |q.batches[key].messages| < size
  {
    hide PartitionKey, Handed;
    var q := Added(p, t, n, m);
    forall u, k: nat | (u, k) != (t, n) ensures Accounted(p, u, k) == Accounted(q, u, k) {
      if PartitionKey(u, k) == PartitionKey(t, n) { KeyInjective(u, k, t, n); }
    }
  }

  /** Adding extends the partition's own batch. */
  lemma AddsTo(p: Pipe, size: int, t: string, n: nat, m: Message)
    requires Open(p.batches, size)
    ensures var key, q := PartitionKey(t, n), Added(p, t, n, m);
            && q.wire == p.wire && key in q.batches && q.batches[key] == Batch(t, n, Buffered(p.batches, t, n) + [m])
  {
    hide PartitionKey;
    var key := PartitionKey(t, n);
    if key in p.batches { KeyInjective(p.batches[key].topic, p.batches[key].partition, t, n); }
  }

  lemma DirectKeeps(p: Pipe, a: Attempt)
    ensures OthersSame(p, Sent(p, a), a.topic, a.partition)
    ensures Accounted(Sent(p, a), a.topic, a.partition)
         == Handed(p.wire, a.topic, a.partition, |p.wire|) + a.messages + Buffered(p.batches, a.topic, a.partition)
  {
    hide PartitionKey, Handed;
    forall t, n: nat { HandedOne(p.wire, a, t, n); }
  }

  lemma SameSelf(p: Pipe)
    ensures SameAccounts(p, p)
  {
  }

  lemma SameTrans(p: Pipe, q: Pipe, r: Pipe)
    requires SameAccounts(p, q) && SameAccounts(q, r)
    ensures SameAccounts(p, r)
  {
    hide Accounted;
  }

  lemma OthersTrans(p: Pipe, q: Pipe, r: Pipe, t: string, n: nat)
    requires (SameAccounts(p, q) || OthersSame(p, q, t, n)) && (SameAccounts(q, r) || OthersSame(q, r, t, n))
    ensures OthersSame(p, r, t, n)
  {
    hide Accounted;
  }

  // ---------------------------------------------------------------------
  // Delivered exactly when every request succeeded
  // ---------------------------------------------------------------------

  ghost function Lost(wire: seq<Attempt>, t: string, n: nat, k: nat): seq<Message>
    requires k <= |wire|
  {
    if k == 0 then []
    else Lost(wire, t, n, k - 1) + if wire[k - 1].To(t, n) && !wire[k - 1].ok then wire[k - 1].messages else []
  }

  lemma {:induction false} HandedLandedOrLost(wire: seq<Attempt>, t: string, n: nat, k: nat)
    requires k <= |wire|
    ensures multiset(Handed(wire, t, n, k)) == multiset(Landed(wire, t, n, k)) + multiset(Lost(wire, t, n, k))
  {
    if k > 0 { HandedLandedOrLost(wire, t, n, k - 1); }
  }

  /** Accepted is sent, failed and waiting together, message by message. */
  lemma Conserved(p: Pipe, t: string, n: nat)
    ensures multiset(Accounted(p, t, n))
         == multiset(Landed(p.wire, t, n, |p.wire|)) + multiset(Lost(p.wire, t, n, |p.wire|)) + multiset(Buffered(p.batches, t, n))
  {
    hide Handed, Landed, Lost;
    HandedLandedOrLost(p.wire, t, n, |p.wire|);
  }

  /** Messages waiting in a batch are overtaken by an oversized send to the same partition. */
  lemma OversizedOvertakes(t: string, n: nat, waiting: Message, x: Message, y: Message)
    ensures var p := Pipe(map[PartitionKey(t, n) := Batch(t, n, [waiting])], []);
            Open(p.batches, 2) && Accounted(Sent(p, Attempt(t, n, [x, y], true, false)), t, n) == [x, y, waiting]
  {
    hide PartitionKey;
    var p := Pipe(map[PartitionKey(t, n) := Batch(t, n, [waiting])], []);
    DirectKeeps(p, Attempt(t, n, [x, y], true, false));
  }

  lemma {:induction false} LandedLength(wire: seq<Attempt>, t: string, n: nat, k: nat)
    requires k <= |wire|
    ensures |Landed(wire, t, n, k)| <= |Handed(wire, t, n, k)|
    ensures (forall i :: 0 <= i < k && wire[i].To(t, n) ==> wire[i].ok) ==> Landed(wire, t, n, k) == Handed(wire, t, n, k)
  {
    if k > 0 { LandedLength(wire, t, n, k - 1); }
  }

  lemma {:induction false} LandedLess(wire: seq<Attempt>, t: string, n: nat, k: nat, i: nat)
    requires i < k <= |wire| && NoneEmpty(wire) && wire[i].To(t, n) && !wire[i].ok
    ensures |Landed(wire, t, n, k)| < |Handed(wire, t, n, k)|
  {
    LandedLength(wire, t, n, k - 1);
    if i < k - 1 { LandedLess(wire, t, n, k - 1, i); }
  }

  ghost predicate AllLanded(wire: seq<Attempt>) {
    forall t, n: nat :: Landed(wire, t, n, |wire|) == Handed(wire, t, n, |wire|)
  }

  /** When no awaited request failed, every partition got all it was handed exactly when no background flush failed. */
  lemma LandedIffTicksSucceed(wire: seq<Attempt>)
    requires NoneEmpty(wire) && Quiet(wire, 0)
    ensures AllLanded(wire) <==> TicksSucceeded(wire)
  {
    hide Landed, Handed;
    if TicksSucceeded(wire) {
      forall t, n: nat { LandedLength(wire, t, n, |wire|); }
    } else {
      var i :| 0 <= i < |wire| && wire[i].byTick && !wire[i].ok;
      LandedLess(wire, wire[i].topic, wire[i].partition, |wire|, i);
    }
  }

  // ---------------------------------------------------------------------
  // Flushing all batches
  // ---------------------------------------------------------------------

  ghost predicate Drained(p: Pipe) { forall key :: key in p.batches ==> p.batches[key].messages == [] }

  /** Since p0 every batch outside rest has been flushed, by requests that all succeeded exactly when allOk. */
  ghost predicate Flushing(p0: Pipe, p: Pipe, rest: set<string>, byTick: bool, allOk: bool) {
    && rest <= p.batches.Keys && SameAccounts(p0, p) && p0.wire <= p.wire && (Drained(p0) || p.wire == p0.wire ==> p == p0)
    && (forall key :: key in p.batches && key !in rest ==> p.batches[key].messages == [])
    && (forall i :: |p0.wire| <= i < |p.wire| ==> p.wire[i].byTick == byTick)
    && (allOk <==> forall i :: |p0.wire| <= i < |p.wire| ==> p.wire[i].ok)
  }

  lemma FlushingStep(p0: Pipe, p: Pipe, rest: set<string>, byTick: bool, allOk: bool, key: string, ok: bool)
    requires Flushing(p0, p, rest, byTick, allOk) && key in rest
    requires key == PartitionKey(p.batches[key].topic, p.batches[key].partition)
    requires p.batches[key].messages == [] ==> ok
    ensures Flushing(p0, Flushed(p, key, ok, byTick), rest - {key}, byTick, allOk && ok)
  {
    hide PartitionKey, SameAccounts;
    FlushKeeps(p, key, ok, byTick);
    var q := Flushed(p, key, ok, byTick);
    SameTrans(p0, p, q);
    if p.batches[key].messages != [] {
      assert q.wire[|p.wire|].ok == ok;
      assert forall i :: |p0.wire| <= i < |p.wire| ==> q.wire[i] == p.wire[i];
    }
  }

  // ---------------------------------------------------------------------
  // The producer
  // ---------------------------------------------------------------------

  function Stamped(ms: seq<Message>, now: int, k: nat): (r: seq<Message>)
    requires k <= |ms|
    ensures |r| == k
    ensures forall i :: 0 <= i < k ==>
      r[i].key == ms[i].key && r[i].value == ms[i].value && r[i].timestamp == if ms[i].timestamp == 0 then now else ms[i].timestamp
  {
    if k == 0 then []
    else Stamped(ms, now, k - 1) + [if ms[k - 1].timestamp == 0 then ms[k - 1].(timestamp := now) else ms[k - 1]]
  }

  method SetTimestamps(ms: seq<Message>, now: int) returns (stamped: seq<Message>)
    ensures stamped == Stamped(ms, now, |ms|)
  {
    stamped := [];
    for i := 0 to |ms|
      invariant stamped == Stamped(ms, now, i)
    {
      stamped := stamped + [if ms[i].timestamp == 0 then ms[i].(timestamp := now) else ms[i]];
    }
  }

  /** Messages and bytes of the first k requests that ended with the given outcome. */
  ghost function Count(wire: seq<Attempt>, ok: bool, k: nat): nat
    requires k <= |wire|
  {
    if k == 0 then 0 else Count(wire, ok, k - 1) + if wire[k - 1].ok == ok then |wire[k - 1].messages| else 0
  }

  lemma {:induction false} CountExtends(wire: seq<Attempt>, more: seq<Attempt>, ok: bool, k: nat)
    requires k <= |wire|
    ensures Count(wire + more, ok, k) == Count(wire, ok, k)
  {
    if k > 0 { CountExtends(wire, more, ok, k - 1); }
  }

  /** The counters count messages: over requests to one partition they are the messages that landed and those that were lost. */
  lemma {:induction false} CountsMessages(wire: seq<Attempt>, t: string, n: nat, k: nat)
    requires k <= |wire| && forall i :: 0 <= i < k ==> wire[i].To(t, n)
    ensures Count(wire, true, k) == |Landed(wire, t, n, k)| && Count(wire, false, k) == |Lost(wire, t, n, k)|
  {
    if k > 0 { CountsMessages(wire, t, n, k - 1); }
  }

  class Producer {
    const batchSize: int
    const answers: nat -> bool  // whether the i-th request succeeds
    const ticks: nat -> bool    // whether the background flusher runs before the i-th step
    var step: nat
    var pipe: Pipe
    var closed: bool
    var messagesSent: nat
    var messagesFailed: nat

    /** Batches below the limit under their own keys, no empty request, and outcomes and counters that match the requests made. */
    ghost predicate Valid()
      reads this
    {
      && Open(pipe.batches, batchSize) && NoneEmpty(pipe.wire) && Answered(pipe.wire, answers)
      && messagesSent == Count(pipe.wire, true, |pipe.wire|)
      && messagesFailed == Count(pipe.wire, false, |pipe.wire|)
    }

    constructor (batchSize: int, answers: nat -> bool, ticks: nat -> bool)
      ensures Valid() && !closed && pipe == Pipe(map[], []) && step == 0
      ensures this.batchSize == batchSize && this.answers == answers && this.ticks == ticks
    {
      this.batchSize, this.answers, this.ticks := batchSize, answers, ticks;
      step, pipe, closed := 0, Pipe(map[], []), false;
      messagesSent, messagesFailed := 0, 0;
    }

    method SendMessage(t: string, n: nat, ms: seq<Message>, byTick: bool) returns (ok: bool)
      requires Valid() && ms != []
      modifies this
      ensures Valid() && closed == old(closed) && step == old(step)
      ensures ok == answers(|old(pipe.wire)|) && pipe == Sent(old(pipe), Attempt(t, n, ms, ok, byTick))
    {
      hide Open;
      ok := answers(|pipe.wire|);
      var a := Attempt(t, n, ms, ok, byTick);
      CountExtends(pipe.wire, [a], true, |pipe.wire|);
      CountExtends(pipe.wire, [a], false, |pipe.wire|);
      pipe := pipe.(wire := pipe.wire + [a]);
      if ok {
        messagesSent := messagesSent + |ms|;
      } else {
        messagesFailed := messagesFailed + |ms|;
      }
    }

    method FlushBatch(key: string, byTick: bool) returns (ok: bool)
      requires key in pipe.batches && NoneEmpty(pipe.wire) && Answered(pipe.wire, answers)
      requires messagesSent == Count(pipe.wire, true, |pipe.wire|) && messagesFailed == Count(pipe.wire, false, |pipe.wire|)
      requires Open(pipe.batches, batchSize + 1) && batchSize > 0
      requires forall k :: k in pipe.batches && k != key ==> |pipe.batches[k].messages| < batchSize
      modifies this
      ensures Valid() && closed == old(closed) && step == old(step)
      ensures pipe == Flushed(old(pipe), key, ok, byTick) && (old(pipe).batches[key].messages == [] ==> ok)
    {
      var b := pipe.batches[key];
      if |b.messages| == 0 { return true; }
      pipe := pipe.(batches := pipe.batches[key := b.(messages := [])]);
      ok := SendMessage(b.topic, b.partition, b.messages, byTick);
    }

    /** Sends every waiting message: no batch holds anything afterwards and no account has changed. */
    method FlushAll(byTick: bool) returns (r: Option<SendError>)
      requires Valid()
      modifies this
      ensures Valid() && closed == old(closed) && step == old(step) && (r == Some(Closed) <==> closed)
      ensures closed ==> pipe == old(pipe)
      ensures pipe.wire == old(pipe.wire) ==> pipe == old(pipe)
      ensures SameAccounts(old(pipe), pipe) && old(pipe.wire) <= pipe.wire
      ensures !closed ==> Drained(pipe) && (Drained(old(pipe)) ==> pipe == old(pipe))
      ensures forall i :: |old(pipe.wire)| <= i < |pipe.wire| ==> pipe.wire[i].byTick == byTick
      ensures !closed ==> (r.None? <==> forall i :: |old(pipe.wire)| <= i < |pipe.wire| ==> pipe.wire[i].ok)
    {
      hide SameAccounts;
      if closed { SameSelf(pipe); return Some(Closed); }
      SameSelf(pipe);
      var rest, allOk := pipe.batches.Keys, true;
      while rest != {}
        invariant Valid() && !closed && step == old(step)
        invariant Flushing(old(pipe), pipe, rest, byTick, allOk)
        decreases |rest|
      {
        allOk, rest := FlushNext(old(pipe), rest, byTick, allOk);
      }
      return if allOk then None else Some(Broker);
    }

    method FlushNext(ghost p0: Pipe, rest: set<string>, byTick: bool, allOk: bool) returns (ok: bool, rest': set<string>)
      requires Valid() && !closed && rest != {} && Flushing(p0, pipe, rest, byTick, allOk)
      modifies this
      ensures Valid() && !closed && step == old(step) && rest' < rest && |rest'| < |rest| && Flushing(p0, pipe, rest', byTick, ok)
    {
      hide SameAccounts, PartitionKey;
      var key :| key in rest;
      ghost var before := pipe;
      var sent := FlushBatch(key, byTick);
      FlushingStep(p0, before, rest, byTick, allOk, key, sent);
      return allOk && sent, rest - {key};
    }

    /** The background flusher, exactly when it is due; it ignores its own errors. */
    method Tick()
      requires Valid() && !closed
      modifies this
      ensures Valid() && !closed && SameAccounts(old(pipe), pipe) && old(pipe.wire) <= pipe.wire && step == old(step) + 1
      ensures forall i :: |old(pipe.wire)| <= i < |pipe.wire| ==> pipe.wire[i].byTick
      ensures if ticks(old(step)) then Drained(pipe) else pipe == old(pipe)
      ensures Drained(old(pipe)) ==> pipe == old(pipe)
      ensures ticks(old(step)) && !Drained(old(pipe)) ==> TickMade(pipe.wire, |old(pipe.wire)|)
    {
      hide SameAccounts;
      SameSelf(pipe);
      if ticks(step) { var _ := FlushAll(true); }
      step := step + 1;
    }

    /** Appends the message to its partition's account, and succeeds unless a request it made itself failed. */
    method AddToBatch(t: string, n: nat, m: Message) returns (ok: bool)
      requires Valid() && !closed && batchSize > 0
      modifies this
      ensures Valid() && !closed && old(pipe.wire) <= pipe.wire && step == old(step) + 1
      ensures Accounted(pipe, t, n) == Accounted(old(pipe), t, n) + [m] && OthersSame(old(pipe), pipe, t, n)
      ensures ok <==> Quiet(pipe.wire, |old(pipe.wire)|)
      ensures ticks(old(step)) && !Drained(old(pipe)) ==> TickMade(pipe.wire, |old(pipe.wire)|)
      ensures Drained(old(pipe)) && batchSize == 1 ==> Drained(pipe) && NoTicks(pipe.wire, |old(pipe.wire)|)
      ensures Drained(old(pipe)) && batchSize > 1 ==> !Drained(pipe) && pipe.wire == old(pipe.wire)
      ensures !ticks(old(step)) ==>
        var all := Buffered(old(pipe).batches, t, n) + [m];
        if |all| < batchSize then ok && pipe.wire == old(pipe.wire) && Buffered(pipe.batches, t, n) == all
        else pipe.wire == old(pipe.wire) + [Attempt(t, n, all, ok, false)] && Buffered(pipe.batches, t, n) == []
    {
      hide SameAccounts, OthersSame, Accounted, PartitionKey;
      AddsTo(pipe, batchSize, t, n, m);
      Tick();
      ghost var ticked := pipe;
      AddKeeps(pipe, batchSize, t, n, m);
      var key := PartitionKey(t, n);
      pipe := Added(pipe, t, n, m);
      ghost var added := pipe;
      ok := true;
      if |pipe.batches[key].messages| >= batchSize {
        ok := FlushBatch(key, false);
        FlushKeeps(added, key, ok, false);
      } else {
        SameSelf(pipe);
      }
      AddedAccounts(old(pipe), ticked, added, pipe, t, n, m);
    }

    method SendBatched(t: string, n: nat, ms: seq<Message>) returns (ok: bool, ghost taken: nat)
      requires Valid() && !closed && batchSize > 0 && ms != []
      modifies this
      ensures Valid() && !closed && old(pipe.wire) <= pipe.wire
      ensures taken <= |ms| && (ok ==> taken == |ms|) && (ok <==> Quiet(pipe.wire, |old(pipe.wire)|))
      ensures Accounted(pipe, t, n) == Accounted(old(pipe), t, n) + ms[..taken] && OthersSame(old(pipe), pipe, t, n)
      ensures ticks(old(step)) && !Drained(old(pipe)) ==> TickMade(pipe.wire, |old(pipe.wire)|)
      ensures Drained(old(pipe)) && batchSize == 1 ==> Drained(pipe) && NoTicks(pipe.wire, |old(pipe.wire)|)
      ensures Drained(old(pipe)) && batchSize > 1 && ticks(old(step) + 1) ==>
        TickMade(pipe.wire, |old(pipe.wire)|) || (step == old(step) + 1 && pipe.wire == old(pipe.wire) && !Drained(pipe))
    {
      hide SameAccounts, OthersSame, Accounted, PartitionKey, Drained, Open, Count;
      OthersSelf(pipe, t, n);
      taken := 0;
      for i := 0 to |ms|
        invariant Valid() && !closed && old(pipe.wire) <= pipe.wire && taken == i
        invariant Quiet(pipe.wire, |old(pipe.wire)|)
        invariant Accounted(pipe, t, n) == Accounted(old(pipe), t, n) + ms[..i] && OthersSame(old(pipe), pipe, t, n)
        invariant i == 0 ==> pipe == old(pipe) && step == old(step)
        invariant i > 0 && ticks(old(step)) && !Drained(old(pipe)) ==> TickMade(pipe.wire, |old(pipe.wire)|)
        invariant Drained(old(pipe)) && batchSize == 1 ==> Drained(pipe) && NoTicks(pipe.wire, |old(pipe.wire)|)
        invariant i > 0 && Drained(old(pipe)) && batchSize > 1 && ticks(old(step) + 1) ==>
          TickMade(pipe.wire, |old(pipe.wire)|) || (step == old(step) + 1 && pipe.wire == old(pipe.wire) && !Drained(pipe))
      {
        ghost var before := pipe;
        ok := AddToBatch(t, n, ms[i]);
        OthersTrans(old(pipe), before, pipe, t, n);
        QuietJoins(pipe.wire, before.wire, |old(pipe.wire)|);
        taken := i + 1;
        assert ms[..i] + [ms[i]] == ms[..i + 1];
        if !ok { return; }
      }
      ok := true;
    }

    method SendDirect(t: string, n: nat, ms: seq<Message>) returns (ok: bool)
      requires Valid() && !closed && ms != []
      modifies this
      ensures Valid() && !closed && old(pipe.wire) <= pipe.wire && step == old(step) + 1
      ensures ok <==> Quiet(pipe.wire, |old(pipe.wire)|)
      ensures OthersSame(old(pipe), pipe, t, n)
      ensures multiset(Accounted(pipe, t, n)) == multiset(Accounted(old(pipe), t, n)) + multiset(ms)
      ensures Buffered(old(pipe).batches, t, n) == [] ==> Accounted(pipe, t, n) == Accounted(old(pipe), t, n) + ms
      ensures ticks(old(step)) && !Drained(old(pipe)) ==> TickMade(pipe.wire, |old(pipe.wire)|)
      ensures Drained(old(pipe)) ==> Drained(pipe) && NoTicks(pipe.wire, |old(pipe.wire)|) && |pipe.wire| == |old(pipe.wire)| + 1
      ensures Drained(old(pipe)) || !ticks(old(step)) ==> pipe == Sent(old(pipe), Attempt(t, n, ms, ok, false))
    {
      hide SameAccounts, OthersSame, PartitionKey, Accounted, Buffered, Open;
      Tick();
      ghost var ticked := pipe;
      ok := SendMessage(t, n, ms, false);
      DirectAccounts(old(pipe), ticked, Attempt(t, n, ms, ok, false));
    }

    /**
      * Sends messages, batched unless there are more than a batch holds. It succeeds unless a request it made itself failed,
      * and then takes every message. Accepted messages end up in the partition's account and in no other; in the order they
      * were accepted, unless an oversized send overtakes messages still waiting. Messages wait for the background flusher only
      * when they are batched and a batch holds more than one.
      */
    method SendMessagesToPartition(t: string, n: nat, ms: seq<Message>, now: int) returns (r: Option<SendError>, ghost taken: nat)
      requires Valid()
      modifies this
      ensures Valid() && closed == old(closed) && old(pipe.wire) <= pipe.wire && taken <= |ms|
      ensures closed ==> r == Some(Closed)
      ensures !closed && t == "" ==> r == Some(InvalidTopic)
      ensures closed || t == "" || ms == [] ==> pipe == old(pipe) && taken == 0
      ensures !closed && t != "" ==> (r.None? <==> Quiet(pipe.wire, |old(pipe.wire)|)) && (r.None? ==> taken == |ms|)
      ensures OthersSame(old(pipe), pipe, t, n)
      ensures multiset(Accounted(pipe, t, n)) == multiset(Accounted(old(pipe), t, n)) + multiset(Stamped(ms, now, |ms|)[..taken])
      ensures Buffered(old(pipe).batches, t, n) == [] || |ms| <= batchSize ==>
        Accounted(pipe, t, n) == Accounted(old(pipe), t, n) + Stamped(ms, now, |ms|)[..taken]
      ensures !closed && t != "" && ms != [] && ticks(old(step)) && !Drained(old(pipe)) ==> TickMade(pipe.wire, |old(pipe.wire)|)
      ensures Drained(old(pipe)) && (batchSize <= 1 || |ms| > batchSize) ==> Drained(pipe) && NoTicks(pipe.wire, |old(pipe.wire)|)
      ensures !closed && t != "" && Drained(old(pipe)) && |ms| > batchSize > 1 ==>
        step == old(step) + 1 && |pipe.wire| == |old(pipe.wire)| + 1
      ensures !closed && t != "" && Drained(old(pipe)) && |ms| > Max(batchSize, 0) ==>
        pipe == Sent(old(pipe), Attempt(t, n, Stamped(ms, now, |ms|), r.None?, false))
      ensures !closed && t != "" && Drained(old(pipe)) && 1 <= |ms| <= batchSize && batchSize > 1 && ticks(old(step) + 1) ==>
        TickMade(pipe.wire, |old(pipe.wire)|) || (step == old(step) + 1 && pipe.wire == old(pipe.wire) && !Drained(pipe))
    {
      hide SameAccounts, OthersSame, Accounted, PartitionKey, Open, Drained, Buffered, Count, Stamped;
      OthersSelf(pipe, t, n);
      taken := 0;
      if closed { return Some(Closed), 0; }
      if t == "" { return Some(InvalidTopic), 0; }
      if |ms| == 0 { return None, 0; }
      var stamped := SetTimestamps(ms, now);
      var ok;
      if batchSize > 0 && |ms| <= batchSize {
        ok, taken := SendBatched(t, n, stamped);
      } else {
        ok := SendDirect(t, n, stamped);
        taken := |ms|;
        assert stamped[..|ms|] == stamped;
      }
      return if ok then None else Some(Broker), taken;
    }

    /** Sends what is waiting, then refuses everything. */
    method Close() returns (r: Option<SendError>)
      requires Valid()
      modifies this
      ensures Valid() && closed && (old(closed) ==> r == Some(Closed) && pipe == old(pipe))
      ensures SameAccounts(old(pipe), pipe) && old(pipe.wire) <= pipe.wire
      ensures !old(closed) ==> Drained(pipe) && (Drained(old(pipe)) ==> pipe == old(pipe))
      ensures !old(closed) ==> (r.None? <==> Quiet(pipe.wire, |old(pipe.wire)|))
    {
      hide SameAccounts;
      SameSelf(pipe);
      if closed { return Some(Closed); }
      r := FlushAll(false);
      closed := true;
    }
  }

  lemma OthersSelf(p: Pipe, t: string, n: nat)
    ensures OthersSame(p, p, t, n)
  {
  }

  lemma DirectAccounts(p: Pipe, ticked: Pipe, a: Attempt)
    requires SameAccounts(p, ticked)
    requires ticked == p || Drained(ticked)
    ensures var q := Sent(ticked, a);
            && OthersSame(p, q, a.topic, a.partition)
            && multiset(Accounted(q, a.topic, a.partition)) == multiset(Accounted(p, a.topic, a.partition)) + multiset(a.messages)
            && (Buffered(p.batches, a.topic, a.partition) == [] ==>
                  Accounted(q, a.topic, a.partition) == Accounted(p, a.topic, a.partition) + a.messages)
  {
    hide OthersSame, PartitionKey, Handed;
    DirectKeeps(ticked, a);
    OthersTrans(p, ticked, Sent(ticked, a), a.topic, a.partition);
    assert Accounted(p, a.topic, a.partition) == Accounted(ticked, a.topic, a.partition);
  }

  lemma QuietJoins(wire: seq<Attempt>, before: seq<Attempt>, from: nat)
    requires before <= wire && from <= |before| && Quiet(before, from)
    ensures Quiet(wire, from) <==> Quiet(wire, |before|)
  {
    assert forall i :: 0 <= i < |before| ==> before[i] == wire[i];
  }

  lemma AddedAccounts(p0: Pipe, p1: Pipe, p2: Pipe, p3: Pipe, t: string, n: nat, m: Message)
    requires SameAccounts(p0, p1) && OthersSame(p1, p2, t, n) && SameAccounts(p2, p3)
    requires Accounted(p2, t, n) == Accounted(p1, t, n) + [m]
    ensures OthersSame(p0, p3, t, n) && Accounted(p3, t, n) == Accounted(p0, t, n) + [m]
  {
    hide Accounted;
  }
}
