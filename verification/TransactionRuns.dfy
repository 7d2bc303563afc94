/** The transactional producer's state machine and what it sends to coordinator and brokers (pkg/client/transactional_producer.go). */
module TransactionRuns {
  import opened Common
  import opened Producer
  import opened Transactions

  /** What the rest of the system sees: partitions acknowledged by the coordinator, produce requests, and transaction ends. */
  datatype Event = Began | Acked(at: Where) | Produced(attempt: Attempt) | Ended(commit: bool, ok: bool)

  /** The partitions acknowledged since the current transaction began. */
  ghost function Acks(trace: seq<Event>, k: nat): set<Where>
    requires k <= |trace|
  {
    if k == 0 then {}
    else
      match trace[k - 1]
      case Began => {}
      case Ended(_, _) => {}
      case Acked(at) => Acks(trace, k - 1) + {at}
      case Produced(_) => Acks(trace, k - 1)
  }

  /** Every produce request goes to a partition the coordinator acknowledged earlier in the same transaction. */
  ghost predicate Guarded(trace: seq<Event>) {
    forall i :: 0 <= i < |trace| && trace[i].Produced? ==>
      Where(trace[i].attempt.topic, trace[i].attempt.partition) in Acks(trace, i)
  }

  function Requests(wire: seq<Attempt>): (r: seq<Event>)
    ensures |r| == |wire| && forall i :: 0 <= i < |wire| ==> r[i] == Produced(wire[i])
  {
    seq(|wire|, i requires 0 <= i < |wire| => Produced(wire[i]))
  }

  lemma {:induction false} AcksPrefix(trace: seq<Event>, more: seq<Event>, k: nat)
    requires k <= |trace|
    ensures Acks(trace + more, k) == Acks(trace, k)
  {
    if k > 0 { AcksPrefix(trace, more, k - 1); }
  }

  lemma {:induction false} AcksOfRequests(trace: seq<Event>, wire: seq<Attempt>, k: nat)
    requires k <= |wire|
    ensures Acks(trace + Requests(wire), |trace| + k) == Acks(trace, |trace|)
  {
    if k == 0 { AcksPrefix(trace, Requests(wire), |trace|); } else { AcksOfRequests(trace, wire, k - 1); }
  }

  lemma GuardedRequests(trace: seq<Event>, wire: seq<Attempt>)
    requires Guarded(trace)
    requires forall i :: 0 <= i < |wire| ==> Where(wire[i].topic, wire[i].partition) in Acks(trace, |trace|)
    ensures Guarded(trace + Requests(wire))
  {
    hide Acks;
    var all := trace + Requests(wire);
    forall i | 0 <= i < |all| && all[i].Produced?
      ensures Where(all[i].attempt.topic, all[i].attempt.partition) in Acks(all, i)
    {
      if i < |trace| { AcksPrefix(trace, Requests(wire), i); } else { AcksOfRequests(trace, wire, i - |trace|); }
    }
  }

  lemma GuardedOne(trace: seq<Event>, e: Event)
    requires Guarded(trace) && !e.Produced?
    ensures Guarded(trace + [e])
    ensures Acks(trace + [e], |trace| + 1) == if e.Acked? then Acks(trace, |trace|) + {e.at} else {}
  {
    forall i | 0 <= i <= |trace| { AcksPrefix(trace, [e], i); }
  }

  /** A request only carries messages pending for its partition. */
  lemma RequestIsPending(wire: seq<Attempt>, ms: seq<Pending>, clock: Where -> int, i: nat)
    requires NoneEmpty(wire) && Prefixes(wire, ms, clock) && i < |wire|
    ensures exists j :: 0 <= j < |ms| && ms[j].at == Where(wire[i].topic, wire[i].partition)
  {
    hide Handed, Sends;
    var a := wire[i];
    HandedNonEmpty(wire, i, |wire|);
    assert Handed(wire, a.topic, a.partition, |wire|) <= Wanted(ms, clock, a.topic, a.partition);
    SentToIsPending(ms, Where(a.topic, a.partition), |ms|);
  }

  lemma {:induction false} HandedNonEmpty(wire: seq<Attempt>, i: nat, k: nat)
    requires NoneEmpty(wire) && i < k <= |wire|
    ensures Handed(wire, wire[i].topic, wire[i].partition, k) != []
  {
    if i < k - 1 { HandedNonEmpty(wire, i, k - 1); }
  }

  datatype State = Uninitialized | Ready | InTransaction | Committing | Aborting | Fenced | Closed

  datatype Txn = Txn(registered: map<string, seq<int>>, messages: seq<Pending>) {
    predicate Has(at: Where) { at.topic in registered && at.partition in registered[at.topic] }

    function Add(at: Where): Txn {
      this.(registered := registered[at.topic := (if at.topic in registered then registered[at.topic] else []) + [at.partition]])
    }
  }

  class TransactionalProducer {
    var state: State
    var txn: Option<Txn>
    var closed: bool
    var committed: nat
    var aborted: nat
    var produced: nat
    var trace: seq<Event>

    /** An open transaction knows exactly the partitions acknowledged in it, and holds messages for those alone. */
    ghost predicate Valid()
      reads this
    {
      && Guarded(trace)
      && (state.InTransaction? ==> txn.Some? && forall at :: txn.value.Has(at) <==> at in Acks(trace, |trace|))
      && (txn.Some? ==> forall i :: 0 <= i < |txn.value.messages| ==> txn.value.Has(txn.value.messages[i].at))
    }

    constructor ()
      ensures Valid() && state == Ready && txn.None? && !closed && trace == []
    {
      state, txn, closed, trace := Ready, None, false, [];
      committed, aborted, produced := 0, 0, 0;
    }

    method BeginTransaction() returns (ok: bool)
      requires Valid()
      modifies this
      ensures Valid() && closed == old(closed)
      ensures ok <==> !closed && old(state) in {Ready, Committing, Aborting}
      ensures ok ==> state == InTransaction && txn == Some(Txn(map[], [])) && trace == old(trace) + [Began]
      ensures !ok ==> state == old(state) && txn == old(txn) && trace == old(trace)
    {
      if closed { return false; }
      if state.Uninitialized? || state.InTransaction? || state.Fenced? || state.Closed? { return false; }
      GuardedOne(trace, Began);
      txn := Some(Txn(map[], []));
      state := InTransaction;
      trace := trace + [Began];
      return true;
    }

    /** Buffers a message; its partition is registered with the coordinator first, whose answer is acks. */
    method Send(at: Where, message: Message, acks: bool) returns (ok: bool)
      requires Valid()
      modifies this
      ensures Valid() && closed == old(closed) && state == old(state)
      ensures ok <==> !closed && old(state) == InTransaction && (acks || old(txn).value.Has(at))
      ensures ok ==> txn.Some? && txn.value.messages == old(txn).value.messages + [Pending(at, message)] && produced == old(produced) + 1
      ensures ok ==> trace == old(trace) + if old(txn).value.Has(at) then [] else [Acked(at)]
      ensures !ok ==> txn == old(txn) && trace == old(trace) && produced == old(produced)
    {
      hide Acks, Guarded;
      if closed { return false; }
      if !state.InTransaction? { return false; }
      var t := txn.value;
      if !t.Has(at) {
        if !acks { return false; }
        GuardedOne(trace, Acked(at));
        trace := trace + [Acked(at)];
        AddHas(t, at);
        t := t.Add(at);
      }
      txn := Some(t.(messages := t.messages + [Pending(at, message)]));
      produced := produced + 1;
      return true;
    }

    /**
      * Writes the messages, then ends the transaction. On success every partition has been handed exactly its messages, in send
      * order; on failure to write, the transaction is aborted; when only the end fails the outcome stays open.
      */
    method CommitTransaction(clock: Where -> int, batchSize: int, answers: nat -> bool, ticks: nat -> bool, ends: bool, aborts: bool)
        returns (ok: bool, wire: seq<Attempt>)
      requires Valid()
      modifies this
      ensures Valid() && closed == old(closed)
      ensures closed || old(state) != InTransaction ==>
        !ok && wire == [] && state == old(state) && txn == old(txn) && trace == old(trace)
      ensures !closed && old(state) == InTransaction ==>
        var ms := old(txn).value.messages;
        && NoneEmpty(wire) && Prefixes(wire, ms, clock) && Answered(wire, answers)
        && var written := Quiet(wire, 0) && Writable(ms);
        && (ok <==> written && ends)
        && (written ==> Complete(wire, ms, clock) && (Delivered(wire, ms, clock) <==> TicksSucceeded(wire)))
        && (written && NothingWaits(ms, batchSize) ==> Delivered(wire, ms, clock))
        && (TickWhenWaiting(ms, batchSize, answers, ticks) ==> TickMade(wire, FirstBatched(ms, batchSize, FirstSeen(ms, |ms|), 0)))
        && ((forall i :: answers(i)) ==> (ok <==> Writable(ms) && ends) && (written ==> Delivered(wire, ms, clock)))
        && (written ==> trace == old(trace) + Requests(wire) + [Ended(true, ends)])
        && (written && !ends ==> state == Committing && txn == old(txn))
        && (!written ==> trace == old(trace) + Requests(wire)
                                + if old(txn).value.registered == map[] then [] else [Ended(false, aborts)])
        && (ok || !written ==> state == Ready && txn.None?)
        && committed == old(committed) + (if ok then 1 else 0) && aborted == old(aborted) + (if written then 0 else 1)
    {
      hide Acks, Guarded, Prefixes, Complete, Delivered, Writable, NothingWaits, FirstBatched, TickWhenWaiting, Sends, FirstSeen;
      wire := [];
      if closed { return false, wire; }
      if !state.InTransaction? { return false, wire; }
      state := Committing;
      var t := txn.value;
      var flushed;
      flushed, wire := FlushMessages(t.messages, clock, batchSize, answers, ticks);
      forall i | 0 <= i < |wire| ensures Where(wire[i].topic, wire[i].partition) in Acks(trace, |trace|) {
        RequestIsPending(wire, t.messages, clock, i);
      }
      GuardedRequests(trace, wire);
      trace := trace + Requests(wire);
      if !flushed {
        var _ := AbortTransaction(aborts);
        return false, wire;
      }
      GuardedOne(trace, Ended(true, ends));
      trace := trace + [Ended(true, ends)];
      if !ends { return false, wire; }
      txn := None;
      state := Ready;
      committed := committed + 1;
      return true, wire;
    }

    /** Drops the transaction whatever the coordinator answers, and writes nothing to any partition. */
    method AbortTransaction(ends: bool) returns (ok: bool)
      requires Valid()
      modifies this
      ensures Valid() && closed == old(closed) && committed == old(committed)
      ensures closed || old(state) !in {InTransaction, Committing} ==>
        !ok && state == old(state) && txn == old(txn) && trace == old(trace) && aborted == old(aborted)
      ensures !closed && old(state) in {InTransaction, Committing} ==>
        var tells := old(txn).Some? && old(txn).value.registered != map[];
        && state == Ready && txn.None? && aborted == old(aborted) + 1 && (ok <==> !tells || ends)
        && trace == old(trace) + if tells then [Ended(false, ends)] else []
    {
      hide Acks, Guarded;
      if closed { return false; }
      if !state.InTransaction? && !state.Committing? { return false; }
      state := Aborting;
      ok := true;
      if txn.Some? && txn.value.registered != map[] {
        GuardedOne(trace, Ended(false, ends));
        trace := trace + [Ended(false, ends)];
        ok := ends;
      }
      txn := None;
      state := Ready;
      aborted := aborted + 1;
    }

    /** Closes for good; an open transaction is aborted, one whose commit is undecided is left to time out. */
    method Close(ends: bool) returns (ok: bool)
      requires Valid()
      modifies this
      ensures Valid() && closed
      ensures old(closed) ==> !ok && state == old(state) && txn == old(txn) && trace == old(trace)
      ensures !old(closed) ==>
        var tells := old(state) == InTransaction && old(txn).value.registered != map[];
        && state == State.Closed && txn.None? && (ok <==> !tells || ends)
        && trace == old(trace) + if tells then [Ended(false, ends)] else []
    {
      hide Acks, Guarded;
      if closed { return false; }
      closed := true;
      var tells := state.InTransaction? && txn.value.registered != map[];
      if state.InTransaction? { aborted := aborted + 1; }
      txn := None;
      state := State.Closed;
      ok := true;
      if tells {
        GuardedOne(trace, Ended(false, ends));
        trace := trace + [Ended(false, ends)];
        ok := ends;
      }
    }
  }

  lemma AddHas(t: Txn, at: Where)
    ensures forall w :: t.Add(at).Has(w) <==> w == at || t.Has(w)
  {
    var ps := if at.topic in t.registered then t.registered[at.topic] else [];
    assert forall p :: p in ps + [at.partition] <==> p in ps || p == at.partition;
  }

  /**
    * Whenever some message of a transaction waits in a batch, its commit can succeed and lose messages: here is a producer that
    * commits them, and the answers and ticks under which it does.
    */
  method CommitLosesMessages(ms: seq<Pending>, clock: Where -> int, batchSize: int) returns (ok: bool, wire: seq<Attempt>)
    requires Writable(ms) && !NothingWaits(ms, batchSize)
    ensures ok && !Delivered(wire, ms, clock)
  {
    hide Sends, FirstSeen, Delivered, Writable, Complete, Prefixes, Acks, Guarded;
    var tp := new TransactionalProducer();
    var began := tp.BeginTransaction();
    for i := 0 to |ms|
      invariant tp.Valid() && !tp.closed && tp.state == InTransaction && tp.txn.Some? && tp.txn.value.messages == ms[..i]
      invariant fresh(tp)
    {
      var sent := tp.Send(ms[i].at, ms[i].message, true);
      assert ms[..i] + [Pending(ms[i].at, ms[i].message)] == ms[..i + 1];
    }
    assert ms[..|ms|] == ms;
    SomeBatched(ms, batchSize);
    var v := FirstBatched(ms, batchSize, FirstSeen(ms, |ms|), 0);
    ok, wire := tp.CommitTransaction(clock, batchSize, i => i != v, i => i == v + 1, true, true);
    assert TickWhenWaiting(ms, batchSize, i => i != v, i => i == v + 1);
  }
}
