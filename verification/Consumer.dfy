/** A consumer's position over any run of fetches (pkg/client/consumer.go). */
module Consumer {
  import opened Common

  datatype Message = Message(offset: int, key: string, value: string)

  datatype Response = Response(messages: seq<Message>, next: int)

  datatype FetchError = Closed | InvalidTopic | InvalidOffset | NoMessages | Broker

  /** What a call hands back and where the next fetch starts. */
  ghost function Step(offset: int, resp: Response, limit: int): (seq<Message>, int) {
    var ms := resp.messages;
    if 0 < limit < |ms| then (ms[..limit], ms[limit - 1].offset + 1)
    else (ms, if resp.next >= 0 then resp.next else if ms != [] then ms[|ms| - 1].offset + 1 else offset)
  }

  /** The caller's limit, when positive, is kept: the first messages of the answer, as many as allowed. */
  ghost predicate HandsBack(resp: Response, limit: int, ms: seq<Message>) {
    && ms <= resp.messages
    && |ms| == if limit > 0 then Min(limit, |resp.messages|) else |resp.messages|
  }

  /** After a cut, or without the window's end, right after the last message handed back; at the window's end otherwise. */
  ghost predicate Resumes(from: int, resp: Response, ms: seq<Message>, next: int) {
    if ms == resp.messages && resp.next >= 0 then next == resp.next
    else if ms != [] then next == ms[|ms| - 1].offset + 1
    else next == from
  }

  lemma StepKeepsLimit(from: int, resp: Response, limit: int)
    ensures var (ms, next) := Step(from, resp, limit); HandsBack(resp, limit, ms) && Resumes(from, resp, ms, next)
  {
  }

  function Bytes(ms: seq<Message>, k: nat): nat
    requires k <= |ms|
  {
    if k == 0 then 0 else Bytes(ms, k - 1) + |ms[k - 1].key| + |ms[k - 1].value|
  }

  class Consumer {
    const topic: string
    var offset: int
    var closed: bool
    var messagesRead: nat
    var bytesRead: nat
    var fetchCount: nat

    constructor (topic: string, startOffset: int)
      ensures this.topic == topic && offset == startOffset && !closed
      ensures messagesRead == bytesRead == fetchCount == 0
    {
      this.topic, offset, closed := topic, startOffset, false;
      messagesRead, bytesRead, fetchCount := 0, 0, 0;
    }

    /**
      * Fetches up to limit messages, or all that fit when limit is not positive. end answers the end-of-log request, which is
      * made only for the start offset -1; answer is the broker's answer to a fetch at a given offset.
      */
    method FetchN(limit: int, end: Option<int>, answer: int -> Option<Response>) returns (r: Result<seq<Message>, FetchError>)
      modifies this
      ensures closed == old(closed)
      ensures closed ==> r == Err(Closed)
      ensures !closed && topic == "" ==> r == Err(InvalidTopic)
      ensures closed || topic == "" ==> offset == old(offset)
      ensures !closed && topic != "" && old(offset) == -1 && end.None? ==> r == Err(Broker) && offset == -1
      ensures !closed && topic != "" && (old(offset) != -1 || end.Some?) ==>
        var from := if old(offset) == -1 then end.value else old(offset);
        match answer(from)
        case None => r == Err(Broker) && offset == from
        case Some(resp) => r.Ok? && (r.value, offset) == Step(from, resp, limit)
      ensures r.Ok? ==>
        var from := if old(offset) == -1 && end.Some? then end.value else old(offset);
        answer(from).Some? && HandsBack(answer(from).value, limit, r.value) && Resumes(from, answer(from).value, r.value, offset)
      ensures r.Err? ==> messagesRead == old(messagesRead) && bytesRead == old(bytesRead) && fetchCount == old(fetchCount)
      ensures r.Ok? ==> messagesRead == old(messagesRead) + |r.value| && fetchCount == old(fetchCount) + 1
      ensures r.Ok? ==> bytesRead == old(bytesRead) + Bytes(r.value, |r.value|)
    {
      if closed { return Err(Closed); }
      if topic == "" { return Err(InvalidTopic); }
      if offset == -1 {
        if end.None? { return Err(Broker); }
        offset := end.value;
      }
      var resp := answer(offset);
      if resp.None? { return Err(Broker); }
      var messages := resp.value.messages;
      var truncated := limit > 0 && |messages| > limit;
      if truncated { messages := messages[..limit]; }
      if truncated {
        offset := messages[|messages| - 1].offset + 1;
      } else if resp.value.next >= 0 {
        offset := resp.value.next;
      } else if |messages| > 0 {
        offset := messages[|messages| - 1].offset + 1;
      }
      messagesRead := messagesRead + |messages|;
      fetchCount := fetchCount + 1;
      var bytes := 0;
      for i := 0 to |messages|
        invariant bytes == Bytes(messages, i)
      {
        bytes := bytes + |messages[i].key| + |messages[i].value|;
      }
      bytesRead := bytesRead + bytes;
      return Ok(messages);
    }

    method Seek(to: int) returns (r: Option<FetchError>)
      modifies this`offset
      ensures r == if closed then Some(Closed) else if to < 0 then Some(InvalidOffset) else None
      ensures offset == if r.None? then to else old(offset)
    {
      if closed { return Some(Closed); }
      if to < 0 { return Some(InvalidOffset); }
      offset := to;
      return None;
    }
  }

  // ---------------------------------------------------------------------
  // The partition and its broker
  // ---------------------------------------------------------------------

  /** A record of the partition; control records and those of aborted transactions are not visible. */
  datatype Logged = Logged(message: Message, visible: bool)

  ghost predicate Increasing(log: seq<Logged>) {
    forall i, j :: 0 <= i < j < |log| ==> log[i].message.offset < log[j].message.offset
  }

  /** The visible records among the first k whose offset is at least lo and below hi. */
  ghost function Visible(log: seq<Logged>, lo: int, hi: int, k: nat): seq<Message>
    requires k <= |log|
  {
    if k == 0 then []
    else
      var rest := Visible(log, lo, hi, k - 1);
      if log[k - 1].visible && lo <= log[k - 1].message.offset < hi then rest + [log[k - 1].message] else rest
  }

  ghost function Window(log: seq<Logged>, lo: int, hi: int): seq<Message> { Visible(log, lo, hi, |log|) }

  /** A broker answers with the visible records of some window from the offset on, and the window's end or -1. */
  ghost predicate Honest(log: seq<Logged>, from: int, end: int, resp: Response) {
    && from <= end && resp.messages == Window(log, from, end)
    && (resp.next == end || resp.next == -1)
  }

  lemma {:induction false} VisibleMembers(log: seq<Logged>, lo: int, hi: int, k: nat)
    requires Increasing(log) && k <= |log|
    ensures forall m :: m in Visible(log, lo, hi, k) ==> lo <= m.offset < hi && exists i :: 0 <= i < k && log[i].message == m
  {
    if k > 0 { VisibleMembers(log, lo, hi, k - 1); }
  }

  /** A window splits at any offset within it. */
  lemma {:induction false} WindowSplits(log: seq<Logged>, lo: int, mid: int, hi: int, k: nat)
    requires Increasing(log) && lo <= mid <= hi && k <= |log|
    ensures Visible(log, lo, hi, k) == Visible(log, lo, mid, k) + Visible(log, mid, hi, k)
  {
    if k > 0 {
      WindowSplits(log, lo, mid, hi, k - 1);
      if log[k - 1].message.offset < mid { NothingLater(log, mid, hi, k - 1, log[k - 1].message.offset); }
    }
  }

  lemma {:induction false} NothingLater(log: seq<Logged>, lo: int, hi: int, k: nat, last: int)
    requires Increasing(log) && k <= |log| && last < lo
    requires forall i :: 0 <= i < k ==> log[i].message.offset < last
    ensures Visible(log, lo, hi, k) == []
  {
    if k > 0 { NothingLater(log, lo, hi, k - 1, last); }
  }

  /** The first n records of a window are those up to and including the nth. */
  lemma {:induction false} PrefixIsWindow(log: seq<Logged>, lo: int, hi: int, k: nat, n: nat)
    requires Increasing(log) && k <= |log| && 0 < n <= |Visible(log, lo, hi, k)|
    ensures var v := Visible(log, lo, hi, k);
            && lo <= v[n - 1].offset < hi && v[..n] == Visible(log, lo, v[n - 1].offset + 1, k)
  {
    var v := Visible(log, lo, hi, k);
    var rest := Visible(log, lo, hi, k - 1);
    if n <= |rest| {
      PrefixIsWindow(log, lo, hi, k - 1, n);
      VisibleMembers(log, lo, hi, k - 1);
      assert rest[n - 1] in rest;
      assert v[..n] == rest[..n];
    } else {
      var last := log[k - 1].message.offset;
      SameBelow(log, lo, hi, last + 1, k - 1);
      assert v[..n] == v;
    }
  }

  lemma {:induction false} SameBelow(log: seq<Logged>, lo: int, hi: int, hi': int, k: nat)
    requires k <= |log| && forall i :: 0 <= i < k ==> log[i].message.offset < hi && log[i].message.offset < hi'
    ensures Visible(log, lo, hi, k) == Visible(log, lo, hi', k)
  {
    if k > 0 { SameBelow(log, lo, hi, hi', k - 1); }
  }

  /** One fetch hands back exactly the visible records it moves past, and never moves back. */
  lemma StepExact(log: seq<Logged>, from: int, end: int, resp: Response, limit: int)
    requires Increasing(log) && Honest(log, from, end, resp) && 0 <= from
    ensures var (ms, next) := Step(from, resp, limit);
            from <= next && ms == Window(log, from, next)
  {
    hide Visible;
    var ms := resp.messages;
    if 0 < limit < |ms| {
      PrefixIsWindow(log, from, end, |log|, limit);
    } else if resp.next < 0 {
      if ms != [] {
        PrefixIsWindow(log, from, end, |log|, |ms|);
        assert ms[..|ms|] == ms;
      } else {
        WindowSplits(log, from, from, end, |log|);
      }
    }
  }

  /** The offset moves exactly when the broker reports the window's end or sent a record. */
  lemma MovesIff(log: seq<Logged>, from: int, end: int, resp: Response, limit: int)
    requires Increasing(log) && Honest(log, from, end, resp) && 0 <= from < end
    ensures Step(from, resp, limit).1 > from <==> resp.next >= 0 || resp.messages != []
  {
    hide Visible;
    var ms := resp.messages;
    VisibleMembers(log, from, end, |log|);
    if ms != [] {
      assert ms[|ms| - 1] in ms;
      if 0 < limit < |ms| { assert ms[limit - 1] in ms; }
    }
  }

  // ---------------------------------------------------------------------
  // Every run
  // ---------------------------------------------------------------------

  datatype Fetch = Fetch(limit: int, end: int, resp: Response) | Failed

  ghost function Position(start: int, fs: seq<Fetch>, k: nat): int
    requires k <= |fs|
  {
    if k == 0 then start
    else
      var from := Position(start, fs, k - 1);
      if fs[k - 1].Failed? then from else Step(from, fs[k - 1].resp, fs[k - 1].limit).1
  }

  ghost function Received(start: int, fs: seq<Fetch>, k: nat): seq<Message>
    requires k <= |fs|
  {
    if k == 0 then []
    else
      Received(start, fs, k - 1)
      + if fs[k - 1].Failed? then [] else Step(Position(start, fs, k - 1), fs[k - 1].resp, fs[k - 1].limit).0
  }

  ghost predicate HonestRun(log: seq<Logged>, start: int, fs: seq<Fetch>) {
    forall k :: 0 <= k < |fs| && fs[k].Fetch? ==> Honest(log, Position(start, fs, k), fs[k].end, fs[k].resp)
  }

  /** Over any run of fetches with any limits the consumer has received the visible records between start and position, once each. */
  lemma {:induction false} RunExact(log: seq<Logged>, start: int, fs: seq<Fetch>, k: nat)
    requires Increasing(log) && 0 <= start && HonestRun(log, start, fs) && k <= |fs|
    ensures start <= Position(start, fs, k)
    ensures Received(start, fs, k) == Window(log, start, Position(start, fs, k))
    ensures k > 0 ==> Position(start, fs, k - 1) <= Position(start, fs, k)
  {
    hide Visible, Step;
    if k == 0 {
      WindowSplits(log, start, start, start, |log|);
    } else {
      RunExact(log, start, fs, k - 1);
      if fs[k - 1].Fetch? {
        var from := Position(start, fs, k - 1);
        StepExact(log, from, fs[k - 1].end, fs[k - 1].resp, fs[k - 1].limit);
        WindowSplits(log, start, from, Position(start, fs, k), |log|);
      }
    }
  }

  /** A window of filtered records alone, reported without its end, is fetched again forever. */
  lemma StuckWithoutEnd(limit: int)
    ensures var log := [Logged(Message(0, "", ""), false)];
            var resp := Response([], -1);
            Increasing(log) && Honest(log, 0, 1, resp) && Step(0, resp, limit) == ([], 0)
  {
    assert Visible([Logged(Message(0, "", ""), false)], 0, 1, 0) == [];
  }
}
