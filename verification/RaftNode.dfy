/** Applying the committed log to the metadata state machine (pkg/consensus/node.go). */
module RaftNode {
  import opened Common
  import opened Metadata
  import RaftLog

  datatype Content = Blank | Command(op: Op) | Membership

  datatype Committed = Committed(index: nat, content: Content)

  /** What a node has applied: the metadata and the index of the last applied entry. */
  datatype Progress = Progress(state: State, applied: nat)

  // ---------------------------------------------------------------------
  // The operations on values
  // ---------------------------------------------------------------------

  /**
    * The node after the first k entries of a batch, and whether all of them went through. Entries at or below the applied index
    * are skipped. peers says whether the transport accepts the membership change at an index, clock gives the time of an apply.
    */
  ghost function Delivered(n: Progress, batch: seq<Committed>, peers: nat -> bool, clock: nat -> int, k: nat): (Progress, bool)
    requires k <= |batch|
  {
    if k == 0 then (n, true)
    else
      var (m, ok) := Delivered(n, batch, peers, clock, k - 1);
      var e := batch[k - 1];
      if !ok || e.index <= m.applied then (m, ok)
      else
        match e.content
        case Blank => (m.(applied := e.index), true)
        case Membership => if peers(e.index) then (m.(applied := e.index), true) else (m, false)
        case Command(op) =>
          match Applied(m.state, op, clock(e.index))
          case Some(s) => (Progress(s, e.index), true)
          case None => (m, false)
  }

  lemma {:induction false} FailureIsFinal(n: Progress, batch: seq<Committed>, peers: nat -> bool, clock: nat -> int, i: nat, k: nat)
    requires i <= k <= |batch| && !Delivered(n, batch, peers, clock, i).1
    ensures Delivered(n, batch, peers, clock, k) == Delivered(n, batch, peers, clock, i)
  {
    if i < k { FailureIsFinal(n, batch, peers, clock, i, k - 1); }
  }

  class Node {
    const fsm: FSM
    const storage: RaftLog.DiskStorage
    var appliedIndex: nat
    var snapshotIndex: nat
    const catchUpEntries: nat

    constructor (fsm: FSM, storage: RaftLog.DiskStorage, catchUpEntries: nat)
      ensures this.fsm == fsm && this.storage == storage && this.catchUpEntries == catchUpEntries
      ensures appliedIndex == 0 && snapshotIndex == 0
    {
      this.fsm, this.storage, this.catchUpEntries := fsm, storage, catchUpEntries;
      appliedIndex, snapshotIndex := 0, 0;
    }

    function View(): Progress
      reads this, fsm
    {
      Progress(fsm.state, appliedIndex)
    }

    method ApplyCommittedEntries(batch: seq<Committed>, peers: nat -> bool, clock: nat -> int) returns (ok: bool)
      modifies this`appliedIndex, fsm
      ensures (View(), ok) == Delivered(old(View()), batch, peers, clock, |batch|)
    {
      hide Applied;
      for i := 0 to |batch|
        invariant (View(), true) == Delivered(old(View()), batch, peers, clock, i)
      {
        var e := batch[i];
        if e.index <= appliedIndex { continue; }
        match e.content {
          case Blank =>
          case Command(op) =>
            var applied := fsm.Apply(op, clock(e.index));
            if !applied {
              FailureIsFinal(old(View()), batch, peers, clock, i + 1, |batch|);
              return false;
            }
          case Membership =>
            if !peers(e.index) {
              FailureIsFinal(old(View()), batch, peers, clock, i + 1, |batch|);
              return false;
            }
        }
        appliedIndex := e.index;
      }
      return true;
    }

    /** Installs a leader's snapshot; decoded is the state its data holds, if it can be read. */
    method ApplySnapshot(snap: RaftLog.Snap, decoded: Option<State>) returns (ok: bool)
      modifies this, fsm, storage
      ensures storage.View() == RaftLog.SavedSnapshot(old(storage.View()), snap).0
      ensures ok <==> snap.index > old(storage.snapshot.index) && decoded.Some?
      ensures ok ==> View() == Progress(decoded.value, snap.index) && snapshotIndex == snap.index
      ensures !ok ==> View() == old(View()) && snapshotIndex == old(snapshotIndex)
    {
      var o := storage.SaveSnapshot(snap);
      if !o.Done? { return false; }
      if decoded.None? { return false; }
      fsm.state := decoded.value;
      appliedIndex, snapshotIndex := snap.index, snap.index;
      return true;
    }

    /** Takes a snapshot of the node's own state. */
    method CreateSnapshot(data: string) returns (ok: bool)
      modifies this, storage
      ensures (storage.View(), ok) == OwnSnapshot(old(storage.View()), appliedIndex, catchUpEntries, data)
      ensures appliedIndex == old(appliedIndex) && snapshotIndex == if ok then appliedIndex else old(snapshotIndex)
    {
      hide RaftLog.SavedSnapshot, RaftLog.Compacted;
      var o := storage.SaveSnapshot(RaftLog.Snap(appliedIndex, 0, data));
      if !o.Done? { return false; }
      var compactIndex := appliedIndex;
      if compactIndex > catchUpEntries { compactIndex := compactIndex - catchUpEntries; }
      o := storage.Compact(compactIndex);
      if !o.Done? { return false; }
      snapshotIndex := appliedIndex;
      return true;
    }
  }

  ghost function OwnSnapshot(d: RaftLog.Disk, applied: nat, catchUp: nat, data: string): (RaftLog.Disk, bool) {
    var (saved, o) := RaftLog.SavedSnapshot(d, RaftLog.Snap(applied, 0, data));
    if !o.Done? then (saved, false)
    else
      var (compacted, p) := RaftLog.Compacted(saved, if applied > catchUp then applied - catchUp else applied);
      (compacted, p.Done?)
  }

  /**
    * A node's own snapshot never succeeds: saving it moves the first index past the applied one, so the compaction that follows
    * is refused. What it leaves is a saved snapshot, and term zero as the answer for the last applied entry, whatever its term was.
    */
  lemma OwnSnapshotNeverSucceeds(d: RaftLog.Disk, applied: nat, catchUp: nat, data: string)
    requires RaftLog.Sound(d)
    ensures var (e, ok) := OwnSnapshot(d, applied, catchUp, data);
            && !ok && (e.snap == d.snap || (e.snap == RaftLog.Snap(applied, 0, data) && RaftLog.TermOf(e, applied) == Some(0)))
            && (e.snap == d.snap ==> e == d)
            && forall i: nat :: RaftLog.LogOf(e).Has(i) <==> RaftLog.LogOf(d).Has(i) && (i > applied || e == d)
  {
    RaftLog.LastIs(d);
    var e := RaftLog.SavedSnapshot(d, RaftLog.Snap(applied, 0, data)).0;
    RaftLog.SaveSnapshotRefines(d, RaftLog.Snap(applied, 0, data));
    RaftLog.LastIs(e);
  }

  // ---------------------------------------------------------------------
  // Every run
  // ---------------------------------------------------------------------

  /** The state the first k entries of the log make, or none when one of them is refused. The entry at position i has index i + 1. */
  ghost function Fold(log: seq<Content>, k: nat): Option<State>
    requires k <= |log|
  {
    if k == 0 then Some(EMPTY)
    else
      match Fold(log, k - 1)
      case None => None
      case Some(s) => if log[k - 1].Command? then Applied(s, log[k - 1].op, 0) else Some(s)
  }

  ghost predicate Follows(log: seq<Content>, n: Progress) {
    n.applied <= |log| && Fold(log, n.applied).Some? && Agree(n.state, Fold(log, n.applied).value)
  }

  /** The batch is the stretch of the log after position lo. */
  ghost predicate Stretch(log: seq<Content>, lo: nat, batch: seq<Committed>) {
    && lo + |batch| <= |log|
    && forall j :: 0 <= j < |batch| ==> batch[j] == Committed(lo + j + 1, log[lo + j])
  }

  /** The entry that stopped a batch: a membership change the transport refused, or a command the log itself makes impossible. */
  ghost predicate Blocked(log: seq<Content>, at: nat, peers: nat -> bool) {
    && at < |log| && Fold(log, at).Some?
    && match log[at]
       case Blank => false
       case Membership => !peers(at + 1)
       case Command(_) => Fold(log, at + 1).None?
  }

  lemma StepFollows(log: seq<Content>, n: Progress, op: Op, now: int)
    requires Follows(log, n) && n.applied < |log| && log[n.applied] == Command(op)
    ensures match Applied(n.state, op, now)
            case Some(s) => Follows(log, Progress(s, n.applied + 1))
            case None => Fold(log, n.applied + 1).None?
  {
    hide Applied, Agree;
    ApplyIgnoresClocks(n.state, Fold(log, n.applied).value, op, now, 0);
  }

  /**
    * A batch that may repeat entries but leaves no gap takes a node that follows the log to one that follows it. It ends at the
    * batch's last entry, or earlier and only at an entry that blocks it.
    */
  lemma {:induction false} DeliveredFollows(log: seq<Content>, n: Progress, lo: nat, batch: seq<Committed>, peers: nat -> bool, clock: nat -> int, k: nat)
    requires Follows(log, n) && Stretch(log, lo, batch) && lo <= n.applied && k <= |batch|
    ensures var (m, ok) := Delivered(n, batch, peers, clock, k);
            && Follows(log, m) && n.applied <= m.applied
            && (ok ==> m.applied == Max(n.applied, lo + k))
            && (!ok ==> m.applied < lo + k && Blocked(log, m.applied, peers))
  {
    hide Applied, Agree;
    if k > 0 {
      DeliveredFollows(log, n, lo, batch, peers, clock, k - 1);
      var (m, ok) := Delivered(n, batch, peers, clock, k - 1);
      var e := batch[k - 1];
      if ok && e.index > m.applied && e.content.Command? {
        StepFollows(log, m, e.content.op, clock(e.index));
      }
    }
  }

  datatype Event =
    | Deliver(lo: nat, batch: seq<Committed>, peers: nat -> bool, clock: nat -> int)
    | Install(index: nat, state: State)

  /** Raft delivers committed entries without gaps, and a snapshot holds what its sender had applied. */
  ghost predicate Allowed(log: seq<Content>, n: Progress, e: Event) {
    match e
    case Deliver(lo, batch, _, _) => Stretch(log, lo, batch) && lo <= n.applied
    case Install(index, state) => Follows(log, Progress(state, index))
  }

  ghost function Next(n: Progress, e: Event): Progress {
    match e
    case Deliver(_, batch, peers, clock) => Delivered(n, batch, peers, clock, |batch|).0
    case Install(index, state) => Progress(state, index)
  }

  ghost predicate IsRun(log: seq<Content>, ns: seq<Progress>, es: seq<Event>) {
    && |ns| == |es| + 1 && ns[0] == Progress(EMPTY, 0)
    && forall i :: 0 <= i < |es| ==> Allowed(log, ns[i], es[i]) && ns[i + 1] == Next(ns[i], es[i])
  }

  /** In every run, at every point, the metadata is that of the log up to the applied index: nothing missing, nothing twice. */
  lemma {:induction false} RunFollows(log: seq<Content>, ns: seq<Progress>, es: seq<Event>, i: nat)
    requires IsRun(log, ns, es) && i < |ns|
    ensures Follows(log, ns[i])
  {
    hide Applied, Agree, Delivered;
    if i == 0 {
      AgreeSelf(EMPTY);
    } else {
      RunFollows(log, ns, es, i - 1);
      var e := es[i - 1];
      assert Allowed(log, ns[i - 1], e);
      match e
      case Deliver(lo, batch, peers, clock) => DeliveredFollows(log, ns[i - 1], lo, batch, peers, clock, |batch|);
      case Install(_, _) =>
    }
  }

  lemma AgreeSelf(s: State)
    ensures Agree(s, s)
  {
  }

  lemma AgreeThrough(a: State, b: State, c: State)
    requires Agree(a, c) && Agree(b, c)
    ensures Agree(a, b)
  {
  }

  /** Replicas that have applied as much agree on everything but clock readings, whatever batches and snapshots brought them there. */
  lemma ReplicasAgree(log: seq<Content>, ns: seq<Progress>, es: seq<Event>, i: nat, ms: seq<Progress>, fs: seq<Event>, j: nat)
    requires IsRun(log, ns, es) && i < |ns| && IsRun(log, ms, fs) && j < |ms|
    requires ns[i].applied == ms[j].applied
    ensures Agree(ns[i].state, ms[j].state)
  {
    hide Agree, Applied;
    RunFollows(log, ns, es, i);
    RunFollows(log, ms, fs, j);
    AgreeThrough(ns[i].state, ms[j].state, Fold(log, ns[i].applied).value);
  }

  /** One refused command stops the cluster's metadata for good: no node ever applies it or anything after it. */
  lemma {:induction false} RefusedCommandStops(log: seq<Content>, ns: seq<Progress>, es: seq<Event>, i: nat, at: nat)
    requires IsRun(log, ns, es) && i < |ns|
    requires at < |log| && Fold(log, at + 1).None?
    ensures ns[i].applied <= at
  {
    hide Applied;
    RunFollows(log, ns, es, i);
    if ns[i].applied > at { NoneStays(log, at + 1, ns[i].applied); }
  }

  lemma {:induction false} NoneStays(log: seq<Content>, k: nat, m: nat)
    requires k <= m <= |log| && Fold(log, k).None?
    ensures Fold(log, m).None?
  {
    if k < m { NoneStays(log, k, m - 1); }
  }

  /** Such a log: the same topic created twice. Whatever follows it is never applied. */
  lemma TopicCreatedTwiceStops(name: string, config: Config, rest: seq<Content>, ns: seq<Progress>, es: seq<Event>, i: nat)
    requires var create := Command(CreateTopic(name, 1, 1, config));
             IsRun([create, create] + rest, ns, es) && i < |ns|
    ensures ns[i].applied <= 1
  {
    var create := Command(CreateTopic(name, 1, 1, config));
    var log := [create, create] + rest;
    assert Fold(log, 0) == Some(EMPTY);
    assert Fold(log, 1).Some? && name in Fold(log, 1).value.topics;
    assert Fold(log, 2).None?;
    RefusedCommandStops(log, ns, es, i, 1);
  }

  lemma {:induction false} FoldVersion(log: seq<Content>, k: nat)
    requires k <= |log| && Fold(log, k).Some?
    ensures OwnKeys(Fold(log, k).value.partitions) && Fold(log, k).value.version == Commands(log, k)
  {
    hide Applied, OwnKeys;
    if k == 0 {
      NothingStored();
    } else {
      FoldVersion(log, k - 1);
      if log[k - 1].Command? { AppliedKeeps(Fold(log, k - 1).value, log[k - 1].op, 0); }
    }
  }

  lemma NothingStored()
    ensures OwnKeys(EMPTY.partitions)
  {
  }

  /** On every replica, at every point of every run, the version is the number of commands applied. */
  lemma VersionCounts(log: seq<Content>, ns: seq<Progress>, es: seq<Event>, i: nat)
    requires IsRun(log, ns, es) && i < |ns|
    ensures ns[i].applied <= |log| && ns[i].state.version == Commands(log, ns[i].applied)
  {
    hide Applied, Fold, IsRun;
    RunFollows(log, ns, es, i);
    FoldVersion(log, ns[i].applied);
  }

  function Commands(log: seq<Content>, k: nat): nat
    requires k <= |log|
  {
    if k == 0 then 0 else Commands(log, k - 1) + if log[k - 1].Command? then 1 else 0
  }

  // ---------------------------------------------------------------------
  // Restarts
  // ---------------------------------------------------------------------

  /**
    * A restarted node has an empty state machine and index zero, and Raft delivers committed entries from the first index its storage
    * reloads; lo is the index below it. The saved snapshot is not restored.
    */
  ghost function Restarted(batch: seq<Committed>, peers: nat -> bool, clock: nat -> int): (Progress, bool) {
    Delivered(Progress(EMPTY, 0), batch, peers, clock, |batch|)
  }

  /** The skip test is all that the index is used for. */
  lemma {:induction false} SameFrom(s: State, a: nat, b: nat, batch: seq<Committed>, peers: nat -> bool, clock: nat -> int, k: nat)
    requires k <= |batch| && (forall j :: 0 <= j < |batch| ==> batch[j].index > a && batch[j].index > b)
    ensures var (m, ok) := Delivered(Progress(s, a), batch, peers, clock, k);
            var (n, ok') := Delivered(Progress(s, b), batch, peers, clock, k);
            ok == ok' && m.state == n.state && (m.applied == n.applied || (m.applied == a && n.applied == b))
  {
    hide Applied;
    if k > 0 { SameFrom(s, a, b, batch, peers, clock, k - 1); }
  }

  lemma {:induction false} NoCommands(log: seq<Content>, k: nat)
    requires k <= |log| && Commands(log, k) == 0
    ensures Fold(log, k) == Some(EMPTY)
  {
    if k > 0 { NoCommands(log, k - 1); }
  }

  /** Each command a delivery applies raises the version by one. */
  lemma {:induction false} DeliveredVersion(log: seq<Content>, lo: nat, batch: seq<Committed>, peers: nat -> bool, clock: nat -> int, k: nat)
    requires Stretch(log, lo, batch) && k <= |batch| && Delivered(Progress(EMPTY, 0), batch, peers, clock, k).1
    ensures var m := Delivered(Progress(EMPTY, 0), batch, peers, clock, k).0;
            && m.applied == (if k == 0 then 0 else lo + k) && OwnKeys(m.state.partitions)
            && m.state.version + Commands(log, lo) == Commands(log, lo + k)
  {
    hide Applied, OwnKeys;
    if k == 0 {
      NothingStored();
    } else {
      DeliveredVersion(log, lo, batch, peers, clock, k - 1);
      var m := Delivered(Progress(EMPTY, 0), batch, peers, clock, k - 1).0;
      var e := batch[k - 1];
      assert e == Committed(lo + (k - 1) + 1, log[lo + (k - 1)]);
      if e.content.Command? { AppliedKeeps(m.state, e.content.op, clock(e.index)); }
    }
  }

  /** Once it has applied what it is delivered, a restarted node follows the log exactly when no command lies before that. */
  lemma RestartFollowsIff(log: seq<Content>, lo: nat, batch: seq<Committed>, peers: nat -> bool, clock: nat -> int)
    requires Stretch(log, lo, batch) && batch != [] && Restarted(batch, peers, clock).1
    ensures Follows(log, Restarted(batch, peers, clock).0) <==> Commands(log, lo) == 0
  {
    hide Delivered, Applied, Fold, Agree;
    var m := Restarted(batch, peers, clock).0;
    DeliveredVersion(log, lo, batch, peers, clock, |batch|);
    if Commands(log, lo) == 0 {
      NoCommands(log, lo);
      AgreeSelf(EMPTY);
      DeliveredFollows(log, Progress(EMPTY, lo), lo, batch, peers, clock, |batch|);
      assert forall j :: 0 <= j < |batch| ==> batch[j].index == lo + j + 1;
      SameFrom(EMPTY, 0, lo, batch, peers, clock, |batch|);
      AppliedSame(m, Delivered(Progress(EMPTY, lo), batch, peers, clock, |batch|).0, log);
    } else if Follows(log, m) {
      FoldVersion(log, m.applied);
      AgreeVersion(m.state, Fold(log, m.applied).value);
    }
  }

  lemma AppliedSame(m: Progress, n: Progress, log: seq<Content>)
    requires m == n && Follows(log, n)
    ensures Follows(log, m)
  {
  }

  lemma AgreeVersion(a: State, b: State)
    requires Agree(a, b)
    ensures a.version == b.version
  {
  }

  /** So when the log begins with a command, a restart loses nothing exactly when the storage reloads the log from index 1. */
  lemma RestartNeedsWholeLog(log: seq<Content>, d: RaftLog.Disk, batch: seq<Committed>, peers: nat -> bool, clock: nat -> int)
    requires RaftLog.Persisted(d) && log != [] && log[0].Command?
    requires Stretch(log, RaftLog.Reloaded(d).first - 1, batch) && batch != [] && Restarted(batch, peers, clock).1
    ensures Follows(log, Restarted(batch, peers, clock).0) <==> RaftLog.Reloaded(d).first == 1
  {
    hide Follows, Delivered, Stretch;
    var lo := RaftLog.Reloaded(d).first - 1;
    RestartFollowsIff(log, lo, batch, peers, clock);
    StretchWithin(log, lo, batch);
    if lo > 0 { CommandsGrow(log, 1, lo); }
  }

  lemma StretchWithin(log: seq<Content>, lo: nat, batch: seq<Committed>)
    requires Stretch(log, lo, batch)
    ensures lo <= |log|
  {
  }

  lemma {:induction false} CommandsGrow(log: seq<Content>, j: nat, k: nat)
    requires j <= k <= |log|
    ensures Commands(log, j) <= Commands(log, k)
  {
    if j < k { CommandsGrow(log, j, k - 1); }
  }

  /** One own snapshot is enough: an entry applied, a snapshot, another entry, and the storage reloads from index 2. */
  lemma OwnSnapshotThenRestart(a: string, b: string, data: string, catchUp: nat)
    ensures var d1 := RaftLog.SavedEntries(RaftLog.FRESH, [RaftLog.Entry(1, 1, a)]).0;
            var d2 := OwnSnapshot(d1, 1, catchUp, data).0;
            var d3 := RaftLog.SavedEntries(d2, [RaftLog.Entry(2, 1, b)]).0;
            RaftLog.Persisted(d3) && RaftLog.Reloaded(d3).first == 2
  {
    var e1, e2 := RaftLog.Entry(1, 1, a), RaftLog.Entry(2, 1, b);
    var d1 := RaftLog.SavedEntries(RaftLog.FRESH, [e1]).0;
    assert d1.entries == [e1] && d1.first == 1;
    var d2 := OwnSnapshot(d1, 1, catchUp, data).0;
    assert d2.entries == [] && d2.first == 2 && d2.snap == RaftLog.Snap(1, 0, data);
    var d3 := RaftLog.SavedEntries(d2, [e2]).0;
    assert d3.entries == [e2] && d3.entriesFile == Some(RaftLog.EntriesFile(2, [e2]));
  }
}
