/** Raft log storage (pkg/consensus/storage.go). */
module RaftLog {
  import opened Common

  datatype Entry = Entry(index: nat, term: nat, data: string)

  datatype Snap = Snap(index: nat, term: nat, data: string)

  const NO_SNAPSHOT := Snap(0, 0, "")

  datatype EntriesFile = EntriesFile(first: nat, entries: seq<Entry>)

  /** Fields of the storage and the two files it writes. */
  datatype Disk = Disk(entries: seq<Entry>, first: nat, snap: Snap, entriesFile: Option<EntriesFile>, snapFile: Option<Snap>) {

    function Last(): int { if entries == [] then first - 1 else entries[|entries| - 1].index }
  }

  /** A new directory. */
  const FRESH := Disk([], 1, NO_SNAPSHOT, None, None)

  ghost predicate Contiguous(first: nat, entries: seq<Entry>) {
    forall k :: 0 <= k < |entries| ==> entries[k].index == first + k
  }

  datatype Outcome = Done | Refused | Panics

  // ---------------------------------------------------------------------
  // The operations on values
  // ---------------------------------------------------------------------

  function SavedEntries(d: Disk, batch: seq<Entry>): (Disk, Outcome) {
    if batch == [] then (d, Done)
    else
      var start := batch[0].index;
      if start > d.Last() + 1 then (d, Refused)
      else if start <= d.Last() && start < d.first then (d, Panics)  // a slice bound wraps around below zero
      else if start <= d.Last() && start - d.first > |d.entries| then (d, Panics)
      else
        var kept := if start <= d.Last() then d.entries[..start - d.first] else d.entries;
        var entries := kept + batch;
        (d.(entries := entries, entriesFile := Some(EntriesFile(d.first, entries))), Done)
  }

  function SavedSnapshot(d: Disk, snap: Snap): (Disk, Outcome) {
    if snap.index <= d.snap.index then (d, Refused)
    else
      var e := d.(snap := snap, snapFile := Some(snap));
      if snap.index < d.first then (e, Done)
      else
        var cut := snap.index - d.first + 1;
        (e.(entries := if cut < |d.entries| then d.entries[cut..] else [], first := snap.index + 1), Done)
  }

  function Compacted(d: Disk, index: nat): (Disk, Outcome) {
    if index < d.first || index > d.Last() then (d, Refused)
    else if index - d.first > |d.entries| then (d, Panics)
    else
      var entries := d.entries[index - d.first..];
      (d.(entries := entries, first := index, entriesFile := Some(EntriesFile(index, entries))), Done)
  }

  /** What a restart reads back: the snapshot first, then the entries file, which has the last word on first. */
  function Reloaded(d: Disk): Disk {
    var s := FRESH.(entriesFile := d.entriesFile, snapFile := d.snapFile);
    var s := match d.snapFile
             case None => s
             case Some(snap) => s.(snap := snap, first := if snap.index > 0 then snap.index + 1 else s.first);
    match d.entriesFile
    case None => s
    case Some(f) => s.(first := f.first, entries := f.entries)
  }

  class DiskStorage {
    var entries: seq<Entry>
    var firstIndex: nat
    var snapshot: Snap
    var entriesFile: Option<EntriesFile>
    var snapshotFile: Option<Snap>

    function View(): Disk
      reads this
    {
      Disk(entries, firstIndex, snapshot, entriesFile, snapshotFile)
    }

    constructor (files: Disk)
      ensures View() == Reloaded(files)
    {
      entries, firstIndex, snapshot := [], 1, NO_SNAPSHOT;
      entriesFile, snapshotFile := files.entriesFile, files.snapFile;
      if files.snapFile.Some? {
        snapshot := files.snapFile.value;
        if files.snapFile.value.index > 0 { firstIndex := files.snapFile.value.index + 1; }
      }
      if files.entriesFile.Some? {
        firstIndex := files.entriesFile.value.first;
        entries := files.entriesFile.value.entries;
      }
    }

    method SaveEntries(batch: seq<Entry>) returns (o: Outcome)
      modifies this
      ensures (View(), o) == SavedEntries(old(View()), batch)
    {
      if |batch| == 0 { return Done; }
      var firstNew, last := batch[0].index, View().Last();
      if firstNew > last + 1 { return Refused; }
      if firstNew <= last {
        if firstNew < firstIndex || firstNew - firstIndex > |entries| { return Panics; }
        entries := entries[..firstNew - firstIndex];
      }
      entries := entries + batch;
      entriesFile := Some(EntriesFile(firstIndex, entries));
      return Done;
    }

    method SaveSnapshot(snap: Snap) returns (o: Outcome)
      modifies this
      ensures (View(), o) == SavedSnapshot(old(View()), snap)
    {
      if snap.index <= snapshot.index { return Refused; }
      snapshot := snap;
      if snap.index >= firstIndex {
        var cut := snap.index - firstIndex + 1;
        entries := if cut < |entries| then entries[cut..] else [];
        firstIndex := snap.index + 1;
      }
      snapshotFile := Some(snapshot);
      return Done;
    }

    method Compact(index: nat) returns (o: Outcome)
      modifies this
      ensures (View(), o) == Compacted(old(View()), index)
    {
      if index < firstIndex { return Refused; }
      if index > View().Last() { return Refused; }
      if index - firstIndex > |entries| { return Panics; }
      entries := entries[index - firstIndex..];
      firstIndex := index;
      entriesFile := Some(EntriesFile(firstIndex, entries));
      return Done;
    }

    /** Entries lo up to but not including hi, exactly when both lie in the log. */
    method Entries(lo: nat, hi: nat) returns (r: Result<seq<Entry>, Outcome>)
      requires Sound(View())
      ensures r.Ok? <==> firstIndex <= lo && hi <= View().Last() + 1 && (lo <= hi || entries == [])
      ensures r.Ok? && lo <= hi ==>
        |r.value| == hi - lo && forall i :: lo <= i < hi ==> LogOf(View()).Has(i) && r.value[i - lo] == LogOf(View()).at[i]
    {
      hide LogOf;
      LastIs(View());
      if lo < firstIndex { return Err(Refused); }
      if hi > View().Last() + 1 { return Err(Refused); }
      if |entries| == 0 { return Ok([]); }
      if lo > hi { return Err(Panics); }
      LogAt(View());
      return Ok(entries[lo - firstIndex..hi - firstIndex]);
    }

    /** The term of entry i, where the storage still knows it. */
    method Term(i: nat) returns (r: Option<nat>)
      requires Sound(View())
      ensures r == TermOf(View(), i)
    {
      if i == 0 { return Some(0); }
      if i == snapshot.index { return Some(snapshot.term); }
      if i < firstIndex { return None; }
      if i > View().Last() { return None; }
      return Some(entries[i - firstIndex].term);
    }
  }

  // ---------------------------------------------------------------------
  // The log as a map from index to entry
  // ---------------------------------------------------------------------

  /** Entries first up to but not including next. */
  datatype Log = Log(first: nat, next: nat, at: map<nat, Entry>, snap: Snap) {
    predicate Has(i: nat) { i in at }
  }

  predicate Between(lo: nat, i: nat, hi: nat) { lo <= i < hi }

  ghost function Range(lo: nat, hi: nat): set<nat> { set i: nat | i < hi && Between(lo, i, hi) }

  ghost function LogOf(d: Disk): Log {
    var next := d.first + |d.entries|;
    Log(d.first, next, map i | i in Range(d.first, next) :: d.entries[i - d.first], d.snap)
  }

  /** Replaces everything from the batch on. */
  ghost function Appended(l: Log, batch: seq<Entry>): Log
    requires batch != [] && l.first <= batch[0].index <= l.next && l.at.Keys == Range(l.first, l.next)
  {
    var start, end := batch[0].index, batch[0].index + |batch|;
    l.(next := end, at := map i | i in Range(l.first, end) :: if i < start then l.at[i] else batch[i - start])
  }

  /** Forgets everything below index. */
  ghost function Cut(l: Log, index: nat): Log {
    Log(index, Max(l.next, index), map i | i in l.at && i >= index :: l.at[i], l.snap)
  }

  ghost predicate Sound(d: Disk) {
    d.first >= 1 && Contiguous(d.first, d.entries) && d.snap.index < d.first
  }

  ghost predicate GoodBatch(batch: seq<Entry>) {
    batch != [] ==> Contiguous(batch[0].index, batch)
  }

  lemma LogAt(d: Disk)
    ensures forall i :: d.first <= i < d.first + |d.entries| ==> LogOf(d).Has(i) && LogOf(d).at[i] == d.entries[i - d.first]
  {
  }

  lemma LastIs(d: Disk)
    requires Contiguous(d.first, d.entries)
    ensures d.Last() == d.first + |d.entries| - 1
  {
  }

  /** Saving a batch succeeds exactly when it starts inside the log or right after it, and then overwrites from there. */
  lemma SaveEntriesRefines(d: Disk, batch: seq<Entry>)
    requires Sound(d) && GoodBatch(batch)
    ensures var (e, o) := SavedEntries(d, batch);
            && Sound(e)
            && (batch != [] ==> (o.Done? <==> d.first <= batch[0].index <= LogOf(d).next))
            && (batch != [] && o.Done? ==> LogOf(e) == Appended(LogOf(d), batch))
            && (!o.Done? || batch == [] ==> e == d)
  {
    LastIs(d);
    hide Range, Appended;
    var (e, o) := SavedEntries(d, batch);
    if batch != [] && o.Done? {
      assert e.entries == d.entries[..batch[0].index - d.first] + batch;
      EntriesAppended(d, batch, e);
    }
  }

  lemma EntriesAppended(d: Disk, batch: seq<Entry>, e: Disk)
    requires batch != [] && d.first <= batch[0].index <= d.first + |d.entries| && e.first == d.first && e.snap == d.snap
    requires e.entries == d.entries[..batch[0].index - d.first] + batch
    ensures LogOf(e) == Appended(LogOf(d), batch)
  {
    assert LogOf(e).at == Appended(LogOf(d), batch).at;
  }

  lemma SaveSnapshotRefines(d: Disk, snap: Snap)
    requires Sound(d)
    ensures var (e, o) := SavedSnapshot(d, snap);
            && Sound(e)
            && (o.Done? <==> snap.index > d.snap.index)
            && (o.Done? ==> LogOf(e) == (if snap.index >= d.first then Cut(LogOf(d), snap.index + 1) else LogOf(d)).(snap := snap))
            && (!o.Done? ==> e == d)
  {
    hide Range, Cut;
    var (e, o) := SavedSnapshot(d, snap);
    if o.Done? && snap.index >= d.first { EntriesCut(d, snap.index + 1, e); }
  }

  lemma EntriesCut(d: Disk, index: nat, e: Disk)
    requires d.first <= index == e.first
    requires e.entries == if index - d.first < |d.entries| then d.entries[index - d.first..] else []
    ensures LogOf(e) == Cut(LogOf(d), index).(snap := e.snap)
  {
    assert LogOf(e).at == Cut(LogOf(d), index).at;
  }

  lemma CompactRefines(d: Disk, index: nat)
    requires Sound(d)
    ensures var (e, o) := Compacted(d, index);
            && Sound(e)
            && (o.Done? <==> LogOf(d).Has(index))
            && (o.Done? ==> LogOf(e) == Cut(LogOf(d), index))
            && (!o.Done? ==> o.Refused? && e == d)
  {
    LastIs(d);
    var (e, o) := Compacted(d, index);
    if o.Done? { EntriesCut(d, index, e); }
  }

  // ---------------------------------------------------------------------
  // Runs
  // ---------------------------------------------------------------------

  datatype Op = Save(batch: seq<Entry>) | Take(snap: Snap) | Drop(index: nat)

  function Applied(d: Disk, op: Op): (Disk, Outcome) {
    match op
    case Save(batch) => SavedEntries(d, batch)
    case Take(snap) => SavedSnapshot(d, snap)
    case Drop(index) => Compacted(d, index)
  }

  ghost predicate GoodOp(op: Op) { op.Save? ==> GoodBatch(op.batch) }

  /** The same operation on the abstract log. */
  ghost function AppliedLog(l: Log, op: Op): Log
    requires l.at.Keys == Range(l.first, l.next)
  {
    match op
    case Save(batch) =>
      if batch == [] || !(l.first <= batch[0].index <= l.next) then l else Appended(l, batch)
    case Take(snap) =>
      if snap.index <= l.snap.index then l else (if snap.index >= l.first then Cut(l, snap.index + 1) else l).(snap := snap)
    case Drop(index) => if l.Has(index) then Cut(l, index) else l
  }

  ghost function After(d: Disk, ops: seq<Op>): Disk {
    if ops == [] then d else Applied(After(d, ops[..|ops| - 1]), ops[|ops| - 1]).0
  }

  ghost function AfterLog(l: Log, ops: seq<Op>): Log
    requires l.at.Keys == Range(l.first, l.next) && l.first <= l.next
    ensures AfterLog(l, ops).at.Keys == Range(AfterLog(l, ops).first, AfterLog(l, ops).next)
    ensures AfterLog(l, ops).first <= AfterLog(l, ops).next
  {
    if ops == [] then l else AppliedLog(AfterLog(l, ops[..|ops| - 1]), ops[|ops| - 1])
  }

  lemma LogKeys(d: Disk)
    ensures LogOf(d).at.Keys == Range(LogOf(d).first, LogOf(d).next) && LogOf(d).first <= LogOf(d).next
  {
  }

  lemma SaveStep(d: Disk, batch: seq<Entry>)
    requires Sound(d) && GoodBatch(batch) && LogOf(d).at.Keys == Range(LogOf(d).first, LogOf(d).next)
    ensures Sound(SavedEntries(d, batch).0) && LogOf(SavedEntries(d, batch).0) == AppliedLog(LogOf(d), Save(batch))
  {
    hide LogOf, Appended, SavedEntries, Sound, Contiguous, Range;
    FirstIs(d);
    SaveEntriesRefines(d, batch);
  }

  lemma TakeStep(d: Disk, snap: Snap)
    requires Sound(d) && LogOf(d).at.Keys == Range(LogOf(d).first, LogOf(d).next)
    ensures Sound(SavedSnapshot(d, snap).0) && LogOf(SavedSnapshot(d, snap).0) == AppliedLog(LogOf(d), Take(snap))
  {
    hide LogOf, Cut, SavedSnapshot, Sound, Range;
    FirstIs(d);
    SaveSnapshotRefines(d, snap);
  }

  lemma DropStep(d: Disk, index: nat)
    requires Sound(d) && LogOf(d).at.Keys == Range(LogOf(d).first, LogOf(d).next)
    ensures Sound(Compacted(d, index).0) && LogOf(Compacted(d, index).0) == AppliedLog(LogOf(d), Drop(index))
  {
    hide LogOf, Cut, Compacted, Sound, Range;
    CompactRefines(d, index);
  }

  lemma FirstIs(d: Disk)
    ensures LogOf(d).first == d.first && LogOf(d).snap == d.snap
  {
  }

  lemma StepRefines(d: Disk, op: Op)
    requires Sound(d) && GoodOp(op) && LogOf(d).at.Keys == Range(LogOf(d).first, LogOf(d).next)
    ensures Sound(Applied(d, op).0) && LogOf(Applied(d, op).0) == AppliedLog(LogOf(d), op)
  {
    hide LogOf, SavedEntries, SavedSnapshot, Compacted, Sound, AppliedLog, GoodBatch, Range;
    match op
    case Save(batch) => SaveStep(d, batch);
    case Take(snap) => TakeStep(d, snap);
    case Drop(index) => DropStep(d, index);
  }

  /** Over every sequence of operations the array with its moving first index is the index-to-entry map. */
  lemma {:induction false} RunRefines(ops: seq<Op>)
    requires forall op :: op in ops ==> GoodOp(op)
    ensures Sound(After(FRESH, ops))
    ensures LogOf(FRESH).at.Keys == Range(LogOf(FRESH).first, LogOf(FRESH).next) && LogOf(FRESH).first <= LogOf(FRESH).next
    ensures LogOf(After(FRESH, ops)) == AfterLog(LogOf(FRESH), ops)
  {
    hide LogOf, Sound, Applied, AppliedLog, GoodOp, Range;
    LogKeys(FRESH);
    if ops == [] {
      FreshSound();
    } else {
      var n := |ops| - 1;
      RunRefines(ops[..n]);
      assert ops[n] in ops;
      LogKeys(After(FRESH, ops[..n]));
      StepRefines(After(FRESH, ops[..n]), ops[n]);
    }
  }

  lemma FreshSound()
    ensures Sound(FRESH)
  {
  }

  // ---------------------------------------------------------------------
  // Terms
  // ---------------------------------------------------------------------

  ghost function TermOf(d: Disk, i: nat): Option<nat> {
    if i == 0 then Some(0)
    else if i == d.snap.index then Some(d.snap.term)
    else if d.first <= i < d.first + |d.entries| then Some(d.entries[i - d.first].term)
    else None
  }

  // ---------------------------------------------------------------------
  // Looking entries up
  // ---------------------------------------------------------------------

  ghost function EntryAt(d: Disk, i: nat): Option<Entry> {
    if d.first <= i < d.first + |d.entries| then Some(d.entries[i - d.first]) else None
  }

  /** What an accepted operation leaves at an index: a save writes its batch and drops what comes after it; the others only cut below. */
  ghost function Overwrites(op: Op, i: nat, before: Option<Entry>): Option<Entry> {
    match op
    case Save(batch) =>
      if batch == [] || i < batch[0].index then before
      else if i < batch[0].index + |batch| then Some(batch[i - batch[0].index])
      else None
    case Take(snap) => if i <= snap.index then None else before
    case Drop(index) => if i < index then None else before
  }

  lemma OpLookups(d: Disk, op: Op, i: nat)
    requires Sound(d) && GoodOp(op)
    ensures EntryAt(Applied(d, op).0, i) == if Applied(d, op).1.Done? then Overwrites(op, i, EntryAt(d, i)) else EntryAt(d, i)
  {
    LastIs(d);
    if op.Save? && op.batch != [] && Applied(d, op).1.Done? {
      assert Applied(d, op).0.entries == d.entries[..op.batch[0].index - d.first] + op.batch;
    }
  }

  /** What a run of operations tells of an index. */
  ghost function Told(ops: seq<Op>, i: nat): Option<Entry> {
    if ops == [] then None
    else
      var n := |ops| - 1;
      var before := Told(ops[..n], i);
      if Applied(After(FRESH, ops[..n]), ops[n]).1.Done? then Overwrites(ops[n], i, before) else before
  }

  /** In every run an index holds what the last accepted operation about it left there. */
  lemma {:induction false} RunLookups(ops: seq<Op>, i: nat)
    requires forall op :: op in ops ==> GoodOp(op)
    ensures EntryAt(After(FRESH, ops), i) == Told(ops, i)
  {
    hide Applied, Overwrites, EntryAt;
    if ops == [] {
      NothingLogged(i);
    } else {
      var n := |ops| - 1;
      RunLookups(ops[..n], i);
      RunRefines(ops[..n]);
      assert ops[n] in ops;
      OpLookups(After(FRESH, ops[..n]), ops[n], i);
    }
  }

  lemma NothingLogged(i: nat)
    ensures EntryAt(FRESH, i) == None
  {
  }

  /** The term just below the log is known exactly when the log starts at 1 or right after the snapshot. */
  lemma TermKnownIff(d: Disk)
    requires Sound(d)
    ensures (forall i :: d.first - 1 <= i <= d.Last() ==> TermOf(d, i).Some?) <==> d.first == 1 || d.snap.index == d.first - 1
    ensures forall i :: d.first <= i <= d.Last() ==> TermOf(d, i) == Some(LogOf(d).at[i].term)
    ensures TermOf(d, 0) == Some(0) && (d.snap.index > 0 ==> TermOf(d, d.snap.index) == Some(d.snap.term))
    ensures forall i: nat :: i > d.Last() && i > d.snap.index && i > 0 ==> TermOf(d, i).None?
  {
    LastIs(d);
    if forall i :: d.first - 1 <= i <= d.Last() ==> TermOf(d, i).Some? {
      assert TermOf(d, d.first - 1).Some?;
    }
  }

  /** Without Compact the log always starts right after the snapshot, so every term of the window is known. */
  lemma {:induction false} TermsKnownWithoutCompact(ops: seq<Op>)
    requires forall op :: op in ops ==> GoodOp(op) && !op.Drop?
    ensures var d := After(FRESH, ops);
            && d.first == d.snap.index + 1
            && forall i :: d.first - 1 <= i <= d.Last() ==> TermOf(d, i).Some?
  {
    RunRefines(ops);
    if ops != [] {
      var n := |ops| - 1;
      TermsKnownWithoutCompact(ops[..n]);
      RunRefines(ops[..n]);
      assert ops[n] in ops;
    }
    TermKnownIff(After(FRESH, ops));
  }

  // ---------------------------------------------------------------------
  // Crash recovery
  // ---------------------------------------------------------------------

  /** What the files hold relative to memory: snapshots reach only their own file. */
  ghost predicate Persisted(d: Disk) {
    && Sound(d)
    && d.snapFile == (if d.snap == NO_SNAPSHOT then None else Some(d.snap))
    && (d.snap.index == 0 ==> d.snap == NO_SNAPSHOT)
    && match d.entriesFile
       case None => d.entries == [] && d.first == d.snap.index + 1
       case Some(f) =>
         && 1 <= f.first <= d.first && Contiguous(f.first, f.entries)
         && d.entries == if d.first - f.first <= |f.entries| then f.entries[d.first - f.first..] else []
  }

  /** The entries file reaches at least up to the first index in memory. */
  ghost predicate FileReachesLog(d: Disk) {
    d.entriesFile.Some? ==> d.first <= d.entriesFile.value.first + |d.entriesFile.value.entries|
  }

  lemma StepPersists(d: Disk, op: Op)
    requires Persisted(d) && GoodOp(op)
    ensures Persisted(Applied(d, op).0)
  {
    match op
    case Save(batch) => SavePersists(d, batch);
    case Take(snap) => TakePersists(d, snap);
    case Drop(index) => DropPersists(d, index);
  }

  lemma SavePersists(d: Disk, batch: seq<Entry>)
    requires Persisted(d) && GoodBatch(batch)
    ensures Persisted(SavedEntries(d, batch).0)
  {
    SaveEntriesRefines(d, batch);
    hide LogOf, Appended;
  }

  lemma TakePersists(d: Disk, snap: Snap)
    requires Persisted(d)
    ensures Persisted(SavedSnapshot(d, snap).0)
  {
    SaveSnapshotRefines(d, snap);
    hide LogOf, Cut;
  }

  lemma DropPersists(d: Disk, index: nat)
    requires Persisted(d)
    ensures Persisted(Compacted(d, index).0)
  {
    CompactRefines(d, index);
    hide LogOf, Cut;
  }

  lemma {:induction false} RunPersists(ops: seq<Op>)
    requires forall op :: op in ops ==> GoodOp(op)
    ensures Persisted(After(FRESH, ops))
  {
    hide Persisted;
    if ops == [] {
      FreshPersisted();
    } else {
      RunPersists(ops[..|ops| - 1]);
      StepPersists(After(FRESH, ops[..|ops| - 1]), ops[|ops| - 1]);
    }
  }

  lemma FreshPersisted()
    ensures Persisted(FRESH)
  {
  }

  /**
   * A restart recovers the snapshot and a contiguous log holding every entry that was in memory. It
   * recovers the last index as well exactly when the entries file reaches the log in memory.
   */
  lemma Recovers(d: Disk)
    requires Persisted(d)
    ensures var r := Reloaded(d);
            && r.snap == d.snap && r.first >= 1 && Contiguous(r.first, r.entries)
            && (forall i :: LogOf(d).Has(i) ==> LogOf(r).Has(i) && LogOf(r).at[i] == LogOf(d).at[i])
            && (r.Last() == d.Last() <==> FileReachesLog(d))
  {
    var r := Reloaded(d);
    LastIs(d);
    LastIs(r);
    if d.entriesFile.Some? {
      forall i: nat | LogOf(d).Has(i) ensures LogOf(r).Has(i) && LogOf(r).at[i] == LogOf(d).at[i] {
        assert d.entries[i - d.first] == r.entries[i - r.first];
      }
    }
  }

  /** Which operations keep that: a save or compaction restores it, a snapshot keeps it iff it does not pass the last index. */
  lemma FileReachesAfter(d: Disk, op: Op)
    requires Persisted(d) && GoodOp(op) && Applied(d, op).1.Done?
    ensures op.Drop? || (op.Save? && op.batch != []) ==> FileReachesLog(Applied(d, op).0)
    ensures op.Take? && FileReachesLog(d) ==>
      (FileReachesLog(Applied(d, op).0) <==> d.entriesFile.None? || op.snap.index <= d.Last())
    ensures op.Take? && !FileReachesLog(d) ==> !FileReachesLog(Applied(d, op).0)
  {
    LastIs(d);
  }

  /** The i-th operation takes a snapshot past the last index while there is an entries file. */
  ghost predicate PassesEnd(ops: seq<Op>, i: nat)
    requires i < |ops|
  {
    var d := After(FRESH, ops[..i]);
    ops[i].Take? && Applied(d, ops[i]).1.Done? && d.entriesFile.Some? && ops[i].snap.index > d.Last()
  }

  /** The i-th operation rewrites the entries file. */
  ghost predicate Rewrites(ops: seq<Op>, i: nat)
    requires i < |ops|
  {
    Applied(After(FRESH, ops[..i]), ops[i]).1.Done? && (ops[i].Drop? || (ops[i].Save? && ops[i].batch != []))
  }

  ghost predicate Covered(ops: seq<Op>) {
    forall i :: 0 <= i < |ops| && PassesEnd(ops, i) ==> exists j :: i < j < |ops| && Rewrites(ops, j)
  }

  lemma CoveredNext(ops: seq<Op>)
    requires ops != []
    ensures var n := |ops| - 1;
            Covered(ops) <==> if Rewrites(ops, n) then true else Covered(ops[..n]) && !PassesEnd(ops, n)
  {
    hide Applied, After;
    var n := |ops| - 1;
    var front := ops[..n];
    forall i | 0 <= i < n ensures PassesEnd(front, i) == PassesEnd(ops, i) && Rewrites(front, i) == Rewrites(ops, i) {
      assert front[..i] == ops[..i];
    }
    if Covered(ops) && !Rewrites(ops, n) {
      forall i | 0 <= i < n && PassesEnd(front, i) ensures exists j :: i < j < n && Rewrites(front, j) {
        assert PassesEnd(ops, i);
        var j :| i < j < |ops| && Rewrites(ops, j);
        assert Rewrites(front, j);
      }
    }
    if !Rewrites(ops, n) && Covered(front) && !PassesEnd(ops, n) {
      forall i | 0 <= i < |ops| && PassesEnd(ops, i) ensures exists j :: i < j < |ops| && Rewrites(ops, j) {
        assert PassesEnd(front, i);
        var j :| i < j < |front| && Rewrites(front, j);
        assert Rewrites(ops, j);
      }
    }
    if Rewrites(ops, n) {
      assert !PassesEnd(ops, n);
    }
  }

  /** Over every run the last index survives a restart exactly when every snapshot past the end was followed by a rewrite of the entries file. */
  lemma {:induction false} RunRecoversLastIff(ops: seq<Op>)
    requires forall op :: op in ops ==> GoodOp(op)
    ensures var d := After(FRESH, ops);
            && (FileReachesLog(d) <==> Covered(ops))
            && (Reloaded(d).Last() == d.Last() <==> Covered(ops))
  {
    hide Persisted, Applied, FileReachesLog, Covered, Reloaded;
    RunPersists(ops);
    Recovers(After(FRESH, ops));
    if ops == [] {
      FreshCovered();
    } else {
      var n := |ops| - 1;
      RunRecoversLastIff(ops[..n]);
      RunPersists(ops[..n]);
      var d := After(FRESH, ops[..n]);
      CoveredNext(ops);
      assert ops[n] in ops;
      if Applied(d, ops[n]).1.Done? {
        FileReachesAfter(d, ops[n]);
        if ops[n].Save? && ops[n].batch == [] { NothingSaved(d); }
      } else {
        NotDone(d, ops[n]);
      }
    }
  }

  lemma FreshCovered()
    ensures Covered([]) && FileReachesLog(FRESH)
  {
  }

  lemma NothingSaved(d: Disk)
    ensures SavedEntries(d, []).0 == d && Applied(d, Save([])) == SavedEntries(d, [])
  {
  }

  lemma NotDone(d: Disk, op: Op)
    requires !Applied(d, op).1.Done?
    ensures Applied(d, op).0 == d
  {
  }

  /** Otherwise the node cannot go on: the entry after its last index is refused after the restart. */
  lemma GapAfterRestart(d: Disk, batch: seq<Entry>)
    requires Persisted(d) && !FileReachesLog(d) && batch != [] && batch[0].index == d.Last() + 1
    ensures SavedEntries(d, batch).1.Done?
    ensures SavedEntries(Reloaded(d), batch).1.Refused?
  {
    LastIs(d);
    LastIs(Reloaded(d));
  }

  /** Such a run: one entry, then a snapshot at index 5. The next entry is accepted before a restart and refused after it. */
  lemma GapInARun()
    ensures var d := After(FRESH, [Save([Entry(1, 1, "")]), Take(Snap(5, 1, ""))]);
            && Persisted(d) && !FileReachesLog(d)
            && SavedEntries(d, [Entry(6, 1, "")]).1.Done? && SavedEntries(Reloaded(d), [Entry(6, 1, "")]).1.Refused?
  {
    hide After, Persisted, SavedEntries, SavedSnapshot, Reloaded, Contiguous;
    var ops := [Save([Entry(1, 1, "")]), Take(Snap(5, 1, ""))];
    AfterTwo(ops[0], ops[1]);
    FarSnapshot();
    OneEntry();
    RunPersists(ops);
    GapAfterRestart(After(FRESH, ops), [Entry(6, 1, "")]);
  }

  lemma OneEntry()
    ensures GoodBatch([Entry(1, 1, "")])
  {
  }

  lemma FarSnapshot()
    ensures var f := EntriesFile(1, [Entry(1, 1, "")]);
            SavedSnapshot(SavedEntries(FRESH, f.entries).0, Snap(5, 1, "")).0 == Disk([], 6, Snap(5, 1, ""), Some(f), Some(Snap(5, 1, "")))
  {
    assert FRESH.entries + [Entry(1, 1, "")] == [Entry(1, 1, "")];
  }

  lemma AfterTwo(a: Op, b: Op)
    ensures After(FRESH, [a, b]) == Applied(Applied(FRESH, a).0, b).0
  {
    hide Applied;
    assert [a, b][..1] == [a] && [a][..0] == [];
    assert After(FRESH, []) == FRESH && After(FRESH, [a]) == Applied(FRESH, a).0;
  }

  // ---------------------------------------------------------------------
  // Size-limited reads
  // ---------------------------------------------------------------------

  ghost function TotalSize(es: seq<Entry>, size: Entry -> nat, k: nat): nat
    requires k <= |es|
  {
    if k == 0 then 0 else TotalSize(es, size, k - 1) + size(es[k - 1])
  }

  /** The longest prefix within the budget; it is empty when already the first entry is too large. */
  method LimitSize(es: seq<Entry>, maxSize: nat, size: Entry -> nat) returns (r: seq<Entry>)
    ensures r <= es
    ensures maxSize == 0 ==> r == es
    ensures maxSize > 0 ==> TotalSize(es, size, |r|) <= maxSize && (|r| < |es| ==> TotalSize(es, size, |r| + 1) > maxSize)
  {
    if maxSize > 0 {
      var total := 0;
      for i := 0 to |es|
        invariant total == TotalSize(es, size, i) <= maxSize
      {
        total := total + size(es[i]);
        if total > maxSize { return es[..i]; }
      }
    }
    r := es;
  }
}
