/**
 * Ordered durable writes: `FileTransferStore.save` chains the writes of one transfer id on
 * the promise of the previous save, and the file system completes or fails them at any time.
 */
module DurableWrites {
  import opened Prelude

  type Id = string

  /** What is written: the record as it was when `save` was called. */
  type Doc = string

  /** `renamed`: the new file was already visible when the write failed. */
  datatype Stage = Waiting | Running | Renamed | Succeeded | Failed(renamed: bool)

  /** One call of `save`: the call it waits for, and whether its `finally` has run. */
  datatype Call = Call(id: Id, doc: Doc, prev: Option<nat>, stage: Stage, settled: bool)

  datatype Store = Store(calls: seq<Call>, writes: map<Id, nat>, disk: map<Id, Doc>)

  datatype Step =
    | Save(id: Id, doc: Doc)
    | Begin(k: nat)
    | Replace(k: nat)
    | Finish(k: nat, ok: bool)
    | Settle(k: nat)

  predicate Done(c: Call) { c.stage.Succeeded? || c.stage.Failed? }

  predicate Shown(c: Call) { c.stage == Renamed || c.stage == Succeeded || c.stage == Failed(true) }

  function SaveCalled(s: Store, id: Id, doc: Doc): Store {
    var previous := if id in s.writes then Some(s.writes[id]) else None;
    s.(calls := s.calls + [Call(id, doc, previous, Waiting, false)], writes := s.writes[id := |s.calls|])
  }

  predicate Ready(s: Store, k: nat) {
    && k < |s.calls| && s.calls[k].stage == Waiting
    && (s.calls[k].prev.Some? ==> s.calls[k].prev.value < |s.calls| && Done(s.calls[s.calls[k].prev.value]))
  }

  function AtStage(s: Store, k: nat, stage: Stage): Store
    requires k < |s.calls|
  {
    s.(calls := s.calls[k := s.calls[k].(stage := stage)])
  }

  function Began(s: Store, k: nat): Store { if Ready(s, k) then AtStage(s, k, Running) else s }

  function Replaced(s: Store, k: nat): Store {
    if k < |s.calls| && s.calls[k].stage == Running
    then AtStage(s, k, Renamed).(disk := s.disk[s.calls[k].id := s.calls[k].doc])
    else s
  }

  function Finished(s: Store, k: nat, ok: bool): Store {
    if k >= |s.calls| then s
    else if s.calls[k].stage == Running && !ok then AtStage(s, k, Failed(false))
    else if s.calls[k].stage == Renamed then AtStage(s, k, if ok then Succeeded else Failed(true))
    else s
  }

  function Settled(s: Store, k: nat): Store {
    if k < |s.calls| && Done(s.calls[k]) && !s.calls[k].settled then
      var id := s.calls[k].id;
      s.(calls := s.calls[k := s.calls[k].(settled := true)],
         writes := if id in s.writes && s.writes[id] == k then s.writes - {id} else s.writes)
    else s
  }

  function Take(s: Store, e: Step): Store {
    match e
    case Save(id, doc) => SaveCalled(s, id, doc)
    case Begin(k) => Began(s, k)
    case Replace(k) => Replaced(s, k)
    case Finish(k, ok) => Finished(s, k, ok)
    case Settle(k) => Settled(s, k)
  }

  function Run(s: Store, steps: seq<Step>): Store
    decreases steps
  {
    if steps == [] then s else Run(Take(s, steps[0]), steps[1..])
  }

  function Fresh(disk: map<Id, Doc>): Store { Store([], map[], disk) }

  /**
   * The end of a write: before its rename it can only fail, and nothing of it shows; after it
   * it succeeds or fails with the new record on disk; the disk does not change any more.
   */
  lemma FinishDecides(s: Store, k: nat, ok: bool)
    requires k < |s.calls|
    ensures var s', stage := Take(s, Finish(k, ok)), s.calls[k].stage;
            && s' == s.(calls := s'.calls) && |s'.calls| == |s.calls|
            && (forall i | 0 <= i < |s.calls| && i != k :: s'.calls[i] == s.calls[i])
            && s'.calls[k] == s.calls[k].(stage :=
                 if stage == Running && !ok then Failed(false)
                 else if stage == Renamed && ok then Succeeded
                 else if stage == Renamed then Failed(true)
                 else stage)
  {
  }

  // ---- The invariant -----------------------------------------------------------------

  /** The chain: each call waits for the one before it, or none was pending. */
  ghost predicate Linked(s: Store, k: nat)
    requires k < |s.calls|
  {
    match s.calls[k].prev
    case Some(p) => p < k && s.calls[p].id == s.calls[k].id
                    && forall i | p < i < k :: s.calls[i].id != s.calls[k].id
    case None => forall i | 0 <= i < k && s.calls[i].id == s.calls[k].id :: Done(s.calls[i])
  }

  /** No write starts before every earlier one for its id is over. */
  ghost predicate InOrder(s: Store) {
    forall i, k | 0 <= i < k < |s.calls| && s.calls[i].id == s.calls[k].id && s.calls[k].stage != Waiting ::
      Done(s.calls[i])
  }

  /** The map names the latest call of an id, until that call's `finally`. */
  ghost predicate Tracked(s: Store) {
    && (forall id <- s.writes ::
          && s.writes[id] < |s.calls| && s.calls[s.writes[id]].id == id && !s.calls[s.writes[id]].settled
          && forall i | s.writes[id] < i < |s.calls| :: s.calls[i].id != id)
    && (forall k | 0 <= k < |s.calls| && s.calls[k].id !in s.writes :: Done(s.calls[k]))
  }

  ghost predicate LastShown(s: Store, k: nat) {
    && k < |s.calls| && Shown(s.calls[k])
    && forall i | k < i < |s.calls| && s.calls[i].id == s.calls[k].id :: !Shown(s.calls[i])
  }

  ghost predicate NeverShown(s: Store, id: Id) {
    forall i | 0 <= i < |s.calls| && s.calls[i].id == id :: !Shown(s.calls[i])
  }

  ghost predicate DiskOk(s: Store, disk0: map<Id, Doc>) {
    && (forall k: nat | LastShown(s, k) :: s.calls[k].id in s.disk && s.disk[s.calls[k].id] == s.calls[k].doc)
    && (forall id | NeverShown(s, id) :: (id in s.disk <==> id in disk0) && (id in disk0 ==> s.disk[id] == disk0[id]))
  }

  ghost predicate ChainOk(s: Store) {
    && (forall k: nat | k < |s.calls| :: Linked(s, k))
    && (forall k | 0 <= k < |s.calls| && s.calls[k].settled :: Done(s.calls[k]))
    && InOrder(s) && Tracked(s)
  }

  lemma SaveOk(s: Store, id: Id, doc: Doc)
    requires ChainOk(s)
    ensures ChainOk(SaveCalled(s, id, doc))
  {
    var s' := SaveCalled(s, id, doc);
    forall k: nat | k < |s'.calls| ensures Linked(s', k) {
      if k < |s.calls| { assert Linked(s, k); }
    }
  }

  /** A call that is ready has every earlier call of its id behind it. */
  lemma ReadyIsNext(s: Store, k: nat, i: nat)
    requires ChainOk(s) && Ready(s, k) && i < k && s.calls[i].id == s.calls[k].id
    ensures Done(s.calls[i])
  {
    assert Linked(s, k);
    if s.calls[k].prev.Some? {
      assert i <= s.calls[k].prev.value;
    }
  }

  lemma StageOk(s: Store, k: nat, stage: Stage)
    requires ChainOk(s) && k < |s.calls| && !Done(s.calls[k])
    requires forall i | 0 <= i < k && s.calls[i].id == s.calls[k].id :: Done(s.calls[i])
    ensures ChainOk(AtStage(s, k, stage))
  {
    var s' := AtStage(s, k, stage);
    forall j: nat | j < |s'.calls| ensures Linked(s', j) { assert Linked(s, j); }
  }

  lemma DiskIrrelevant(s: Store, s': Store)
    requires ChainOk(s) && s' == s.(disk := s'.disk)
    ensures ChainOk(s')
  {
    forall j: nat | j < |s'.calls| ensures Linked(s', j) { assert Linked(s, j); }
  }

  lemma SettleOk(s: Store, k: nat)
    requires ChainOk(s)
    ensures ChainOk(Settled(s, k))
  {
    var s' := Settled(s, k);
    forall j: nat | j < |s'.calls| ensures Linked(s', j) {
      assert Linked(s, j);
      SettledLinked(s, k, j);
    }
  }

  lemma SettledLinked(s: Store, k: nat, j: nat)
    requires j < |s.calls| && Linked(s, j)
    ensures Linked(Settled(s, k), j)
  {
  }

  lemma TakeOk(s: Store, e: Step)
    requires ChainOk(s)
    ensures ChainOk(Take(s, e))
  {
    match e
    case Save(id, doc) => SaveOk(s, id, doc);
    case Begin(k) =>
      if Ready(s, k) {
        forall i | 0 <= i < k && s.calls[i].id == s.calls[k].id ensures Done(s.calls[i]) { ReadyIsNext(s, k, i); }
        StageOk(s, k, Running);
      }
    case Replace(k) =>
      if k < |s.calls| && s.calls[k].stage == Running {
        StageOk(s, k, Renamed);
        DiskIrrelevant(AtStage(s, k, Renamed), Replaced(s, k));
      }
    case Finish(k, ok) =>
      if k < |s.calls| && s.calls[k].stage == Running { StageOk(s, k, Failed(false)); }
      if k < |s.calls| && s.calls[k].stage == Renamed { StageOk(s, k, if ok then Succeeded else Failed(true)); }
    case Settle(k) => SettleOk(s, k);
  }

  /** A step that shows nothing new leaves the disk right. */
  lemma DiskUntouched(s: Store, s': Store, disk0: map<Id, Doc>)
    requires DiskOk(s, disk0) && s'.disk == s.disk && |s.calls| <= |s'.calls|
    requires forall i | 0 <= i < |s.calls| :: s'.calls[i].id == s.calls[i].id && s'.calls[i].doc == s.calls[i].doc
                                             && (Shown(s'.calls[i]) <==> Shown(s.calls[i]))
    requires forall i | |s.calls| <= i < |s'.calls| :: !Shown(s'.calls[i])
    ensures DiskOk(s', disk0)
  {
    forall k: nat | LastShown(s', k)
      ensures s'.calls[k].id in s'.disk && s'.disk[s'.calls[k].id] == s'.calls[k].doc
    {
      assert LastShown(s, k);
    }
    forall id | NeverShown(s', id) ensures NeverShown(s, id) {
      forall i | 0 <= i < |s.calls| && s.calls[i].id == id ensures !Shown(s.calls[i]) { assert s'.calls[i].id == id; }
    }
  }

  /** After a rename, call `k` is the last shown of its id. */
  lemma ReplaceShowsLast(s: Store, k: nat)
    requires InOrder(s) && k < |s.calls| && s.calls[k].stage == Running
    ensures LastShown(Replaced(s, k), k)
  {
  }

  lemma ReplaceKeepsOthers(s: Store, k: nat, j: nat)
    requires k < |s.calls| && s.calls[k].stage == Running
    requires LastShown(Replaced(s, k), j) && s.calls[j].id != s.calls[k].id
    ensures LastShown(s, j)
  {
    var s' := Replaced(s, k);
    assert s'.calls[j] == s.calls[j];
    forall i | j < i < |s.calls| && s.calls[i].id == s.calls[j].id ensures !Shown(s.calls[i]) {
      assert s'.calls[i] == s.calls[i];
    }
  }

  lemma ReplaceNever(s: Store, k: nat, id: Id)
    requires k < |s.calls| && s.calls[k].stage == Running && NeverShown(Replaced(s, k), id)
    ensures id != s.calls[k].id && NeverShown(s, id)
  {
    var s' := Replaced(s, k);
    assert Shown(s'.calls[k]) && s'.calls[k].id == s.calls[k].id;
    forall i | 0 <= i < |s.calls| && s.calls[i].id == id ensures !Shown(s.calls[i]) {
      assert s'.calls[i] == s.calls[i];
    }
  }

  lemma LastShownOnce(s: Store, j: nat, k: nat)
    requires LastShown(s, j) && LastShown(s, k) && s.calls[j].id == s.calls[k].id
    ensures j == k
  {
  }

  lemma ReplaceDisk(s: Store, k: nat, disk0: map<Id, Doc>)
    requires InOrder(s) && DiskOk(s, disk0) && k < |s.calls| && s.calls[k].stage == Running
    ensures DiskOk(Replaced(s, k), disk0)
  {
    var s' := Replaced(s, k);
    ReplaceShowsLast(s, k);
    forall j: nat | LastShown(s', j)
      ensures s'.calls[j].id in s'.disk && s'.disk[s'.calls[j].id] == s'.calls[j].doc
    {
      if s.calls[j].id != s.calls[k].id { ReplaceKeepsOthers(s, k, j); } else { LastShownOnce(s', j, k); }
    }
    forall id | NeverShown(s', id)
      ensures (id in s'.disk <==> id in disk0) && (id in disk0 ==> s'.disk[id] == disk0[id])
    {
      ReplaceNever(s, k, id);
    }
  }

  /** The steps other than a rename show nothing new. */
  lemma ShowsNothing(s: Store, e: Step)
    requires ChainOk(s) && !(e.Replace? && e.k < |s.calls| && s.calls[e.k].stage == Running)
    ensures var s' := Take(s, e);
            && s'.disk == s.disk && |s.calls| <= |s'.calls|
            && (forall i | 0 <= i < |s.calls| :: s'.calls[i].id == s.calls[i].id && s'.calls[i].doc == s.calls[i].doc
                                                 && (Shown(s'.calls[i]) <==> Shown(s.calls[i])))
            && (forall i | |s.calls| <= i < |s'.calls| :: !Shown(s'.calls[i]))
  {
  }

  lemma TakeDisk(s: Store, e: Step, disk0: map<Id, Doc>)
    requires ChainOk(s) && DiskOk(s, disk0)
    ensures DiskOk(Take(s, e), disk0)
  {
    if e.Replace? && e.k < |s.calls| && s.calls[e.k].stage == Running {
      ReplaceDisk(s, e.k, disk0);
    } else {
      ShowsNothing(s, e);
      DiskUntouched(s, Take(s, e), disk0);
    }
  }

  lemma {:induction false} RunOk(s: Store, steps: seq<Step>, disk0: map<Id, Doc>)
    requires ChainOk(s) && DiskOk(s, disk0)
    ensures ChainOk(Run(s, steps)) && DiskOk(Run(s, steps), disk0)
    decreases steps
  {
    if steps != [] {
      TakeOk(s, steps[0]);
      TakeDisk(s, steps[0], disk0);
      RunOk(Take(s, steps[0]), steps[1..], disk0);
    }
  }

  lemma ReachableOk(disk0: map<Id, Doc>, steps: seq<Step>)
    ensures ChainOk(Run(Fresh(disk0), steps)) && DiskOk(Run(Fresh(disk0), steps), disk0)
  {
    RunOk(Fresh(disk0), steps, disk0);
  }

  // ---- Main results ------------------------------------------------------------------

  /** The saves of a run: id and record at the moment of each call. */
  function Saves(steps: seq<Step>): seq<(Id, Doc)>
    decreases steps
  {
    if steps == [] then []
    else (if steps[0].Save? then [(steps[0].id, steps[0].doc)] else []) + Saves(steps[1..])
  }

  function Written(calls: seq<Call>): seq<(Id, Doc)> {
    seq(|calls|, i requires 0 <= i < |calls| => (calls[i].id, calls[i].doc))
  }

  /** Each call keeps the record as it was when `save` was called, in call order. */
  lemma {:induction false} SnapshotsAreTakenAtTheCall(s: Store, steps: seq<Step>)
    ensures Written(Run(s, steps).calls) == Written(s.calls) + Saves(steps)
    decreases steps
  {
    if steps != [] {
      var s' := Take(s, steps[0]);
      assert Written(s'.calls) == Written(s.calls) + (if steps[0].Save? then [(steps[0].id, steps[0].doc)] else []);
      SnapshotsAreTakenAtTheCall(s', steps[1..]);
    }
  }

  /**
   * Writes for one id never overlap and run in call order: when one has started, every
   * earlier call for that id is over, failed calls included.
   */
  lemma WritesRunInOrder(disk0: map<Id, Doc>, steps: seq<Step>, i: nat, k: nat)
    requires i < k < |Run(Fresh(disk0), steps).calls|
    requires Run(Fresh(disk0), steps).calls[i].id == Run(Fresh(disk0), steps).calls[k].id
    ensures var calls := Run(Fresh(disk0), steps).calls;
            && (calls[k].stage != Waiting ==> Done(calls[i]))
            && !(calls[i].stage.Running? && calls[k].stage.Running?)
  {
    ReachableOk(disk0, steps);
  }

  /** When every call has returned, nothing is left in the map. */
  lemma MapEndsEmpty(disk0: map<Id, Doc>, steps: seq<Step>)
    ensures var s := Run(Fresh(disk0), steps);
            (forall k | 0 <= k < |s.calls| :: s.calls[k].settled) ==> s.writes == map[]
  {
    ReachableOk(disk0, steps);
  }

  ghost predicate LastSuccess(s: Store, k: nat) {
    && k < |s.calls| && s.calls[k].stage == Succeeded
    && forall i | k < i < |s.calls| && s.calls[i].id == s.calls[k].id :: s.calls[i].stage != Succeeded
  }

  /** A later write for the same id failed, but only after its rename. */
  ghost predicate FailedLate(s: Store, k: nat)
    requires k < |s.calls|
  {
    exists i :: k < i < |s.calls| && s.calls[i].id == s.calls[k].id && s.calls[i].stage == Failed(true)
  }

  lemma LastOf(s: Store, k: nat) returns (last: nat)
    requires k < |s.calls| && Shown(s.calls[k])
    ensures k <= last < |s.calls| && s.calls[last].id == s.calls[k].id && LastShown(s, last)
  {
    last := k;
    var i := k + 1;
    while i < |s.calls|
      invariant k <= last < i <= |s.calls|
      invariant s.calls[last].id == s.calls[k].id && Shown(s.calls[last])
      invariant forall j | last < j < i && s.calls[j].id == s.calls[k].id :: !Shown(s.calls[j])
    {
      if s.calls[i].id == s.calls[k].id && Shown(s.calls[i]) { last := i; }
      i := i + 1;
    }
  }

  /** The snapshots saved under that id after call `k` are other ones. */
  ghost predicate LaterDiffer(s: Store, k: nat)
    requires k < |s.calls|
  {
    forall i | k < i < |s.calls| && s.calls[i].id == s.calls[k].id :: s.calls[i].doc != s.calls[k].doc
  }

  /**
   * Once every call is over, the disk holds the snapshot of the last successful call unless
   * a later write of that id failed after its rename (in syncing the directory); and then
   * it does not, if the later snapshots are other ones.
   */
  lemma DiskHoldsLastSuccessIff(disk0: map<Id, Doc>, steps: seq<Step>, k: nat)
    requires var s := Run(Fresh(disk0), steps);
             (forall i | 0 <= i < |s.calls| :: Done(s.calls[i])) && LastSuccess(s, k)
    ensures var s := Run(Fresh(disk0), steps);
            && s.calls[k].id in s.disk
            && (!FailedLate(s, k) ==> s.disk[s.calls[k].id] == s.calls[k].doc)
            && (FailedLate(s, k) && LaterDiffer(s, k) ==> s.disk[s.calls[k].id] != s.calls[k].doc)
  {
    var s := Run(Fresh(disk0), steps);
    ReachableOk(disk0, steps);
    var last := LastOf(s, k);
    if last != k {
      assert s.calls[last].stage == Failed(true);
    }
  }

  /** The failing case: the promise rejects, yet its record is what a restart will read. */
  lemma RejectedButVisible(id: Id, prior: Doc, doc: Doc)
    ensures var s := Run(Fresh(map[id := prior]), [Save(id, doc), Begin(0), Replace(0), Finish(0, false)]);
            s.calls == [Call(id, doc, None, Failed(true), false)] && s.disk == map[id := doc]
  {
    var s0 := Fresh(map[id := prior]);
    var s1 := SaveCalled(s0, id, doc);
    var s2 := Began(s1, 0);
    var s3 := Replaced(s2, 0);
    var s4 := Finished(s3, 0, false);
    assert s3.disk == map[id := doc];
    assert [Save(id, doc), Begin(0), Replace(0), Finish(0, false)]
        == [Save(id, doc)] + ([Begin(0)] + ([Replace(0)] + ([Finish(0, false)] + [])));
    RunCons(s0, Save(id, doc), [Begin(0)] + ([Replace(0)] + ([Finish(0, false)] + [])));
    RunCons(s1, Begin(0), [Replace(0)] + ([Finish(0, false)] + []));
    RunCons(s2, Replace(0), [Finish(0, false)] + []);
    RunCons(s3, Finish(0, false), []);
    assert s4.calls == [Call(id, doc, None, Failed(true), false)];
  }

  lemma RunCons(s: Store, e: Step, rest: seq<Step>)
    ensures Run(s, [e] + rest) == Run(Take(s, e), rest)
  {
    assert ([e] + rest)[1..] == rest;
  }

  // ---- Progress ----------------------------------------------------------------------

  function Left(c: Call): nat {
    match c.stage
    case Waiting => 4
    case Running => 3
    case Renamed => 2
    case _ => if c.settled then 0 else 1
  }

  /** How many more effects the pending calls can have. */
  function Work(calls: seq<Call>): nat {
    if calls == [] then 0 else Work(calls[..|calls| - 1]) + Left(calls[|calls| - 1])
  }

  lemma {:induction false} WorkUpdate(calls: seq<Call>, k: nat, c: Call)
    requires k < |calls|
    ensures Work(calls[k := c]) == Work(calls) - Left(calls[k]) + Left(c)
  {
    var n := |calls| - 1;
    if k == n {
      assert calls[k := c][..n] == calls[..n];
    } else {
      assert calls[k := c][..n] == calls[..n][k := c];
      WorkUpdate(calls[..n], k, c);
    }
  }

  /** Every effect uses work up, so only so many can follow the last `save`. */
  lemma EffectsUseWork(s: Store, e: Step)
    requires !e.Save? && Take(s, e) != s
    ensures Work(Take(s, e).calls) < Work(s.calls)
  {
    var s' := Take(s, e);
    assert s'.calls == s.calls[e.k := s'.calls[e.k]];
    WorkUpdate(s.calls, e.k, s'.calls[e.k]);
  }

  /** Nothing waits for ever: until every call has returned, some effect is possible. */
  lemma NeverStuck(disk0: map<Id, Doc>, steps: seq<Step>, k: nat)
    requires var s := Run(Fresh(disk0), steps); k < |s.calls| && !s.calls[k].settled
    ensures var s := Run(Fresh(disk0), steps); exists e: Step :: !e.Save? && Take(s, e) != s
  {
    var s := Run(Fresh(disk0), steps);
    ReachableOk(disk0, steps);
    var e := NextEffect(s, k);
    assert Take(s, e) != s;
  }

  lemma {:induction false} NextEffect(s: Store, k: nat) returns (e: Step)
    requires ChainOk(s) && k < |s.calls| && !s.calls[k].settled
    ensures !e.Save? && Take(s, e) != s
    decreases k
  {
    var c := s.calls[k];
    if Done(c) {
      e := Settle(k);
      assert Take(s, e).calls[k].settled;
    } else if c.stage != Waiting {
      e := Finish(k, false);
      assert Take(s, e).calls[k].stage.Failed?;
    } else if Ready(s, k) {
      e := Begin(k);
      assert Take(s, e).calls[k].stage == Running;
    } else {
      assert Linked(s, k);
      e := NextEffect(s, c.prev.value);
    }
  }

  // ---- The store object --------------------------------------------------------------

  class PendingWrites {
    var calls: seq<Call>
    var writes: map<Id, nat>
    var disk: map<Id, Doc>

    constructor (disk: map<Id, Doc>)
      ensures State() == Fresh(disk)
    {
      calls, writes, this.disk := [], map[], disk;
    }

    ghost function State(): Store reads this { Store(calls, writes, disk) }

    /** save up to its `await`: snapshot, chain on the previous promise, remember the new one. */
    method SaveRecord(id: Id, doc: Doc)
      modifies `calls, `writes
      ensures State() == SaveCalled(old(State()), id, doc)
    {
      var previous := None;
      if id in writes { previous := Some(writes[id]); }
      var next := |calls|;
      calls := calls + [Call(id, doc, previous, Waiting, false)];
      writes := writes[id := next];
    }

    /** The chained callback begins once the previous write is over, even if that failed. */
    method BeginWrite(k: nat) returns (began: bool)
      modifies `calls
      ensures State() == Began(old(State()), k)
      ensures began <==> Ready(old(State()), k)
    {
      began := false;
      if k < |calls| && calls[k].stage == Waiting {
        var previous := calls[k].prev;
        if previous == None || (previous.value < |calls| && Done(calls[previous.value])) {
          calls := calls[k := calls[k].(stage := Running)];
          began := true;
        }
      }
    }

    /** atomicWriteJson: rename over the record, then sync the directory; either may fail. */
    method AtomicWrite(k: nat, renames: bool, syncs: bool) returns (ok: bool)
      requires k < |calls| && calls[k].stage == Running
      modifies `calls, `disk
      ensures State() == if renames then Finished(Replaced(old(State()), k), k, syncs)
                         else Finished(old(State()), k, false)
      ensures ok <==> renames && syncs
    {
      ok := false;
      if !renames {
        calls := calls[k := calls[k].(stage := Failed(false))];
        return;
      }
      disk := disk[calls[k].id := calls[k].doc];
      ok := syncs;
      calls := calls[k := calls[k].(stage := if ok then Succeeded else Failed(true))];
      assert calls == Finished(Replaced(old(State()), k), k, syncs).calls;
    }

    /** The `finally` of a save. */
    method Finally(k: nat)
      requires k < |calls| && Done(calls[k]) && !calls[k].settled
      modifies `calls, `writes
      ensures State() == Settled(old(State()), k)
    {
      var id := calls[k].id;
      calls := calls[k := calls[k].(settled := true)];
      if id in writes && writes[id] == k { writes := writes - {id}; }
    }
  }
}
