/**
 * Crash safety of one receive: the gateway may stop after any single effect of writing,
 * committing, failing or recovering, any number of times, while other programs change
 * files that are not this transfer's.
 */
module CrashSafety {
  import opened Prelude
  import opened Commit
  import opened Recovery
  import opened TransferStates

  /** One transfer: its part file, its target names, and what its bytes must be. */
  datatype Plan = Plan(g: Setting, v: Volume, t: Target, part: Path, size: nat, sha256: string)

  /** The receiving code between two durable effects. */
  datatype Stage =
    | Preparing
    | Writing
    | Checked(next: nat)
    | Attempting(index: nat)
    | LinkRefused(index: nat)
    | RenameRefused(index: nat)
    | Copying(c: Path)
    | InPlace(c: Path)
    | Unlinked(c: Path)
    | Failing

  datatype Process = Idle | Receive(stage: Stage) | Down | Deciding | Committing | Abandoning

  /**
   * `linked` remembers the name at which the file was durably placed: by link or rename,
   * or by a copy whose part was then removed.
   */
  datatype World = World(fs: FS, record: Option<Record>, proc: Process, linked: Option<Path>)

  datatype Effect =
    | Begin
    | SaveProgress(state: State)
    | CreatePart
    | Append(bytes: Bytes)
    | Check
    | SaveCommitting
    | TryLink
    | TryRename
    | OpenCopy
    | CopySome(n: nat)
    | RemovePart
    | SaveCommitted
    | SaveFailed(state: State, persisted: bool)
    | RemoveFailedPart
    | SaveAmbiguous
    | Crash
    | Restart
    | Decide
    | RecoveryRemoves(ok: bool)
    | RecoverySaves
    | Resolve
    | Elsewhere(p: Path, content: Option<Bytes>)

  function Rec(w: World): Record
    requires w.record.Some?
  {
    w.record.value
  }

  function WithState(w: World, state: State): World
    requires w.record.Some?
  {
    w.(record := Some(Rec(w).(state := state)))
  }

  predicate Good(p: Plan, b: Bytes) { |b| == p.size && p.g.sha(b) == p.sha256 }

  predicate Holds(p: Plan, fs: FS, c: Path) { Content(fs, c).Some? && Good(p, Content(fs, c).value) }

  /** Paths other programs leave alone: the part, and the file this transfer has placed or committed. */
  predicate Ours(p: Plan, w: World, path: Path) {
    || path == p.part
    || w.linked == Some(path)
    || (w.proc.Receive? && (w.proc.stage == Copying(path) || w.proc.stage == InPlace(path)))
    || (w.record.Some? && Rec(w).path == Some(path)
        && (Rec(w).state == DATA_COMMITTED || Rec(w).state == COMPLETED || w.proc == Committing))
  }

  /** copyFile opens its target: a new file, or an existing one made empty. */
  function Opened(fs: FS, c: Path): FS {
    if c in fs.names then fs.(blocks := fs.blocks[fs.names[c] := []]) else Create(fs, c, [])
  }

  /** link at one candidate; a careless volume refuses a taken name as it refuses a free one. */
  function LinkTried(p: Plan, w: World, k: nat): World {
    var c := Candidate(p.t, k);
    if p.part !in w.fs.names then w
    else if c in w.fs.names && Careful(p.v) then w.(proc := Receive(Checked(k + 1)))
    else if p.v.canLink then w.(fs := Link(w.fs, p.part, c), proc := Receive(InPlace(c)), linked := Some(c))
    else w.(proc := Receive(LinkRefused(k)))
  }

  /** The first fallback replaces whatever stands under the name by now. */
  function RenameTried(p: Plan, w: World, k: nat): World {
    var c := Candidate(p.t, k);
    if p.part !in w.fs.names then w
    else if p.v.canRename then w.(fs := Rename(w.fs, p.part, c), proc := Receive(InPlace(c)), linked := Some(c))
    else w.(proc := Receive(RenameRefused(k)))
  }

  /** copyFile has written the first `n` bytes. */
  function CopyTo(p: Plan, w: World, c: Path, n: nat): World {
    if p.part !in w.fs.names || w.fs.names[p.part] !in w.fs.blocks || c !in w.fs.names then w
    else
      var bytes := w.fs.blocks[w.fs.names[p.part]];
      if n > |bytes| then w
      else
        w.(fs := w.fs.(blocks := w.fs.blocks[w.fs.names[c] := bytes[..n]]),
           proc := Receive(if n == |bytes| then InPlace(c) else Copying(c)))
  }

  function Happen(p: Plan, w: World, e: Effect): World {
    match e
    case Begin =>
      if w.proc == Idle && w.record.None? then
        w.(record := Some(Record(PREPARING, None, Some(p.part), p.size, p.sha256)), proc := Receive(Preparing))
      else w
    case SaveProgress(state) =>
      if w.proc == Receive(Preparing) && w.record.Some? && (state == READY || state == TRANSFERRING)
      then WithState(w, state) else w
    case CreatePart =>
      if w.proc == Receive(Preparing) && p.part !in w.fs.names
      then w.(fs := Create(w.fs, p.part, []), proc := Receive(Writing)) else w
    case Append(bytes) =>
      if w.proc == Receive(Writing) && Content(w.fs, p.part).Some? then
        w.(fs := w.fs.(blocks := w.fs.blocks[w.fs.names[p.part] := w.fs.blocks[w.fs.names[p.part]] + bytes]))
      else w
    case Check =>
      if w.proc == Receive(Writing) && Holds(p, w.fs, p.part) then w.(proc := Receive(Checked(0))) else w
    case SaveCommitting =>
      if w.proc.Receive? && w.proc.stage.Checked? && w.record.Some? then
        w.(record := Some(Rec(w).(state := COMMITTING, path := Some(Candidate(p.t, w.proc.stage.next)))),
           proc := Receive(Attempting(w.proc.stage.next)))
      else w
    case TryLink => if w.proc.Receive? && w.proc.stage.Attempting? then LinkTried(p, w, w.proc.stage.index) else w
    case TryRename => if w.proc.Receive? && w.proc.stage.LinkRefused? then RenameTried(p, w, w.proc.stage.index) else w
    case OpenCopy =>
      if w.proc.Receive? && w.proc.stage.RenameRefused? && p.part in w.fs.names then
        var c := Candidate(p.t, w.proc.stage.index);
        w.(fs := Opened(w.fs, c), proc := Receive(Copying(c)))
      else w
    case CopySome(n) => if w.proc.Receive? && w.proc.stage.Copying? then CopyTo(p, w, w.proc.stage.c, n) else w
    case RemovePart =>
      if w.proc.Receive? && w.proc.stage.InPlace? then
        w.(fs := Remove(w.fs, p.part), proc := Receive(Unlinked(w.proc.stage.c)), linked := Some(w.proc.stage.c))
      else w
    case SaveCommitted =>
      if w.proc.Receive? && w.proc.stage.Unlinked? && w.record.Some? then
        w.(record := Some(Rec(w).(state := DATA_COMMITTED, path := Some(w.proc.stage.c), partPath := None)),
           proc := Idle)
      else w
    case SaveFailed(state, persisted) =>
      if w.proc.Receive? && w.record.Some? && !w.proc.stage.InPlace? && !w.proc.stage.Unlinked?
         && !w.proc.stage.Failing? && (state == FAILED_CONFIRMED || state == CANCELED) then
        w.(record := if persisted then Some(Rec(w).(state := state, path := None, partPath := None)) else w.record,
           proc := Receive(Failing))
      else w
    case RemoveFailedPart =>
      if w.proc == Receive(Failing) then w.(fs := Remove(w.fs, p.part), proc := Idle) else w
    case SaveAmbiguous =>
      if w.proc.Receive? && w.record.Some? && (w.proc.stage.InPlace? || w.proc.stage.Unlinked?) then
        WithState(w, COMMITTING).(proc := Idle)
      else w
    case Crash => w.(proc := Down)
    case Restart => if w.proc == Down then w.(proc := Deciding) else w
    case Decide =>
      if w.proc != Deciding then w
      else if w.record.None? || Settled(Rec(w)) then w.(proc := Idle)
      else if Commits(p.g, w.fs, Rec(w)) then w.(proc := Committing)
      else w.(proc := Abandoning)
    case RecoveryRemoves(ok) =>
      if (w.proc == Committing || w.proc == Abandoning) && w.record.Some? && ok then
        w.(fs := RemoveOwned(p.g, w.fs, Rec(w).partPath))
      else w
    case RecoverySaves =>
      if w.record.None? then w
      else if w.proc == Committing then
        w.(record := Some(Rec(w).(state := DATA_COMMITTED, partPath := None)), proc := Idle)
      else if w.proc == Abandoning then
        w.(record := Some(Rec(w).(state := FAILED_CONFIRMED, partPath := None, path := None)), proc := Idle)
      else w
    case Resolve => if w.record.Some? && Rec(w).state == DATA_COMMITTED then WithState(w, COMPLETED) else w
    case Elsewhere(path, content) =>
      if Ours(p, w, path) then w
      else if content.None? then w.(fs := Remove(w.fs, path))
      else w.(fs := Create(Remove(w.fs, path), path, content.value))
  }

  function Run(p: Plan, w: World, effects: seq<Effect>): World
    decreases effects
  {
    if effects == [] then w else Run(p, Happen(p, w, effects[0]), effects[1..])
  }

  /** What the saves between the effects on files write: the state and nothing else. */
  lemma StateSaves(p: Plan, w: World, state: State)
    requires w.record.Some?
    ensures w.proc == Receive(Preparing) && state in {READY, TRANSFERRING} ==>
              Happen(p, w, SaveProgress(state)) == w.(record := Some(Rec(w).(state := state)))
    ensures w.proc.Receive? && (w.proc.stage.InPlace? || w.proc.stage.Unlinked?) ==>
              Happen(p, w, SaveAmbiguous) == w.(record := Some(Rec(w).(state := COMMITTING)), proc := Idle)
    ensures Happen(p, w, Resolve)
         == if Rec(w).state == DATA_COMMITTED then w.(record := Some(Rec(w).(state := COMPLETED))) else w
  {
  }

  /** Other programs may do what they like to any file that is not the transfer's. */
  lemma OthersAct(p: Plan, w: World, path: Path, content: Option<Bytes>)
    requires FsOk(w.fs) && path != p.part && w.linked != Some(path)
    requires w.proc.Receive? ==> w.proc.stage != Copying(path) && w.proc.stage != InPlace(path)
    requires w.record.Some? && (Rec(w).state in {DATA_COMMITTED, COMPLETED} || w.proc == Committing) ==>
               Rec(w).path != Some(path)
    ensures var w' := Happen(p, w, Elsewhere(path, content));
            && w' == w.(fs := w'.fs) && Content(w'.fs, path) == content
            && forall q | q != path :: Content(w'.fs, q) == Content(w.fs, q)
  {
  }

  // ---- The invariant -----------------------------------------------------------------

  /** What the plan may rely on: its paths lie in the receive directory and are distinct. */
  ghost predicate PlanOk(p: Plan) {
    && p.g.within(p.part)
    && (forall k: nat :: p.g.within(Candidate(p.t, k)) && Candidate(p.t, k) != p.part)
  }

  /** No other name shares the inode of `path`. */
  ghost predicate Private(fs: FS, path: Path) {
    path in fs.names ==> forall q <- fs.names :: q != path ==> fs.names[q] != fs.names[path]
  }

  ghost predicate PointsAt(w: World, c: Path) {
    w.record.Some? && Rec(w).path == Some(c) && Rec(w).state == COMMITTING
  }

  ghost predicate Committed(w: World) {
    w.record.Some? && (Rec(w).state == DATA_COMMITTED || Rec(w).state == COMPLETED)
  }

  ghost predicate StageOk(p: Plan, w: World, stage: Stage) {
    match stage
    case Preparing => w.linked.None?
    case Writing => p.part in w.fs.names && w.linked.None?
    case Checked(_) => Holds(p, w.fs, p.part) && w.linked.None?
    case Attempting(k) => Holds(p, w.fs, p.part) && w.linked.None? && PointsAt(w, Candidate(p.t, k))
    case LinkRefused(k) =>
      Holds(p, w.fs, p.part) && w.linked.None? && PointsAt(w, Candidate(p.t, k)) && !p.v.canLink
    case RenameRefused(k) =>
      && Holds(p, w.fs, p.part) && w.linked.None? && PointsAt(w, Candidate(p.t, k))
      && !p.v.canLink && !p.v.canRename
    case Copying(c) =>
      && Holds(p, w.fs, p.part) && w.linked.None? && PointsAt(w, c) && c != p.part
      && c in w.fs.names && w.fs.names[c] != w.fs.names[p.part]
    case InPlace(c) =>
      && Holds(p, w.fs, c) && PointsAt(w, c) && c != p.part
      && (w.linked.None? ==> p.part in w.fs.names && w.fs.names[c] != w.fs.names[p.part])
      && (w.linked.Some? ==> w.linked == Some(c))
    case Unlinked(c) => w.linked == Some(c) && PointsAt(w, c)
    case Failing => w.linked.None? && !Committed(w)
  }

  ghost predicate RecordOk(p: Plan, r: Record) {
    && r.size == p.size && r.sha256 == p.sha256
    && (r.partPath.Some? ==> r.partPath == Some(p.part))
    && (r.path.Some? ==> p.g.within(r.path.value) && r.path.value != p.part)
  }

  ghost predicate WorldOk(p: Plan, w: World) {
    && PlanOk(p) && FsOk(w.fs)
    && (w.record.Some? ==> RecordOk(p, Rec(w)))
    && (w.record.None? ==> w.linked.None? && !w.proc.Receive? && w.proc != Committing && w.proc != Abandoning)
    && (w.linked.None? ==> Private(w.fs, p.part))
    // a placed file is never lost sight of
    && (w.linked.Some? ==>
          var c := w.linked.value;
          && c != p.part && Holds(p, w.fs, c)
          && (p.part in w.fs.names ==> w.fs.names[p.part] == w.fs.names[c])
          && Rec(w).path == Some(c) && (Rec(w).state == COMMITTING || Committed(w)))
    // a committed record points at the right bytes
    && (Committed(w) ==> Rec(w).path.Some? && Holds(p, w.fs, Rec(w).path.value) && Rec(w).partPath.None?)
    && (w.proc == Committing ==>
          && Rec(w).state == COMMITTING && Rec(w).path.Some? && Holds(p, w.fs, Rec(w).path.value)
          && (Rec(w).partPath.Some? && p.part in w.fs.names ==>
                w.fs.names[p.part] == w.fs.names[Rec(w).path.value]))
    && (w.proc == Abandoning ==> w.linked.None? && !Committed(w))
    && (w.proc.Receive? ==> StageOk(p, w, w.proc.stage) && !Committed(w))
  }

  // ---- Every effect keeps it ---------------------------------------------------------

  lemma LinkOk(p: Plan, w: World, k: nat)
    requires WorldOk(p, w) && w.proc == Receive(Attempting(k))
    ensures WorldOk(p, LinkTried(p, w, k))
  {
  }

  lemma RenameOk(p: Plan, w: World, k: nat)
    requires WorldOk(p, w) && w.proc == Receive(LinkRefused(k))
    ensures WorldOk(p, RenameTried(p, w, k))
  {
  }

  lemma OpenOk(p: Plan, w: World, k: nat)
    requires WorldOk(p, w) && w.proc == Receive(RenameRefused(k))
    ensures WorldOk(p, Happen(p, w, OpenCopy))
  {
  }

  lemma CopyOk(p: Plan, w: World, c: Path, n: nat)
    requires WorldOk(p, w) && w.proc == Receive(Copying(c))
    ensures WorldOk(p, CopyTo(p, w, c, n))
  {
    var bytes := w.fs.blocks[w.fs.names[p.part]];
    assert bytes[..|bytes|] == bytes;
  }

  lemma ReceiveOk(p: Plan, w: World, e: Effect)
    requires WorldOk(p, w)
    requires e.Begin? || e.SaveProgress? || e.CreatePart? || e.Append? || e.Check? || e.SaveCommitting?
    ensures WorldOk(p, Happen(p, w, e))
  {
  }

  lemma EndOk(p: Plan, w: World, e: Effect)
    requires WorldOk(p, w)
    requires e.RemovePart? || e.SaveCommitted? || e.SaveFailed? || e.RemoveFailedPart? || e.SaveAmbiguous?
    ensures WorldOk(p, Happen(p, w, e))
  {
  }

  /** A placed file is always recognised after a restart. */
  lemma PlacedIsVerified(p: Plan, w: World)
    requires WorldOk(p, w) && w.linked.Some? && !Committed(w)
    ensures Commits(p.g, w.fs, Rec(w))
  {
  }

  lemma RecoveryOk(p: Plan, w: World, e: Effect)
    requires WorldOk(p, w)
    requires e.Crash? || e.Restart? || e.Decide? || e.RecoveryRemoves? || e.RecoverySaves? || e.Resolve?
    ensures WorldOk(p, Happen(p, w, e))
  {
    if w.linked.Some? && !Committed(w) { PlacedIsVerified(p, w); }
  }

  lemma ElsewhereOk(p: Plan, w: World, path: Path, content: Option<Bytes>)
    requires WorldOk(p, w)
    ensures WorldOk(p, Happen(p, w, Elsewhere(path, content)))
  {
  }

  lemma AttemptOk(p: Plan, w: World, e: Effect)
    requires WorldOk(p, w) && (e.TryLink? || e.TryRename? || e.OpenCopy?)
    ensures WorldOk(p, Happen(p, w, e))
  {
    if w.proc.Receive? && w.proc.stage.Attempting? && e.TryLink? {
      LinkOk(p, w, w.proc.stage.index);
    } else if w.proc.Receive? && w.proc.stage.LinkRefused? && e.TryRename? {
      RenameOk(p, w, w.proc.stage.index);
    } else if w.proc.Receive? && w.proc.stage.RenameRefused? && e.OpenCopy? {
      OpenOk(p, w, w.proc.stage.index);
    }
  }

  lemma CopyHappensOk(p: Plan, w: World, n: nat)
    requires WorldOk(p, w)
    ensures WorldOk(p, Happen(p, w, CopySome(n)))
  {
    if w.proc.Receive? && w.proc.stage.Copying? { CopyOk(p, w, w.proc.stage.c, n); }
  }

  lemma HappenOk(p: Plan, w: World, e: Effect)
    requires WorldOk(p, w)
    ensures WorldOk(p, Happen(p, w, e))
  {
    if e.TryLink? || e.TryRename? || e.OpenCopy? {
      AttemptOk(p, w, e);
    } else if e.CopySome? {
      CopyHappensOk(p, w, e.n);
    } else if e.Elsewhere? {
      ElsewhereOk(p, w, e.p, e.content);
    } else if e.Begin? || e.SaveProgress? || e.CreatePart? || e.Append? || e.Check? || e.SaveCommitting? {
      ReceiveOk(p, w, e);
    } else if e.RemovePart? || e.SaveCommitted? || e.SaveFailed? || e.RemoveFailedPart? || e.SaveAmbiguous? {
      EndOk(p, w, e);
    } else {
      RecoveryOk(p, w, e);
    }
  }

  // ---- Main results ------------------------------------------------------------------

  /** Before the offer: no record, and the part's random name is unused. */
  function Before(fs: FS): World { World(fs, None, Idle, None) }

  lemma {:induction false} RunOk(p: Plan, w: World, effects: seq<Effect>)
    requires WorldOk(p, w)
    ensures WorldOk(p, Run(p, w, effects))
    decreases effects
  {
    if effects != [] {
      HappenOk(p, w, effects[0]);
      RunOk(p, Happen(p, w, effects[0]), effects[1..]);
    }
  }

  /**
   * Soundness: through any effects and any number of crashes, also inside recovery, a record
   * says DATA_COMMITTED or COMPLETED only while its path holds bytes of the recorded size
   * and hash.
   */
  lemma CommittedHolds(p: Plan, fs: FS, effects: seq<Effect>)
    requires PlanOk(p) && FsOk(fs) && p.part !in fs.names
    ensures var w := Run(p, Before(fs), effects);
            Committed(w) ==>
              Rec(w).path.Some? && Content(w.fs, Rec(w).path.value).Some?
              && Matches(p.g, Rec(w), Content(w.fs, Rec(w).path.value).value)
  {
    RunOk(p, Before(fs), effects);
  }

  /** The gateway stops, comes back and looks at the record. */
  function Reboot(p: Plan, w: World): World {
    Happen(p, Happen(p, Happen(p, w, Crash), Restart), Decide)
  }

  /** One uninterrupted recovery after a stop; its removal of the part may fail. */
  function Recover(p: Plan, w: World, ok: bool): World {
    Happen(p, Happen(p, Reboot(p, w), RecoveryRemoves(ok)), RecoverySaves)
  }

  /** Uninterrupted, the effects of recovery are the decision and the removal of `Recovery`. */
  lemma RecoverAgrees(p: Plan, w: World, ok: bool)
    requires w.record.Some?
    ensures var r := Recover(p, w, ok);
            && r.record == Some(Recovered(p.g, w.fs, Rec(w))) && r.proc == Idle
            && r.fs == if ok then RecoverFiles(p.g, w.fs, Rec(w)) else w.fs
  {
    var d := Reboot(p, w);
    assert d.fs == w.fs && d.record == w.record;
    assert d.proc == if Settled(Rec(w)) then Idle else if Commits(p.g, w.fs, Rec(w)) then Committing else Abandoning;
  }

  /**
   * A completed recovery leaves no part behind: over all runs, stopped with a record that is
   * not settled and names the part, the part is gone afterwards.
   */
  lemma RecoveryRemovesPart(p: Plan, fs: FS, effects: seq<Effect>)
    requires PlanOk(p) && FsOk(fs) && p.part !in fs.names
    requires var w := Run(p, Before(fs), effects); w.record.Some? && LeftBehind(p.g, Rec(w), p.part)
    ensures p.part !in Recover(p, Run(p, Before(fs), effects), true).fs.names
  {
    var w := Run(p, Before(fs), effects);
    RecoverAgrees(p, w, true);
    PartsAreGone(p.g, w.fs, map["" := Rec(w)], [""]);
    OneRecord(p.g, w.fs, Rec(w));
  }

  lemma OneRecord(g: Setting, fs: FS, r: Record)
    ensures RecoverAll(g, fs, map["" := r], [""]).0 == RecoverFiles(g, fs, r)
  {
    assert [""][..0] == [];
  }

  /** The effects of committing at one candidate, in order. */
  function Place(p: Plan, w: World, size: nat): World {
    Happen(p, Happen(p, Tried(p, w), CopySome(size)), RemovePart)
  }

  function Tried(p: Plan, w: World): World { Happen(p, Happen(p, Happen(p, w, TryLink), TryRename), OpenCopy) }

  /**
   * Uninterrupted, they leave the file system that the commit of `Commit` leaves, on every
   * volume and on all three branches.
   */
  lemma PlaceAgrees(p: Plan, w: World, k: nat)
    requires WorldOk(p, w) && w.proc == Receive(Attempting(k))
    requires Careful(p.v) ==> Candidate(p.t, k) !in w.fs.names
    ensures var c, r := Candidate(p.t, k), Place(p, w, p.size);
            && r.proc == Receive(Unlinked(c)) && r.linked == Some(c)
            && r.fs == Placed(p.v, w.fs, p.part, c)
  {
    var c := Candidate(p.t, k);
    var bytes := w.fs.blocks[w.fs.names[p.part]];
    assert bytes[..|bytes|] == bytes;
    TriedIs(p, w, k);
    if !p.v.canLink && !p.v.canRename { CopyAgrees(w.fs, p.part, c, Opened(w.fs, c)); }
  }

  lemma TriedIs(p: Plan, w: World, k: nat)
    requires WorldOk(p, w) && w.proc == Receive(Attempting(k))
    requires Careful(p.v) ==> Candidate(p.t, k) !in w.fs.names
    ensures var c := Candidate(p.t, k);
            Tried(p, w)
              == if p.v.canLink then w.(fs := Link(w.fs, p.part, c), proc := Receive(InPlace(c)), linked := Some(c))
                 else if p.v.canRename then
                   w.(fs := Rename(w.fs, p.part, c), proc := Receive(InPlace(c)), linked := Some(c))
                 else w.(fs := Opened(w.fs, c), proc := Receive(Copying(c)))
  {
  }

  lemma CopyAgrees(fs: FS, part: Path, c: Path, started: FS)
    requires FsOk(fs) && Private(fs, part) && part in fs.names && c != part && started == Opened(fs, c)
    ensures part in started.names && started.names[part] in started.blocks && c in started.names
    ensures started.blocks[started.names[part]] == fs.blocks[fs.names[part]]
    ensures started.(blocks := started.blocks[started.names[c] := fs.blocks[fs.names[part]]]) == CopyFile(fs, part, c)
  {
  }

  lemma PlacedIsDecided(p: Plan, w: World)
    requires WorldOk(p, w) && w.linked.Some?
    ensures Reboot(p, w) == w.(proc := if Committed(w) then Idle else Committing)
  {
    if !Committed(w) { PlacedIsVerified(p, w); }
  }

  lemma DecidedCommits(p: Plan, d: World, ok: bool)
    requires d.record.Some? && (d.proc == Committing || (d.proc == Idle && Committed(d)))
    ensures var r := Happen(p, Happen(p, d, RecoveryRemoves(ok)), RecoverySaves);
            Committed(r) && Rec(r).path == Rec(d).path && r.linked == d.linked
  {
  }

  lemma PlacedIsNamed(p: Plan, w: World)
    requires WorldOk(p, w) && w.linked.Some?
    ensures Holds(p, w.fs, w.linked.value)
    ensures w.record.Some? && Rec(w).path == w.linked
    ensures Rec(w).state != FAILED_CONFIRMED && Rec(w).state != CANCELED
  {
  }

  lemma PlacedRecovers(p: Plan, w: World, ok: bool)
    requires WorldOk(p, w) && w.linked.Some?
    ensures var r := Recover(p, w, ok);
            Committed(r) && Rec(r).path == w.linked && Holds(p, r.fs, w.linked.value)
  {
    PlacedIsNamed(p, w);
    PlacedIsDecided(p, w);
    DecidedCommits(p, Reboot(p, w), ok);
    RecoverKeeps(p, w, ok);
    PlacedIsNamed(p, Recover(p, w, ok));
  }

  lemma RecoverKeeps(p: Plan, w: World, ok: bool)
    requires WorldOk(p, w)
    ensures WorldOk(p, Recover(p, w, ok))
  {
    var w1 := Happen(p, w, Crash);
    HappenOk(p, w, Crash);
    HappenOk(p, w1, Restart);
    HappenOk(p, Happen(p, w1, Restart), Decide);
    HappenOk(p, Reboot(p, w), RecoveryRemoves(ok));
    HappenOk(p, Happen(p, Reboot(p, w), RecoveryRemoves(ok)), RecoverySaves);
  }

  /**
   * Completeness: once link or rename has succeeded the file is never given up. Whatever
   * happened since, the record still names it and never says failed, its bytes are intact,
   * and the next recovery that completes commits it.
   */
  lemma PlacedIsNeverLost(p: Plan, fs: FS, effects: seq<Effect>, ok: bool)
    requires PlanOk(p) && FsOk(fs) && p.part !in fs.names
    requires Run(p, Before(fs), effects).linked.Some?
    ensures var w := Run(p, Before(fs), effects);
            var r := Recover(p, w, ok);
            && Holds(p, w.fs, w.linked.value)
            && w.record.Some? && Rec(w).path == w.linked
            && Rec(w).state != FAILED_CONFIRMED && Rec(w).state != CANCELED
            && Committed(r) && Rec(r).path == w.linked && Holds(p, r.fs, w.linked.value)
  {
    var w := Run(p, Before(fs), effects);
    RunOk(p, Before(fs), effects);
    PlacedIsNamed(p, w);
    PlacedRecovers(p, w, ok);
  }

  /** The record says committed, no receive is left to change it, and the file is there. */
  ghost predicate Fixed(w: World, path: Path, b: Bytes) {
    && FsOk(w.fs) && Committed(w) && Rec(w).path == Some(path) && Content(w.fs, path) == Some(b)
    && (w.proc == Idle || w.proc == Down || w.proc == Deciding)
  }

  lemma FixedStays(p: Plan, w: World, e: Effect, path: Path, b: Bytes)
    requires Fixed(w, path, b)
    ensures Fixed(Happen(p, w, e), path, b)
  {
  }

  /** Once committed for good: no stop, recovery or resolve moves the record or the file. */
  lemma {:induction false} CommittedSurvives(p: Plan, w: World, effects: seq<Effect>, path: Path, b: Bytes)
    requires Fixed(w, path, b)
    ensures Fixed(Run(p, w, effects), path, b)
    decreases effects
  {
    if effects != [] {
      FixedStays(p, w, effects[0], path, b);
      CommittedSurvives(p, Happen(p, w, effects[0]), effects[1..], path, b);
    }
  }

  // ---- The copying branch ------------------------------------------------------------

  /** A careless volume never gets beyond the first candidate. */
  ghost predicate FirstOnly(p: Plan, w: World) {
    w.proc.Receive? && !Careful(p.v) ==>
      && (w.proc.stage.Checked? ==> w.proc.stage.next == 0)
      && (w.proc.stage.Attempting? || w.proc.stage.LinkRefused? || w.proc.stage.RenameRefused? ==>
            w.proc.stage.index == 0)
      && (w.proc.stage.Copying? || w.proc.stage.InPlace? ==> w.proc.stage.c == Candidate(p.t, 0))
  }

  /** What the branches know; the copying one is taken where neither link nor rename works. */
  ghost predicate BranchOk(p: Plan, w: World) {
    && FirstOnly(p, w)
    && (w.record.None? || w.proc == Receive(Preparing) ==> p.part !in w.fs.names)
    && (w.proc.Receive? && !w.proc.stage.Failing? && w.record.Some? ==>
          && Rec(w).partPath == Some(p.part)
          && (w.proc.stage.Copying? ==> !p.v.canLink && !p.v.canRename)
          && (w.proc.stage.InPlace? ==> (w.linked.Some? <==> p.v.canLink || p.v.canRename)))
  }

  lemma BranchKept(p: Plan, w: World, e: Effect)
    requires WorldOk(p, w) && BranchOk(p, w)
    ensures BranchOk(p, Happen(p, w, e))
  {
    if Attempts(e) { BranchAttempted(p, w, e); }
  }

  lemma BranchAttempted(p: Plan, w: World, e: Effect)
    requires WorldOk(p, w) && BranchOk(p, w) && Attempts(e)
    ensures BranchOk(p, Happen(p, w, e))
  {
  }

  lemma {:induction false} RunBranch(p: Plan, w: World, effects: seq<Effect>)
    requires WorldOk(p, w) && BranchOk(p, w)
    ensures BranchOk(p, Run(p, w, effects))
    decreases effects
  {
    if effects != [] {
      HappenOk(p, w, effects[0]);
      BranchKept(p, w, effects[0]);
      RunBranch(p, Happen(p, w, effects[0]), effects[1..]);
    }
  }

  /**
   * With the file complete under its name but the part not yet removed, a stop is recognised
   * afterwards if and only if the volume can link or rename; a complete copy beside its part
   * is given up.
   */
  lemma InPlaceRecoversIff(p: Plan, fs: FS, effects: seq<Effect>, c: Path, ok: bool)
    requires PlanOk(p) && FsOk(fs) && p.part !in fs.names
    requires Run(p, Before(fs), effects).proc == Receive(InPlace(c))
    ensures var w := Run(p, Before(fs), effects);
            && Holds(p, w.fs, c) && w.record.Some?
            && (Commits(p.g, w.fs, Rec(w)) <==> p.v.canLink || p.v.canRename)
            && Recover(p, w, ok).record.Some?
            && Rec(Recover(p, w, ok)).state
                 == if p.v.canLink || p.v.canRename then DATA_COMMITTED else FAILED_CONFIRMED
  {
    var w := Run(p, Before(fs), effects);
    RunOk(p, Before(fs), effects);
    RunBranch(p, Before(fs), effects);
    InPlaceIs(p, w, c);
    RecoverAgrees(p, w, ok);
  }

  lemma InPlaceIs(p: Plan, w: World, c: Path)
    requires WorldOk(p, w) && BranchOk(p, w) && w.proc == Receive(InPlace(c))
    ensures Holds(p, w.fs, c) && w.record.Some? && Rec(w).state == COMMITTING
    ensures Commits(p.g, w.fs, Rec(w)) <==> p.v.canLink || p.v.canRename
  {
  }

  /** A receive of `b` up to its first attempt. */
  function Incoming(b: Bytes): seq<Effect> { [Begin, CreatePart, Append(b), Check, SaveCommitting] }

  function WithPart(fs: FS, part: Path, b: Bytes): FS {
    FS(fs.names[part := fs.next], fs.blocks[fs.next := b], fs.next + 1)
  }

  function AtFirstAttempt(p: Plan, fs: FS, b: Bytes): World {
    World(WithPart(fs, p.part, b), Some(Record(COMMITTING, Some(Candidate(p.t, 0)), Some(p.part), p.size, p.sha256)),
          Receive(Attempting(0)), None)
  }

  lemma ReachesAttempt(p: Plan, fs: FS, b: Bytes, rest: seq<Effect>)
    requires FsOk(fs) && p.part !in fs.names && Good(p, b)
    ensures Run(p, Before(fs), Incoming(b) + rest) == Run(p, AtFirstAttempt(p, fs, b), rest)
  {
    var all := Incoming(b) + rest;
    var w1 := Happen(p, Before(fs), Begin);
    var w2 := Happen(p, w1, CreatePart);
    var w3 := Happen(p, w2, Append(b));
    assert [] + b == b;
    assert w3.fs.blocks == fs.blocks[fs.next := b];
    assert w3 == World(WithPart(fs, p.part, b), w1.record, Receive(Writing), None);
    var w4 := Happen(p, w3, Check);
    var w5 := Happen(p, w4, SaveCommitting);
    assert w5 == AtFirstAttempt(p, fs, b);
    RunFirst(p, Before(fs), all);
    RunFirst(p, w1, all[1..]);
    RunFirst(p, w2, all[2..]);
    RunFirst(p, w3, all[3..]);
    RunFirst(p, w4, all[4..]);
    assert all[5..] == rest;
  }

  lemma RunFirst(p: Plan, w: World, effects: seq<Effect>)
    requires effects != []
    ensures Run(p, w, effects) == Run(p, Happen(p, w, effects[0]), effects[1..])
  {
  }

  lemma RunFour(p: Plan, w: World, a: Effect, b: Effect, c: Effect, d: Effect)
    ensures Run(p, w, [a, b, c, d]) == Happen(p, Happen(p, Happen(p, Happen(p, w, a), b), c), d)
  {
    var all := [a, b, c, d];
    RunFirst(p, w, all);
    RunFirst(p, Happen(p, w, a), all[1..]);
    RunFirst(p, Happen(p, Happen(p, w, a), b), all[2..]);
    RunFirst(p, Happen(p, Happen(p, Happen(p, w, a), b), c), all[3..]);
    assert all[4..] == [];
  }

  /** The first attempt and a complete copy: the file is under its first name. */
  lemma FirstAttemptPlaces(p: Plan, fs: FS, b: Bytes)
    requires PlanOk(p) && FsOk(fs) && p.part !in fs.names && Good(p, b)
    requires Careful(p.v) ==> Candidate(p.t, 0) !in fs.names
    ensures var c := Candidate(p.t, 0);
            var w := Run(p, AtFirstAttempt(p, fs, b), [TryLink, TryRename, OpenCopy, CopySome(|b|)]);
            && w.proc == Receive(InPlace(c)) && Content(w.fs, c) == Some(b)
            && (!p.v.canLink && !p.v.canRename ==>
                  forall q <- fs.names :: c in fs.names && fs.names[q] == fs.names[c] ==> Content(w.fs, q) == Some(b))
  {
    RunFour(p, AtFirstAttempt(p, fs, b), TryLink, TryRename, OpenCopy, CopySome(|b|));
    assert b[..|b|] == b;
  }

  /**
   * The failing case happens on every volume without link and rename: a stop between the
   * finished copy and the removal of its part makes recovery report a failure although the
   * file is complete.
   */
  lemma FinishedCopyIsGivenUp(p: Plan, fs: FS, b: Bytes, ok: bool)
    requires PlanOk(p) && FsOk(fs) && p.part !in fs.names && Good(p, b) && Candidate(p.t, 0) !in fs.names
    requires !p.v.canLink && !p.v.canRename
    ensures var w := Run(p, Before(fs), Incoming(b) + [TryLink, TryRename, OpenCopy, CopySome(|b|)]);
            var r := Recover(p, w, ok);
            && r.record.Some? && Rec(r).state == FAILED_CONFIRMED && Rec(r).path == None
            && Content(r.fs, Candidate(p.t, 0)) == Some(b)
  {
    var effects := Incoming(b) + [TryLink, TryRename, OpenCopy, CopySome(|b|)];
    var w := Run(p, Before(fs), effects);
    ReachesAttempt(p, fs, b, [TryLink, TryRename, OpenCopy, CopySome(|b|)]);
    FirstAttemptPlaces(p, fs, b);
    InPlaceRecoversIff(p, fs, effects, Candidate(p.t, 0), ok);
    RecoverAgrees(p, w, ok);
    RunOk(p, Before(fs), effects);
    PartRemovalKeeps(p, w, Candidate(p.t, 0));
  }

  lemma PartRemovalKeeps(p: Plan, w: World, c: Path)
    requires WorldOk(p, w) && w.record.Some? && c != p.part
    ensures Content(RecoverFiles(p.g, w.fs, Rec(w)), c) == Content(w.fs, c)
  {
  }

  // ---- Receives that commit, receives that fail --------------------------------------

  lemma RunPair(p: Plan, w: World, a: Effect, b: Effect, rest: seq<Effect>)
    ensures Run(p, w, [a, b] + rest) == Run(p, Happen(p, Happen(p, w, a), b), rest)
  {
    var all := [a, b] + rest;
    RunFirst(p, w, all);
    RunFirst(p, Happen(p, w, a), all[1..]);
    assert all[2..] == rest;
  }

  /** A taken name that is reported sends the receive to the next candidate, recorded first. */
  lemma TakenMovesOn(p: Plan, w: World, k: nat)
    requires w.proc == Receive(Attempting(k)) && w.record.Some? && p.part in w.fs.names
    requires Careful(p.v) && Candidate(p.t, k) in w.fs.names
    ensures Happen(p, Happen(p, w, TryLink), SaveCommitting)
         == w.(record := Some(Rec(w).(state := COMMITTING, path := Some(Candidate(p.t, k + 1)))),
               proc := Receive(Attempting(k + 1)))
  {
  }

  lemma PlaceKeepsRecord(p: Plan, w: World)
    ensures Place(p, w, p.size).record == w.record
  {
  }

  /** Placed and its part gone, the file is recorded as committed under its name. */
  lemma UnlinkedIsSaved(p: Plan, w: World, c: Path)
    requires w.proc == Receive(Unlinked(c)) && w.record.Some?
    ensures Happen(p, w, SaveCommitted)
         == w.(record := Some(Rec(w).(state := DATA_COMMITTED, path := Some(c), partPath := None)), proc := Idle)
  {
  }

  function Finale(size: nat): seq<Effect> { [TryLink, TryRename, OpenCopy, CopySome(size), RemovePart, SaveCommitted] }

  lemma RunFinale(p: Plan, w: World)
    ensures Run(p, w, Finale(p.size)) == Happen(p, Place(p, w, p.size), SaveCommitted)
  {
    var w2 := Happen(p, Happen(p, w, TryLink), TryRename);
    assert Finale(p.size) == [TryLink, TryRename] + [OpenCopy, CopySome(p.size), RemovePart, SaveCommitted];
    RunPair(p, w, TryLink, TryRename, [OpenCopy, CopySome(p.size), RemovePart, SaveCommitted]);
    RunFour(p, w2, OpenCopy, CopySome(p.size), RemovePart, SaveCommitted);
  }

  /** The candidate at which an undisturbed receive ends, of those from `j` on. */
  ghost predicate FirstFree(p: Plan, fs: FS, j: nat, k: nat) {
    && j <= k
    && if Careful(p.v) then
         Candidate(p.t, k) !in fs.names && (forall i: nat | j <= i < k :: Candidate(p.t, i) in fs.names)
       else k == j
  }

  lemma {:induction false} AttemptsCommit(p: Plan, w: World, j: nat, k: nat) returns (effects: seq<Effect>)
    requires WorldOk(p, w) && w.proc == Receive(Attempting(j)) && w.record.Some? && FirstFree(p, w.fs, j, k)
    ensures p.part in w.fs.names && w.fs.names[p.part] in w.fs.blocks
    ensures Run(p, w, effects)
         == World(Placed(p.v, w.fs, p.part, Candidate(p.t, k)),
                  Some(Rec(w).(state := DATA_COMMITTED, path := Some(Candidate(p.t, k)), partPath := None)),
                  Idle, Some(Candidate(p.t, k)))
    decreases k - j
  {
    if j < k {
      TakenMovesOn(p, w, j);
      var next := Happen(p, Happen(p, w, TryLink), SaveCommitting);
      HappenOk(p, w, TryLink);
      HappenOk(p, Happen(p, w, TryLink), SaveCommitting);
      var rest := AttemptsCommit(p, next, j + 1, k);
      effects := [TryLink, SaveCommitting] + rest;
      RunPair(p, w, TryLink, SaveCommitting, rest);
    } else {
      effects := Finale(p.size);
      PlaceAgrees(p, w, k);
      PlaceKeepsRecord(p, w);
      UnlinkedIsSaved(p, Place(p, w, p.size), Candidate(p.t, k));
      RunFinale(p, w);
    }
  }

  /**
   * Every receive can commit: on every volume, with the part's name unused, content of the
   * offered size and hash ends under the first free candidate (on a volume that does not
   * report taken names, the first one), recorded as committed there, with its part gone.
   */
  lemma EveryReceiveCanCommit(p: Plan, fs: FS, b: Bytes, k: nat) returns (effects: seq<Effect>)
    requires PlanOk(p) && FsOk(fs) && p.part !in fs.names && Good(p, b) && FirstFree(p, fs, 0, k)
    ensures var w := Run(p, Before(fs), effects);
            && w.proc == Idle && Content(w.fs, Candidate(p.t, k)) == Some(b) && p.part !in w.fs.names
            && w.record == Some(Record(DATA_COMMITTED, Some(Candidate(p.t, k)), None, p.size, p.sha256))
  {
    ReachesAttempt(p, fs, b, []);
    RunOk(p, Before(fs), Incoming(b) + []);
    var w := AtFirstAttempt(p, fs, b);
    assert forall i: nat :: Candidate(p.t, i) in w.fs.names <==> Candidate(p.t, i) in fs.names;
    var rest := AttemptsCommit(p, w, 0, k);
    ReachesAttempt(p, fs, b, rest);
    effects := Incoming(b) + rest;
    PlacedHolds(p.v, w.fs, p.part, Candidate(p.t, k));
  }

  lemma PlacedHolds(v: Volume, fs: FS, part: Path, c: Path)
    requires FsOk(fs) && part in fs.names && c != part
    ensures Content(Placed(v, fs, part, c), c) == Content(fs, part) && part !in Placed(v, fs, part, c).names
  {
  }

  /**
   * A receive may fail at any moment until its file may be in place: its record then says
   * failed or canceled and names no file, if that save works, and the part is removed.
   */
  lemma FailureDecides(p: Plan, w: World, state: State, persisted: bool)
    requires w.proc.Receive? && w.record.Some? && state in {FAILED_CONFIRMED, CANCELED}
    requires !w.proc.stage.InPlace? && !w.proc.stage.Unlinked? && !w.proc.stage.Failing?
    ensures var w' := Happen(p, Happen(p, w, SaveFailed(state, persisted)), RemoveFailedPart);
            && w'.proc == Idle && w'.linked == w.linked && w'.fs == w.fs.(names := w.fs.names - {p.part})
            && (if persisted then Rec(w').state == state && Rec(w').path == None && Rec(w').partPath == None
                else w'.record == w.record)
  {
  }

  predicate Receives(e: Effect) {
    || e.SaveProgress? || e.CreatePart? || e.Append? || e.Check? || e.SaveCommitting? || e.TryLink? || e.TryRename?
    || e.OpenCopy? || e.CopySome? || e.RemovePart? || e.SaveCommitted? || e.SaveFailed? || e.RemoveFailedPart?
    || e.SaveAmbiguous?
  }

  predicate MayBePlaced(w: World)
    requires w.proc.Receive?
  {
    w.proc.stage.InPlace? || w.proc.stage.Unlinked?
  }

  /**
   * Nothing happens out of turn: no receive runs on after a stop, recovery only after one; a
   * part is never taken over; and a failure is ambiguous exactly if the file may be in place.
   */
  lemma OutOfTurn(p: Plan, w: World, e: Effect)
    requires || (Receives(e) && !w.proc.Receive?)
             || (e.Begin? && (w.proc != Idle || w.record.Some?))
             || (e.CreatePart? && p.part in w.fs.names)
             || (e.SaveFailed? && w.proc.Receive? && (MayBePlaced(w) || w.proc.stage.Failing?))
             || (e.SaveAmbiguous? && w.proc.Receive? && !MayBePlaced(w))
             || (e.Restart? && w.proc != Down)
             || (e.Decide? && w.proc != Deciding)
             || ((e.RecoveryRemoves? || e.RecoverySaves?) && w.proc != Committing && w.proc != Abandoning)
    ensures Happen(p, w, e) == w
  {
  }

  /** A copy over a name first empties what stands there, then holds the first bytes of the part. */
  lemma CopyGrows(p: Plan, w: World, k: nat, n: nat)
    requires WorldOk(p, w) && w.proc == Receive(RenameRefused(k)) && n <= p.size
    ensures p.part in w.fs.names && w.fs.names[p.part] in w.fs.blocks
    ensures var c, w' := Candidate(p.t, k), Happen(p, w, OpenCopy);
            && Content(w'.fs, c) == Some([]) && Content(w'.fs, p.part) == Content(w.fs, p.part)
            && Content(Happen(p, w', CopySome(n)).fs, c) == Some(w.fs.blocks[w.fs.names[p.part]][..n])
  {
  }

  // ---- Other people's files ----------------------------------------------------------

  /**
   * A fallback at candidate `c` does not reach the file: rename replaces the name, a copy
   * overwrites every name of the same inode.
   */
  predicate OutOfReach(p: Plan, fs: FS, c: Path, path: Path) {
    if p.v.canRename then path != c else c in fs.names && path in fs.names ==> fs.names[c] != fs.names[path]
  }

  /** The volume reports taken names, or the first fallback would not reach the file. */
  predicate Spared(p: Plan, fs: FS, path: Path) { Careful(p.v) || OutOfReach(p, fs, Candidate(p.t, 0), path) }

  /** No attempt has been refused yet, and one may still come. */
  predicate ToCome(w: World) {
    w.record.None? || (w.proc.Receive? && (w.proc.stage.Preparing? || w.proc.stage.Writing? || w.proc.stage.Checked?
                                           || w.proc.stage.Attempting?))
  }

  /** A link was refused, and its fallback has not happened yet. */
  predicate Falling(w: World) { w.proc.Receive? && (w.proc.stage.LinkRefused? || w.proc.stage.RenameRefused?) }

  /** A file of someone else, unrelated to the transfer and out of the commit's reach. */
  ghost predicate Foreign(p: Plan, w: World, path: Path, b: Bytes) {
    && path != p.part && path in w.fs.names && Content(w.fs, path) == Some(b) && w.linked != Some(path)
    && (w.linked.None? && p.part in w.fs.names ==> w.fs.names[p.part] != w.fs.names[path])
    && (w.proc.Receive? ==>
          w.proc.stage != Copying(path) && w.proc.stage != InPlace(path) && w.proc.stage != Unlinked(path)
          && (w.proc.stage.Copying? && w.proc.stage.c in w.fs.names ==>
                w.fs.names[w.proc.stage.c] != w.fs.names[path]))
    && FirstOnly(p, w) && (ToCome(w) ==> Spared(p, w.fs, path))
    && (Falling(w) ==> OutOfReach(p, w.fs, Candidate(p.t, w.proc.stage.index), path))
  }

  predicate Attempts(e: Effect) { e.TryLink? || e.TryRename? || e.OpenCopy? || e.CopySome? }

  lemma ForeignKept(p: Plan, w: World, e: Effect, path: Path, b: Bytes)
    requires WorldOk(p, w) && Foreign(p, w, path, b) && (e.Elsewhere? ==> e.p != path)
    ensures Foreign(p, Happen(p, w, e), path, b)
  {
    if Attempts(e) {
      ForeignKeptCommitting(p, w, e, path, b);
    } else if e.Elsewhere? {
      ForeignKeptElsewhere(p, w, e, path, b);
    } else {
      ForeignKeptOtherwise(p, w, e, path, b);
    }
  }

  lemma ForeignKeptCommitting(p: Plan, w: World, e: Effect, path: Path, b: Bytes)
    requires WorldOk(p, w) && Foreign(p, w, path, b) && Attempts(e)
    ensures Foreign(p, Happen(p, w, e), path, b)
  {
    if e.TryLink? && w.proc.Receive? && w.proc.stage.Attempting? { ForeignKeptLinking(p, w, path, b); }
  }

  lemma ForeignKeptLinking(p: Plan, w: World, path: Path, b: Bytes)
    requires WorldOk(p, w) && Foreign(p, w, path, b) && w.proc.Receive? && w.proc.stage.Attempting?
    ensures Foreign(p, LinkTried(p, w, w.proc.stage.index), path, b)
  {
  }

  lemma ForeignKeptElsewhere(p: Plan, w: World, e: Effect, path: Path, b: Bytes)
    requires WorldOk(p, w) && Foreign(p, w, path, b) && e.Elsewhere? && e.p != path
    ensures Foreign(p, Happen(p, w, e), path, b)
  {
  }

  lemma ForeignKeptOtherwise(p: Plan, w: World, e: Effect, path: Path, b: Bytes)
    requires WorldOk(p, w) && Foreign(p, w, path, b) && !Attempts(e) && !e.Elsewhere?
    ensures Foreign(p, Happen(p, w, e), path, b)
  {
  }

  /** Nobody else writes or removes the file. */
  ghost predicate LeftAlone(effects: seq<Effect>, path: Path) {
    forall e <- effects :: e.Elsewhere? ==> e.p != path
  }

  /**
   * Frame: a file of someone else, left alone by other programs and out of the commit's
   * reach, is never changed or deleted by receiving, committing, failing or recovering.
   */
  lemma {:induction false} ForeignFilesSurvive(p: Plan, w: World, effects: seq<Effect>, path: Path, b: Bytes)
    requires WorldOk(p, w) && Foreign(p, w, path, b) && LeftAlone(effects, path)
    ensures Content(Run(p, w, effects).fs, path) == Some(b)
    decreases effects
  {
    if effects != [] {
      assert effects[0] in effects;
      forall e <- effects[1..] ensures e.Elsewhere? ==> e.p != path { assert e in effects; }
      HappenOk(p, w, effects[0]);
      ForeignKept(p, w, effects[0], path, b);
      ForeignFilesSurvive(p, Happen(p, w, effects[0]), effects[1..], path, b);
    }
  }

  /** A file that was there before survives every run in which other programs leave it alone. */
  ghost predicate AlwaysSurvives(p: Plan, fs: FS, path: Path) {
    forall effects: seq<Effect> | LeftAlone(effects, path) ::
      Content(Run(p, Before(fs), effects).fs, path) == Content(fs, path)
  }

  lemma PriorFilesSurvive(p: Plan, fs: FS, effects: seq<Effect>, path: Path)
    requires PlanOk(p) && FsOk(fs) && p.part !in fs.names && path in fs.names && Spared(p, fs, path)
    requires LeftAlone(effects, path)
    ensures Content(Run(p, Before(fs), effects).fs, path) == Content(fs, path)
  {
    ForeignFilesSurvive(p, Before(fs), effects, path, Content(fs, path).value);
  }

  /**
   * Exactly which prior files are safe, whatever bytes are offered: if the offer differs
   * from the file, the file survives all runs if and only if it is out of the commit's
   * reach, which can be told beforehand from the volume and the names.
   */
  lemma PriorFileSurvivesIff(p: Plan, fs: FS, path: Path, b: Bytes)
    requires PlanOk(p) && FsOk(fs) && p.part !in fs.names && path in fs.names
    requires Good(p, b) && Content(fs, path) != Some(b)
    ensures AlwaysSurvives(p, fs, path) <==> Spared(p, fs, path)
  {
    if Spared(p, fs, path) {
      forall effects: seq<Effect> | LeftAlone(effects, path)
        ensures Content(Run(p, Before(fs), effects).fs, path) == Content(fs, path)
      {
        PriorFilesSurvive(p, fs, effects, path);
      }
    } else {
      var effects := Incoming(b) + [TryLink, TryRename, OpenCopy, CopySome(|b|)];
      ReachesAttempt(p, fs, b, [TryLink, TryRename, OpenCopy, CopySome(|b|)]);
      FirstAttemptPlaces(p, fs, b);
      assert LeftAlone(effects, path);
      assert Content(Run(p, Before(fs), effects).fs, path) == Some(b);
    }
  }

  // ---- Files that appear during the receive ------------------------------------------

  /** Another program creates a file. */
  function Created(p: Plan, w: World, path: Path, b: Bytes): World { Happen(p, w, Elsewhere(path, Some(b))) }

  ghost predicate SurvivesFrom(p: Plan, w: World, path: Path, b: Bytes) {
    forall effects: seq<Effect> | LeftAlone(effects, path) :: Content(Run(p, w, effects).fs, path) == Some(b)
  }

  /**
   * A file created now under this name will be replaced or overwritten: its link was just
   * refused, or the volume is careless and the first attempt is still to come.
   */
  predicate Exposed(p: Plan, w: World, path: Path) {
    || (Falling(w) && path == Candidate(p.t, w.proc.stage.index))
    || (ToCome(w) && !Careful(p.v) && path == Candidate(p.t, 0))
  }

  /** The content under way, if `rest` is what is still to arrive. */
  function UnderWay(p: Plan, w: World, rest: Bytes): Bytes {
    if w.proc.Receive? && !w.proc.stage.Preparing? && Content(w.fs, p.part).Some? then
      Content(w.fs, p.part).value + (if w.proc.stage.Writing? then rest else [])
    else rest
  }

  /** It will pass the checks, and is not what the other program has written. */
  predicate Delivers(p: Plan, w: World, rest: Bytes, b: Bytes) {
    Good(p, UnderWay(p, w, rest)) && UnderWay(p, w, rest) != b
  }

  /** The next effect on the way to the fallback. */
  function Onward(w: World, rest: Bytes): Effect {
    match w.proc
    case Idle => Begin
    case Down => Restart
    case Receive(Preparing) => CreatePart
    case Receive(Writing) => if rest != [] then Append(rest) else Check
    case Receive(Checked(_)) => SaveCommitting
    case Receive(Attempting(_)) => TryLink
    case Receive(LinkRefused(_)) => TryRename
    case _ => Decide
  }

  function Distance(w: World, rest: Bytes): nat {
    match w.proc
    case Down => 8
    case Deciding => 7
    case Idle => 6
    case Receive(Preparing) => 5
    case Receive(Writing) => if rest != [] then 4 else 3
    case Receive(Checked(_)) => 2
    case Receive(Attempting(_)) => 1
    case _ => 0
  }

  lemma OnwardStep(p: Plan, w: World, path: Path, b: Bytes, rest: Bytes)
    requires WorldOk(p, w) && BranchOk(p, w) && Exposed(p, w, path) && Delivers(p, w, rest, b) && ToCome(w)
    ensures var e := Onward(w, rest);
            var w1, rest1 := Happen(p, w, e), if e.Append? then [] else rest;
            && !e.Elsewhere? && Exposed(p, w1, path) && Delivers(p, w1, rest1, b)
            && (ToCome(w1) ==> Distance(w1, rest1) < Distance(w, rest))
  {
    if w.proc == Receive(Writing) {
      var sofar := Content(w.fs, p.part).value;
      assert sofar + rest + [] == sofar + rest;
      assert rest == [] ==> sofar + rest == sofar;
    }
    if w.proc == Receive(Preparing) { assert [] + rest == rest; }
  }

  /** The fallback itself, by rename or by copy. */
  lemma FallbackClobbers(p: Plan, w: World, path: Path, b: Bytes, rest: Bytes) returns (effects: seq<Effect>)
    requires WorldOk(p, w) && Falling(w) && Exposed(p, w, path) && Delivers(p, w, rest, b)
    ensures LeftAlone(effects, path) && Content(Run(p, w, effects).fs, path) != Some(b)
  {
    var g := Content(w.fs, p.part).value;
    assert g + [] == g;
    effects := [TryRename, OpenCopy, CopySome(|g|)];
    FallbackReplaces(p, w, g);
  }

  /** Whatever stands under the name by now, the part's bytes stand there afterwards. */
  lemma FallbackReplaces(p: Plan, w: World, g: Bytes)
    requires WorldOk(p, w) && Falling(w) && Content(w.fs, p.part) == Some(g)
    ensures Content(Run(p, w, [TryRename, OpenCopy, CopySome(|g|)]).fs, Candidate(p.t, w.proc.stage.index)) == Some(g)
  {
    RunThree(p, w, TryRename, OpenCopy, CopySome(|g|));
    if w.proc.stage.LinkRefused? && p.v.canRename {
      RenameReplaces(p, w, g);
    } else {
      OpenCopyReplaces(p, Happen(p, w, TryRename), g);
    }
  }

  lemma RenameReplaces(p: Plan, w: World, g: Bytes)
    requires WorldOk(p, w) && Falling(w) && w.proc.stage.LinkRefused? && p.v.canRename
    requires Content(w.fs, p.part) == Some(g)
    ensures var w1 := Happen(p, w, TryRename);
            && Content(w1.fs, Candidate(p.t, w.proc.stage.index)) == Some(g)
            && Happen(p, Happen(p, w1, OpenCopy), CopySome(|g|)) == w1
  {
  }

  lemma OpenCopyReplaces(p: Plan, w: World, g: Bytes)
    requires WorldOk(p, w) && w.proc.Receive? && w.proc.stage.RenameRefused? && Content(w.fs, p.part) == Some(g)
    ensures Content(Happen(p, Happen(p, w, OpenCopy), CopySome(|g|)).fs, Candidate(p.t, w.proc.stage.index)) == Some(g)
  {
    assert g[..|g|] == g;
  }

  lemma RunThree(p: Plan, w: World, a: Effect, b: Effect, c: Effect)
    ensures Run(p, w, [a, b, c]) == Happen(p, Happen(p, Happen(p, w, a), b), c)
  {
    RunFirst(p, w, [a, b, c]);
    RunFirst(p, Happen(p, w, a), [a, b, c][1..]);
    RunFirst(p, Happen(p, Happen(p, w, a), b), [a, b, c][2..]);
    assert [a, b, c][3..] == [];
  }

  lemma {:induction false} ExposedIsLost(p: Plan, w: World, path: Path, b: Bytes, rest: Bytes)
    returns (effects: seq<Effect>)
    requires WorldOk(p, w) && BranchOk(p, w) && Exposed(p, w, path) && Delivers(p, w, rest, b)
    ensures LeftAlone(effects, path) && Content(Run(p, w, effects).fs, path) != Some(b)
    decreases ToCome(w), Distance(w, rest)
  {
    if Falling(w) {
      effects := FallbackClobbers(p, w, path, b, rest);
    } else {
      var e := Onward(w, rest);
      OnwardStep(p, w, path, b, rest);
      HappenOk(p, w, e);
      BranchKept(p, w, e);
      effects := ExposedIsLost(p, Happen(p, w, e), path, b, if e.Append? then [] else rest);
      RunFirst(p, w, [e] + effects);
      effects := [e] + effects;
    }
  }

  lemma CreatedIsForeign(p: Plan, w: World, path: Path, b: Bytes)
    requires WorldOk(p, w) && BranchOk(p, w) && !Ours(p, w, path) && !Exposed(p, w, path)
    ensures Foreign(p, Created(p, w, path, b), path, b)
  {
  }

  /**
   * Over all runs: a file that another program creates at any moment of the receive survives
   * every continuation if and only if it is not exposed then. On a volume with hard links no
   * file ever is; on one that reports taken names only the one name is whose link was just
   * refused, until the fallback has happened.
   */
  lemma LateFileSurvivesIff(p: Plan, fs: FS, before: seq<Effect>, path: Path, b: Bytes, rest: Bytes)
    requires PlanOk(p) && FsOk(fs) && p.part !in fs.names
    requires var w := Run(p, Before(fs), before);
             !Ours(p, w, path) && (Exposed(p, w, path) ==> Delivers(p, w, rest, b))
    ensures var w := Run(p, Before(fs), before);
            && (SurvivesFrom(p, Created(p, w, path, b), path, b) <==> !Exposed(p, w, path))
            && (p.v.canLink ==> !Exposed(p, w, path))
  {
    var w := Run(p, Before(fs), before);
    RunOk(p, Before(fs), before);
    RunBranch(p, Before(fs), before);
    HappenOk(p, w, Elsewhere(path, Some(b)));
    BranchKept(p, w, Elsewhere(path, Some(b)));
    if Exposed(p, w, path) {
      StillExposed(p, w, path, b, rest);
      var effects := ExposedIsLost(p, Created(p, w, path, b), path, b, rest);
    } else {
      CreatedIsForeign(p, w, path, b);
      ForeignSurvivesFrom(p, Created(p, w, path, b), path, b);
    }
    if p.v.canLink { LinkExposesNothing(p, w, path); }
  }

  lemma StillExposed(p: Plan, w: World, path: Path, b: Bytes, rest: Bytes)
    requires WorldOk(p, w) && !Ours(p, w, path) && Exposed(p, w, path) && Delivers(p, w, rest, b)
    ensures Exposed(p, Created(p, w, path, b), path) && Delivers(p, Created(p, w, path, b), rest, b)
  {
  }

  lemma LinkExposesNothing(p: Plan, w: World, path: Path)
    requires WorldOk(p, w) && p.v.canLink
    ensures !Exposed(p, w, path)
  {
  }

  lemma ForeignSurvivesFrom(p: Plan, w: World, path: Path, b: Bytes)
    requires WorldOk(p, w) && Foreign(p, w, path, b)
    ensures SurvivesFrom(p, w, path, b)
  {
    forall effects: seq<Effect> | LeftAlone(effects, path) ensures Content(Run(p, w, effects).fs, path) == Some(b) {
      ForeignFilesSurvive(p, w, effects, path, b);
    }
  }

  /**
   * The failing run, on every volume without hard links, careful ones included: another
   * program takes the free name between the refused link and the fallback.
   */
  lemma LateFileIsLost(p: Plan, fs: FS, b: Bytes, mine: Bytes)
    requires PlanOk(p) && FsOk(fs) && p.part !in fs.names && Good(p, b) && mine != b
    requires !p.v.canLink && Candidate(p.t, 0) !in fs.names
    ensures var c := Candidate(p.t, 0);
            var w := Created(p, Run(p, Before(fs), Incoming(b) + [TryLink]), c, mine);
            && Content(w.fs, c) == Some(mine)
            && Content(Run(p, w, [TryRename, OpenCopy, CopySome(|b|)]).fs, c) == Some(b)
  {
    var w0 := AtFirstAttempt(p, fs, b);
    ReachesAttempt(p, fs, b, [TryLink]);
    assert [TryLink][1..] == [];
    RunFirst(p, w0, [TryLink]);
    RunOk(p, Before(fs), Incoming(b) + [TryLink]);
    var w := Happen(p, w0, TryLink);
    HappenOk(p, w, Elsewhere(Candidate(p.t, 0), Some(mine)));
    FirstRefused(p, w0, b, mine);
    FallbackReplaces(p, Created(p, w, Candidate(p.t, 0), mine), b);
  }

  lemma FirstRefused(p: Plan, w0: World, b: Bytes, mine: Bytes)
    requires PlanOk(p) && !p.v.canLink && w0.proc == Receive(Attempting(0)) && w0.linked.None?
    requires w0.record.Some? && Rec(w0).state == COMMITTING
    requires FsOk(w0.fs) && Content(w0.fs, p.part) == Some(b) && Candidate(p.t, 0) !in w0.fs.names
    ensures var w := Created(p, Happen(p, w0, TryLink), Candidate(p.t, 0), mine);
            && w.proc == Receive(LinkRefused(0))
            && Content(w.fs, p.part) == Some(b) && Content(w.fs, Candidate(p.t, 0)) == Some(mine)
  {
  }
}
