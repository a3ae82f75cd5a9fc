/**
 * Restart recovery: what `recoverInterrupted` decides from a durable record and the
 * directory alone, for one record and for all of them in whatever order they are listed.
 */
module Recovery {
  import opened Prelude
  import opened Commit
  import opened TransferStates

  /** The durable record, as far as recovery reads or writes it. */
  datatype Record = Record(state: State, path: Option<Path>, partPath: Option<Path>, size: nat, sha256: string)

  /** The receive directory's extent and the hash. */
  datatype Setting = Setting(within: Path -> bool, sha: Bytes -> string)

  predicate Settled(r: Record) {
    r.state == DATA_COMMITTED || r.state == COMPLETED || r.state == FAILED_CONFIRMED || r.state == CANCELED
  }

  /** The bytes have the recorded size and hash. */
  predicate Matches(g: Setting, r: Record, b: Bytes) { |b| == r.size && g.sha(b) == r.sha256 }

  /** verifyOwnedCommittedFile: a part that still exists must be the same inode. */
  predicate Verified(g: Setting, fs: FS, r: Record) {
    && r.path.Some? && g.within(r.path.value)
    && Content(fs, r.path.value).Some? && Matches(g, r, Content(fs, r.path.value).value)
    && (r.partPath.Some? && g.within(r.partPath.value) && r.partPath.value in fs.names ==>
          fs.names[r.partPath.value] == fs.names[r.path.value])
  }

  function RemoveOwned(g: Setting, fs: FS, p: Option<Path>): FS {
    if p.Some? && g.within(p.value) then Remove(fs, p.value) else fs
  }

  predicate Commits(g: Setting, fs: FS, r: Record) { r.state == COMMITTING && Verified(g, fs, r) }

  /** One interrupted record: the record it becomes. */
  function Recovered(g: Setting, fs: FS, r: Record): Record {
    if Settled(r) then r
    else if Commits(g, fs, r) then r.(state := DATA_COMMITTED, partPath := None)
    else r.(state := FAILED_CONFIRMED, partPath := None, path := None)
  }

  function RecoverFiles(g: Setting, fs: FS, r: Record): FS {
    if Settled(r) then fs else RemoveOwned(g, fs, r.partPath)
  }

  // ---- All records -------------------------------------------------------------------

  function RecoverAll(g: Setting, fs: FS, records: map<string, Record>, ids: seq<string>): (FS, map<string, Record>)
    requires forall id <- ids :: id in records
  {
    if ids == [] then (fs, records)
    else
      var (fs1, records1) := RecoverAll(g, fs, records, ids[..|ids| - 1]);
      var id := ids[|ids| - 1];
      if id !in records1 then (fs1, records1)
      else (RecoverFiles(g, fs1, records1[id]), records1[id := Recovered(g, fs1, records1[id])])
  }

  /** How many of the records, when their turn came, were not yet settled. */
  function RecoverCount(g: Setting, fs: FS, records: map<string, Record>, ids: seq<string>): nat
    requires forall id <- ids :: id in records
  {
    if ids == [] then 0
    else
      var prefix, id := ids[..|ids| - 1], ids[|ids| - 1];
      var (_, records1) := RecoverAll(g, fs, records, prefix);
      RecoverCount(g, fs, records, prefix) + (if id in records1 && !Settled(records1[id]) then 1 else 0)
  }

  /** The part files of two transfers are different, and no part is anyone's final path. */
  ghost predicate Separate(records: map<string, Record>) {
    forall a <- records, b <- records ::
      records[a].partPath.Some? ==>
        && records[a].partPath != records[b].path
        && (a != b ==> records[a].partPath != records[b].partPath)
  }

  /** The parts recovery may delete. */
  function Parts(records: map<string, Record>): set<Path> {
    set id | id in records && !Settled(records[id]) && records[id].partPath.Some? :: records[id].partPath.value
  }

  ghost predicate NoRepeats(ids: seq<string>) {
    forall i, j | 0 <= i < j < |ids| :: ids[i] != ids[j]
  }

  /** The part of an interrupted transfer, if its record names one inside the receive directory. */
  predicate LeftBehind(g: Setting, r: Record, q: Path) {
    && r.state !in {DATA_COMMITTED, COMPLETED, FAILED_CONFIRMED, CANCELED}
    && r.partPath == Some(q) && g.within(q)
  }

  /**
   * Recovery deletes nothing but parts of interrupted transfers, and rewrites no file at
   * all: whatever the records say, in whatever order they come.
   */
  lemma {:induction false} RecoveryTouchesOnlyParts(g: Setting, fs: FS, records: map<string, Record>, ids: seq<string>)
    requires forall id <- ids :: id in records
    ensures var (fs', records') := RecoverAll(g, fs, records, ids);
            && fs'.blocks == fs.blocks && records'.Keys == records.Keys
            && Parts(records') <= Parts(records)
            && (forall p :: p in fs'.names ==> p in fs.names && fs'.names[p] == fs.names[p])
            && (forall p | p in fs.names && p !in fs'.names ::
                  p in Parts(records) && exists id <- ids :: LeftBehind(g, records[id], p))
            && (forall id <- records :: records'[id] == records[id] || id in ids)
            && (forall id <- records :: records'[id] == records[id] || Settled(records'[id]))
  {
    if ids != [] {
      var prefix := ids[..|ids| - 1];
      assert forall id <- prefix :: id in ids;
      RecoveryTouchesOnlyParts(g, fs, records, prefix);
      var id := ids[|ids| - 1];
      assert id in ids;
      var (fs1, records1) := RecoverAll(g, fs, records, prefix);
      assert records1[id].partPath.Some? && !Settled(records1[id]) ==> records1[id].partPath.value in Parts(records1);
    }
  }

  /**
   * And it does delete those: after the scan no part of an interrupted transfer is left, on
   * whichever branch its record was decided.
   */
  lemma {:induction false} PartsAreGone(g: Setting, fs: FS, records: map<string, Record>, ids: seq<string>)
    requires forall id <- ids :: id in records
    ensures var (fs', records') := RecoverAll(g, fs, records, ids);
            && records'.Keys == records.Keys
            && (forall id <- records :: if id in ids then Settled(records'[id]) else records'[id] == records[id])
            && (forall q <- fs'.names :: q in fs.names)
            && (forall id <- ids, q :: LeftBehind(g, records[id], q) ==> q !in fs'.names)
  {
    if ids != [] {
      var prefix, last := ids[..|ids| - 1], ids[|ids| - 1];
      assert forall id <- prefix :: id in ids;
      assert forall id <- ids :: id in prefix || id == last;
      assert last in ids;
      PartsAreGone(g, fs, records, prefix);
    }
  }

  /** The count is that of the interrupted records listed, however often each is. */
  lemma {:induction false} CountIsInterrupted(g: Setting, fs: FS, records: map<string, Record>, ids: seq<string>)
    requires forall id <- ids :: id in records
    ensures RecoverCount(g, fs, records, ids) == |Unsettled(records, ids)|
  {
    if ids != [] {
      var prefix, last := ids[..|ids| - 1], ids[|ids| - 1];
      assert forall id <- prefix :: id in ids;
      assert last in ids;
      CountIsInterrupted(g, fs, records, prefix);
      PartsAreGone(g, fs, records, prefix);
      assert ids == prefix + [last];
      OneMoreUnsettled(records, prefix, last);
    }
  }

  lemma OneMoreUnsettled(records: map<string, Record>, prefix: seq<string>, last: string)
    requires last in records
    ensures |Unsettled(records, prefix + [last])|
         == |Unsettled(records, prefix)| + (if Settled(records[last]) || last in prefix then 0 else 1)
  {
    if Settled(records[last]) || last in prefix {
      assert Unsettled(records, prefix + [last]) == Unsettled(records, prefix);
    } else {
      assert Unsettled(records, prefix + [last]) == Unsettled(records, prefix) + {last};
    }
  }

  function Unsettled(records: map<string, Record>, ids: seq<string>): set<string> {
    set id | id in ids && id in records
             && records[id].state !in {DATA_COMMITTED, COMPLETED, FAILED_CONFIRMED, CANCELED}
  }

  /**
   * What a record becomes: settled ones stay; one that was committing is committed exactly
   * if its own file is in place; every other one has failed. No decided record names a part.
   */
  lemma RecordDecides(g: Setting, fs: FS, r: Record)
    ensures var r' := Recovered(g, fs, r);
            var own := r.path.Some? && g.within(r.path.value) && r.path.value in fs.names
                       && fs.names[r.path.value] in fs.blocks
                       && |fs.blocks[fs.names[r.path.value]]| == r.size
                       && g.sha(fs.blocks[fs.names[r.path.value]]) == r.sha256
                       && (forall q <- fs.names ::
                             r.partPath == Some(q) && g.within(q) ==> fs.names[q] == fs.names[r.path.value]);
            && r'.size == r.size && r'.sha256 == r.sha256
            && if r.state in {DATA_COMMITTED, COMPLETED, FAILED_CONFIRMED, CANCELED} then r' == r
               else
                 && r'.partPath == None
                 && if r.state == COMMITTING && own then r'.state == DATA_COMMITTED && r'.path == r.path
                    else r'.state == FAILED_CONFIRMED && r'.path == None
  {
  }

  /** A part file missing or not changes no other record's verdict. */
  lemma VerdictIndependent(g: Setting, fs: FS, fs': FS, r: Record)
    requires fs'.blocks == fs.blocks
    requires r.path.Some? ==> Same(fs, fs', r.path.value)
    requires r.partPath.Some? ==> Same(fs, fs', r.partPath.value)
    ensures Recovered(g, fs', r) == Recovered(g, fs, r)
  {
  }

  ghost predicate Same(fs: FS, fs': FS, p: Path) {
    (p in fs.names <==> p in fs'.names) && (p in fs.names ==> fs'.names[p] == fs.names[p])
  }

  /** After the given ids: their records decided as if alone, only their parts gone. */
  ghost predicate DecidedAlone(
    g: Setting, fs: FS, records: map<string, Record>, ids: seq<string>, fs': FS, records': map<string, Record>)
  {
    && records'.Keys == records.Keys && fs'.blocks == fs.blocks
    && (forall id <- records :: records'[id] == if id in ids then Recovered(g, fs, records[id]) else records[id])
    && (forall p :: NoPartOf(records, ids, p) ==> Same(fs, fs', p))
  }

  ghost predicate NoPartOf(records: map<string, Record>, ids: seq<string>, p: Path) {
    forall id <- ids :: id in records ==> records[id].partPath != Some(p)
  }

  lemma OneMoreAlone(
    g: Setting, fs: FS, records: map<string, Record>, ids: seq<string>, id: string,
    fs1: FS, records1: map<string, Record>)
    requires Separate(records) && id in records && id !in ids && (forall x <- ids :: x in records)
    requires DecidedAlone(g, fs, records, ids, fs1, records1)
    ensures DecidedAlone(g, fs, records, ids + [id],
                         RecoverFiles(g, fs1, records1[id]), records1[id := Recovered(g, fs1, records1[id])])
  {
    var r := records[id];
    assert records1[id] == r;
    if r.path.Some? { assert NoPartOf(records, ids, r.path.value); }
    if r.partPath.Some? { assert NoPartOf(records, ids, r.partPath.value); }
    VerdictIndependent(g, fs, fs1, r);
    var fs' := RecoverFiles(g, fs1, r);
    forall p | NoPartOf(records, ids + [id], p) ensures Same(fs, fs', p) {
      assert id in ids + [id];
      assert forall x <- ids :: x in ids + [id];
      assert NoPartOf(records, ids, p);
    }
  }

  /**
   * With separate parts every record is decided as if it were alone, so the order in which
   * the directory lists them is irrelevant.
   */
  lemma {:induction false} RecoveredIndependently(
    g: Setting, fs: FS, records: map<string, Record>, ids: seq<string>)
    requires Separate(records) && NoRepeats(ids) && forall id <- ids :: id in records
    ensures var (fs', records') := RecoverAll(g, fs, records, ids);
            DecidedAlone(g, fs, records, ids, fs', records')
  {
    if ids != [] {
      var prefix, id := ids[..|ids| - 1], ids[|ids| - 1];
      assert forall x <- prefix :: x in ids;
      RecoveredIndependently(g, fs, records, prefix);
      var (fs1, records1) := RecoverAll(g, fs, records, prefix);
      OneMoreAlone(g, fs, records, prefix, id, fs1, records1);
      assert ids == prefix + [id];
    }
  }

  /** The record at position `i` is still to be decided when its turn comes. */
  ghost predicate Interrupted(g: Setting, fs: FS, records: map<string, Record>, ids: seq<string>, i: nat)
    requires i < |ids| && forall id <- ids :: id in records
  {
    var (_, records1) := RecoverAll(g, fs, records, ids[..i]);
    ids[i] in records1 && !Settled(records1[ids[i]])
  }

  /** One more record of the scan. */
  lemma OneMoreRecovered(g: Setting, fs: FS, records: map<string, Record>, ids: seq<string>, i: nat)
    requires i < |ids| && forall id <- ids :: id in records
    ensures var (fs1, records1) := RecoverAll(g, fs, records, ids[..i]);
            var id := ids[i];
            && (forall x <- ids[..i + 1] :: x in records) && records1.Keys == records.Keys
            && RecoverAll(g, fs, records, ids[..i + 1])
                 == (RecoverFiles(g, fs1, records1[id]), records1[id := Recovered(g, fs1, records1[id])])
            && RecoverCount(g, fs, records, ids[..i + 1])
                 == RecoverCount(g, fs, records, ids[..i]) + (if Settled(records1[id]) then 0 else 1)
  {
    RecoveryTouchesOnlyParts(g, fs, records, ids[..i]);
    assert ids[..i + 1][..i] == ids[..i];
  }

  class FileTransferStore {
    const g: Setting
    var fs: FS
    var records: map<string, Record>

    constructor (g: Setting, fs: FS, records: map<string, Record>)
      ensures this.g == g && this.fs == fs && this.records == records
    {
      this.g := g;
      this.fs := fs;
      this.records := records;
    }

    /** One record of the scan; its save may reject. */
    method RecoverOne(id: string, fails: bool) returns (interrupted: bool)
      requires id in records
      modifies this
      ensures interrupted == !Settled(old(records)[id])
      ensures fs == RecoverFiles(g, old(fs), old(records)[id])
      ensures records == if interrupted && fails then old(records)
                         else old(records)[id := Recovered(g, old(fs), old(records)[id])]
    {
      var record := records[id];
      if Settled(record) {
        assert records[id := record] == records;
        return false;
      }
      var committed := false;
      if record.state == COMMITTING && record.path.Some? {
        committed := Verified(g, fs, record);
      }
      fs := RemoveOwned(g, fs, record.partPath);
      if fails { return true; }
      if committed {
        record := record.(state := DATA_COMMITTED, partPath := None);
      } else {
        record := record.(state := FAILED_CONFIRMED, partPath := None, path := None);
      }
      records := records[id := record];
      return true;
    }

    /**
     * recoverInterrupted over the record files in the order they are listed. If the save of
     * the record at `failsAt` rejects, so does the scan: the records before it are decided,
     * its part is removed, and no later record is looked at.
     */
    method RecoverInterrupted(ids: seq<string>, failsAt: Option<nat>) returns (recovered: nat, ok: bool)
      requires forall id <- ids :: id in records
      modifies this
      ensures !ok <==>
                && failsAt.Some? && failsAt.value < |ids|
                && Interrupted(g, old(fs), old(records), ids, failsAt.value)
      ensures ok ==> (fs, records) == RecoverAll(g, old(fs), old(records), ids)
      ensures ok ==> forall id <- ids, q :: LeftBehind(g, old(records)[id], q) ==> q !in fs.names
      ensures ok ==> recovered == RecoverCount(g, old(fs), old(records), ids)
      ensures !ok ==>
                var (fs1, records1) := RecoverAll(g, old(fs), old(records), ids[..failsAt.value]);
                var id := ids[failsAt.value];
                && records == records1 && id in records1 && fs == RecoverFiles(g, fs1, records1[id])
                && recovered == RecoverCount(g, old(fs), old(records), ids[..failsAt.value])
    {
      recovered := 0;
      var i := 0;
      while i < |ids|
        invariant i <= |ids|
        invariant forall id <- ids[..i] :: id in old(records)
        invariant recovered == RecoverCount(g, old(fs), old(records), ids[..i])
        invariant (fs, records) == RecoverAll(g, old(fs), old(records), ids[..i])
        invariant records.Keys == old(records).Keys
        invariant failsAt.Some? && failsAt.value < i ==> !Interrupted(g, old(fs), old(records), ids, failsAt.value)
      {
        var id := ids[i];
        OneMoreRecovered(g, old(fs), old(records), ids, i);
        i := i + 1;
        var fails := failsAt == Some(i - 1);
        var interrupted := RecoverOne(id, fails);
        if interrupted {
          if fails { return recovered, false; }
          recovered := recovered + 1;
        }
      }
      assert ids[..i] == ids;
      PartsAreGone(g, old(fs), old(records), ids);
      ok := true;
    }
  }
}
