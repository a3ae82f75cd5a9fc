/**
 * What the sender has been told stays true: from its return on, the receiver's record and
 * file survive any stops and recoveries, effect by effect and over a file system of inodes.
 */
module Survival {
  import opened Prelude
  import opened Commit
  import opened TransferStates
  import R = Recovery
  import CrashSafety
  import E = EndToEnd
  import EndToEndProof

  /** The file system holds the given files. */
  ghost predicate Shows(fs: FS, disk: map<Path, Bytes>) {
    FsOk(fs) && forall path :: Content(fs, path) == if path in disk then Some(disk[path]) else None
  }

  /** The receiving gateway as recovery knows it, with no receive of this transfer running. */
  function AtRest(g: E.Setup, r: E.Receiver, fs: FS): CrashSafety.World
    requires r.state.Some?
  {
    CrashSafety.World(fs, Some(R.Record(r.state.value, r.path, None, g.offer.size, g.offer.sha256)),
                      CrashSafety.Idle, None)
  }

  /**
   * End to end and through crashes: once the sender has returned, whatever effects, stops and
   * recoveries follow, the record stays committed and its path holds what was sent.
   */
  lemma ReturnedSurvives(
    g: E.Setup, now: int, disk: map<Path, Bytes>, run: seq<E.Happening>,
    p: CrashSafety.Plan, fs: FS, effects: seq<CrashSafety.Effect>)
    requires E.CodecOk(g) && E.NamesOk(g)
    requires var sys := E.RunSystem(g, E.Init(g, now, disk), run);
             sys.snd.phase == E.SReturned && Shows(fs, sys.rcv.disk)
    ensures var sys := E.RunSystem(g, E.Init(g, now, disk), run);
            && sys.rcv.state.Some? && sys.rcv.path.Some?
            && var w := CrashSafety.Run(p, AtRest(g, sys.rcv, fs), effects);
               && w.record.Some? && (w.record.value.state == DATA_COMMITTED || w.record.value.state == COMPLETED)
               && w.record.value.path == sys.rcv.path && Content(w.fs, sys.rcv.path.value) == Some(sys.snd.sent)
  {
    var sys := E.RunSystem(g, E.Init(g, now, disk), run);
    EndToEndProof.EndToEndCommit(g, now, disk, run);
    CrashSafety.CommittedSurvives(p, AtRest(g, sys.rcv, fs), effects, sys.rcv.path.value, sys.snd.sent);
  }
}
