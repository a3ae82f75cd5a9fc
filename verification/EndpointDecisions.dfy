/**
 * What each step of the two endpoints decides: which line lets them go on, which bytes they
 * take or send, when they give up, what a failure leaves behind, and what they write.
 */
module EndpointDecisions {
  import opened Prelude
  import opened Framing
  import opened FileRelay
  import opened EndToEnd
  import Commit
  import T = TransferStates

  // ---- The sender --------------------------------------------------------------------

  /** The sender announces the offer under its ticket, with the devices as offered. */
  lemma SenderAnnounces(g: Setup, s: Sender, inbound: Bytes)
    ensures SenderStep(g, s, inbound, SWriteHello)
         == if s.phase == SStart then
              s.(phase := SAwaitReady,
                 written := LineOf(g, EMPTY.(
                   version := Some(1), role := Some("sender"), id := Some(g.offer.transferId),
                   token := Some(g.offer.ticket), sourceDevice := Some(g.offer.sourceDevice),
                   targetDevice := Some(g.offer.targetDevice), size := Some(g.offer.size),
                   sha256 := Some(g.offer.sha256))))
            else s
  {
  }

  /** The first line of what is buffered, if it is complete, short enough and an object. */
  function LineRead(g: Setup, buffer: Bytes): Option<Json> {
    var verdict := Classify(buffer, 65536);
    if verdict.Complete? then g.cfg.parse(verdict.header) else None
  }

  /**
   * The sender goes on only when told that the receiver of this transfer is ready, and
   * returns only on an acknowledgement of this transfer, size and hash that names a file.
   */
  ghost predicate SenderGoesOn(g: Setup, s: Sender, s': Sender) {
    var verdict, j := Classify(s.buffer, 65536), LineRead(g, s.buffer);
    s' == if verdict.Pending? then s
          else if s.phase == SAwaitReady && j.Some? && j.value.typ == Some("ready")
                  && j.value.id == Some(g.offer.transferId) then
            s.(phase := SSending, line0 := verdict.header, buffer := verdict.rest)
          else if s.phase == SAwaitAck && j.Some? && j.value.ok == Some(true)
                  && j.value.transferId == Some(g.offer.transferId) && j.value.sha256 == Some(g.offer.sha256)
                  && j.value.size == Some(g.offer.size) && j.value.path.Some? && j.value.name.Some? then
            s.(phase := SReturned, line1 := verdict.header, buffer := verdict.rest)
          else s.(phase := SFailed)
  }

  lemma SenderReads(g: Setup, s: Sender, inbound: Bytes, n: nat)
    requires s.got + n <= |inbound| && (s.phase == SAwaitReady || s.phase == SAwaitAck)
    ensures SenderGoesOn(g, s.(buffer := s.buffer + inbound[s.got..s.got + n], got := s.got + n),
                         SenderStep(g, s, inbound, SRead(n)))
  {
    SenderHears(g, s, inbound, n);
    SenderLineDecides(g, SenderFed(s, inbound, n));
  }

  lemma SenderHears(g: Setup, s: Sender, inbound: Bytes, n: nat)
    requires s.got + n <= |inbound| && (s.phase == SAwaitReady || s.phase == SAwaitAck)
    ensures SenderStep(g, s, inbound, SRead(n)) == SenderLine(g, SenderFed(s, inbound, n))
  {
  }

  lemma SenderLineDecides(g: Setup, s: Sender)
    requires s.phase == SAwaitReady || s.phase == SAwaitAck
    ensures SenderGoesOn(g, s, SenderLine(g, s))
  {
  }

  /** A chunk of the file goes out whole unless it would exceed the offered size. */
  lemma SenderSends(g: Setup, s: Sender, inbound: Bytes, chunk: Bytes)
    requires s.phase == SSending
    ensures SenderStep(g, s, inbound, SSend(chunk))
         == if |s.sent| + |chunk| <= g.offer.size then s.(written := s.written + chunk, sent := s.sent + chunk)
            else s.(phase := SFailed)
  {
  }

  /** The end of the file: what was sent must be exactly what was offered. */
  lemma SenderFinishes(g: Setup, s: Sender, inbound: Bytes)
    requires s.phase == SSending
    ensures SenderStep(g, s, inbound, SFinish)
         == s.(phase := if |s.sent| == g.offer.size && g.sha(s.sent) == g.offer.sha256 then SAwaitAck else SFailed)
  {
  }

  /** Nothing else moves the sender, and nothing moves it once it has returned. */
  lemma SenderStays(g: Setup, s: Sender, inbound: Bytes, e: SenderEvent)
    ensures s.phase == SReturned ==> SenderStep(g, s, inbound, e) == s
    ensures e.SFail? && s.phase != SReturned ==> SenderStep(g, s, inbound, e) == s.(phase := SFailed)
    ensures (e.SSend? || e.SFinish?) && s.phase != SSending ==> SenderStep(g, s, inbound, e) == s
    ensures e.SRead? && (s.got + e.n > |inbound| || (s.phase != SAwaitReady && s.phase != SAwaitAck)) ==>
              SenderStep(g, s, inbound, e) == s
  {
  }

  // ---- The receiver ------------------------------------------------------------------

  /** The receiver's record is written before it announces itself, with the devices exchanged. */
  lemma ReceiverAnnounces(g: Setup, r: Receiver, inbound: Bytes)
    ensures ReceiverStep(g, r, inbound, RPrepare)
         == if r.phase == RStart then r.(phase := RPrepared, state := Some(T.PREPARING)) else r
    ensures ReceiverStep(g, r, inbound, RWriteHello)
         == if r.phase == RPrepared then
              r.(phase := RAwaitRegistered,
                 written := LineOf(g, EMPTY.(
                   version := Some(1), role := Some("receiver"), id := Some(g.offer.transferId),
                   token := Some(g.offer.ticket), sourceDevice := Some(g.offer.targetDevice),
                   targetDevice := Some(g.offer.sourceDevice))))
            else r
  {
  }

  /** The failure line the peer reads, if the socket is up. */
  function Complaint(g: Setup, r: Receiver, tell: bool): Bytes {
    if tell && r.phase != RPrepared
    then LineOf(g, EMPTY.(ok := Some(false), transferId := Some(g.offer.transferId))) else []
  }

  predicate MayFail(r: Receiver) {
    !r.phase.RStart? && !r.phase.RCommitted? && !r.phase.RAcked? && !r.phase.RFailed?
  }

  /**
   * A failure: with the file possibly in place the record says so and nothing is deleted;
   * before that it says failed (or canceled), names no file, and the part is gone.
   */
  ghost predicate GivesUp(g: Setup, r: Receiver, r': Receiver, canceled: bool, tell: bool) {
    r' == r.(phase := RFailed, written := r.written + Complaint(g, r, tell),
             state := Some(if r.phase.RPlaced? || r.phase.RPartGone? then T.COMMITTING
                           else if canceled then T.CANCELED else T.FAILED_CONFIRMED),
             path := if r.phase.RPlaced? || r.phase.RPartGone? then r.path else None,
             disk := if r.phase.RPlaced? || r.phase.RPartGone? then r.disk else r.disk - {g.part})
  }

  lemma FailureGivesUp(g: Setup, r: Receiver, canceled: bool, tell: bool)
    ensures MayFail(r) ==> GivesUp(g, r, ReceiverFail(g, r, canceled, tell), canceled, tell)
  {
    assert r.written + [] == r.written;
  }

  lemma ReceiverFails(g: Setup, r: Receiver, inbound: Bytes, canceled: bool, tell: bool)
    ensures var r' := ReceiverStep(g, r, inbound, RFail(canceled, tell));
            if MayFail(r) then GivesUp(g, r, r', canceled, tell) else r' == r
  {
    assert r.written + [] == r.written;
  }

  /**
   * The receiver goes on only when registered under this transfer, and then only on the
   * metadata of this transfer, size and hash.
   */
  ghost predicate ReceiverGoesOn(g: Setup, r: Receiver, r': Receiver) {
    var verdict, j := Classify(r.buffer, 65536), LineRead(g, r.buffer);
    if verdict.Pending? then r' == r
    else if r.phase == RAwaitRegistered && j.Some? && j.value.typ == Some("registered")
            && j.value.id == Some(g.offer.transferId) then
      r' == r.(phase := RAwaitMetadata, line0 := verdict.header, buffer := verdict.rest, state := Some(T.READY))
    else if r.phase == RAwaitMetadata && j.Some? && j.value.typ == Some("metadata")
            && j.value.id == Some(g.offer.transferId) && j.value.size == Some(g.offer.size)
            && j.value.sha256 == Some(g.offer.sha256) then
      r' == r.(phase := RRemainder, line1 := verdict.header, buffer := verdict.rest, state := Some(T.TRANSFERRING))
    else GivesUp(g, r, r', false, true)
  }

  lemma ReceiverReads(g: Setup, r: Receiver, inbound: Bytes, n: nat)
    requires r.got + n <= |inbound| && (r.phase == RAwaitRegistered || r.phase == RAwaitMetadata)
    ensures ReceiverGoesOn(g, r.(buffer := r.buffer + inbound[r.got..r.got + n], got := r.got + n),
                           ReceiverStep(g, r, inbound, RRead(n)))
  {
    ReceiverHears(g, r, inbound, n);
    ReceiverLineDecides(g, ReceiverFed(r, inbound, n));
  }

  lemma ReceiverHears(g: Setup, r: Receiver, inbound: Bytes, n: nat)
    requires r.got + n <= |inbound| && (r.phase == RAwaitRegistered || r.phase == RAwaitMetadata)
    ensures ReceiverStep(g, r, inbound, RRead(n)) == ReceiverLine(g, ReceiverFed(r, inbound, n))
  {
  }

  lemma ReceiverLineDecides(g: Setup, r: Receiver)
    requires r.phase == RAwaitRegistered || r.phase == RAwaitMetadata
    ensures ReceiverGoesOn(g, r, ReceiverLine(g, r))
  {
    FailureGivesUp(g, r, false, true);
  }

  /** What a chunk does: within what is missing it is appended to the part, or all fails. */
  ghost predicate Takes(g: Setup, r: Receiver, r': Receiver, chunk: Bytes) {
    if |r.received| + |chunk| <= g.offer.size then
      r' == r.(phase := RReceiving, received := r.received + chunk, disk := r.disk[g.part := r.received + chunk])
    else GivesUp(g, r, r', false, true)
  }

  /** What followed the metadata line is taken first, then the payload as it arrives. */
  lemma ReceiverTakes(g: Setup, r: Receiver, inbound: Bytes, n: nat)
    ensures r.phase == RRemainder ==>
              Takes(g, r.(buffer := []), ReceiverStep(g, r, inbound, RTakeRemainder), r.buffer)
    ensures r.phase == RReceiving && |r.received| < g.offer.size && r.got + n <= |inbound| ==>
              Takes(g, r.(got := r.got + n), ReceiverStep(g, r, inbound, RConsume(n)), inbound[r.got..r.got + n])
    ensures r.phase != RRemainder ==> ReceiverStep(g, r, inbound, RTakeRemainder) == r
    ensures r.phase != RReceiving || |r.received| >= g.offer.size || r.got + n > |inbound| ==>
              ReceiverStep(g, r, inbound, RConsume(n)) == r
  {
    ReceiverFails(g, r.(buffer := []), inbound, false, true);
    ReceiverFails(g, r.(got := r.got + n), inbound, false, true);
  }

  /** The part is committed only if it has the offered size and hash. */
  lemma ReceiverVerifies(g: Setup, r: Receiver, inbound: Bytes)
    requires r.phase == RReceiving && |r.received| == g.offer.size
    ensures var r' := ReceiverStep(g, r, inbound, RVerify);
            if g.sha(r.received) == g.offer.sha256 then r' == r.(phase := RVerified(0))
            else GivesUp(g, r, r', false, true)
  {
    ReceiverFails(g, r, inbound, false, true);
  }

  /** Each candidate is recorded before it is tried, and at most ten thousand are. */
  lemma ReceiverRecords(g: Setup, r: Receiver, inbound: Bytes)
    requires r.phase.RVerified?
    ensures ReceiverStep(g, r, inbound, RSaveCommitting)
         == if r.phase.next < 10_000 then
              r.(phase := RCommitting(r.phase.next), state := Some(T.COMMITTING),
                 path := Some(g.candidate(r.phase.next)))
            else r
  {
  }

  /**
   * The attempt at a candidate: link, which reports a taken name on a careful volume; refused,
   * rename over whatever is there; refused too, a copy over it.
   */
  lemma ReceiverTries(g: Setup, r: Receiver, inbound: Bytes)
    requires g.part in r.disk
    ensures r.phase.RCommitting? ==>
              var c, k := g.candidate(r.phase.index), r.phase.index;
              ReceiverStep(g, r, inbound, RLink)
                == if c in r.disk && (g.volume.canLink || g.volume.takenFirst) then r.(phase := RVerified(k + 1))
                   else if g.volume.canLink then r.(phase := RPlaced(c), disk := r.disk[c := r.disk[g.part]])
                   else r.(phase := RLinkRefused(k))
    ensures r.phase.RLinkRefused? ==>
              var c, k := g.candidate(r.phase.index), r.phase.index;
              ReceiverStep(g, r, inbound, RRename)
                == if g.volume.canRename then
                     r.(phase := RPlaced(c), disk := (r.disk - {g.part})[c := r.disk[g.part]])
                   else r.(phase := RRenameRefused(k))
    ensures r.phase.RRenameRefused? ==>
              var c := g.candidate(r.phase.index);
              ReceiverStep(g, r, inbound, ROpenCopy) == r.(phase := RCopying(c), disk := r.disk[c := []])
  {
  }

  /** A copy grows to the whole part, which ends it. */
  lemma ReceiverCopies(g: Setup, r: Receiver, inbound: Bytes, n: nat)
    requires r.phase.RCopying? && g.part in r.disk && n <= |r.disk[g.part]|
    ensures ReceiverStep(g, r, inbound, RCopySome(n))
         == r.(phase := if n < |r.disk[g.part]| then r.phase else RPlaced(r.phase.path),
               disk := r.disk[r.phase.path := r.disk[g.part][..n]])
  {
  }

  /** Placed, the part is removed; then the record says committed; only then the sender is told. */
  lemma ReceiverConcludes(g: Setup, r: Receiver, inbound: Bytes)
    ensures ReceiverStep(g, r, inbound, RRemovePart)
         == if r.phase.RPlaced? then r.(phase := RPartGone(r.phase.path), disk := r.disk - {g.part}) else r
    ensures ReceiverStep(g, r, inbound, RSaveCommitted)
         == if r.phase.RPartGone? then
              r.(phase := RCommitted(r.phase.path), state := Some(T.DATA_COMMITTED), path := Some(r.phase.path))
            else r
    ensures ReceiverStep(g, r, inbound, RAck)
         == if r.phase.RCommitted? then
              r.(phase := RAcked(r.phase.path),
                 written := r.written
                            + LineOf(g, EMPTY.(ok := Some(true), transferId := Some(g.offer.transferId),
                                               size := Some(g.offer.size), sha256 := Some(g.offer.sha256),
                                               path := Some(r.phase.path), name := Some(r.phase.path))))
            else r
  {
  }

  /**
   * A stop and the recovery after it: an acknowledged transfer stays; otherwise no receive
   * runs any more, a settled record stays, one of an acceptable file in place (which must be
   * the part itself, if that still exists) is committed, any other has failed; and of those
   * the part is gone.
   */
  lemma ReceiverStops(g: Setup, r: Receiver, inbound: Bytes, same: bool)
    requires r.state.Some? && !r.phase.RStart?
    ensures var r' := ReceiverStep(g, r, inbound, RStop(same));
            var settled := r.state.value in {T.DATA_COMMITTED, T.COMPLETED, T.FAILED_CONFIRMED, T.CANCELED};
            var own := r.state.value == T.COMMITTING && r.path.Some? && r.path.value in r.disk
                       && |r.disk[r.path.value]| == g.offer.size && g.sha(r.disk[r.path.value]) == g.offer.sha256
                       && (g.part in r.disk ==> same);
            if r.phase.RAcked? then r' == r
            else if settled then r' == r.(phase := RFailed)
            else if own then r' == r.(phase := RFailed, state := Some(T.DATA_COMMITTED), disk := r.disk - {g.part})
            else r' == r.(phase := RFailed, state := Some(T.FAILED_CONFIRMED), path := None, disk := r.disk - {g.part})
  {
  }

  // ---- The whole system --------------------------------------------------------------

  /**
   * What may happen: the relay is handed the next bytes an endpoint wrote, or bytes of
   * another client that do not complete a header with this ticket; other programs change any
   * file but the part and the one placed or committed.
   */
  lemma SystemSteps(g: Setup, sys: System, h: Happening)
    ensures h.AtRelay? ==>
              var sys' := Happens(g, sys, h);
              if MayHappen(g, sys, h.e) then
                sys'.relay == Step(sys.relay, h.e) && sys'.snd.sent == sys.snd.sent && sys'.rcv.disk == sys.rcv.disk
              else sys' == sys
    ensures h.AtSender? ==>
              Happens(g, sys, h) == sys.(snd := SenderStep(g, sys.snd, Wire(g, Stream(sys.relay, S)), h.se))
    ensures h.AtReceiver? ==>
              Happens(g, sys, h) == sys.(rcv := ReceiverStep(g, sys.rcv, Wire(g, Stream(sys.relay, R)), h.re))
    ensures h.OtherFile? ==>
              Happens(g, sys, h)
                == if h.path == g.part || Relied(sys.rcv, h.path) then sys
                   else sys.(rcv := sys.rcv.(disk := if h.content.Some? then sys.rcv.disk[h.path := h.content.value]
                                                     else sys.rcv.disk - {h.path}))
  {
    if h.AtRelay? && h.e.Data? {
      if h.e.x == S { NextIsPrefix(sys.snd.written, sys.snd.taken, h.e.chunk); }
      if h.e.x == R { NextIsPrefix(sys.rcv.written, sys.rcv.taken, h.e.chunk); }
    }
  }

  ghost predicate MayHappen(g: Setup, sys: System, e: Event) {
    e.Data? ==>
      if e.x == S then
        sys.snd.taken <= |sys.snd.written| && e.chunk <= sys.snd.written[Least(sys.snd.taken, |sys.snd.written|)..]
      else if e.x == R then
        sys.rcv.taken <= |sys.rcv.written| && e.chunk <= sys.rcv.written[Least(sys.rcv.taken, |sys.rcv.written|)..]
      else !PresentsTicket(g, sys, e)
  }

  function Least(a: nat, b: nat): nat { if a < b then a else b }

  predicate Relied(r: Receiver, path: Path) {
    || (r.phase.RCopying? && r.phase.path == path) || (r.phase.RPlaced? && r.phase.path == path)
    || (r.phase.RPartGone? && r.phase.path == path) || (r.phase.RCommitted? && r.phase.path == path)
    || (r.phase.RAcked? && r.phase.path == path) || (r.state == Some(T.DATA_COMMITTED) && r.path == Some(path))
  }

  lemma NextIsPrefix(written: Bytes, taken: nat, chunk: Bytes)
    ensures NextBytes(written, taken, chunk)
       <==> taken <= |written| && chunk <= written[Least(taken, |written|)..]
  {
    if taken <= |written| && chunk <= written[taken..] {
      assert written[taken..][..|chunk|] == written[taken..taken + |chunk|];
    }
  }
}
