/**
 * One transfer from end to end: the sending endpoint, the relay with any number of other
 * clients, the receiving endpoint and its disk, in every interleaving and every chunking.
 *
 * Socket 0 is the sender's connection to the relay and socket 1 the receiver's. JSON
 * encoding and the hash are parameters; the hash need not be injective.
 */
module EndToEnd {
  import opened Prelude
  import opened Framing
  import opened FileRelay
  import opened RelayInvariants
  import opened RelayTraces
  import Commit
  import T = TransferStates

  const S: Sock := 0
  const R: Sock := 1

  type Path = string

  datatype Offer = Offer(
    transferId: string, ticket: string, sourceDevice: string, targetDevice: string, size: nat, sha256: string)

  datatype Setup = Setup(
    cfg: Config, enc: Json -> Bytes, sha: Bytes -> string, offer: Offer,
    volume: Commit.Volume, part: Path, candidate: nat -> Path)

  function SenderHello(o: Offer): Json {
    EMPTY.(version := Some(1), role := Some("sender"), id := Some(o.transferId), token := Some(o.ticket),
           sourceDevice := Some(o.sourceDevice), targetDevice := Some(o.targetDevice),
           size := Some(o.size), sha256 := Some(o.sha256))
  }

  function ReceiverHello(o: Offer): Json {
    EMPTY.(version := Some(1), role := Some("receiver"), id := Some(o.transferId), token := Some(o.ticket),
           sourceDevice := Some(o.targetDevice), targetDevice := Some(o.sourceDevice))
  }

  function AckMsg(o: Offer, path: Path): Json {
    EMPTY.(ok := Some(true), transferId := Some(o.transferId), size := Some(o.size), sha256 := Some(o.sha256),
           path := Some(path), name := Some(path))
  }

  function ReceiverFailure(o: Offer): Json {
    EMPTY.(ok := Some(false), transferId := Some(o.transferId))
  }

  /**
   * What is assumed of JSON lines: they parse back, hold no newline, and no proper suffix
   * of an encoded flat object is itself an object.
   */
  ghost predicate CodecOk(g: Setup) {
    && (forall j :: g.cfg.parse(g.enc(j)) == Some(j) && NEWLINE !in g.enc(j))
    && (forall j, k | 0 < k <= |g.enc(j)| :: g.cfg.parse(g.enc(j)[k..]) == None)
  }

  /** No candidate is the part: its name begins with a dot, which sanitised names never do. */
  ghost predicate NamesOk(g: Setup) { forall k: nat :: g.candidate(k) != g.part }

  function LineOf(g: Setup, j: Json): Bytes { g.enc(j) + [NEWLINE] }

  /** The bytes of a sequence of writes. */
  function Wire(g: Setup, o: seq<Out>): Bytes {
    if o == [] then []
    else
      var last := o[|o| - 1];
      Wire(g, o[..|o| - 1]) + (match last case Line(m) => LineOf(g, m) case Payload(b) => b)
  }

  // ---- The endpoints -----------------------------------------------------------------

  datatype SenderPhase = SStart | SAwaitReady | SSending | SAwaitAck | SReturned | SFailed

  /**
   * `written` is what the endpoint wrote to its socket, of which the relay's listeners
   * have taken `taken` bytes; `got` counts the bytes read from the relay. `line0` and
   * `line1` are the lines it has read, `sent` the file bytes it has sent.
   */
  datatype Sender = Sender(
    phase: SenderPhase, written: Bytes, taken: nat, buffer: Bytes, got: nat,
    line0: Bytes, line1: Bytes, sent: Bytes)

  datatype ReceiverPhase =
    | RStart
    | RPrepared
    | RAwaitRegistered
    | RAwaitMetadata
    | RRemainder
    | RReceiving
    | RVerified(next: nat)
    | RCommitting(index: nat)
    | RLinkRefused(index: nat)
    | RRenameRefused(index: nat)
    | RCopying(path: Path)
    | RPlaced(path: Path)
    | RPartGone(path: Path)
    | RCommitted(path: Path)
    | RAcked(path: Path)
    | RFailed

  datatype Receiver = Receiver(
    phase: ReceiverPhase, written: Bytes, taken: nat, base: nat, buffer: Bytes, got: nat,
    line0: Bytes, line1: Bytes, received: Bytes,
    disk: map<Path, Bytes>, state: Option<T.State>, path: Option<Path>)

  datatype System = System(relay: Relay, snd: Sender, rcv: Receiver)

  function Init(g: Setup, now: int, disk: map<Path, Bytes>): System {
    System(Start(g.cfg, now),
           Sender(SStart, [], 0, [], 0, [], [], []),
           Receiver(RStart, [], 0, 0, [], 0, [], [], [], disk, None, None))
  }

  /** All the relay has written to a socket. */
  function Inbound(g: Setup, sys: System, x: Sock): Bytes { Wire(g, Stream(sys.relay, x)) }

  // ---- Steps of the sender (sendFilePayload) -----------------------------------------

  predicate IsReady(o: Offer, j: Json) { j.typ == Some("ready") && j.id == Some(o.transferId) }

  predicate IsSuccess(o: Offer, j: Json) {
    j.ok == Some(true) && j.transferId == Some(o.transferId) && j.sha256 == Some(o.sha256)
    && j.size == Some(o.size) && j.path.Some? && j.name.Some?
  }

  /** What readJson makes of the buffered bytes. */
  function SenderLine(g: Setup, s: Sender): Sender {
    match Classify(s.buffer, RESPONSE_LIMIT)
    case Pending => s
    case TooLarge => s.(phase := SFailed)
    case Complete(line, rest) =>
      match g.cfg.parse(line)
      case None => s.(phase := SFailed)
      case Some(j) =>
        if s.phase == SAwaitReady then
          if IsReady(g.offer, j) then s.(phase := SSending, line0 := line, buffer := rest)
          else s.(phase := SFailed)
        else if IsSuccess(g.offer, j) then s.(phase := SReturned, line1 := line, buffer := rest)
        else s.(phase := SFailed)
  }

  /** `n` more bytes have arrived. */
  function SenderFed(s: Sender, inbound: Bytes, n: nat): Sender
    requires s.got + n <= |inbound|
  {
    s.(buffer := s.buffer + inbound[s.got..s.got + n], got := s.got + n)
  }

  /** readJson: `n` more bytes arrive (none when the line is already buffered). */
  function SenderRead(g: Setup, s: Sender, inbound: Bytes, n: nat): Sender {
    if (s.phase != SAwaitReady && s.phase != SAwaitAck) || s.got + n > |inbound| then s
    else SenderLine(g, SenderFed(s, inbound, n))
  }

  datatype SenderEvent = SWriteHello | SRead(n: nat) | SSend(chunk: Bytes) | SFinish | SFail

  function SenderStep(g: Setup, s: Sender, inbound: Bytes, e: SenderEvent): Sender {
    match e
    case SWriteHello =>
      if s.phase == SStart then s.(phase := SAwaitReady, written := LineOf(g, SenderHello(g.offer))) else s
    case SRead(n) => SenderRead(g, s, inbound, n)
    case SSend(chunk) =>
      if s.phase != SSending then s
      else if |s.sent| + |chunk| > g.offer.size then s.(phase := SFailed)
      else s.(written := s.written + chunk, sent := s.sent + chunk)
    case SFinish =>
      if s.phase != SSending then s
      else if |s.sent| == g.offer.size && g.sha(s.sent) == g.offer.sha256 then s.(phase := SAwaitAck)
      else s.(phase := SFailed)
    case SFail => if s.phase == SReturned then s else s.(phase := SFailed)
  }

  // ---- Steps of the receiver (startFileReceive) --------------------------------------

  predicate IsRegistered(o: Offer, j: Json) { j.typ == Some("registered") && j.id == Some(o.transferId) }

  predicate IsMetadata(o: Offer, j: Json) {
    j.typ == Some("metadata") && j.id == Some(o.transferId) && j.size == Some(o.size) && j.sha256 == Some(o.sha256)
  }

  /** The catch block: what is recorded depends on whether the file may already be in place. */
  function ReceiverFail(g: Setup, r: Receiver, canceled: bool, tell: bool): Receiver {
    if r.phase.RCommitted? || r.phase.RAcked? || r.phase.RFailed? || r.phase.RStart? then r
    else
      var told := if tell && !r.phase.RPrepared? then r.written + LineOf(g, ReceiverFailure(g.offer)) else r.written;
      if r.phase.RPlaced? || r.phase.RPartGone? then
        r.(phase := RFailed, written := told, state := Some(T.COMMITTING))
      else
        r.(phase := RFailed, written := told, state := Some(if canceled then T.CANCELED else T.FAILED_CONFIRMED),
           path := None, disk := r.disk - {g.part})
  }

  function ReceiverLine(g: Setup, r: Receiver): Receiver {
    match Classify(r.buffer, RESPONSE_LIMIT)
    case Pending => r
    case TooLarge => ReceiverFail(g, r, false, true)
    case Complete(line, rest) =>
      match g.cfg.parse(line)
      case None => ReceiverFail(g, r, false, true)
      case Some(j) =>
        if r.phase == RAwaitRegistered then
          if IsRegistered(g.offer, j) then
            r.(phase := RAwaitMetadata, line0 := line, buffer := rest, state := Some(T.READY))
          else ReceiverFail(g, r, false, true)
        else if IsMetadata(g.offer, j) then
          r.(phase := RRemainder, line1 := line, buffer := rest, state := Some(T.TRANSFERRING))
        else ReceiverFail(g, r, false, true)
  }

  function ReceiverFed(r: Receiver, inbound: Bytes, n: nat): Receiver
    requires r.got + n <= |inbound|
  {
    r.(buffer := r.buffer + inbound[r.got..r.got + n], got := r.got + n)
  }

  function ReceiverRead(g: Setup, r: Receiver, inbound: Bytes, n: nat): Receiver {
    if (r.phase != RAwaitRegistered && r.phase != RAwaitMetadata) || r.got + n > |inbound| then r
    else ReceiverLine(g, ReceiverFed(r, inbound, n))
  }

  /** `consume`: the chunk is appended to the part unless it exceeds what is missing. */
  function ReceiverConsume(g: Setup, r: Receiver, chunk: Bytes): Receiver {
    if |chunk| > g.offer.size - |r.received| then ReceiverFail(g, r, false, true)
    else r.(phase := RReceiving, received := r.received + chunk, disk := r.disk[g.part := r.received + chunk])
  }

  /** link at one candidate: a taken name is reported, or the part is linked, or link is refused. */
  function LinkTried(g: Setup, r: Receiver, candidate: Path, index: nat): Receiver
    requires g.part in r.disk
  {
    if candidate in r.disk && Commit.Careful(g.volume) then r.(phase := RVerified(index + 1))
    else if g.volume.canLink then r.(phase := RPlaced(candidate), disk := r.disk[candidate := r.disk[g.part]])
    else r.(phase := RLinkRefused(index))
  }

  function RenameTried(g: Setup, r: Receiver, candidate: Path, index: nat): Receiver
    requires g.part in r.disk
  {
    if g.volume.canRename then
      r.(phase := RPlaced(candidate), disk := (r.disk - {g.part})[candidate := r.disk[g.part]])
    else r.(phase := RRenameRefused(index))
  }

  predicate SettledState(s: Option<T.State>) {
    s in {Some(T.DATA_COMMITTED), Some(T.COMPLETED), Some(T.FAILED_CONFIRMED), Some(T.CANCELED)}
  }

  predicate Acceptable(g: Setup, b: Bytes) { |b| == g.offer.size && g.sha(b) == g.offer.sha256 }

  /**
   * The gateway stops, and its recovery runs to the end when it comes back: a settled record
   * is left alone, a record of the file in place is committed, any other one has failed.
   * `same`: a part that still exists is the file under the recorded name.
   */
  function ReceiverStopped(g: Setup, r: Receiver, same: bool): Receiver {
    if r.phase.RStart? || r.phase.RAcked? then r
    else if SettledState(r.state) then r.(phase := RFailed)
    else if r.state == Some(T.COMMITTING) && r.path.Some? && r.path.value in r.disk
            && Acceptable(g, r.disk[r.path.value]) && (g.part in r.disk ==> same)
    then r.(phase := RFailed, state := Some(T.DATA_COMMITTED), disk := r.disk - {g.part})
    else r.(phase := RFailed, state := Some(T.FAILED_CONFIRMED), path := None, disk := r.disk - {g.part})
  }

  datatype ReceiverEvent =
    | RPrepare | RWriteHello | RRead(n: nat) | RTakeRemainder | RConsume(n: nat) | RVerify
    | RSaveCommitting | RLink | RRename | ROpenCopy | RCopySome(n: nat) | RRemovePart | RSaveCommitted | RAck
    | RFail(canceled: bool, tell: bool) | RStop(same: bool)

  function ReceiverStep(g: Setup, r: Receiver, inbound: Bytes, e: ReceiverEvent): Receiver {
    match e
    case RPrepare => if r.phase == RStart then r.(phase := RPrepared, state := Some(T.PREPARING)) else r
    case RWriteHello =>
      if r.phase == RPrepared then
        r.(phase := RAwaitRegistered, written := LineOf(g, ReceiverHello(g.offer)))
      else r
    case RRead(n) => ReceiverRead(g, r, inbound, n)
    case RTakeRemainder =>
      if r.phase == RRemainder then ReceiverConsume(g, r.(buffer := []), r.buffer) else r
    case RConsume(n) =>
      if r.phase == RReceiving && |r.received| < g.offer.size && r.got + n <= |inbound| then
        ReceiverConsume(g, r.(got := r.got + n), inbound[r.got..r.got + n])
      else r
    case RVerify =>
      if r.phase == RReceiving && |r.received| == g.offer.size then
        if g.sha(r.received) == g.offer.sha256 then r.(phase := RVerified(0)) else ReceiverFail(g, r, false, true)
      else r
    case RSaveCommitting =>
      if r.phase.RVerified? && r.phase.next < 10_000 then
        r.(phase := RCommitting(r.phase.next), state := Some(T.COMMITTING), path := Some(g.candidate(r.phase.next)))
      else r
    case RLink =>
      if r.phase.RCommitting? && g.part in r.disk then LinkTried(g, r, g.candidate(r.phase.index), r.phase.index) else r
    case RRename =>
      if r.phase.RLinkRefused? && g.part in r.disk then RenameTried(g, r, g.candidate(r.phase.index), r.phase.index)
      else r
    case ROpenCopy =>
      if r.phase.RRenameRefused? && g.part in r.disk then
        r.(phase := RCopying(g.candidate(r.phase.index)), disk := r.disk[g.candidate(r.phase.index) := []])
      else r
    case RCopySome(n) =>
      if r.phase.RCopying? && g.part in r.disk && n <= |r.disk[g.part]| then
        r.(phase := if n == |r.disk[g.part]| then RPlaced(r.phase.path) else r.phase,
           disk := r.disk[r.phase.path := r.disk[g.part][..n]])
      else r
    case RRemovePart =>
      if r.phase.RPlaced? then r.(phase := RPartGone(r.phase.path), disk := r.disk - {g.part}) else r
    case RSaveCommitted =>
      if r.phase.RPartGone? then
        r.(phase := RCommitted(r.phase.path), state := Some(T.DATA_COMMITTED), path := Some(r.phase.path))
      else r
    case RAck =>
      if r.phase.RCommitted? then
        r.(phase := RAcked(r.phase.path), written := r.written + LineOf(g, AckMsg(g.offer, r.phase.path)))
      else r
    case RFail(canceled, tell) => ReceiverFail(g, r, canceled, tell)
    case RStop(same) => ReceiverStopped(g, r, same)
  }

  // ---- The whole system --------------------------------------------------------------

  datatype Happening =
    | AtRelay(e: Event)
    | AtSender(se: SenderEvent)
    | AtReceiver(re: ReceiverEvent)
    | OtherFile(path: Path, content: Option<Bytes>)

  /** The next bytes of a stream of which `taken` have been delivered. */
  predicate NextBytes(written: Bytes, taken: nat, chunk: Bytes) {
    taken + |chunk| <= |written| && chunk == written[taken..taken + |chunk|]
  }

  /**
   * TCP delivers to the relay what the endpoints wrote, in order, in any chunks; any other
   * client may send anything but a header with this transfer's ticket, which it does not
   * know.
   */
  predicate CanHappen(g: Setup, sys: System, e: Event) {
    e.Data? ==>
      if e.x == S then NextBytes(sys.snd.written, sys.snd.taken, e.chunk)
      else if e.x == R then NextBytes(sys.rcv.written, sys.rcv.taken, e.chunk)
      else !PresentsTicket(g, sys, e)
  }

  predicate PresentsTicket(g: Setup, sys: System, e: Event)
    requires e.Data?
  {
    var verdict := Classify(ConnOf(sys.relay, e.x).buffered + e.chunk, g.cfg.headerBytes);
    verdict.Complete? && match g.cfg.parse(verdict.header)
                         case None => false
                         case Some(h) => h.token == Some(g.offer.ticket)
  }

  /** Files this transfer currently relies on. */
  function InUse(g: Setup, r: Receiver): set<Path> {
    {g.part} + (if r.state == Some(T.DATA_COMMITTED) && r.path.Some? then {r.path.value} else {}) +
    match r.phase
    case RCopying(p) => {p}
    case RPlaced(p) => {p}
    case RPartGone(p) => {p}
    case RCommitted(p) => {p}
    case RAcked(p) => {p}
    case _ => {}
  }

  /**
   * The relay took an event and is now `relay`; `base` is how far it had read the
   * receiver's socket when that joined a session.
   */
  function AfterRelay(sys: System, e: Event, relay: Relay): System {
    var taken := sys.rcv.taken + |Delivered(sys.relay, e, R)|;
    System(
      relay,
      sys.snd.(taken := sys.snd.taken + |Delivered(sys.relay, e, S)|),
      sys.rcv.(taken := taken,
               base := if ConnOf(sys.relay, R).session.None? && ConnOf(relay, R).session.Some? then taken
                       else sys.rcv.base))
  }

  /** Another program writes or removes a file. */
  function WithFile(r: Receiver, path: Path, content: Option<Bytes>): Receiver {
    r.(disk := if content.None? then r.disk - {path} else r.disk[path := content.value])
  }

  function Happens(g: Setup, sys: System, h: Happening): System {
    match h
    case AtRelay(e) => if CanHappen(g, sys, e) then AfterRelay(sys, e, Step(sys.relay, e)) else sys
    case AtSender(se) => sys.(snd := SenderStep(g, sys.snd, Inbound(g, sys, S), se))
    case AtReceiver(re) => sys.(rcv := ReceiverStep(g, sys.rcv, Inbound(g, sys, R), re))
    case OtherFile(path, content) =>
      if path in InUse(g, sys.rcv) then sys else sys.(rcv := WithFile(sys.rcv, path, content))
  }

  function RunSystem(g: Setup, sys: System, run: seq<Happening>): System
    decreases run
  {
    if run == [] then sys else RunSystem(g, Happens(g, sys, run[0]), run[1..])
  }
}
