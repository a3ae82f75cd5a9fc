/**
 * The file relay as a state machine: pairing of two sockets by ticket, forwarding of
 * exactly the declared payload, the receiver's acknowledgement, and the global
 * accounts, under timers, disconnects and failures.
 *
 * A session object is a position in `heap`; the relay's session table maps an id to such
 * a position, so `sessions.get(id) === session` is a comparison of positions. Sockets
 * are numbers. Time is an input that never runs backwards.
 */
module FileRelay {
  import opened Prelude
  import opened Framing

  /** The fields the relay and the endpoints read out of a JSON object. */
  datatype Json = Json(
    version: Option<int>, typ: Option<string>, id: Option<string>, token: Option<string>,
    role: Option<string>, sourceDevice: Option<string>, targetDevice: Option<string>,
    size: Option<int>, sha256: Option<string>, ok: Option<bool>, transferId: Option<string>,
    path: Option<string>, name: Option<string>, code: Option<string>)

  const EMPTY := Json(None, None, None, None, None, None, None, None, None, None, None, None, None, None)

  function RegisteredMsg(id: string): Json { EMPTY.(typ := Some("registered"), id := Some(id)) }

  function ReadyMsg(id: string): Json { EMPTY.(typ := Some("ready"), id := Some(id)) }

  function MetadataMsg(id: string, size: nat, sha256: string): Json {
    EMPTY.(typ := Some("metadata"), id := Some(id), size := Some(size), sha256 := Some(sha256))
  }

  function RefusalMsg(code: string): Json { EMPTY.(ok := Some(false), code := Some(code)) }

  function FailureMsg(id: string): Json { RefusalMsg("TRANSFER_FAILED").(id := Some(id)) }

  /** The environment's settings, and the JSON parser (None: not an object). */
  datatype Config = Config(
    parse: Bytes -> Option<Json>,
    maxBytes: nat, headerBytes: nat, pairingMs: nat, stallMs: nat, maxDurationMs: nat,
    maxSessions: nat, maxConnections: nat, maxInFlight: nat)

  type Sock = nat

  /** One write to a socket. */
  datatype Out = Line(msg: Json) | Payload(bytes: Bytes)

  datatype Phase = PAIRING | TRANSFERRING | WAIT_ACK | DONE | FAILED

  /**
   * A relay session. The last four fields record what passed through it: the bytes its
   * sender delivered after the header line, the bytes its receiver delivered as the
   * acknowledgement, and the writes to both sockets. `releases` counts releaseSession
   * calls that returned a non-zero account.
   */
  datatype Session = Session(
    id: string, token: string, phase: Phase, createdAt: int,
    sender: Option<Sock>, receiver: Option<Sock>,
    receiverSource: string, receiverTarget: string, sourceDevice: string, targetDevice: string,
    size: nat, sha256: string, accounted: nat, remaining: nat, remainder: Bytes,
    pairingTimer: Option<int>, stallTimer: Option<int>, deadlineTimer: Option<int>,
    senderIn: Bytes, ackIn: Bytes, toReceiver: seq<Out>, toSender: seq<Out>, releases: nat)

  function NewSession(id: string, token: string, now: int, cfg: Config): Session {
    Session(id, token, PAIRING, now, None, None, "", "", "", "", 0, "", 0, 0, [],
            Some(now + cfg.pairingMs), None, None, [], [], [], [], 0)
  }

  /** Which `data` listener a socket carries. */
  datatype Mode = Header | Quiet | Consuming | Overrun | AckHeader

  datatype Conn = Conn(
    mode: Mode, buffered: Bytes, session: Option<nat>, hello: Option<Json>, ended: bool, out: seq<Out>)

  const FRESH := Conn(Header, [], None, None, false, [])

  datatype Relay = Relay(
    cfg: Config, now: int, sockets: set<Sock>, conns: map<Sock, Conn>,
    heap: seq<Session>, sessions: map<string, nat>, inFlight: nat)

  function ConnOf(st: Relay, x: Sock): Conn {
    if x in st.conns then st.conns[x] else FRESH.(mode := Quiet)
  }

  predicate Live(st: Relay, u: nat) {
    u < |st.heap| && st.heap[u].id in st.sessions && st.sessions[st.heap[u].id] == u
  }

  /** Everything written to a socket, before and after it joined a session. */
  function Stream(st: Relay, x: Sock): seq<Out> {
    var c := ConnOf(st, x);
    if c.session.Some? && c.session.value < |st.heap| then
      var s := st.heap[c.session.value];
      if s.sender == Some(x) then s.toSender else s.toReceiver
    else c.out
  }

  // ---- Validation --------------------------------------------------------------------

  predicate Alphanumeric(c: char) { 'A' <= c <= 'Z' || 'a' <= c <= 'z' || '0' <= c <= '9' }

  predicate ValidId(v: Option<string>) {
    v.Some? && 1 <= |v.value| <= 128 && forall c <- v.value :: Alphanumeric(c) || c in "._-"
  }

  predicate ValidTicket(v: Option<string>) {
    v.Some? && 32 <= |v.value| <= 256 && forall c <- v.value :: Alphanumeric(c) || c in "_-"
  }

  predicate ValidDevice(v: Option<string>) {
    v.Some? && 1 <= |v.value| <= 256 && forall c <- v.value :: Alphanumeric(c) || c in "._:-"
  }

  predicate ValidSha(v: Option<string>) {
    v.Some? && |v.value| == 64 && forall c <- v.value :: 'a' <= c <= 'f' || '0' <= c <= '9'
  }

  const MAX_SAFE_INTEGER := 0x1F_FFFF_FFFF_FFFF

  predicate ValidSize(v: Option<int>, cfg: Config) {
    v.Some? && 0 <= v.value <= MAX_SAFE_INTEGER && v.value <= cfg.maxBytes
  }

  predicate ValidHello(h: Json) {
    && h.version == Some(1) && ValidId(h.id) && ValidTicket(h.token)
    && (h.role == Some("sender") || h.role == Some("receiver"))
    && ValidDevice(h.sourceDevice) && ValidDevice(h.targetDevice)
  }

  predicate ValidAck(s: Session, ack: Json) {
    ack.ok == Some(true) && ack.transferId == Some(s.id) && ack.size == Some(s.size) && ack.sha256 == Some(s.sha256)
  }

  // ---- Writing and closing -----------------------------------------------------------

  function SetMode(st: Relay, x: Sock, mode: Mode, buffered: Bytes): Relay {
    if x in st.conns then st.(conns := st.conns[x := st.conns[x].(mode := mode, buffered := buffered)]) else st
  }

  predicate Writable(st: Relay, x: Sock) { x in st.sockets && x in st.conns && !st.conns[x].ended }

  function End(st: Relay, x: Sock): Relay {
    if Writable(st, x) then st.(conns := st.conns[x := st.conns[x].(ended := true)]) else st
  }

  /** closeSocket on a socket that belongs to no session. */
  function Refuse(st: Relay, x: Sock, code: string): Relay {
    if Writable(st, x) then
      st.(conns := st.conns[x := st.conns[x].(ended := true, out := st.conns[x].out + [Line(RefusalMsg(code))])])
    else st
  }

  /** The write closeSocket makes on an open socket, if it was given a response. */
  function Goodbye(st: Relay, x: Option<Sock>, response: Option<Json>): seq<Out> {
    if x.Some? && Writable(st, x.value) && response.Some? then [Line(response.value)] else []
  }

  /**
   * The session ends in `phase`: its table entry, timers and account are released, and
   * both sockets are closed with the given responses.
   */
  function Finish(st: Relay, u: nat, phase: Phase, toSender: Option<Json>, toReceiver: Option<Json>): Relay
    requires u < |st.heap|
  {
    var s := st.heap[u];
    var released := Released(s).(
      phase := phase,
      toSender := s.toSender + Goodbye(st, s.sender, toSender),
      toReceiver := s.toReceiver + Goodbye(st, s.receiver, toReceiver));
    CloseBoth(st.(
      heap := st.heap[u := released],
      sessions := Without(st.sessions, s.id, u),
      inFlight := if s.accounted <= st.inFlight then st.inFlight - s.accounted else 0), s)
  }

  /** Both sockets of a session are ended. */
  function CloseBoth(st: Relay, s: Session): Relay {
    var st1 := if s.sender.Some? then End(st, s.sender.value) else st;
    if s.receiver.Some? then End(st1, s.receiver.value) else st1
  }

  function Without(m: map<string, nat>, id: string, u: nat): map<string, nat> {
    if id in m && m[id] == u then m - {id} else m
  }

  function Released(s: Session): Session {
    s.(pairingTimer := None, stallTimer := None, deadlineTimer := None, accounted := 0,
       releases := if s.accounted != 0 then s.releases + 1 else s.releases)
  }

  function Destroy(st: Relay, id: string): Relay {
    if id in st.sessions && st.sessions[id] < |st.heap| then
      Finish(st, st.sessions[id], FAILED, Some(FailureMsg(id)), Some(FailureMsg(id)))
    else st
  }

  // ---- Transfer ----------------------------------------------------------------------

  /** waitForAck, reached when the last payload byte was forwarded. */
  function WaitForAck(st: Relay, u: nat): Relay
    requires u < |st.heap| && st.heap[u].sender.Some? && st.heap[u].receiver.Some?
  {
    var s := st.heap[u];
    var st1 := st.(heap := st.heap[u := s.(phase := WAIT_ACK, stallTimer := Some(st.now + st.cfg.stallMs))]);
    SetMode(SetMode(st1, s.sender.value, Overrun, []), s.receiver.value, AckHeader, [])
  }

  /** The session after `consume` passed a chunk on. */
  function Passed(s: Session, chunk: Bytes, stall: int): Session
    requires |chunk| <= s.remaining
  {
    s.(remaining := s.remaining - |chunk|, stallTimer := Some(stall),
       toReceiver := if chunk == [] then s.toReceiver else s.toReceiver + [Payload(chunk)])
  }

  /** The `consume` listener of a live transfer, after the chunk was taken from the sender. */
  function Consume(st: Relay, u: nat, chunk: Bytes): Relay
    requires u < |st.heap| && st.heap[u].sender.Some? && st.heap[u].receiver.Some?
  {
    if |chunk| > st.heap[u].remaining then Destroy(st, st.heap[u].id)
    else
      var st1 := st.(heap := st.heap[u := Passed(st.heap[u], chunk, st.now + st.cfg.stallMs)]);
      if st1.heap[u].remaining == 0 then WaitForAck(st1, u) else st1
  }

  /** The transfer begins: both sides are told, the pairing timer gives way to the others. */
  function Begun(st: Relay, u: nat): Relay
    requires u < |st.heap| && st.heap[u].sender.Some?
  {
    var s := st.heap[u];
    var s1 := s.(
      phase := TRANSFERRING, remaining := s.size, pairingTimer := None,
      deadlineTimer := Some(st.now + st.cfg.maxDurationMs),
      stallTimer := Some(st.now + st.cfg.stallMs),
      toReceiver := s.toReceiver + [Line(MetadataMsg(s.id, s.size, s.sha256))],
      toSender := s.toSender + [Line(ReadyMsg(s.id))]);
    SetMode(st.(heap := st.heap[u := s1]), s.sender.value, Consuming, [])
  }

  function StartTransfer(st: Relay, u: nat): Relay
    requires u < |st.heap|
  {
    var s := st.heap[u];
    if s.sender.None? || s.receiver.None? || s.phase != PAIRING then st
    else if s.remainder != [] then Consume(Begun(st, u), u, s.remainder)
    else if s.size == 0 then WaitForAck(Begun(st, u), u)
    else Begun(st, u)
  }

  // ---- Registration ------------------------------------------------------------------

  /** Both sides present: mirrored devices start the transfer, others fail it. */
  function Pair(st: Relay, u: nat): Relay
    requires u < |st.heap|
  {
    var s := st.heap[u];
    if s.sender.Some? && s.receiver.Some?
       && (s.sourceDevice != s.receiverTarget || s.targetDevice != s.receiverSource)
    then Destroy(st, s.id)
    else StartTransfer(st, u)
  }

  function WithReceiver(s: Session, x: Sock, h: Json): Session
    requires ValidHello(h)
  {
    s.(receiver := Some(x), receiverSource := h.sourceDevice.value, receiverTarget := h.targetDevice.value,
       toReceiver := s.toReceiver + [Line(RegisteredMsg(s.id))])
  }

  function WithSender(s: Session, x: Sock, h: Json, rest: Bytes): Session
    requires ValidHello(h) && h.size.Some? && h.size.value >= 0 && h.sha256.Some?
  {
    s.(sender := Some(x), sourceDevice := h.sourceDevice.value, targetDevice := h.targetDevice.value,
       size := h.size.value, sha256 := h.sha256.value, accounted := h.size.value,
       remainder := rest, senderIn := rest)
  }

  /** Socket `x` becomes a party of session `u`, whose record is now `s`. */
  function Membered(st: Relay, x: Sock, u: nat, h: Json, s: Session, admitted: nat): Relay
    requires u < |st.heap| && x in st.conns
  {
    st.(inFlight := st.inFlight + admitted, heap := st.heap[u := s],
        conns := st.conns[x := st.conns[x].(session := Some(u), hello := Some(h))])
  }

  function JoinReceiver(st: Relay, x: Sock, u: nat, h: Json): Relay
    requires u < |st.heap| && x in st.conns && ValidHello(h)
  {
    var s := st.heap[u];
    if s.receiver.Some? then Refuse(st, x, "DUPLICATE_ROLE")
    else if !Writable(st, x) then Destroy(st, s.id) // the write of `registered` fails in the same tick
    else Pair(Membered(st, x, u, h, WithReceiver(s, x, h), 0), u)
  }

  function JoinSender(st: Relay, x: Sock, u: nat, h: Json, rest: Bytes): Relay
    requires u < |st.heap| && x in st.conns && ValidHello(h)
  {
    var s := st.heap[u];
    if !ValidSize(h.size, st.cfg) || !ValidSha(h.sha256) then Refuse(st, x, "INVALID_METADATA")
    else if s.sender.Some? then Refuse(st, x, "DUPLICATE_ROLE")
    else if st.inFlight + h.size.value > st.cfg.maxInFlight then
      var refused := Refuse(st, x, "BUSY");
      if s.receiver.None? then
        refused.(heap := st.heap[u := Released(s)], sessions := Without(st.sessions, s.id, u))
      else refused
    else if !Writable(st, x) then Destroy(st, s.id) // a socket already ended cannot take `ready`
    else Pair(Membered(st, x, u, h, WithSender(s, x, h, rest), h.size.value), u)
  }

  function RegisterIn(st: Relay, x: Sock, u: nat, h: Json, rest: Bytes): Relay
    requires u < |st.heap| && x in st.conns && ValidHello(h)
  {
    if st.heap[u].token != h.token.value then Refuse(st, x, "TICKET_MISMATCH")
    else if st.heap[u].phase != PAIRING then Refuse(st, x, "DUPLICATE_ROLE")
    else if h.role == Some("receiver") then JoinReceiver(st, x, u, h)
    else JoinSender(st, x, u, h, rest)
  }

  /** A new session takes the next place in the heap. */
  function Opened(st: Relay, id: string, token: string): Relay {
    st.(heap := st.heap + [NewSession(id, token, st.now, st.cfg)], sessions := st.sessions[id := |st.heap|])
  }

  function Register(st: Relay, x: Sock, h: Json, rest: Bytes): Relay
    requires x in st.conns
  {
    if !ValidHello(h) then Refuse(st, x, "INVALID_REGISTRATION")
    else if h.id.value !in st.sessions && |st.sessions| >= st.cfg.maxSessions then Refuse(st, x, "BUSY")
    else
      var st1 := if h.id.value in st.sessions then st else Opened(st, h.id.value, h.token.value);
      var u := st1.sessions[h.id.value];
      if u < |st1.heap| then RegisterIn(st1, x, u, h, rest) else st
  }

  // ---- Events ------------------------------------------------------------------------

  datatype Event =
    | Connect(x: Sock)
    | Data(x: Sock, chunk: Bytes)
    | EndOfInput(x: Sock)
    | SocketError(x: Sock)
    | Close(x: Sock)
    | HeaderTimeout(x: Sock)
    | Fire(id: string)
    | Tick(now: int)

  function OnHeaderData(st: Relay, x: Sock, chunk: Bytes): Relay
    requires x in st.conns
  {
    var buffered := st.conns[x].buffered + chunk;
    match Classify(buffered, st.cfg.headerBytes)
    case Pending => SetMode(st, x, Header, buffered)
    case TooLarge => Refuse(SetMode(st, x, Quiet, buffered), x, "INVALID_REGISTRATION")
    case Complete(header, rest) =>
      var quiet := SetMode(st, x, Quiet, buffered);
      match st.cfg.parse(header)
      case None => Refuse(quiet, x, "INVALID_REGISTRATION")
      case Some(h) => Register(quiet, x, h, rest)
  }

  /** The session heard bytes from its receiver, whose listener is now `mode`. */
  function HeardAck(st: Relay, x: Sock, u: nat, buffered: Bytes, mode: Mode): Relay
    requires u < |st.heap|
  {
    SetMode(st.(heap := st.heap[u := st.heap[u].(ackIn := buffered)]), x, mode, buffered)
  }

  /** The session took a chunk from its sender. */
  function HeardPayload(st: Relay, u: nat, chunk: Bytes): Relay
    requires u < |st.heap|
  {
    st.(heap := st.heap[u := st.heap[u].(senderIn := st.heap[u].senderIn + chunk)])
  }

  /** A chunk of the acknowledgement of a live session. */
  function OnLiveAck(st: Relay, x: Sock, u: nat, buffered: Bytes): Relay
    requires u < |st.heap|
  {
    var quiet := HeardAck(st, x, u, buffered, Quiet);
    match Classify(buffered, st.cfg.headerBytes)
    case Pending => HeardAck(st, x, u, buffered, AckHeader)
    case TooLarge => Destroy(quiet, st.heap[u].id)
    case Complete(header, _) =>
      match st.cfg.parse(header)
      case None => Destroy(quiet, st.heap[u].id)
      case Some(ack) =>
        if ValidAck(st.heap[u], ack) then Finish(quiet, u, DONE, Some(ack), None)
        else Destroy(quiet, st.heap[u].id)
  }

  /** The same listener, left over from a session that has ended: it can only fail an id. */
  function OnStaleAck(st: Relay, x: Sock, u: nat, buffered: Bytes): Relay
    requires u < |st.heap|
  {
    var quiet := SetMode(st, x, Quiet, buffered);
    match Classify(buffered, st.cfg.headerBytes)
    case Pending => SetMode(st, x, AckHeader, buffered)
    case TooLarge => Destroy(quiet, st.heap[u].id)
    case Complete(header, _) =>
      if st.cfg.parse(header).None? then Destroy(quiet, st.heap[u].id) else quiet
  }

  /** The payload listener of session `u`. */
  function OnPayload(st: Relay, u: nat, chunk: Bytes): Relay
    requires u < |st.heap|
  {
    if Live(st, u) && st.heap[u].phase == TRANSFERRING && st.heap[u].sender.Some? && st.heap[u].receiver.Some?
    then Consume(HeardPayload(st, u, chunk), u, chunk) else st
  }

  /** The listener for bytes after the payload: they fail the session's id. */
  function OnOverrun(st: Relay, x: Sock, u: nat, chunk: Bytes): Relay
    requires u < |st.heap|
  {
    Destroy(SetMode(if Live(st, u) then HeardPayload(st, u, chunk) else st, x, Quiet, []), st.heap[u].id)
  }

  /** A chunk on a socket whose listener belongs to session `u`. */
  function OnSessionData(st: Relay, x: Sock, u: nat, chunk: Bytes): Relay
    requires x in st.conns && u < |st.heap|
  {
    match st.conns[x].mode
    case Consuming => OnPayload(st, u, chunk)
    case Overrun => OnOverrun(st, x, u, chunk)
    case AckHeader =>
      var buffered := st.conns[x].buffered + chunk;
      if Live(st, u) then OnLiveAck(st, x, u, buffered) else OnStaleAck(st, x, u, buffered)
    case _ => st
  }

  function OnData(st: Relay, x: Sock, chunk: Bytes): Relay {
    if x !in st.sockets || x !in st.conns || chunk == [] then st
    else
      var c := st.conns[x];
      if c.mode == Header then OnHeaderData(st, x, chunk)
      else if c.session.Some? && c.session.value < |st.heap| then OnSessionData(st, x, c.session.value, chunk)
      else st
  }

  /** The id the socket registered under, looked up again by its handlers. */
  function SessionId(st: Relay, x: Sock): Option<string> {
    var c := ConnOf(st, x);
    if c.session.Some? && c.session.value < |st.heap| then Some(st.heap[c.session.value].id) else None
  }

  function DestroyOf(st: Relay, x: Sock): Relay {
    match SessionId(st, x)
    case None => st
    case Some(id) => Destroy(st, id)
  }

  function OnEnd(st: Relay, x: Sock): Relay {
    if x !in st.sockets || x !in st.conns then st
    else if st.conns[x].mode == Header then Refuse(SetMode(st, x, Quiet, []), x, "INVALID_REGISTRATION")
    else if st.conns[x].mode == AckHeader then DestroyOf(SetMode(st, x, Quiet, []), x)
    else st
  }

  /** No armed timer of a live session lies before `t`. */
  predicate NothingDueBefore(st: Relay, t: int) {
    forall id <- st.sessions :: st.sessions[id] < |st.heap| ==> NotDue(st.heap[st.sessions[id]], t)
  }

  predicate NotDue(s: Session, t: int) {
    && (s.pairingTimer.Some? ==> t <= s.pairingTimer.value)
    && (s.stallTimer.Some? ==> t <= s.stallTimer.value)
    && (s.deadlineTimer.Some? ==> t <= s.deadlineTimer.value)
  }

  /** Some timer of the session has run out. */
  predicate Due(s: Session, t: int) {
    || (s.pairingTimer.Some? && s.pairingTimer.value <= t)
    || (s.stallTimer.Some? && s.stallTimer.value <= t)
    || (s.deadlineTimer.Some? && s.deadlineTimer.value <= t)
  }

  /**
   * One turn of the relay's event loop. An event that cannot happen in the state leaves
   * it unchanged. The clock cannot pass an armed timer: the timer fires first.
   */
  function Step(st: Relay, e: Event): Relay {
    match e
    case Connect(x) =>
      if x in st.conns then st
      else if |st.sockets| >= st.cfg.maxConnections then
        st.(conns := st.conns[x := FRESH.(mode := Quiet, ended := true, out := [Line(RefusalMsg("BUSY"))])])
      else st.(sockets := st.sockets + {x}, conns := st.conns[x := FRESH])
    case Data(x, chunk) => OnData(st, x, chunk)
    case EndOfInput(x) => OnEnd(st, x)
    case SocketError(x) => if x in st.sockets then DestroyOf(End(st, x), x) else st
    case Close(x) => if x in st.sockets then DestroyOf(st.(sockets := st.sockets - {x}), x) else st
    case HeaderTimeout(x) => if SessionId(st, x).None? then Refuse(st, x, "HEADER_TIMEOUT") else st
    case Fire(id) =>
      if id in st.sessions && st.sessions[id] < |st.heap| && Due(st.heap[st.sessions[id]], st.now)
      then Destroy(st, id) else st
    case Tick(now) => if st.now <= now && NothingDueBefore(st, now) then st.(now := now) else st
  }

  function Run(st: Relay, events: seq<Event>): Relay
    decreases events
  {
    if events == [] then st else Run(Step(st, events[0]), events[1..])
  }

  function Start(cfg: Config, now: int): Relay { Relay(cfg, now, {}, map[], [], map[], 0) }
}
