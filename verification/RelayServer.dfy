/**
 * The relay as the program runs it: a table of sessions and a counter that the socket
 * handlers update in place. Each event takes the server exactly where the state machine
 * of FileRelay goes, and so does any sequence of events from the empty server on: what is
 * proved of the machine's runs holds of this server.
 */
module RelayServer {
  import opened Prelude
  import opened Framing
  import opened FileRelay
  import opened RelayInvariants

  ghost predicate Distinct(s: Session) { s.sender.Some? ==> s.sender != s.receiver }

  ghost predicate Destroyable(st: Relay, id: string) {
    id in st.sessions ==>
      st.sessions[id] < |st.heap| && st.heap[st.sessions[id]].id == id && Distinct(st.heap[st.sessions[id]])
  }

  lemma AtWork(st: Relay, u: nat)
    requires OkBut(st, u)
    ensures Distinct(st.heap[u]) && Destroyable(st, st.heap[u].id)
  {
    var s := st.heap[u];
    if s.sender.Some? { assert Member(st, u, s.sender.value, "sender"); }
    if s.receiver.Some? { assert Member(st, u, s.receiver.value, "receiver"); }
  }

  lemma Resting(st: Relay, id: string)
    requires RelayOk(st)
    ensures Destroyable(st, id)
  {
    if id in st.sessions { assert EntryOk(st, st.sessions[id]); }
  }

  ghost predicate DestroyableFor(st: Relay, x: Sock) {
    SessionId(st, x).Some? ==> Destroyable(st, SessionId(st, x).value)
  }

  /** Ending, closing or silencing a socket leaves every session as it was. */
  lemma RestingFor(st: Relay, st': Relay, x: Sock)
    requires RelayOk(st) && st'.heap == st.heap && st'.sessions == st.sessions
    ensures DestroyableFor(st', x)
  {
    if SessionId(st', x).Some? { Resting(st, SessionId(st', x).value); }
  }

  lemma OverrunReady(st: Relay, x: Sock, u: nat, chunk: Bytes)
    requires RelayOk(st) && Live(st, u) && x in st.conns && st.conns[x].session == Some(u)
    requires st.conns[x].mode == Overrun
    ensures var quiet := SetMode(HeardPayload(st, u, chunk), x, Quiet, []);
            u < |quiet.heap| && Destroyable(quiet, quiet.heap[u].id)
  {
    SenderOf(st, x, u);
    HeardPayloadBut(st, x, u, chunk);
    QuietBut(HeardPayload(st, u, chunk), x, u);
    AtWork(SetMode(HeardPayload(st, u, chunk), x, Quiet, []), u);
  }

  lemma AckReady(st: Relay, x: Sock, u: nat, buffered: Bytes)
    requires RelayOk(st) && Live(st, u) && x in st.conns && st.conns[x].session == Some(u)
    requires st.conns[x].mode == AckHeader
    ensures var quiet := HeardAck(st, x, u, buffered, Quiet);
            u < |quiet.heap| && Destroyable(quiet, quiet.heap[u].id) && Distinct(quiet.heap[u])
  {
    LiveAwaiting(st, x, u);
    HeardAckBut(st, x, u, buffered, Quiet);
    AtWork(HeardAck(st, x, u, buffered, Quiet), u);
  }

  class Server {
    const cfg: Config
    var now: int
    var sockets: set<Sock>
    var conns: map<Sock, Conn>
    var heap: seq<Session>
    var sessions: map<string, nat>
    var inFlightBytes: nat

    constructor (cfg: Config, now: int)
      ensures State() == Start(cfg, now) && RelayOk(State())
    {
      this.cfg := cfg;
      this.now := now;
      sockets, conns, heap, sessions, inFlightBytes := {}, map[], [], map[], 0;
      RunOk(cfg, now, []);
    }

    ghost function State(): Relay
      reads this
    {
      Relay(cfg, now, sockets, conns, heap, sessions, inFlightBytes)
    }

    method ReleaseSession(u: nat)
      requires u < |heap|
      modifies this`heap, this`sessions, this`inFlightBytes
      ensures heap == old(heap)[u := Released(old(heap)[u])]
      ensures sessions == Without(old(sessions), old(heap)[u].id, u)
      ensures inFlightBytes == if old(heap)[u].accounted <= old(inFlightBytes)
                               then old(inFlightBytes) - old(heap)[u].accounted else 0
    {
      var s := heap[u];
      if s.id in sessions && sessions[s.id] == u {
        sessions := sessions - {s.id};
      }
      s := s.(pairingTimer := None, stallTimer := None, deadlineTimer := None);
      if s.accounted != 0 {
        inFlightBytes := if inFlightBytes < s.accounted then 0 else inFlightBytes - s.accounted;
        s := s.(accounted := 0, releases := s.releases + 1);
      }
      heap := heap[u := s];
    }

    /** closeSocket: the response is written and the writing side ended, once. */
    method CloseSocket(x: Option<Sock>, response: Option<Json>) returns (written: seq<Out>)
      modifies this`conns
      ensures written == Goodbye(old(State()), x, response)
      ensures State() == if x.Some? then End(old(State()), x.value) else old(State())
    {
      written := [];
      if x.Some? && x.value in sockets && x.value in conns && !conns[x.value].ended {
        if response.Some? {
          written := [Line(response.value)];
        }
        conns := conns[x.value := conns[x.value].(ended := true)];
      }
    }

    /** A socket that belongs to no session is refused. */
    method RefuseSocket(x: Sock, code: string)
      modifies this`conns
      ensures State() == Refuse(old(State()), x, code)
    {
      if x in sockets && x in conns && !conns[x].ended {
        conns := conns[x := conns[x].(ended := true, out := conns[x].out + [Line(RefusalMsg(code))])];
      }
    }

    method DestroySession(id: string)
      requires Destroyable(State(), id)
      modifies this`heap, this`sessions, this`inFlightBytes, this`conns
      ensures State() == Destroy(old(State()), id)
    {
      if id !in sessions {
        return;
      }
      var u := sessions[id];
      var s := heap[u];
      ReleaseSession(u);
      var bye := Some(FailureMsg(id));
      var toSender := CloseSocket(s.sender, bye);
      var toReceiver := CloseSocket(s.receiver, bye);
      heap := heap[u := heap[u].(phase := FAILED, toSender := s.toSender + toSender,
                                 toReceiver := s.toReceiver + toReceiver)];
    }

    /** The acknowledgement was valid: the session is done and the sender hears of it. */
    method CompleteSession(u: nat, ack: Json)
      requires u < |heap| && Distinct(heap[u])
      modifies this`heap, this`sessions, this`inFlightBytes, this`conns
      ensures State() == Finish(old(State()), u, DONE, Some(ack), None)
    {
      var s := heap[u];
      ReleaseSession(u);
      var toSender := CloseSocket(s.sender, Some(ack));
      var toReceiver := CloseSocket(s.receiver, None);
      heap := heap[u := heap[u].(phase := DONE, toSender := s.toSender + toSender,
                                 toReceiver := s.toReceiver + toReceiver)];
    }

    method WaitForAck(u: nat)
      requires u < |heap| && heap[u].sender.Some? && heap[u].receiver.Some?
      modifies this`heap, this`conns
      ensures State() == FileRelay.WaitForAck(old(State()), u)
    {
      var s := heap[u];
      heap := heap[u := s.(phase := WAIT_ACK, stallTimer := Some(now + cfg.stallMs))];
      if s.sender.value in conns {
        conns := conns[s.sender.value := conns[s.sender.value].(mode := Overrun, buffered := [])];
      }
      if s.receiver.value in conns {
        conns := conns[s.receiver.value := conns[s.receiver.value].(mode := AckHeader, buffered := [])];
      }
    }

    /** The data listener of a live transfer. */
    method Consume(u: nat, chunk: Bytes)
      requires u < |heap| && Destroyable(State(), heap[u].id) && heap[u].sender.Some? && heap[u].receiver.Some?
      modifies this`heap, this`sessions, this`inFlightBytes, this`conns
      ensures State() == FileRelay.Consume(old(State()), u, chunk)
    {
      var s := heap[u];
      if |chunk| > s.remaining {
        DestroySession(s.id);
        return;
      }
      s := s.(remaining := s.remaining - |chunk|, stallTimer := Some(now + cfg.stallMs));
      if |chunk| != 0 {
        s := s.(toReceiver := s.toReceiver + [Payload(chunk)]);
      }
      heap := heap[u := s];
      if s.remaining == 0 {
        WaitForAck(u);
      }
    }

    /** Both sides are told, the timers change, the payload listener is set. */
    method BeginTransfer(u: nat)
      requires u < |heap| && heap[u].sender.Some?
      modifies this`heap, this`conns
      ensures State() == Begun(old(State()), u)
    {
      var s := heap[u];
      heap := heap[u := s.(
        phase := TRANSFERRING, remaining := s.size, pairingTimer := None,
        deadlineTimer := Some(now + cfg.maxDurationMs), stallTimer := Some(now + cfg.stallMs),
        toReceiver := s.toReceiver + [Line(MetadataMsg(s.id, s.size, s.sha256))],
        toSender := s.toSender + [Line(ReadyMsg(s.id))])];
      if s.sender.value in conns {
        conns := conns[s.sender.value := conns[s.sender.value].(mode := Consuming, buffered := [])];
      }
    }

    method StartTransfer(u: nat)
      requires u < |heap| && OkBut(State(), u)
      requires heap[u].sender.Some? && heap[u].receiver.Some? && heap[u].phase == PAIRING ==> Paired(State(), u)
      modifies this`heap, this`sessions, this`inFlightBytes, this`conns
      ensures State() == FileRelay.StartTransfer(old(State()), u)
    {
      var s := heap[u];
      if s.sender.None? || s.receiver.None? || s.phase != PAIRING {
        return;
      }
      BegunInTransfer(State(), u);
      WorkedBut(State(), Begun(State(), u), u);
      AtWork(Begun(State(), u), u);
      BeginTransfer(u);
      if |s.remainder| != 0 {
        Consume(u, s.remainder);
      } else if s.size == 0 {
        WaitForAck(u);
      }
    }

    /** Both sides present: mirrored devices start the transfer, others fail it. */
    method PairSockets(u: nat)
      requires OkBut(State(), u) && SessionOk(heap[u], cfg) && LiveOk(State(), u) && heap[u].phase == PAIRING
      modifies this`heap, this`sessions, this`inFlightBytes, this`conns
      ensures State() == Pair(old(State()), u)
    {
      var s := heap[u];
      if s.sender.Some? && s.receiver.Some? {
        if s.sourceDevice != s.receiverTarget || s.targetDevice != s.receiverSource {
          AtWork(State(), u);
          DestroySession(s.id);
          return;
        }
      }
      StartTransfer(u);
    }

    method JoinAsReceiver(x: Sock, u: nat, h: Json)
      requires RelayOk(State()) && Applicant(State(), x) && u < |heap| && Live(State(), u) && heap[u].phase == PAIRING
      requires ValidHello(h) && h.id == Some(heap[u].id) && h.token == Some(heap[u].token)
      requires h.role == Some("receiver")
      modifies this`heap, this`sessions, this`inFlightBytes, this`conns
      ensures State() == JoinReceiver(old(State()), x, u, h)
    {
      var s := heap[u];
      if s.receiver.Some? {
        RefuseSocket(x, "DUPLICATE_ROLE");
      } else if !(x in sockets && !conns[x].ended) {
        Resting(State(), s.id);
        DestroySession(s.id);
      } else {
        assert EntryOk(State(), u) && ConnOk(State(), x);
        ReceiverMember(State(), x, u, h);
        JoinedBut(State(), Membered(State(), x, u, h, WithReceiver(s, x, h), 0), u, x);
        SeatReceiver(x, u, h);
        PairSockets(u);
      }
    }

    /** The receiver's fields and its `registered` line. */
    method SeatReceiver(x: Sock, u: nat, h: Json)
      requires u < |heap| && x in conns && ValidHello(h)
      modifies this`heap, this`conns
      ensures State() == Membered(old(State()), x, u, h, WithReceiver(old(heap)[u], x, h), 0)
    {
      var s := heap[u];
      heap := heap[u := s.(
        receiver := Some(x), receiverSource := h.sourceDevice.value, receiverTarget := h.targetDevice.value,
        toReceiver := s.toReceiver + [Line(RegisteredMsg(s.id))])];
      conns := conns[x := conns[x].(session := Some(u), hello := Some(h))];
    }

    method JoinAsSender(x: Sock, u: nat, h: Json, rest: Bytes)
      requires RelayOk(State()) && Applicant(State(), x) && u < |heap| && Live(State(), u) && heap[u].phase == PAIRING
      requires ValidHello(h) && h.id == Some(heap[u].id) && h.token == Some(heap[u].token)
      requires h.role == Some("sender")
      modifies this`heap, this`sessions, this`inFlightBytes, this`conns
      ensures State() == JoinSender(old(State()), x, u, h, rest)
    {
      var s := heap[u];
      assert EntryOk(State(), u) && ConnOk(State(), x);
      if !ValidSize(h.size, cfg) || !ValidSha(h.sha256) {
        RefuseSocket(x, "INVALID_METADATA");
      } else if s.sender.Some? {
        RefuseSocket(x, "DUPLICATE_ROLE");
      } else if inFlightBytes + h.size.value > cfg.maxInFlight {
        RefuseSocket(x, "BUSY");
        if s.receiver.None? {
          ReleaseSession(u);
        }
      } else if !(x in sockets && !conns[x].ended) {
        Resting(State(), s.id);
        DestroySession(s.id);
      } else {
        SenderMember(State(), x, u, h, rest);
        JoinedBut(State(), Membered(State(), x, u, h, WithSender(s, x, h, rest), h.size.value), u, x);
        SeatSender(x, u, h, rest);
        PairSockets(u);
      }
    }

    /** The sender's fields, its bytes after the header, and its account. */
    method SeatSender(x: Sock, u: nat, h: Json, rest: Bytes)
      requires u < |heap| && x in conns && ValidHello(h) && h.size.Some? && h.size.value >= 0 && h.sha256.Some?
      modifies this`heap, this`conns, this`inFlightBytes
      ensures State() == Membered(old(State()), x, u, h, WithSender(old(heap)[u], x, h, rest), h.size.value)
    {
      inFlightBytes := inFlightBytes + h.size.value;
      heap := heap[u := heap[u].(
        sender := Some(x), sourceDevice := h.sourceDevice.value, targetDevice := h.targetDevice.value,
        size := h.size.value, sha256 := h.sha256.value, accounted := h.size.value,
        remainder := rest, senderIn := rest)];
      conns := conns[x := conns[x].(session := Some(u), hello := Some(h))];
    }

    /** registerSocket, called with the parsed header and what followed it. */
    method RegisterSocket(x: Sock, h: Json, rest: Bytes)
      requires RelayOk(State()) && Applicant(State(), x)
      modifies this`heap, this`sessions, this`inFlightBytes, this`conns
      ensures State() == Register(old(State()), x, h, rest)
    {
      if !ValidHello(h) {
        RefuseSocket(x, "INVALID_REGISTRATION");
        return;
      }
      var id := h.id.value;
      if id !in sessions {
        if |sessions| >= cfg.maxSessions {
          RefuseSocket(x, "BUSY");
          return;
        }
        OpenedOk(State(), id, h.token.value);
        sessions := sessions[id := |heap|];
        heap := heap + [NewSession(id, h.token.value, now, cfg)];
        assert State() == Opened(old(State()), id, h.token.value);
      }
      var u := sessions[id];
      if heap[u].token != h.token.value {
        RefuseSocket(x, "TICKET_MISMATCH");
      } else if heap[u].phase != PAIRING {
        RefuseSocket(x, "DUPLICATE_ROLE");
      } else if h.role == Some("receiver") {
        JoinAsReceiver(x, u, h);
      } else {
        JoinAsSender(x, u, h, rest);
      }
    }

    /** The header listener that every new socket carries. */
    method OnHeader(x: Sock, chunk: Bytes)
      requires RelayOk(State()) && x in conns && conns[x].mode == Header
      modifies this`heap, this`sessions, this`inFlightBytes, this`conns
      ensures State() == OnHeaderData(old(State()), x, chunk) && RelayOk(State())
    {
      HeaderDataOk(State(), x, chunk);
      assert ConnOk(State(), x);
      var buffered := conns[x].buffered + chunk;
      var verdict := Classify(buffered, cfg.headerBytes);
      if verdict.Pending? {
        conns := conns[x := conns[x].(buffered := buffered)];
        return;
      }
      LooseOk(State(), SetMode(State(), x, Quiet, buffered), x);
      conns := conns[x := conns[x].(mode := Quiet, buffered := buffered)];
      assert State() == SetMode(old(State()), x, Quiet, buffered);
      if verdict.TooLarge? {
        RefuseSocket(x, "INVALID_REGISTRATION");
        return;
      }
      var parsed := cfg.parse(verdict.header);
      if parsed.None? {
        RefuseSocket(x, "INVALID_REGISTRATION");
      } else {
        RegisterSocket(x, parsed.value, verdict.rest);
      }
    }

    /** `consume`, as attached to the sender of session `u`. */
    method OnPayload(x: Sock, u: nat, chunk: Bytes)
      requires RelayOk(State()) && x in conns && conns[x].session == Some(u) && u < |heap|
      requires conns[x].mode == Consuming
      modifies this`heap, this`sessions, this`inFlightBytes, this`conns
      ensures State() == FileRelay.OnPayload(old(State()), u, chunk)
    {
      SenderOf(State(), x, u);
      if heap[u].id in sessions && sessions[heap[u].id] == u {
        assert EntryOk(State(), u);
        HeardPayloadBut(State(), x, u, chunk);
        heap := heap[u := heap[u].(senderIn := heap[u].senderIn + chunk)];
        assert State() == HeardPayload(old(State()), u, chunk);
        AtWork(State(), u);
        Consume(u, chunk);
      }
    }

    /** The sender wrote past the declared size. */
    method OnOverrun(x: Sock, u: nat, chunk: Bytes)
      requires RelayOk(State()) && x in conns && conns[x].session == Some(u) && u < |heap|
      requires conns[x].mode == Overrun
      modifies this`heap, this`sessions, this`inFlightBytes, this`conns
      ensures State() == FileRelay.OnOverrun(old(State()), x, u, chunk)
    {
      SenderOf(State(), x, u);
      if heap[u].id in sessions && sessions[heap[u].id] == u {
        OverrunReady(State(), x, u, chunk);
        heap := heap[u := heap[u].(senderIn := heap[u].senderIn + chunk)];
        conns := conns[x := conns[x].(mode := Quiet, buffered := [])];
        assert State() == SetMode(HeardPayload(old(State()), u, chunk), x, Quiet, []);
      } else {
        Resting(State(), heap[u].id);
        conns := conns[x := conns[x].(mode := Quiet, buffered := [])];
      }
      DestroySession(heap[u].id);
    }

    /** The bytes are buffered; the listener stays or is taken off. */
    method TakeAck(x: Sock, u: nat, buffered: Bytes, mode: Mode)
      requires u < |heap| && x in conns
      modifies this`heap, this`conns
      ensures State() == HeardAck(old(State()), x, u, buffered, mode)
    {
      heap := heap[u := heap[u].(ackIn := buffered)];
      conns := conns[x := conns[x].(mode := mode, buffered := buffered)];
    }

    /** The second readHeader, on the receiver of a live session. */
    method OnAck(x: Sock, u: nat, buffered: Bytes)
      requires RelayOk(State()) && u < |heap| && Live(State(), u)
      requires x in conns && conns[x].session == Some(u) && conns[x].mode == AckHeader
      modifies this`heap, this`sessions, this`inFlightBytes, this`conns
      ensures State() == OnLiveAck(old(State()), x, u, buffered)
    {
      AckReady(State(), x, u, buffered);
      var verdict := Classify(buffered, cfg.headerBytes);
      TakeAck(x, u, buffered, if verdict.Pending? then AckHeader else Quiet);
      if verdict.Pending? {
        return;
      }
      Conclude(u, if verdict.TooLarge? then None else cfg.parse(verdict.header));
    }

    /** The acknowledgement was read, or could not be: only a matching one completes the session. */
    method Conclude(u: nat, ack: Option<Json>)
      requires u < |heap| && Distinct(heap[u]) && Destroyable(State(), heap[u].id)
      modifies this`heap, this`sessions, this`inFlightBytes, this`conns
      ensures State() == if ack.Some? && ValidAck(old(heap)[u], ack.value)
                         then Finish(old(State()), u, DONE, ack, None)
                         else Destroy(old(State()), old(heap)[u].id)
    {
      var s := heap[u];
      if ack.Some? && ack.value.ok == Some(true) && ack.value.transferId == Some(s.id)
         && ack.value.size == Some(s.size) && ack.value.sha256 == Some(s.sha256) {
        CompleteSession(u, ack.value);
      } else {
        DestroySession(s.id);
      }
    }

    /** The same listener when its session is gone. */
    method OnLateAck(x: Sock, u: nat, buffered: Bytes)
      requires RelayOk(State()) && u < |heap| && !Live(State(), u)
      requires x in conns && conns[x].session == Some(u) && conns[x].mode == AckHeader
      modifies this`heap, this`sessions, this`inFlightBytes, this`conns
      ensures State() == OnStaleAck(old(State()), x, u, buffered)
    {
      var verdict := Classify(buffered, cfg.headerBytes);
      if verdict.Pending? {
        conns := conns[x := conns[x].(buffered := buffered)];
        return;
      }
      Resting(State(), heap[u].id);
      conns := conns[x := conns[x].(mode := Quiet, buffered := buffered)];
      if verdict.TooLarge? || cfg.parse(verdict.header).None? {
        DestroySession(heap[u].id);
      }
    }

    /** destroySession for the session the socket is a party of, if it is one. */
    method DestroyFor(x: Sock)
      requires DestroyableFor(State(), x)
      modifies this`heap, this`sessions, this`inFlightBytes, this`conns
      ensures State() == DestroyOf(old(State()), x)
    {
      if x in conns && conns[x].session.Some? && conns[x].session.value < |heap| {
        DestroySession(heap[conns[x].session.value].id);
      }
    }

    /** A connection over the limit is told BUSY and ended at once. */
    method OnConnect(x: Sock)
      modifies this`sockets, this`conns
      ensures State() == Step(old(State()), Connect(x))
    {
      if x !in conns {
        if |sockets| >= cfg.maxConnections {
          conns := conns[x := FRESH.(mode := Quiet, ended := true, out := [Line(RefusalMsg("BUSY"))])];
        } else {
          sockets, conns := sockets + {x}, conns[x := FRESH];
        }
      }
    }

    /** A chunk goes to the listener the socket carries. */
    method OnData(x: Sock, chunk: Bytes)
      requires RelayOk(State())
      modifies this`heap, this`sessions, this`inFlightBytes, this`conns
      ensures State() == FileRelay.OnData(old(State()), x, chunk)
    {
      if x !in sockets || x !in conns || chunk == [] {
        return;
      }
      var c := conns[x];
      assert ConnOk(State(), x);
      if c.mode == Header {
        OnHeader(x, chunk);
      } else if c.session.Some? {
        OnSessionData(x, c.session.value, chunk);
      }
    }

    method OnSessionData(x: Sock, u: nat, chunk: Bytes)
      requires RelayOk(State()) && u < |heap| && x in conns && conns[x].session == Some(u)
      modifies this`heap, this`sessions, this`inFlightBytes, this`conns
      ensures State() == FileRelay.OnSessionData(old(State()), x, u, chunk)
    {
      match conns[x].mode
      case Consuming => OnPayload(x, u, chunk);
      case Overrun => OnOverrun(x, u, chunk);
      case AckHeader =>
        if heap[u].id in sessions && sessions[heap[u].id] == u {
          OnAck(x, u, conns[x].buffered + chunk);
        } else {
          OnLateAck(x, u, conns[x].buffered + chunk);
        }
      case _ =>
    }

    /** The peer ended its side: only a header still awaited is a failure. */
    method OnEndOfInput(x: Sock)
      requires RelayOk(State())
      modifies this`heap, this`sessions, this`inFlightBytes, this`conns
      ensures State() == OnEnd(old(State()), x)
    {
      if x in sockets && x in conns {
        if conns[x].mode == Header {
          conns := conns[x := conns[x].(mode := Quiet, buffered := [])];
          RefuseSocket(x, "INVALID_REGISTRATION");
        } else if conns[x].mode == AckHeader {
          conns := conns[x := conns[x].(mode := Quiet, buffered := [])];
          RestingFor(old(State()), State(), x);
          DestroyFor(x);
        }
      }
    }

    method OnSocketError(x: Sock)
      requires RelayOk(State())
      modifies this`heap, this`sessions, this`inFlightBytes, this`conns
      ensures State() == Step(old(State()), SocketError(x))
    {
      if x in sockets {
        if x in conns && !conns[x].ended {
          conns := conns[x := conns[x].(ended := true)];
        }
        RestingFor(old(State()), State(), x);
        DestroyFor(x);
      }
    }

    method OnClose(x: Sock)
      requires RelayOk(State())
      modifies this`heap, this`sessions, this`inFlightBytes, this`conns, this`sockets
      ensures State() == Step(old(State()), Close(x))
    {
      if x in sockets {
        sockets := sockets - {x};
        RestingFor(old(State()), State(), x);
        DestroyFor(x);
      }
    }

    method OnHeaderTimeout(x: Sock)
      modifies this`conns
      ensures State() == Step(old(State()), HeaderTimeout(x))
    {
      if !(x in conns && conns[x].session.Some? && conns[x].session.value < |heap|) {
        RefuseSocket(x, "HEADER_TIMEOUT");
      }
    }

    /** A pairing, stall or deadline timer of session `id` that has run out. */
    method OnTimer(id: string)
      requires RelayOk(State())
      modifies this`heap, this`sessions, this`inFlightBytes, this`conns
      ensures State() == Step(old(State()), Fire(id))
    {
      Resting(State(), id);
      if id in sessions && sessions[id] < |heap| && Due(heap[sessions[id]], now) {
        DestroySession(id);
      }
    }

    /** The clock moves, though never past an armed timer. */
    method OnTick(t: int)
      modifies this`now
      ensures State() == Step(old(State()), Tick(t))
    {
      if now <= t && forall id <- sessions :: sessions[id] < |heap| ==> NotDue(heap[sessions[id]], t) {
        now := t;
      }
    }

    /** One event: the server's step is the state machine's, and the invariant survives it. */
    method Handle(e: Event)
      requires RelayOk(State())
      modifies this
      ensures State() == Step(old(State()), e) && RelayOk(State())
    {
      StepOk(State(), e);
      match e
      case Connect(x) => OnConnect(x);
      case Data(x, chunk) => OnData(x, chunk);
      case EndOfInput(x) => OnEndOfInput(x);
      case SocketError(x) => OnSocketError(x);
      case Close(x) => OnClose(x);
      case HeaderTimeout(x) => OnHeaderTimeout(x);
      case Fire(id) => OnTimer(id);
      case Tick(t) => OnTick(t);
    }

    /** The event loop: any events, from the empty server on, take it where `Run` says. */
    method HandleAll(events: seq<Event>)
      requires RelayOk(State())
      modifies this
      ensures State() == Run(old(State()), events) && RelayOk(State())
    {
      for i := 0 to |events|
        invariant RelayOk(State())
        invariant Run(State(), events[i..]) == Run(old(State()), events)
      {
        Handle(events[i]);
      }
    }
  }
}
