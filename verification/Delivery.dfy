/**
 * The protocol can succeed: for every setup whose limits admit the offer, every content with
 * the offered size and hash, and every kind of volume, some run of the whole system ends with
 * the sending endpoint returned. What that run has then done is `EndToEndCommit`'s to say.
 */
module Delivery {
  import opened Prelude
  import opened Framing
  import opened FileRelay
  import opened RelayTraces
  import opened EndToEnd
  import opened EndToEndProof
  import T = TransferStates

  /** The limits of the relay and of both line readers leave room for this transfer's lines. */
  ghost predicate Fits(g: Setup) {
    && |g.enc(SenderHello(g.offer))| <= g.cfg.headerBytes && |g.enc(ReceiverHello(g.offer))| <= g.cfg.headerBytes
    && |g.enc(Ack(g))| <= g.cfg.headerBytes && |g.enc(Ack(g))| <= RESPONSE_LIMIT
    && |g.enc(Registered(g))| <= RESPONSE_LIMIT && |g.enc(Ready(g))| <= RESPONSE_LIMIT
    && |g.enc(Metadata(g))| <= RESPONSE_LIMIT
  }

  ghost predicate Admissible(g: Setup) {
    && CodecOk(g) && Fits(g)
    && ValidHello(SenderHello(g.offer)) && ValidHello(ReceiverHello(g.offer))
    && ValidSize(Some(g.offer.size), g.cfg) && ValidSha(Some(g.offer.sha256))
    && g.cfg.maxSessions >= 1 && g.cfg.maxConnections >= 2 && g.offer.size <= g.cfg.maxInFlight
  }

  function Registered(g: Setup): Json { RegisteredMsg(g.offer.transferId) }

  function Ready(g: Setup): Json { ReadyMsg(g.offer.transferId) }

  function Metadata(g: Setup): Json { MetadataMsg(g.offer.transferId, g.offer.size, g.offer.sha256) }

  function Ack(g: Setup): Json { AckMsg(g.offer, g.candidate(0)) }

  // ---- The relay along this run ------------------------------------------------------

  function ReceiverConn(g: Setup, mode: Mode, buffered: Bytes): Conn {
    Conn(mode, buffered, Some(0), Some(ReceiverHello(g.offer)), false, [])
  }

  function SenderConn(g: Setup, mode: Mode, buffered: Bytes): Conn {
    Conn(mode, buffered, Some(0), Some(SenderHello(g.offer)), false, [])
  }

  /** The session with its receiver only. */
  function HalfPaired(g: Setup, now: int): Session {
    NewSession(g.offer.transferId, g.offer.ticket, now, g.cfg).(
      receiver := Some(R), receiverSource := g.offer.targetDevice, receiverTarget := g.offer.sourceDevice,
      toReceiver := [Line(Registered(g))])
  }

  function FullyPaired(g: Setup, now: int): Session {
    HalfPaired(g, now).(
      sender := Some(S), sourceDevice := g.offer.sourceDevice, targetDevice := g.offer.targetDevice,
      size := g.offer.size, sha256 := g.offer.sha256, accounted := g.offer.size)
  }

  function Transferring(g: Setup, now: int): Session {
    FullyPaired(g, now).(
      phase := TRANSFERRING, remaining := g.offer.size, pairingTimer := None,
      deadlineTimer := Some(now + g.cfg.maxDurationMs), stallTimer := Some(now + g.cfg.stallMs),
      toReceiver := [Line(Registered(g)), Line(Metadata(g))], toSender := [Line(Ready(g))])
  }

  function Awaiting(g: Setup, now: int, content: Bytes): Session {
    Transferring(g, now).(
      phase := WAIT_ACK, remaining := 0, senderIn := content,
      toReceiver := [Line(Registered(g)), Line(Metadata(g))] + (if content == [] then [] else [Payload(content)]))
  }

  function OneSession(g: Setup, now: int, sockets: set<Sock>, conns: map<Sock, Conn>, s: Session): Relay {
    Relay(g.cfg, now, sockets, conns, [s], map[g.offer.transferId := 0], s.accounted)
  }

  function WithReceiverOnly(g: Setup, now: int): Relay {
    OneSession(g, now, {R}, map[R := ReceiverConn(g, Quiet, LineOf(g, ReceiverHello(g.offer)))], HalfPaired(g, now))
  }

  function WithBoth(g: Setup, now: int): Relay {
    OneSession(g, now, {R, S},
               map[R := ReceiverConn(g, Quiet, LineOf(g, ReceiverHello(g.offer))),
                   S := SenderConn(g, Quiet, LineOf(g, SenderHello(g.offer)))], FullyPaired(g, now))
  }

  function InProgress(g: Setup, now: int): Relay {
    OneSession(g, now, {R, S},
               map[R := ReceiverConn(g, Quiet, LineOf(g, ReceiverHello(g.offer))), S := SenderConn(g, Consuming, [])],
               Transferring(g, now))
  }

  function AllForwarded(g: Setup, now: int, content: Bytes): Relay {
    OneSession(g, now, {R, S}, map[R := ReceiverConn(g, AckHeader, []), S := SenderConn(g, Overrun, [])],
               Awaiting(g, now, content))
  }

  /** The relay once both sides have registered. */
  function Begins(g: Setup, now: int): Relay {
    if g.offer.size == 0 then AllForwarded(g, now, []) else InProgress(g, now)
  }

  lemma LineRead(g: Setup, j: Json, limit: nat)
    requires CodecOk(g) && |g.enc(j)| <= limit
    ensures Classify(LineOf(g, j), limit) == Framed.Complete(g.enc(j), [])
    ensures g.cfg.parse(g.enc(j)) == Some(j) && LineOf(g, j) != []
  {
    ClassifyLine(g.enc(j), [], limit);
    assert g.enc(j) + [NEWLINE] + [] == LineOf(g, j);
  }

  lemma Connects(st: Relay, x: Sock)
    requires x !in st.conns && |st.sockets| < st.cfg.maxConnections
    ensures Step(st, Connect(x)) == st.(sockets := st.sockets + {x}, conns := st.conns[x := FRESH])
  {
  }

  lemma HeaderComplete(st: Relay, x: Sock, chunk: Bytes, buffered: Bytes, header: Bytes, rest: Bytes, h: Json)
    requires x in st.conns && buffered == st.conns[x].buffered + chunk
    requires Classify(buffered, st.cfg.headerBytes) == Framed.Complete(header, rest)
    requires st.cfg.parse(header) == Some(h)
    ensures OnHeaderData(st, x, chunk) == Register(SetMode(st, x, Quiet, buffered), x, h, rest)
  {
  }

  lemma ToHeaderListener(st: Relay, x: Sock, chunk: Bytes)
    requires x in st.sockets && x in st.conns && st.conns[x].mode == Header && chunk != []
    ensures Step(st, Data(x, chunk)) == OnHeaderData(st, x, chunk)
  {
  }

  /** A header that arrives in one piece is registered at once. */
  lemma HeaderInOnePiece(g: Setup, st: Relay, x: Sock, j: Json)
    requires CodecOk(g) && st.cfg == g.cfg && |g.enc(j)| <= g.cfg.headerBytes
    requires x in st.sockets && x in st.conns && st.conns[x] == FRESH
    ensures Step(st, Data(x, LineOf(g, j))) == Register(SetMode(st, x, Quiet, LineOf(g, j)), x, j, [])
  {
    var line := LineOf(g, j);
    LineRead(g, j, g.cfg.headerBytes);
    ToHeaderListener(st, x, line);
    assert st.conns[x].buffered + line == line;
    HeaderComplete(st, x, line, line, g.enc(j), [], j);
  }

  function Alone(g: Setup, now: int, c: Conn): Relay { Relay(g.cfg, now, {R}, map[R := c], [], map[], 0) }

  lemma ReceiverConnects(g: Setup, now: int)
    requires g.cfg.maxConnections >= 2
    ensures Step(Start(g.cfg, now), Connect(R)) == Alone(g, now, FRESH)
  {
    Connects(Start(g.cfg, now), R);
    assert {} + {R} == {R} && Start(g.cfg, now).conns[R := FRESH] == map[R := FRESH];
  }

  lemma Silenced(g: Setup, now: int, line: Bytes)
    ensures SetMode(Alone(g, now, FRESH), R, Quiet, line) == Alone(g, now, FRESH.(mode := Quiet, buffered := line))
  {
    assert map[R := FRESH][R := FRESH.(mode := Quiet, buffered := line)]
        == map[R := FRESH.(mode := Quiet, buffered := line)];
  }

  /** The receiver is first: it opens the session. */
  lemma ReceiverRegisters(g: Setup, now: int)
    requires Admissible(g)
    ensures Step(Alone(g, now, FRESH), Data(R, LineOf(g, ReceiverHello(g.offer)))) == WithReceiverOnly(g, now)
  {
    var line, h := LineOf(g, ReceiverHello(g.offer)), ReceiverHello(g.offer);
    HeaderInOnePiece(g, Alone(g, now, FRESH), R, h);
    Silenced(g, now, line);
    ReceiverOpens(g, now, Alone(g, now, FRESH.(mode := Quiet, buffered := line)));
  }

  lemma ReceiverOpens(g: Setup, now: int, quiet: Relay)
    requires Admissible(g)
    requires quiet == Alone(g, now, FRESH.(mode := Quiet, buffered := LineOf(g, ReceiverHello(g.offer))))
    ensures Register(quiet, R, ReceiverHello(g.offer), []) == WithReceiverOnly(g, now)
  {
    var h := ReceiverHello(g.offer);
    var open := Opened(quiet, g.offer.transferId, g.offer.ticket);
    assert open.heap == [NewSession(g.offer.transferId, g.offer.ticket, now, g.cfg)];
    assert Register(quiet, R, h, []) == JoinReceiver(open, R, 0, h);
    var s := WithReceiver(open.heap[0], R, h);
    assert s.toReceiver == [Line(Registered(g))];
    assert Membered(open, R, 0, h, s, 0) == WithReceiverOnly(g, now);
  }

  lemma SenderRegisters(g: Setup, now: int)
    requires Admissible(g)
    ensures Step(Step(WithReceiverOnly(g, now), Connect(S)), Data(S, LineOf(g, SenderHello(g.offer)))) == Begins(g, now)
  {
    var st, h := WithReceiverOnly(g, now), SenderHello(g.offer);
    var joined := st.(sockets := {R, S}, conns := st.conns[S := FRESH]);
    Connects(st, S);
    assert {R} + {S} == {R, S};
    HeaderInOnePiece(g, joined, S, h);
    SenderJoins(g, now, SetMode(joined, S, Quiet, LineOf(g, h)));
    Pairs(g, now);
  }

  lemma SenderJoins(g: Setup, now: int, quiet: Relay)
    requires Admissible(g)
    requires quiet == WithReceiverOnly(g, now).(
                        sockets := {R, S},
                        conns := WithReceiverOnly(g, now).conns[
                                   S := FRESH.(mode := Quiet, buffered := LineOf(g, SenderHello(g.offer)))])
    ensures Register(quiet, S, SenderHello(g.offer), []) == Pair(WithBoth(g, now), 0)
  {
    var h := SenderHello(g.offer);
    assert Register(quiet, S, h, []) == JoinSender(quiet, S, 0, h, []);
    assert Membered(quiet, S, 0, h, WithSender(quiet.heap[0], S, h, []), h.size.value) == WithBoth(g, now);
  }

  lemma Pairs(g: Setup, now: int)
    ensures Pair(WithBoth(g, now), 0) == Begins(g, now)
  {
    assert [Line(Registered(g))] + [Line(Metadata(g))] == [Line(Registered(g)), Line(Metadata(g))];
    assert [] + [Line(Ready(g))] == [Line(Ready(g))];
    var begun := Begun(WithBoth(g, now), 0);
    assert begun.heap == [Transferring(g, now)];
    assert begun.conns == InProgress(g, now).conns;
    if g.offer.size == 0 {
      assert [Line(Registered(g)), Line(Metadata(g))] + [] == [Line(Registered(g)), Line(Metadata(g))];
      assert Awaiting(g, now, []) == Transferring(g, now).(phase := WAIT_ACK);
      assert FileRelay.WaitForAck(InProgress(g, now), 0) == AllForwarded(g, now, []);
    }
  }

  lemma ToPayloadListener(st: Relay, x: Sock, chunk: Bytes)
    requires x in st.sockets && x in st.conns && st.conns[x].mode == Consuming && st.conns[x].session == Some(0)
    requires chunk != [] && Live(st, 0) && st.heap[0].phase == TRANSFERRING
    requires st.heap[0].sender.Some? && st.heap[0].receiver.Some?
    ensures Step(st, Data(x, chunk)) == FileRelay.Consume(HeardPayload(st, 0, chunk), 0, chunk)
  {
  }

  lemma ToAckListener(st: Relay, x: Sock, chunk: Bytes)
    requires x in st.sockets && x in st.conns && st.conns[x].mode == AckHeader && st.conns[x].session == Some(0)
    requires chunk != [] && Live(st, 0)
    ensures Step(st, Data(x, chunk)) == OnLiveAck(st, x, 0, st.conns[x].buffered + chunk)
  {
  }

  lemma AckComplete(st: Relay, x: Sock, buffered: Bytes, header: Bytes, rest: Bytes, ack: Json)
    requires 0 < |st.heap| && Classify(buffered, st.cfg.headerBytes) == Framed.Complete(header, rest)
    requires st.cfg.parse(header) == Some(ack) && ValidAck(st.heap[0], ack)
    ensures OnLiveAck(st, x, 0, buffered) == Finish(HeardAck(st, x, 0, buffered, Quiet), 0, DONE, Some(ack), None)
  {
  }

  /** A session that ends tells its sender last of all. */
  lemma FinishTells(st: Relay, ack: Json)
    requires 0 < |st.heap| && st.heap[0].sender == Some(S) && st.heap[0].receiver == Some(R)
    requires Writable(st, S) && st.conns[S].session == Some(0)
    ensures Stream(Finish(st, 0, DONE, Some(ack), None), S) == st.heap[0].toSender + [Line(ack)]
  {
  }

  /** The whole content in one chunk (no chunk at all when there is none). */
  lemma ContentForwarded(g: Setup, now: int, content: Bytes)
    requires |content| == g.offer.size
    ensures Step(Begins(g, now), Data(S, content)) == AllForwarded(g, now, content)
  {
    if content != [] {
      ToPayloadListener(InProgress(g, now), S, content);
      LastChunk(g, now, content);
    }
  }

  lemma LastChunk(g: Setup, now: int, content: Bytes)
    requires |content| == g.offer.size && content != []
    ensures FileRelay.Consume(HeardPayload(InProgress(g, now), 0, content), 0, content) == AllForwarded(g, now, content)
  {
    var heard := HeardPayload(InProgress(g, now), 0, content);
    assert [] + content == content;
    assert heard.heap == [Transferring(g, now).(senderIn := content)];
    var passed := heard.(heap := heard.heap[0 := Passed(heard.heap[0], content, now + g.cfg.stallMs)]);
    assert passed.heap == [Awaiting(g, now, content).(phase := TRANSFERRING)];
    WaitsForAck(g, now, content, passed);
  }

  lemma WaitsForAck(g: Setup, now: int, content: Bytes, passed: Relay)
    requires passed == InProgress(g, now).(heap := [Awaiting(g, now, content).(phase := TRANSFERRING)])
    ensures FileRelay.WaitForAck(passed, 0) == AllForwarded(g, now, content)
  {
  }

  /** The session has heard the acknowledgement; its sender can still be told. */
  lemma AckHeard(g: Setup, now: int, content: Bytes, line: Bytes)
    ensures var quiet := HeardAck(AllForwarded(g, now, content), R, 0, line, Quiet);
            && |quiet.heap| == 1 && quiet.heap[0].sender == Some(S) && quiet.heap[0].receiver == Some(R)
            && quiet.heap[0].toSender == [Line(Ready(g))]
            && Writable(quiet, S) && quiet.conns[S].session == Some(0)
  {
  }

  /** The acknowledgement completes the session, and the sender hears of it. */
  lemma AckForwarded(g: Setup, now: int, content: Bytes)
    requires Admissible(g)
    ensures var st := Step(AllForwarded(g, now, content), Data(R, LineOf(g, Ack(g))));
            Stream(st, S) == [Line(Ready(g)), Line(Ack(g))]
  {
    var st, line := AllForwarded(g, now, content), LineOf(g, Ack(g));
    AckAccepted(g, now, content);
    AckHeard(g, now, content, line);
    FinishTells(HeardAck(st, R, 0, line, Quiet), Ack(g));
    assert [Line(Ready(g))] + [Line(Ack(g))] == [Line(Ready(g)), Line(Ack(g))];
  }

  lemma AckAccepted(g: Setup, now: int, content: Bytes)
    requires Admissible(g)
    ensures var st, line := AllForwarded(g, now, content), LineOf(g, Ack(g));
            Step(st, Data(R, line)) == Finish(HeardAck(st, R, 0, line, Quiet), 0, DONE, Some(Ack(g)), None)
  {
    var st, line := AllForwarded(g, now, content), LineOf(g, Ack(g));
    LineRead(g, Ack(g), g.cfg.headerBytes);
    ToAckListener(st, R, line);
    assert st.conns[R].buffered + line == line;
    AckComplete(st, R, line, g.enc(Ack(g)), [], Ack(g));
  }

  // ---- The endpoints along this run --------------------------------------------------

  const IDLE_SENDER := Sender(SStart, [], 0, [], 0, [], [], [])

  function IdleReceiver(disk: map<Path, Bytes>): Receiver {
    Receiver(RStart, [], 0, 0, [], 0, [], [], [], disk, None, None)
  }

  /** The receiver once its hello was taken by the relay, waiting for its first line. */
  function HelloTaken(g: Setup, disk: map<Path, Bytes>): Receiver {
    var hello := LineOf(g, ReceiverHello(g.offer));
    IdleReceiver(disk).(phase := RAwaitRegistered, written := hello, taken := |hello|, base := |hello|,
                        state := Some(T.PREPARING))
  }

  function LineZero(g: Setup, disk: map<Path, Bytes>): Receiver {
    HelloTaken(g, disk).(phase := RAwaitMetadata, line0 := g.enc(Registered(g)), got := |LineOf(g, Registered(g))|,
                         state := Some(T.READY))
  }

  function LineOne(g: Setup, disk: map<Path, Bytes>): Receiver {
    LineZero(g, disk).(phase := RRemainder, line1 := g.enc(Metadata(g)),
                       got := |LineOf(g, Registered(g))| + |LineOf(g, Metadata(g))|, state := Some(T.TRANSFERRING))
  }

  function Holds(g: Setup, disk: map<Path, Bytes>, content: Bytes): Receiver {
    LineOne(g, disk).(phase := RReceiving, received := content, disk := disk[g.part := content],
                      got := |LineOf(g, Registered(g))| + |LineOf(g, Metadata(g))| + |content|)
  }

  function SenderTold(g: Setup): Sender {
    var hello := LineOf(g, SenderHello(g.offer));
    IDLE_SENDER.(phase := SSending, written := hello, taken := |hello|, line0 := g.enc(Ready(g)),
                 got := |LineOf(g, Ready(g))|)
  }

  function ContentSent(g: Setup, content: Bytes): Sender {
    SenderTold(g).(written := LineOf(g, SenderHello(g.offer)) + content,
                   taken := |LineOf(g, SenderHello(g.offer))| + |content|, sent := content)
  }

  lemma FedLine(r: Receiver, inbound: Bytes, before: Bytes, line: Bytes)
    requires r.buffer == [] && r.got == |before| && before + line <= inbound
    ensures r.got + |line| <= |inbound|
    ensures ReceiverFed(r, inbound, |line|) == r.(buffer := line, got := |before| + |line|)
  {
    assert inbound[|before|..|before| + |line|] == (before + line)[|before|..] == line;
    assert [] + line == line;
  }

  lemma TakesLine(g: Setup, r: Receiver, m: Json)
    requires Admissible(g) && r.buffer == LineOf(g, m) && |g.enc(m)| <= RESPONSE_LIMIT
    requires (r.phase == RAwaitRegistered && m == Registered(g)) || (r.phase == RAwaitMetadata && m == Metadata(g))
    ensures ReceiverLine(g, r)
         == if r.phase == RAwaitRegistered
            then r.(phase := RAwaitMetadata, line0 := g.enc(m), buffer := [], state := Some(T.READY))
            else r.(phase := RRemainder, line1 := g.enc(m), buffer := [], state := Some(T.TRANSFERRING))
  {
    LineRead(g, m, RESPONSE_LIMIT);
  }

  lemma ReadsRegistered(g: Setup, disk: map<Path, Bytes>, inbound: Bytes)
    requires Admissible(g) && LineOf(g, Registered(g)) <= inbound
    ensures ReceiverStep(g, HelloTaken(g, disk), inbound, RRead(|LineOf(g, Registered(g))|)) == LineZero(g, disk)
  {
    var line := LineOf(g, Registered(g));
    assert [] + line == line;
    FedLine(HelloTaken(g, disk), inbound, [], line);
    TakesLine(g, HelloTaken(g, disk).(buffer := line, got := |line|), Registered(g));
  }

  lemma ReadsMetadataLine(g: Setup, disk: map<Path, Bytes>, inbound: Bytes)
    requires Admissible(g) && LineOf(g, Registered(g)) + LineOf(g, Metadata(g)) <= inbound
    ensures ReceiverStep(g, LineZero(g, disk), inbound, RRead(|LineOf(g, Metadata(g))|)) == LineOne(g, disk)
  {
    var first, line := LineOf(g, Registered(g)), LineOf(g, Metadata(g));
    FedLine(LineZero(g, disk), inbound, first, line);
    TakesLine(g, LineZero(g, disk).(buffer := line, got := |first| + |line|), Metadata(g));
  }

  lemma ReadsContent(g: Setup, disk: map<Path, Bytes>, inbound: Bytes, content: Bytes)
    requires |content| == g.offer.size && inbound == LineOf(g, Registered(g)) + LineOf(g, Metadata(g)) + content
    ensures ReceiverStep(g, PartOpened(g, disk), inbound, RConsume(|content|)) == Holds(g, disk, content)
  {
    var before := LineOf(g, Registered(g)) + LineOf(g, Metadata(g));
    assert [] + content == content;
    assert inbound[|before|..|before| + |content|] == content;
    assert disk[g.part := []][g.part := content] == disk[g.part := content];
  }

  lemma TakesNothing(g: Setup, disk: map<Path, Bytes>, inbound: Bytes)
    ensures ReceiverStep(g, LineOne(g, disk), inbound, RTakeRemainder) == PartOpened(g, disk)
  {
  }

  /** Nothing followed the metadata line in its chunk: the part is still empty. */
  function PartOpened(g: Setup, disk: map<Path, Bytes>): Receiver {
    LineOne(g, disk).(phase := RReceiving, disk := disk[g.part := []])
  }

  /** The file under its first candidate, on any volume, and the record that says so. */
  function Committed(g: Setup, disk: map<Path, Bytes>, content: Bytes): Receiver {
    Holds(g, disk, content).(
      phase := RCommitted(g.candidate(0)), disk := (disk - {g.part})[g.candidate(0) := content],
      state := Some(T.DATA_COMMITTED), path := Some(g.candidate(0)))
  }

  function Acked(g: Setup, disk: map<Path, Bytes>, content: Bytes): Receiver {
    Committed(g, disk, content).(phase := RAcked(g.candidate(0)),
                                 written := LineOf(g, ReceiverHello(g.offer)) + LineOf(g, Ack(g)))
  }

  function Committing(g: Setup, disk: map<Path, Bytes>, content: Bytes): Receiver {
    Holds(g, disk, content).(phase := RCommitting(0), state := Some(T.COMMITTING), path := Some(g.candidate(0)))
  }

  lemma Verifies(g: Setup, disk: map<Path, Bytes>, content: Bytes, inbound: Bytes)
    requires |content| == g.offer.size && g.sha(content) == g.offer.sha256
    ensures ReceiverStep(g, ReceiverStep(g, Holds(g, disk, content), inbound, RVerify), inbound, RSaveCommitting)
         == Committing(g, disk, content)
  {
  }

  /** What the disk holds once the file is in place; a rename has taken the part along. */
  ghost predicate InPlace(g: Setup, disk: map<Path, Bytes>, content: Bytes, r: Receiver) {
    && r == Committing(g, disk, content).(phase := RPlaced(g.candidate(0)), disk := r.disk)
    && r.disk - {g.part} == (disk - {g.part})[g.candidate(0) := content]
  }

  function Tried(g: Setup, r: Receiver, inbound: Bytes): Receiver {
    ReceiverStep(g, ReceiverStep(g, ReceiverStep(g, r, inbound, RLink), inbound, RRename), inbound, ROpenCopy)
  }

  lemma Places(g: Setup, disk: map<Path, Bytes>, content: Bytes, inbound: Bytes)
    requires g.candidate(0) !in disk && g.candidate(0) != g.part
    ensures InPlace(g, disk, content,
              ReceiverStep(g, Tried(g, Committing(g, disk, content), inbound), inbound, RCopySome(|content|)))
  {
    assert content[..|content|] == content;
    TriedIs(g, disk, content, inbound);
  }

  lemma TriedIs(g: Setup, disk: map<Path, Bytes>, content: Bytes, inbound: Bytes)
    requires g.candidate(0) !in disk && g.candidate(0) != g.part
    ensures var r, c := Committing(g, disk, content), g.candidate(0);
            Tried(g, r, inbound)
              == if g.volume.canLink then r.(phase := RPlaced(c), disk := r.disk[c := content])
                 else if g.volume.canRename then r.(phase := RPlaced(c), disk := (r.disk - {g.part})[c := content])
                 else r.(phase := RCopying(c), disk := r.disk[c := []])
  {
  }

  lemma Records(g: Setup, disk: map<Path, Bytes>, content: Bytes, inbound: Bytes, r: Receiver)
    requires InPlace(g, disk, content, r)
    ensures var r1 := ReceiverStep(g, ReceiverStep(g, r, inbound, RRemovePart), inbound, RSaveCommitted);
            ReceiverStep(g, r1, inbound, RAck) == Acked(g, disk, content)
  {
  }

  lemma SenderFedLine(s: Sender, inbound: Bytes, before: Bytes, line: Bytes)
    requires s.buffer == [] && s.got == |before| && before + line <= inbound
    ensures s.got + |line| <= |inbound|
    ensures SenderFed(s, inbound, |line|) == s.(buffer := line, got := |before| + |line|)
  {
    assert inbound[|before|..|before| + |line|] == (before + line)[|before|..] == line;
    assert [] + line == line;
  }

  lemma TakesReady(g: Setup, s: Sender)
    requires Admissible(g) && s.buffer == LineOf(g, Ready(g)) && s.phase == SAwaitReady
    ensures SenderLine(g, s) == s.(phase := SSending, line0 := g.enc(Ready(g)), buffer := [])
  {
    LineRead(g, Ready(g), RESPONSE_LIMIT);
  }

  function Asking(g: Setup, taken: nat): Sender {
    IDLE_SENDER.(phase := SAwaitReady, written := LineOf(g, SenderHello(g.offer)), taken := taken)
  }

  lemma ReadsReady(g: Setup, inbound: Bytes)
    requires Admissible(g) && LineOf(g, Ready(g)) <= inbound
    ensures SenderStep(g, Asking(g, |LineOf(g, SenderHello(g.offer))|), inbound, SRead(|LineOf(g, Ready(g))|))
         == SenderTold(g)
  {
    var s, line := Asking(g, |LineOf(g, SenderHello(g.offer))|), LineOf(g, Ready(g));
    assert [] + line == line;
    SenderFedLine(s, inbound, [], line);
    TakesReady(g, SenderFed(s, inbound, |line|));
  }

  lemma TakesAck(g: Setup, s: Sender)
    requires Admissible(g) && s.buffer == LineOf(g, Ack(g)) && s.phase == SAwaitAck
    ensures SenderLine(g, s) == s.(phase := SReturned, line1 := g.enc(Ack(g)), buffer := [])
  {
    LineRead(g, Ack(g), RESPONSE_LIMIT);
  }

  /** The sender once it has returned. */
  function Returned(g: Setup, content: Bytes): Sender {
    ContentSent(g, content).(phase := SReturned, line1 := g.enc(Ack(g)),
                             got := |LineOf(g, Ready(g))| + |LineOf(g, Ack(g))|)
  }

  lemma ReadsAck(g: Setup, content: Bytes, inbound: Bytes)
    requires Admissible(g) && inbound == LineOf(g, Ready(g)) + LineOf(g, Ack(g))
    ensures SenderStep(g, ContentSent(g, content).(phase := SAwaitAck), inbound, SRead(|LineOf(g, Ack(g))|))
         == Returned(g, content)
  {
    var s, line := ContentSent(g, content).(phase := SAwaitAck), LineOf(g, Ack(g));
    SenderFedLine(s, inbound, LineOf(g, Ready(g)), line);
    TakesAck(g, SenderFed(s, inbound, |line|));
  }

  lemma Finishes(g: Setup, content: Bytes, inbound: Bytes)
    requires |content| == g.offer.size && g.sha(content) == g.offer.sha256
    ensures SenderStep(g, ContentSent(g, content), inbound, SFinish) == ContentSent(g, content).(phase := SAwaitAck)
  {
  }

  // ---- The whole system --------------------------------------------------------------

  ghost predicate Reaches(g: Setup, a: System, b: System) { exists run :: RunSystem(g, a, run) == b }

  lemma {:induction false} RunOneMore(g: Setup, a: System, run: seq<Happening>, h: Happening)
    ensures RunSystem(g, a, run + [h]) == Happens(g, RunSystem(g, a, run), h)
    decreases run
  {
    if run == [] {
      assert run + [h] == [h] && [h][1..] == [];
    } else {
      RunOneMore(g, Happens(g, a, run[0]), run[1..], h);
      assert (run + [h])[1..] == run[1..] + [h];
    }
  }

  lemma Then(g: Setup, a: System, b: System, h: Happening)
    requires Reaches(g, a, b)
    ensures Reaches(g, a, Happens(g, b, h))
  {
    var run :| RunSystem(g, a, run) == b;
    RunOneMore(g, a, run, h);
    assert RunSystem(g, a, run + [h]) == Happens(g, b, h);
  }

  lemma ThenReceiver(g: Setup, a: System, b: System, re: ReceiverEvent)
    requires Reaches(g, a, b)
    ensures Reaches(g, a, b.(rcv := ReceiverStep(g, b.rcv, Inbound(g, b, R), re)))
  {
    Then(g, a, b, AtReceiver(re));
  }

  lemma ThenSender(g: Setup, a: System, b: System, se: SenderEvent)
    requires Reaches(g, a, b)
    ensures Reaches(g, a, b.(snd := SenderStep(g, b.snd, Inbound(g, b, S), se)))
  {
    Then(g, a, b, AtSender(se));
  }

  lemma ThenConnect(g: Setup, a: System, b: System, x: Sock)
    requires Reaches(g, a, b) && ConnOf(b.relay, R).session == ConnOf(Step(b.relay, Connect(x)), R).session
    ensures Reaches(g, a, b.(relay := Step(b.relay, Connect(x))))
  {
    Then(g, a, b, AtRelay(Connect(x)));
    assert AfterRelay(b, Connect(x), Step(b.relay, Connect(x))) == b.(relay := Step(b.relay, Connect(x)));
  }

  /** The relay takes the next bytes the sender wrote. */
  lemma ThenFromSender(g: Setup, a: System, b: System, chunk: Bytes, relay: Relay)
    requires Reaches(g, a, b) && NextBytes(b.snd.written, b.snd.taken, chunk) && relay == Step(b.relay, Data(S, chunk))
    requires S in b.relay.sockets && S in b.relay.conns && b.relay.conns[S].mode != Quiet
    requires ConnOf(b.relay, R).session.Some?
    ensures Reaches(g, a, b.(relay := relay, snd := b.snd.(taken := b.snd.taken + |chunk|)))
  {
    Then(g, a, b, AtRelay(Data(S, chunk)));
    assert AfterRelay(b, Data(S, chunk), relay) == b.(relay := relay, snd := b.snd.(taken := b.snd.taken + |chunk|));
  }

  lemma ThenFromReceiver(g: Setup, a: System, b: System, chunk: Bytes, relay: Relay)
    requires Reaches(g, a, b) && NextBytes(b.rcv.written, b.rcv.taken, chunk) && relay == Step(b.relay, Data(R, chunk))
    requires R in b.relay.sockets && R in b.relay.conns && b.relay.conns[R].mode != Quiet
    ensures var taken := b.rcv.taken + |chunk|;
            var joins := ConnOf(b.relay, R).session.None? && ConnOf(relay, R).session.Some?;
            Reaches(g, a, b.(relay := relay,
                             rcv := b.rcv.(taken := taken, base := if joins then taken else b.rcv.base)))
  {
    Then(g, a, b, AtRelay(Data(R, chunk)));
    var taken := b.rcv.taken + |chunk|;
    assert AfterRelay(b, Data(R, chunk), relay).snd == b.snd;
  }

  function Stage1(g: Setup, now: int, disk: map<Path, Bytes>): System {
    System(WithReceiverOnly(g, now), IDLE_SENDER, LineZero(g, disk))
  }

  function Stage2(g: Setup, now: int, disk: map<Path, Bytes>): System {
    System(Begins(g, now), SenderTold(g), LineZero(g, disk))
  }

  function Stage3(g: Setup, now: int, disk: map<Path, Bytes>, content: Bytes): System {
    System(AllForwarded(g, now, content), ContentSent(g, content), LineZero(g, disk))
  }

  function Stage4(g: Setup, now: int, disk: map<Path, Bytes>, content: Bytes): System {
    Stage3(g, now, disk, content).(rcv := Acked(g, disk, content))
  }

  lemma HelloNext(hello: Bytes, more: Bytes)
    ensures NextBytes(hello, 0, hello) && NextBytes(hello + more, |hello|, more)
  {
    assert hello == hello[0..0 + |hello|];
    assert more == (hello + more)[|hello|..|hello| + |more|];
  }

  function HelloWritten(g: Setup, disk: map<Path, Bytes>): Receiver {
    IdleReceiver(disk).(phase := RAwaitRegistered, written := LineOf(g, ReceiverHello(g.offer)),
                        state := Some(T.PREPARING))
  }

  lemma ToHelloWritten(g: Setup, now: int, disk: map<Path, Bytes>)
    ensures Reaches(g, Init(g, now, disk), System(Start(g.cfg, now), IDLE_SENDER, HelloWritten(g, disk)))
  {
    var a := Init(g, now, disk);
    assert RunSystem(g, a, []) == a;
    ThenReceiver(g, a, a, RPrepare);
    ThenReceiver(g, a, a.(rcv := a.rcv.(phase := RPrepared, state := Some(T.PREPARING))), RWriteHello);
  }

  lemma ToHelloTaken(g: Setup, now: int, disk: map<Path, Bytes>)
    requires Admissible(g)
    ensures Reaches(g, Init(g, now, disk), System(WithReceiverOnly(g, now), IDLE_SENDER, HelloTaken(g, disk)))
  {
    var a, hello := Init(g, now, disk), LineOf(g, ReceiverHello(g.offer));
    var b := System(Start(g.cfg, now), IDLE_SENDER, HelloWritten(g, disk));
    ToHelloWritten(g, now, disk);
    ReceiverConnects(g, now);
    ThenConnect(g, a, b, R);
    HelloNext(hello, []);
    ReceiverRegisters(g, now);
    ThenFromReceiver(g, a, b.(relay := Alone(g, now, FRESH)), hello, WithReceiverOnly(g, now));
  }

  lemma ToStage1(g: Setup, now: int, disk: map<Path, Bytes>)
    requires Admissible(g)
    ensures Reaches(g, Init(g, now, disk), Stage1(g, now, disk))
  {
    var b := System(WithReceiverOnly(g, now), IDLE_SENDER, HelloTaken(g, disk));
    ToHelloTaken(g, now, disk);
    WireOne(g, Registered(g));
    assert Stream(b.relay, R) == [Line(Registered(g))];
    ReadsRegistered(g, disk, Inbound(g, b, R));
    ThenReceiver(g, Init(g, now, disk), b, RRead(|LineOf(g, Registered(g))|));
  }

  lemma ToStage2(g: Setup, now: int, a: System, disk: map<Path, Bytes>)
    requires Admissible(g) && Reaches(g, a, Stage1(g, now, disk))
    ensures Reaches(g, a, Stage2(g, now, disk))
  {
    var b, hello := Stage1(g, now, disk), LineOf(g, SenderHello(g.offer));
    ThenSender(g, a, b, SWriteHello);
    ThenConnect(g, a, b.(snd := Asking(g, 0)), S);
    HelloNext(hello, []);
    SenderRegisters(g, now);
    var c := System(Step(WithReceiverOnly(g, now), Connect(S)), Asking(g, 0), LineZero(g, disk));
    Connects(WithReceiverOnly(g, now), S);
    ThenFromSender(g, a, c, hello, Begins(g, now));
    ReadyIsRead(g, now, a, disk);
  }

  lemma ReadyIsRead(g: Setup, now: int, a: System, disk: map<Path, Bytes>)
    requires Admissible(g)
    requires Reaches(g, a, System(Begins(g, now), Asking(g, |LineOf(g, SenderHello(g.offer))|), LineZero(g, disk)))
    ensures Reaches(g, a, Stage2(g, now, disk))
  {
    var b := System(Begins(g, now), Asking(g, |LineOf(g, SenderHello(g.offer))|), LineZero(g, disk));
    WireOne(g, Ready(g));
    assert Stream(b.relay, S) == [Line(Ready(g))];
    ReadsReady(g, Inbound(g, b, S));
    ThenSender(g, a, b, SRead(|LineOf(g, Ready(g))|));
  }

  lemma ToStage3(g: Setup, now: int, a: System, disk: map<Path, Bytes>, content: Bytes)
    requires |content| == g.offer.size && Reaches(g, a, Stage2(g, now, disk))
    ensures Reaches(g, a, Stage3(g, now, disk, content))
  {
    var b, hello := Stage2(g, now, disk), LineOf(g, SenderHello(g.offer));
    var sent := SenderTold(g).(written := hello + content, sent := content);
    assert [] + content == content;
    ThenSender(g, a, b, SSend(content));
    HelloNext(hello, content);
    ContentForwarded(g, now, content);
    ThenFromSender(g, a, b.(snd := sent), content, AllForwarded(g, now, content));
  }

  lemma WireAll(g: Setup, now: int, content: Bytes)
    ensures Wire(g, Stream(AllForwarded(g, now, content), R))
         == LineOf(g, Registered(g)) + LineOf(g, Metadata(g)) + content
  {
    var tail := if content == [] then [] else [Payload(content)];
    assert Stream(AllForwarded(g, now, content), R) == [Line(Registered(g)), Line(Metadata(g))] + tail;
    WirePair(g, Registered(g), Metadata(g), tail);
    assert Wire(g, []) == [];
  }

  lemma ToCommitting(g: Setup, now: int, a: System, disk: map<Path, Bytes>, content: Bytes)
    requires Admissible(g) && |content| == g.offer.size && g.sha(content) == g.offer.sha256
    requires Reaches(g, a, Stage3(g, now, disk, content))
    ensures Reaches(g, a, Stage3(g, now, disk, content).(rcv := Committing(g, disk, content)))
  {
    var b := Stage3(g, now, disk, content);
    var inbound := Inbound(g, b, R);
    WireAll(g, now, content);
    ReadsMetadataLine(g, disk, inbound);
    ThenReceiver(g, a, b, RRead(|LineOf(g, Metadata(g))|));
    TakesNothing(g, disk, inbound);
    ReadsContent(g, disk, inbound, content);
    ThenReceiver(g, a, b.(rcv := LineOne(g, disk)), RTakeRemainder);
    ThenReceiver(g, a, b.(rcv := PartOpened(g, disk)), RConsume(|content|));
    Verifies(g, disk, content, inbound);
    ThenReceiver(g, a, b.(rcv := Holds(g, disk, content)), RVerify);
    ThenReceiver(g, a, b.(rcv := ReceiverStep(g, Holds(g, disk, content), inbound, RVerify)), RSaveCommitting);
  }

  lemma ToStage4(g: Setup, now: int, a: System, disk: map<Path, Bytes>, content: Bytes)
    requires g.candidate(0) !in disk && g.candidate(0) != g.part
    requires Reaches(g, a, Stage3(g, now, disk, content).(rcv := Committing(g, disk, content)))
    ensures Reaches(g, a, Stage4(g, now, disk, content))
  {
    var b := Stage3(g, now, disk, content);
    var inbound := Inbound(g, b, R);
    var r0 := Committing(g, disk, content);
    var r1 := Tried(g, r0, inbound);
    var r2 := ReceiverStep(g, r1, inbound, RCopySome(|content|));
    var r3 := ReceiverStep(g, r2, inbound, RRemovePart);
    var r4 := ReceiverStep(g, r3, inbound, RSaveCommitted);
    Places(g, disk, content, inbound);
    Records(g, disk, content, inbound, r2);
    ThenReceiver(g, a, b.(rcv := r0), RLink);
    ThenReceiver(g, a, b.(rcv := ReceiverStep(g, r0, inbound, RLink)), RRename);
    ThenReceiver(g, a, b.(rcv := ReceiverStep(g, ReceiverStep(g, r0, inbound, RLink), inbound, RRename)), ROpenCopy);
    ThenReceiver(g, a, b.(rcv := r1), RCopySome(|content|));
    ThenReceiver(g, a, b.(rcv := r2), RRemovePart);
    ThenReceiver(g, a, b.(rcv := r3), RSaveCommitted);
    ThenReceiver(g, a, b.(rcv := r4), RAck);
  }

  /** The relay has passed the acknowledgement on. */
  function Stage5(g: Setup, now: int, disk: map<Path, Bytes>, content: Bytes): System {
    var b, line := Stage4(g, now, disk, content), LineOf(g, Ack(g));
    b.(relay := Step(b.relay, Data(R, line)), rcv := b.rcv.(taken := b.rcv.taken + |line|))
  }

  lemma ToStage5(g: Setup, now: int, a: System, disk: map<Path, Bytes>, content: Bytes)
    requires Reaches(g, a, Stage4(g, now, disk, content))
    ensures Reaches(g, a, Stage5(g, now, disk, content))
  {
    var b, line := Stage4(g, now, disk, content), LineOf(g, Ack(g));
    HelloNext(LineOf(g, ReceiverHello(g.offer)), line);
    ThenFromReceiver(g, a, b, line, Step(b.relay, Data(R, line)));
  }

  lemma AckInbound(g: Setup, now: int, disk: map<Path, Bytes>, content: Bytes)
    requires Admissible(g)
    ensures Inbound(g, Stage5(g, now, disk, content), S) == LineOf(g, Ready(g)) + LineOf(g, Ack(g))
  {
    AckForwarded(g, now, content);
    WirePair(g, Ready(g), Ack(g), []);
    assert [Line(Ready(g)), Line(Ack(g))] + [] == [Line(Ready(g)), Line(Ack(g))] && Wire(g, []) == [];
  }

  lemma ToReturned(g: Setup, a: System, b: System, content: Bytes)
    requires Admissible(g) && |content| == g.offer.size && g.sha(content) == g.offer.sha256
    requires Reaches(g, a, b) && b.snd == ContentSent(g, content)
    requires Inbound(g, b, S) == LineOf(g, Ready(g)) + LineOf(g, Ack(g))
    ensures Reaches(g, a, b.(snd := Returned(g, content)))
  {
    Finishes(g, content, Inbound(g, b, S));
    ThenSender(g, a, b, SFinish);
    ReadsAck(g, content, Inbound(g, b, S));
    ThenSender(g, a, b.(snd := ContentSent(g, content).(phase := SAwaitAck)), SRead(|LineOf(g, Ack(g))|));
  }

  /**
   * Every file can arrive: if the limits admit the offer and the first candidate name is
   * free, some run brings exactly this content through to the sender's return.
   */
  lemma EveryFileCanArrive(g: Setup, now: int, disk: map<Path, Bytes>, content: Bytes)
    requires Admissible(g) && NamesOk(g) && g.candidate(0) !in disk
    requires |content| == g.offer.size && g.sha(content) == g.offer.sha256
    ensures exists run ::
              var sys := RunSystem(g, Init(g, now, disk), run);
              && sys.snd.phase == SReturned && sys.snd.sent == content
  {
    var a := Init(g, now, disk);
    ToStage1(g, now, disk);
    ToStage2(g, now, a, disk);
    ToStage3(g, now, a, disk, content);
    ToCommitting(g, now, a, disk, content);
    ToStage4(g, now, a, disk, content);
    ToStage5(g, now, a, disk, content);
    AckInbound(g, now, disk, content);
    var b := Stage5(g, now, disk, content);
    ToReturned(g, a, b, content);
    var run :| RunSystem(g, a, run) == b.(snd := Returned(g, content));
  }
}
