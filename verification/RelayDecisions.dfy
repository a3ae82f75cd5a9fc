/**
 * What each event of the relay decides, said of the sessions, accounts, timers and writes
 * themselves: when a socket is refused and with which code, when a transfer starts, when a
 * session ends and who hears of it, and what stays as it was.
 */
module RelayDecisions {
  import opened Prelude
  import opened Framing
  import opened FileRelay
  import opened RelayInvariants

  // ---- How a session ends ------------------------------------------------------------

  predicate CanWrite(st: Relay, x: Sock) { x in st.sockets && x in st.conns && !st.conns[x].ended }

  function Told(st: Relay, x: Option<Sock>, w: Option<Out>): seq<Out> {
    if x.Some? && CanWrite(st, x.value) && w.Some? then [w.value] else []
  }

  function Failure(id: string): Option<Out> {
    Some(Line(EMPTY.(ok := Some(false), id := Some(id), code := Some("TRANSFER_FAILED"))))
  }

  predicate Party(s: Session, x: Sock) { s.sender == Some(x) || s.receiver == Some(x) }

  /**
   * Session `u` has ended: its id is off the table, no timer of it is armed, the total has
   * fallen by its account, its open sockets are ended after the given writes; and nothing
   * else has changed.
   */
  ghost predicate Ended(st: Relay, st': Relay, u: nat, phase: Phase, toSender: seq<Out>, toReceiver: seq<Out>) {
    && u < |st.heap| == |st'.heap|
    && st' == st.(heap := st.heap[u := st'.heap[u]], sessions := st.sessions - {st.heap[u].id},
                  inFlight := st'.inFlight, conns := st'.conns)
    && st'.inFlight + st.heap[u].accounted == st.inFlight
    && st'.heap[u] == st.heap[u].(phase := phase, pairingTimer := None, stallTimer := None, deadlineTimer := None,
                                  accounted := 0, releases := st'.heap[u].releases,
                                  toSender := st.heap[u].toSender + toSender,
                                  toReceiver := st.heap[u].toReceiver + toReceiver)
    && st'.conns.Keys == st.conns.Keys
    && forall x <- st.conns ::
         st'.conns[x] == if Party(st.heap[u], x) && CanWrite(st, x) then st.conns[x].(ended := true) else st.conns[x]
  }

  function AsOut(m: Option<Json>): Option<Out> { if m.Some? then Some(Line(m.value)) else None }

  lemma EndsBoth(st: Relay, s: Session)
    ensures var st' := CloseBoth(st, s);
            && st' == st.(conns := st'.conns) && st'.conns.Keys == st.conns.Keys
            && forall x <- st.conns ::
                 st'.conns[x] == if Party(s, x) && CanWrite(st, x) then st.conns[x].(ended := true) else st.conns[x]
  {
  }

  lemma FinishIs(st: Relay, u: nat, phase: Phase, a: Option<Json>, b: Option<Json>)
    requires u < |st.heap| && Live(st, u) && st.heap[u].accounted <= st.inFlight
    ensures Ended(st, Finish(st, u, phase, a, b), u, phase, Told(st, st.heap[u].sender, AsOut(a)),
                  Told(st, st.heap[u].receiver, AsOut(b)))
  {
    var s := st.heap[u];
    var ended := Released(s).(phase := phase, toSender := s.toSender + Goodbye(st, s.sender, a),
                              toReceiver := s.toReceiver + Goodbye(st, s.receiver, b));
    EndsBoth(st.(heap := st.heap[u := ended], sessions := Without(st.sessions, s.id, u),
                 inFlight := st.inFlight - s.accounted), s);
  }

  /** The session that holds the id fails, and its open sockets hear of it. */
  ghost predicate Fails(st: Relay, st': Relay, id: string) {
    && id in st.sessions && st.sessions[id] < |st.heap|
    && var s := st.heap[st.sessions[id]];
       Ended(st, st', st.sessions[id], FAILED, Told(st, s.sender, Failure(id)), Told(st, s.receiver, Failure(id)))
  }

  lemma DestroyFails(st: Relay, id: string)
    requires TableOk(st) && AccountsOk(st) && id in st.sessions
    ensures Fails(st, Destroy(st, id), id)
  {
    var u := st.sessions[id];
    AccountBounded(Accounts(st.heap), u);
    FinishIs(st, u, FAILED, Some(FailureMsg(id)), Some(FailureMsg(id)));
  }

  // ---- Timers ------------------------------------------------------------------------

  predicate RunOut(timer: Option<int>, now: int) { timer.Some? && timer.value <= now }

  /**
   * A timer that has run out fails its session: off the table, no timer armed, its account
   * given back, and each of its sockets told and ended. Before that a timer does nothing.
   */
  lemma TimerDecides(st: Relay, id: string)
    requires RelayOk(st)
    ensures var st' := Step(st, Fire(id));
            if id in st.sessions && st.sessions[id] < |st.heap|
               && var s := st.heap[st.sessions[id]];
                  RunOut(s.pairingTimer, st.now) || RunOut(s.stallTimer, st.now) || RunOut(s.deadlineTimer, st.now)
            then
              var u := st.sessions[id];
              var s, s' := st.heap[u], st'.heap[u];
              && Fails(st, st', id) && !Live(st', u)
              && (s.sender.Some? ==> s'.toSender == s.toSender + [Failure(id).value] && Closed(st', s.sender.value))
              && (s.receiver.Some? ==>
                    s'.toReceiver == s.toReceiver + [Failure(id).value] && Closed(st', s.receiver.value))
            else st' == st
  {
    if id in st.sessions {
      DestroyFails(st, id);
      assert EntryOk(st, st.sessions[id]);
    }
  }

  predicate Closed(st: Relay, x: Sock) { x in st.conns && st.conns[x].ended }

  /** Time passes as long as no timer of a live session would have run out before. */
  lemma TickDecides(st: Relay, t: int)
    requires RelayOk(st)
    ensures Step(st, Tick(t))
         == if st.now <= t && (forall u | 0 <= u < |st.heap| && Live(st, u) ::
                                 !RunOut(st.heap[u].pairingTimer, t - 1) && !RunOut(st.heap[u].stallTimer, t - 1)
                                 && !RunOut(st.heap[u].deadlineTimer, t - 1))
            then st.(now := t) else st
  {
    if forall u | 0 <= u < |st.heap| && Live(st, u) ::
         !RunOut(st.heap[u].pairingTimer, t - 1) && !RunOut(st.heap[u].stallTimer, t - 1)
         && !RunOut(st.heap[u].deadlineTimer, t - 1) {
      forall id <- st.sessions ensures NotDue(st.heap[st.sessions[id]], t) { assert Live(st, st.sessions[id]); }
    } else {
      var u :| 0 <= u < |st.heap| && Live(st, u)
               && (RunOut(st.heap[u].pairingTimer, t - 1) || RunOut(st.heap[u].stallTimer, t - 1)
                   || RunOut(st.heap[u].deadlineTimer, t - 1));
      assert !NotDue(st.heap[st.sessions[st.heap[u].id]], t);
    }
  }

  lemma RunPrepend(st: Relay, e: Event, rest: seq<Event>)
    ensures Run(st, [e] + rest) == Run(Step(st, e), rest)
  {
    assert ([e] + rest)[1..] == rest;
  }

  lemma FireShrinks(st: Relay, id: string)
    requires RelayOk(st) && id in st.sessions && st.sessions[id] < |st.heap|
    requires var s := st.heap[st.sessions[id]];
             RunOut(s.pairingTimer, st.now) || RunOut(s.stallTimer, st.now) || RunOut(s.deadlineTimer, st.now)
    ensures |Step(st, Fire(id)).sessions| < |st.sessions| && Step(st, Fire(id)).now == st.now
  {
    TimerDecides(st, id);
    assert st.sessions == (st.sessions - {id})[id := st.sessions[id]];
  }

  /** A timer that stands in the way of the next tick has run out already. */
  lemma TickOrFire(st: Relay) returns (id: Option<string>)
    requires RelayOk(st)
    ensures id.None? ==> Step(st, Tick(st.now + 1)) == st.(now := st.now + 1)
    ensures id.Some? ==>
              && id.value in st.sessions && st.sessions[id.value] < |st.heap|
              && var s := st.heap[st.sessions[id.value]];
                 RunOut(s.pairingTimer, st.now) || RunOut(s.stallTimer, st.now) || RunOut(s.deadlineTimer, st.now)
  {
    id := None;
    if !NothingDueBefore(st, st.now + 1) {
      var due :| due in st.sessions && st.sessions[due] < |st.heap| && !NotDue(st.heap[st.sessions[due]], st.now + 1);
      id := Some(due);
    }
  }

  /** Time never stands still: firing timers and ticks alone bring the clock to any later time. */
  lemma {:induction false} ClockAdvances(st: Relay, t: int) returns (events: seq<Event>)
    requires RelayOk(st) && st.now <= t
    ensures Run(st, events).now == t && RelayOk(Run(st, events))
    ensures forall e <- events :: e.Fire? || e.Tick?
    decreases |st.sessions|, t - st.now
  {
    if st.now == t { return []; }
    var due := TickOrFire(st);
    var e := if due.Some? then Fire(due.value) else Tick(st.now + 1);
    if due.Some? { FireShrinks(st, due.value); }
    StepOk(st, e);
    var rest := ClockAdvances(Step(st, e), t);
    RunPrepend(st, e, rest);
    events := [e] + rest;
  }

  // ---- Sockets that open and close ---------------------------------------------------

  /** A connection over the limit is told BUSY and ended; any other waits for its header. */
  lemma ConnectDecides(st: Relay, x: Sock)
    requires x !in st.conns
    ensures var st' := Step(st, Connect(x));
            && st' == st.(sockets := st'.sockets, conns := st.conns[x := ConnOf(st', x)]) && x in st'.conns
            && if |st.sockets| < st.cfg.maxConnections then
                 st'.sockets == st.sockets + {x} && st'.conns[x] == Conn(Header, [], None, None, false, [])
               else
                 && st'.sockets == st.sockets
                 && st'.conns[x] == Conn(Quiet, [], None, None, true, [Refusal("BUSY")])
  {
  }

  function Refusal(code: string): Out { Line(EMPTY.(ok := Some(false), code := Some(code))) }

  /** The id under which the socket is a party, of whatever session. */
  function RegisteredId(st: Relay, x: Sock): Option<string> {
    if x in st.conns && st.conns[x].session.Some? && st.conns[x].session.value < |st.heap|
    then Some(st.heap[st.conns[x].session.value].id) else None
  }

  /** Whatever session holds that id now fails; with none the relay stays as it is. */
  ghost predicate FailsIfHeld(st: Relay, st': Relay, id: Option<string>) {
    if id.Some? && id.value in st.sessions then Fails(st, st', id.value) else st' == st
  }

  lemma DestroyOfFails(st: Relay, x: Sock)
    requires TableOk(st) && AccountsOk(st)
    ensures FailsIfHeld(st, DestroyOf(st, x), RegisteredId(st, x))
  {
    var id := RegisteredId(st, x);
    if id.Some? && id.value in st.sessions { DestroyFails(st, id.value); }
  }

  /** A socket that closed is gone; the session that holds its id fails. */
  lemma CloseDecides(st: Relay, x: Sock)
    requires RelayOk(st)
    ensures var gone := st.(sockets := st.sockets - {x});
            if x in st.sockets then FailsIfHeld(gone, Step(st, Close(x)), RegisteredId(st, x))
            else Step(st, Close(x)) == st
  {
    if x in st.sockets { DestroyOfFails(st.(sockets := st.sockets - {x}), x); }
  }

  /** A socket in error can no longer be written; the session that holds its id fails. */
  lemma ErrorDecides(st: Relay, x: Sock)
    requires RelayOk(st)
    ensures if x in st.sockets then
              && x in st.conns
              && FailsIfHeld(st.(conns := st.conns[x := st.conns[x].(ended := true)]), Step(st, SocketError(x)),
                             RegisteredId(st, x))
            else Step(st, SocketError(x)) == st
  {
    if x in st.sockets {
      assert x in st.conns;
      ErrorIs(st, x);
      DestroyOfFails(st.(conns := st.conns[x := st.conns[x].(ended := true)]), x);
    }
  }

  lemma ErrorIs(st: Relay, x: Sock)
    requires x in st.sockets && x in st.conns
    ensures var ended := st.(conns := st.conns[x := st.conns[x].(ended := true)]);
            Step(st, SocketError(x)) == DestroyOf(ended, x) && RegisteredId(ended, x) == RegisteredId(st, x)
  {
    assert st.conns[x].ended ==> st.conns[x := st.conns[x].(ended := true)] == st.conns;
  }

  /** The socket is told the code and ended, if it can still be written. */
  function Refused(st: Relay, x: Sock, code: string): Relay {
    if CanWrite(st, x) then
      st.(conns := st.conns[x := st.conns[x].(ended := true, out := st.conns[x].out + [Refusal(code)])])
    else st
  }

  /** Only a socket that is no party of a session is told that its time has run out. */
  lemma HeaderTimeoutDecides(st: Relay, x: Sock)
    ensures Step(st, HeaderTimeout(x)) == if RegisteredId(st, x) == None then Refused(st, x, "HEADER_TIMEOUT") else st
  {
  }

  /** The end of a stream refuses a header still awaited and fails an acknowledgement still awaited. */
  lemma EndOfInputDecides(st: Relay, x: Sock)
    requires RelayOk(st) && x in st.sockets
    ensures x in st.conns
    ensures var quiet := st.(conns := st.conns[x := st.conns[x].(mode := Quiet, buffered := [])]);
            var st' := Step(st, EndOfInput(x));
            match st.conns[x].mode
            case Header => st' == Refused(quiet, x, "INVALID_REGISTRATION")
            case AckHeader => FailsIfHeld(quiet, st', RegisteredId(st, x))
            case _ => st' == st
  {
    var quiet := st.(conns := st.conns[x := st.conns[x].(mode := Quiet, buffered := [])]);
    assert RegisteredId(quiet, x) == RegisteredId(st, x);
    DestroyOfFails(quiet, x);
  }

  // ---- Bytes on a session's sockets --------------------------------------------------

  /** Socket `x` is the sender or receiver of the live session `u`, and listens in this mode. */
  ghost predicate Listens(st: Relay, x: Sock, u: nat, mode: Mode) {
    && x in st.sockets && x in st.conns && st.conns[x].mode == mode && st.conns[x].session == Some(u)
    && u < |st.heap| && Live(st, u)
  }

  /** The payload's sender waits for no more bytes, its receiver's acknowledgement is awaited. */
  function ListenersAfterPayload(conns: map<Sock, Conn>, s: Session): map<Sock, Conn>
    requires s.sender.Some? && s.receiver.Some? && s.sender.value in conns && s.receiver.value in conns
  {
    conns[s.sender.value := conns[s.sender.value].(mode := Overrun, buffered := [])]
         [s.receiver.value := conns[s.receiver.value].(mode := AckHeader, buffered := [])]
  }

  /**
   * A chunk of payload within what is missing goes to the receiver whole, restarts the stall
   * timer, and if nothing is missing then, the acknowledgement is awaited; a larger one fails
   * the session and nothing of it goes out.
   */
  lemma PayloadDecides(st: Relay, x: Sock, u: nat, chunk: Bytes)
    requires RelayOk(st) && Listens(st, x, u, Consuming) && chunk != []
    ensures var s, st' := st.heap[u], Step(st, Data(x, chunk));
            var taken := s.(senderIn := s.senderIn + chunk);
            && s.sender == Some(x) && s.receiver.Some? && s.receiver.value in st.conns && s.phase == TRANSFERRING
            && if |chunk| > s.remaining then Fails(st.(heap := st.heap[u := taken]), st', s.id)
               else
                 var over := |chunk| == s.remaining;
                 st' == st.(heap := st.heap[u := taken.(
                                      toReceiver := s.toReceiver + [Payload(chunk)], remaining := s.remaining - |chunk|,
                                      stallTimer := Some(st.now + st.cfg.stallMs),
                                      phase := if over then WAIT_ACK else TRANSFERRING)],
                            conns := if over then ListenersAfterPayload(st.conns, s) else st.conns)
  {
    PayloadParties(st, x, u);
    PayloadIs(st, x, u, chunk);
  }

  lemma PayloadParties(st: Relay, x: Sock, u: nat)
    requires RelayOk(st) && Listens(st, x, u, Consuming)
    ensures var s := st.heap[u];
            && s.sender == Some(x) && s.receiver.Some? && s.receiver.value in st.conns && s.phase == TRANSFERRING
            && s.receiver != s.sender
  {
    SenderOf(st, x, u);
    var s := st.heap[u];
    assert EntryOk(st, u);
    assert Member(st, u, s.sender.value, "sender") && Member(st, u, s.receiver.value, "receiver");
  }

  lemma PayloadIs(st: Relay, x: Sock, u: nat, chunk: Bytes)
    requires TableOk(st) && AccountsOk(st) && Listens(st, x, u, Consuming) && chunk != []
    requires st.heap[u].sender == Some(x) && st.heap[u].receiver.Some? && st.heap[u].receiver.value in st.conns
    requires st.heap[u].phase == TRANSFERRING && st.heap[u].receiver != st.heap[u].sender
    ensures var s, st' := st.heap[u], Step(st, Data(x, chunk));
            var taken := s.(senderIn := s.senderIn + chunk);
            if |chunk| > s.remaining then Fails(st.(heap := st.heap[u := taken]), st', s.id)
            else
              var over := |chunk| == s.remaining;
              st' == st.(heap := st.heap[u := taken.(
                                   toReceiver := s.toReceiver + [Payload(chunk)], remaining := s.remaining - |chunk|,
                                   stallTimer := Some(st.now + st.cfg.stallMs),
                                   phase := if over then WAIT_ACK else TRANSFERRING)],
                         conns := if over then ListenersAfterPayload(st.conns, s) else st.conns)
  {
    var heard := HeardPayload(st, u, chunk);
    ToConsume(st, x, u, chunk);
    if |chunk| > st.heap[u].remaining {
      SameAccounts(st, heard, u);
      DestroyFails(heard, st.heap[u].id);
    } else {
      PassedOnIs(heard, u, chunk);
    }
  }

  lemma ToConsume(st: Relay, x: Sock, u: nat, chunk: Bytes)
    requires Listens(st, x, u, Consuming) && chunk != [] && st.heap[u].phase == TRANSFERRING
    requires st.heap[u].sender.Some? && st.heap[u].receiver.Some?
    ensures Step(st, Data(x, chunk)) == FileRelay.Consume(HeardPayload(st, u, chunk), u, chunk)
  {
  }

  lemma SameAccounts(st: Relay, st': Relay, u: nat)
    requires TableOk(st) && AccountsOk(st) && u < |st.heap| == |st'.heap|
    requires st'.heap == st.heap[u := st'.heap[u]] && st'.inFlight == st.inFlight && st'.cfg == st.cfg
    requires st'.heap[u].accounted == st.heap[u].accounted && st'.heap[u].id == st.heap[u].id
    requires st'.sessions == st.sessions && st'.sockets == st.sockets && st'.conns.Keys == st.conns.Keys
    ensures TableOk(st') && AccountsOk(st')
  {
    SumAccounts(st.heap, u, st'.heap[u]);
  }

  lemma PassedOnIs(heard: Relay, u: nat, chunk: Bytes)
    requires u < |heard.heap| && chunk != [] && |chunk| <= heard.heap[u].remaining
    requires heard.heap[u].phase == TRANSFERRING && heard.heap[u].sender.Some? && heard.heap[u].receiver.Some?
    requires heard.heap[u].sender != heard.heap[u].receiver
    requires heard.heap[u].sender.value in heard.conns && heard.heap[u].receiver.value in heard.conns
    ensures var s, over := heard.heap[u], |chunk| == heard.heap[u].remaining;
            FileRelay.Consume(heard, u, chunk)
              == heard.(heap := heard.heap[u := s.(
                                  toReceiver := s.toReceiver + [Payload(chunk)], remaining := s.remaining - |chunk|,
                                  stallTimer := Some(heard.now + heard.cfg.stallMs),
                                  phase := if over then WAIT_ACK else TRANSFERRING)],
                        conns := if over then ListenersAfterPayload(heard.conns, s) else heard.conns)
  {
  }

  /** Any byte after the payload fails the session. */
  lemma OverrunDecides(st: Relay, x: Sock, u: nat, chunk: Bytes)
    requires RelayOk(st) && Listens(st, x, u, Overrun) && chunk != []
    ensures var s := st.heap[u];
            Fails(st.(heap := st.heap[u := s.(senderIn := s.senderIn + chunk)],
                      conns := st.conns[x := st.conns[x].(mode := Quiet, buffered := [])]),
                  Step(st, Data(x, chunk)), s.id)
  {
    OverrunIs(st, x, u, chunk);
    var quiet := SetMode(HeardPayload(st, u, chunk), x, Quiet, []);
    SameAccounts(st, quiet, u);
    DestroyFails(quiet, st.heap[u].id);
  }

  lemma OverrunIs(st: Relay, x: Sock, u: nat, chunk: Bytes)
    requires Listens(st, x, u, Overrun) && chunk != []
    ensures var quiet := SetMode(HeardPayload(st, u, chunk), x, Quiet, []);
            && quiet == st.(heap := st.heap[u := st.heap[u].(senderIn := st.heap[u].senderIn + chunk)],
                            conns := st.conns[x := st.conns[x].(mode := Quiet, buffered := [])])
            && Step(st, Data(x, chunk)) == Destroy(quiet, st.heap[u].id)
  {
  }

  /** The acknowledgement names this transfer, its size and its hash. */
  predicate Acknowledges(s: Session, ack: Option<Json>) {
    && ack.Some? && ack.value.ok == Some(true) && ack.value.transferId == Some(s.id)
    && ack.value.size == Some(s.size) && ack.value.sha256 == Some(s.sha256)
  }

  /** The session and its receiver's socket after these bytes of the acknowledgement. */
  function AckTaken(st: Relay, x: Sock, u: nat, bytes: Bytes, mode: Mode): Relay
    requires u < |st.heap| && x in st.conns
  {
    st.(heap := st.heap[u := st.heap[u].(ackIn := bytes)],
        conns := st.conns[x := st.conns[x].(mode := mode, buffered := bytes)])
  }

  /**
   * Bytes of the acknowledgement: as long as its line is incomplete it is awaited; a matching
   * one ends the session and is passed on to the sender; any other fails the session.
   */
  lemma AckDecides(st: Relay, x: Sock, u: nat, chunk: Bytes)
    requires RelayOk(st) && Listens(st, x, u, AckHeader) && chunk != []
    ensures var s, st' := st.heap[u], Step(st, Data(x, chunk));
            var bytes := s.ackIn + chunk;
            var verdict := Classify(bytes, st.cfg.headerBytes);
            var heard := AckTaken(st, x, u, bytes, Quiet);
            && s.receiver == Some(x) && s.phase == WAIT_ACK
            && if verdict.Pending? then st' == AckTaken(st, x, u, bytes, AckHeader)
               else if verdict.Complete? && Acknowledges(s, st.cfg.parse(verdict.header)) then
                 Ended(heard, st', u, DONE, Told(heard, s.sender, AsOut(st.cfg.parse(verdict.header))), [])
               else Fails(heard, st', s.id)
  {
    LiveAwaiting(st, x, u);
    assert EntryOk(st, u);
    var bytes := st.heap[u].ackIn + chunk;
    assert AckTaken(st, x, u, bytes, Quiet) == HeardAck(st, x, u, bytes, Quiet);
    assert AckTaken(st, x, u, bytes, AckHeader) == HeardAck(st, x, u, bytes, AckHeader);
    AckListens(st, x, u, chunk);
    AckEnds(st, x, u, bytes);
  }

  lemma AckListens(st: Relay, x: Sock, u: nat, chunk: Bytes)
    requires Listens(st, x, u, AckHeader) && chunk != []
    ensures Step(st, Data(x, chunk)) == OnLiveAck(st, x, u, st.conns[x].buffered + chunk)
  {
  }

  lemma AckEnds(st: Relay, x: Sock, u: nat, bytes: Bytes)
    requires TableOk(st) && AccountsOk(st) && u < |st.heap| && Live(st, u) && x in st.conns
    ensures var s, st', heard := st.heap[u], OnLiveAck(st, x, u, bytes), HeardAck(st, x, u, bytes, Quiet);
            var verdict := Classify(bytes, st.cfg.headerBytes);
            if verdict.Pending? then st' == HeardAck(st, x, u, bytes, AckHeader)
            else if verdict.Complete? && Acknowledges(s, st.cfg.parse(verdict.header)) then
              Ended(heard, st', u, DONE, Told(heard, s.sender, AsOut(st.cfg.parse(verdict.header))), [])
            else Fails(heard, st', s.id)
  {
    var heard := HeardAck(st, x, u, bytes, Quiet);
    var verdict := Classify(bytes, st.cfg.headerBytes);
    SameAccounts(st, heard, u);
    AccountBounded(Accounts(heard.heap), u);
    DestroyFails(heard, st.heap[u].id);
    if verdict.Complete? && st.cfg.parse(verdict.header).Some? {
      FinishIs(heard, u, DONE, st.cfg.parse(verdict.header), None);
    }
  }

  /**
   * A socket whose session has ended: its payload is dropped; a byte after the payload, or an
   * acknowledgement that is no JSON line, still fails whatever session holds the id now.
   */
  lemma StaleDecides(st: Relay, x: Sock, u: nat, chunk: Bytes)
    requires RelayOk(st) && x in st.sockets && x in st.conns && st.conns[x].session == Some(u)
    requires u < |st.heap| && !Live(st, u) && chunk != []
    ensures var id, st', c := st.heap[u].id, Step(st, Data(x, chunk)), st.conns[x];
            var bytes := c.buffered + chunk;
            var verdict := Classify(bytes, st.cfg.headerBytes);
            var quiet := st.(conns := st.conns[x := c.(mode := Quiet, buffered := bytes)]);
            match c.mode
            case Overrun => FailsIfHeld(st.(conns := st.conns[x := c.(mode := Quiet, buffered := [])]), st', Some(id))
            case AckHeader =>
              if verdict.Pending? then st' == st.(conns := st.conns[x := c.(buffered := bytes)])
              else if verdict.Complete? && st.cfg.parse(verdict.header).Some? then st' == quiet
              else FailsIfHeld(quiet, st', Some(id))
            case _ => st' == st
  {
    var id, c := st.heap[u].id, st.conns[x];
    assert ConnOk(st, x);
    HeldFails(st.(conns := st.conns[x := c.(mode := Quiet, buffered := [])]), id);
    HeldFails(st.(conns := st.conns[x := c.(mode := Quiet, buffered := c.buffered + chunk)]), id);
    StaleIs(st, x, u, chunk);
  }

  lemma HeldFails(st: Relay, id: string)
    requires TableOk(st) && AccountsOk(st)
    ensures FailsIfHeld(st, Destroy(st, id), Some(id))
  {
    if id in st.sessions { DestroyFails(st, id); }
  }

  lemma StaleIs(st: Relay, x: Sock, u: nat, chunk: Bytes)
    requires ConnOk(st, x) && x in st.sockets && x in st.conns && st.conns[x].session == Some(u)
    requires u < |st.heap| && !Live(st, u) && chunk != []
    ensures var id, st', c := st.heap[u].id, Step(st, Data(x, chunk)), st.conns[x];
            var bytes := c.buffered + chunk;
            var verdict := Classify(bytes, st.cfg.headerBytes);
            var quiet := st.(conns := st.conns[x := c.(mode := Quiet, buffered := bytes)]);
            match c.mode
            case Overrun => st' == Destroy(st.(conns := st.conns[x := c.(mode := Quiet, buffered := [])]), id)
            case AckHeader =>
              if verdict.Pending? then st' == st.(conns := st.conns[x := c.(buffered := bytes)])
              else if verdict.Complete? && st.cfg.parse(verdict.header).Some? then st' == quiet
              else st' == Destroy(quiet, id)
            case _ => st' == st
  {
  }

  // ---- Registration ------------------------------------------------------------------

  /** A socket whose header has not been read yet. */
  ghost predicate Unregistered(st: Relay, x: Sock) {
    x in st.sockets && x in st.conns && st.conns[x].mode == Header && st.conns[x].session == None
  }

  /**
   * Bytes of a header: as long as its line is incomplete it is awaited; one that is too long
   * or no JSON object is refused; any other registers the socket with what followed it.
   */
  lemma HeaderDecides(st: Relay, x: Sock, chunk: Bytes)
    requires Unregistered(st, x) && chunk != []
    ensures var bytes, st' := st.conns[x].buffered + chunk, Step(st, Data(x, chunk));
            var verdict := Classify(bytes, st.cfg.headerBytes);
            var read := st.(conns := st.conns[x := st.conns[x].(mode := Quiet, buffered := bytes)]);
            if verdict.Pending? then st' == st.(conns := st.conns[x := st.conns[x].(buffered := bytes)])
            else if verdict.Complete? && st.cfg.parse(verdict.header).Some? then
              st' == Register(read, x, st.cfg.parse(verdict.header).value, verdict.rest)
            else st' == Refused(read, x, "INVALID_REGISTRATION")
  {
  }

  /** Nothing is read from a socket whose header was read and that joined no session. */
  lemma SilentDecides(st: Relay, x: Sock, chunk: Bytes)
    requires x !in st.sockets || x !in st.conns || st.conns[x].mode == Quiet || chunk == []
    ensures Step(st, Data(x, chunk)) == st
  {
  }

  /** A text of letters, digits and these marks, of this length. */
  predicate Shaped(v: Option<string>, least: nat, most: nat, marks: string) {
    && v.Some? && least <= |v.value| <= most
    && forall c <- v.value ::
         48 <= c as int <= 57 || 65 <= c as int <= 90 || 97 <= c as int <= 122 || c in marks
  }

  /** Which headers are acceptable, by length and character of each field. */
  lemma HelloRules(h: Json)
    ensures ValidHello(h)
       <==> && h.version == Some(1) && h.role in {Some("sender"), Some("receiver")}
            && Shaped(h.id, 1, 128, "._-") && Shaped(h.token, 32, 256, "_-")
            && Shaped(h.sourceDevice, 1, 256, "._:-") && Shaped(h.targetDevice, 1, 256, "._:-")
  {
    FieldRules(h.id);
    FieldRules(h.token);
    FieldRules(h.sourceDevice);
    FieldRules(h.targetDevice);
  }

  lemma FieldRules(v: Option<string>)
    ensures ValidId(v) <==> Shaped(v, 1, 128, "._-")
    ensures ValidTicket(v) <==> Shaped(v, 32, 256, "_-")
    ensures ValidDevice(v) <==> Shaped(v, 1, 256, "._:-")
  {
  }

  /** A hash is 64 lower-case hexadecimal digits. */
  lemma ShaRules(v: Option<string>)
    ensures ValidSha(v)
       <==> v.Some? && |v.value| == 64 && forall c <- v.value :: 48 <= c as int <= 57 || 97 <= c as int <= 102
  {
  }

  /** A header that breaks the rules is refused, whatever session it names. */
  lemma BadHeaderDecides(st: Relay, x: Sock, h: Json, rest: Bytes)
    requires x in st.conns && !(h.version == Some(1) && ValidId(h.id) && ValidTicket(h.token)
                                && h.role in {Some("sender"), Some("receiver")}
                                && ValidDevice(h.sourceDevice) && ValidDevice(h.targetDevice))
    ensures Register(st, x, h, rest) == Refused(st, x, "INVALID_REGISTRATION")
  {
  }

  /** A session just opened: pairing, nobody there yet, its pairing timer armed. */
  ghost predicate JustOpened(s: Session, id: string, token: string, now: int, cfg: Config) {
    && s.id == id && s.token == token && s.phase == PAIRING && s.createdAt == now
    && s.sender == None && s.receiver == None && s.accounted == 0
    && s.pairingTimer == Some(now + cfg.pairingMs) && s.stallTimer == None && s.deadlineTimer == None
    && s.toSender == [] && s.toReceiver == [] && s.senderIn == [] && s.ackIn == [] && s.releases == 0
  }

  /** The relay with such a session in addition. */
  ghost predicate WithNew(st: Relay, st1: Relay, id: string, token: string) {
    && |st1.heap| == |st.heap| + 1 && st1.heap[..|st.heap|] == st.heap
    && JustOpened(st1.heap[|st.heap|], id, token, st.now, st.cfg)
    && st1 == st.(heap := st1.heap, sessions := st.sessions[id := |st.heap|])
  }

  /**
   * The session an acceptable header is for: one that lives under the id, or a new one, for
   * which there is a place exactly if fewer than `maxSessions` live.
   */
  lemma SessionDecides(st: Relay, x: Sock, h: Json, rest: Bytes) returns (st1: Relay)
    requires TableOk(st) && x in st.conns && ValidHello(h)
    ensures var st' := Register(st, x, h, rest);
            if h.id.value in st.sessions then st1 == st && st' == RegisterIn(st1, x, st.sessions[h.id.value], h, rest)
            else if |st.sessions| == st.cfg.maxSessions then st' == Refused(st, x, "BUSY")
            else
              && WithNew(st, st1, h.id.value, h.token.value)
              && st' == RegisterIn(st1, x, |st.heap|, h, rest)
  {
    st1 := if h.id.value in st.sessions then st else Opened(st, h.id.value, h.token.value);
  }

  /** Who may still join: the ticket must be the session's, which must still be pairing. */
  lemma AdmissionDecides(st: Relay, x: Sock, u: nat, h: Json, rest: Bytes)
    requires u < |st.heap| && x in st.conns && ValidHello(h)
    ensures var s, st' := st.heap[u], RegisterIn(st, x, u, h, rest);
            if s.token != h.token.value then st' == Refused(st, x, "TICKET_MISMATCH")
            else if s.phase != PAIRING then st' == Refused(st, x, "DUPLICATE_ROLE")
            else if h.role == Some("receiver") then st' == JoinReceiver(st, x, u, h)
            else st' == JoinSender(st, x, u, h, rest)
  {
  }

  /** The socket has become a party of the session, whose record is now `s`. */
  function Seated(st: Relay, x: Sock, u: nat, h: Json, s: Session): Relay
    requires u < |st.heap| && x in st.conns
  {
    st.(heap := st.heap[u := s], conns := st.conns[x := st.conns[x].(session := Some(u), hello := Some(h))])
  }

  /**
   * A receiver joins a session that has none: it is told so and its devices are kept. With a
   * sender there already, pairing decides.
   */
  lemma ReceiverDecides(st: Relay, x: Sock, u: nat, h: Json)
    requires RelayOk(st) && u < |st.heap| && Live(st, u) && st.heap[u].phase == PAIRING
    requires x in st.conns && ValidHello(h)
    ensures var s, st' := st.heap[u], JoinReceiver(st, x, u, h);
            var s' := s.(receiver := Some(x), receiverSource := h.sourceDevice.value,
                         receiverTarget := h.targetDevice.value,
                         toReceiver := s.toReceiver + [Line(EMPTY.(typ := Some("registered"), id := Some(s.id)))]);
            if s.receiver.Some? then st' == Refused(st, x, "DUPLICATE_ROLE")
            else if !CanWrite(st, x) then Fails(st, st', s.id)
            else if s.sender.None? then st' == Seated(st, x, u, h, s')
            else st' == Pair(Seated(st, x, u, h, s'), u)
  {
    DestroyFails(st, st.heap[u].id);
  }

  /** The size and hash a sender must announce. */
  predicate Announces(h: Json, cfg: Config) {
    && h.size.Some? && 0 <= h.size.value <= 9007199254740991 && h.size.value <= cfg.maxBytes && ValidSha(h.sha256)
  }

  /** The sum of the accounts of all sessions. */
  function InFlight(st: Relay): nat { Sum(Accounts(st.heap)) }

  /**
   * A sender joins a session that has none, if its size fits what is in flight: its account
   * is taken, what followed its header is kept. One that does not fit is refused, and the
   * session is dropped if nobody else is in it. With a receiver there already, pairing decides.
   */
  lemma SenderDecides(st: Relay, x: Sock, u: nat, h: Json, rest: Bytes)
    requires RelayOk(st) && u < |st.heap| && Live(st, u) && st.heap[u].phase == PAIRING
    requires x in st.conns && ValidHello(h)
    ensures var s, st' := st.heap[u], JoinSender(st, x, u, h, rest);
            if !Announces(h, st.cfg) then st' == Refused(st, x, "INVALID_METADATA")
            else if s.sender.Some? then st' == Refused(st, x, "DUPLICATE_ROLE")
            else if InFlight(st) + h.size.value > st.cfg.maxInFlight then
              var refused := Refused(st, x, "BUSY");
              if s.receiver.Some? then st' == refused
              else st' == refused.(heap := st.heap[u := s.(pairingTimer := None, stallTimer := None,
                                                           deadlineTimer := None)],
                                   sessions := st.sessions - {s.id})
            else if !CanWrite(st, x) then Fails(st, st', s.id)
            else
              var s' := s.(sender := Some(x), sourceDevice := h.sourceDevice.value,
                           targetDevice := h.targetDevice.value, size := h.size.value, sha256 := h.sha256.value,
                           accounted := h.size.value, remainder := rest, senderIn := rest);
              var seated := Seated(st, x, u, h, s').(inFlight := st.inFlight + h.size.value);
              if s.receiver.None? then st' == seated else st' == Pair(seated, u)
  {
    assert EntryOk(st, u);
    if !Announces(h, st.cfg) || st.heap[u].sender.Some? || InFlight(st) + h.size.value > st.cfg.maxInFlight {
      SenderRefused(st, x, u, h, rest);
    } else if CanWrite(st, x) {
      SenderSeats(st, x, u, h, rest);
    } else {
      SenderGone(st, x, u, h, rest);
    }
  }

  lemma SenderGone(st: Relay, x: Sock, u: nat, h: Json, rest: Bytes)
    requires TableOk(st) && AccountsOk(st) && u < |st.heap| && Live(st, u) && x in st.conns && ValidHello(h)
    requires Announces(h, st.cfg) && st.heap[u].sender.None? && st.inFlight + h.size.value <= st.cfg.maxInFlight
    requires !CanWrite(st, x)
    ensures Fails(st, JoinSender(st, x, u, h, rest), st.heap[u].id)
  {
    DestroyFails(st, st.heap[u].id);
  }

  lemma SenderRefused(st: Relay, x: Sock, u: nat, h: Json, rest: Bytes)
    requires u < |st.heap| && Live(st, u) && st.heap[u].phase == PAIRING && x in st.conns && ValidHello(h)
    requires st.heap[u].id in st.sessions && st.sessions[st.heap[u].id] == u
    requires st.heap[u].sender.None? ==> st.heap[u].accounted == 0
    requires !Announces(h, st.cfg) || st.heap[u].sender.Some? || st.inFlight + h.size.value > st.cfg.maxInFlight
    ensures var s, st', refused := st.heap[u], JoinSender(st, x, u, h, rest), Refused(st, x, "BUSY");
            if !Announces(h, st.cfg) then st' == Refused(st, x, "INVALID_METADATA")
            else if s.sender.Some? then st' == Refused(st, x, "DUPLICATE_ROLE")
            else if s.receiver.Some? then st' == refused
            else st' == refused.(heap := st.heap[u := s.(pairingTimer := None, stallTimer := None,
                                                         deadlineTimer := None)],
                                 sessions := st.sessions - {s.id})
  {
  }

  lemma SenderSeats(st: Relay, x: Sock, u: nat, h: Json, rest: Bytes)
    requires u < |st.heap| && st.heap[u].phase == PAIRING && x in st.conns && ValidHello(h)
    requires Announces(h, st.cfg) && st.heap[u].sender.None? && st.inFlight + h.size.value <= st.cfg.maxInFlight
    requires CanWrite(st, x)
    ensures var s := st.heap[u];
            var s' := s.(sender := Some(x), sourceDevice := h.sourceDevice.value,
                         targetDevice := h.targetDevice.value, size := h.size.value, sha256 := h.sha256.value,
                         accounted := h.size.value, remainder := rest, senderIn := rest);
            var seated := Seated(st, x, u, h, s').(inFlight := st.inFlight + h.size.value);
            JoinSender(st, x, u, h, rest) == if s.receiver.None? then seated else Pair(seated, u)
  {
    var s := st.heap[u];
    var s' := WithSender(s, x, h, rest);
    var seated := Membered(st, x, u, h, s', h.size.value);
    assert JoinSender(st, x, u, h, rest) == Pair(seated, u);
    assert s.receiver.None? ==> Pair(seated, u) == seated;
  }

  /** The transfer begins: both sides are told, the stall timer and the deadline are armed. */
  function TransferBegins(st: Relay, u: nat): Relay
    requires u < |st.heap| && st.heap[u].sender.Some? && st.heap[u].sender.value in st.conns
  {
    var s := st.heap[u];
    var metadata := EMPTY.(typ := Some("metadata"), id := Some(s.id), size := Some(s.size), sha256 := Some(s.sha256));
    var ready := EMPTY.(typ := Some("ready"), id := Some(s.id));
    var x := s.sender.value;
    st.(heap := st.heap[u := s.(phase := TRANSFERRING, remaining := s.size, pairingTimer := None,
                                stallTimer := Some(st.now + st.cfg.stallMs),
                                deadlineTimer := Some(st.now + st.cfg.maxDurationMs),
                                toReceiver := s.toReceiver + [Line(metadata)], toSender := s.toSender + [Line(ready)])],
        conns := st.conns[x := st.conns[x].(mode := Consuming, buffered := [])])
  }

  /**
   * Both sides are there: devices that do not mirror each other fail the session; others
   * begin the transfer, in which what followed the sender's header comes first. An empty
   * payload is complete at once.
   */
  lemma PairingDecides(st: Relay, u: nat)
    requires OkBut(st, u) && SessionOk(st.heap[u], st.cfg) && LiveOk(st, u) && st.heap[u].phase == PAIRING
    requires st.heap[u].sender.Some? && st.heap[u].receiver.Some?
    ensures var s, st' := st.heap[u], Pair(st, u);
            && s.sender.value in st.conns && s.receiver.value in st.conns && s.sender != s.receiver
            && if s.sourceDevice != s.receiverTarget || s.targetDevice != s.receiverSource then Fails(st, st', s.id)
               else
                 var begun := TransferBegins(st, u);
                 if |s.remainder| > s.size then Fails(begun, st', s.id)
                 else
                   var over := |s.remainder| == s.size;
                   st' == begun.(
                     heap := begun.heap[u := begun.heap[u].(
                               toReceiver := begun.heap[u].toReceiver
                                             + (if s.remainder == [] then [] else [Payload(s.remainder)]),
                               remaining := s.size - |s.remainder|, phase := if over then WAIT_ACK else TRANSFERRING)],
                     conns := if over then ListenersAfterPayload(begun.conns, s) else begun.conns)
  {
    var s := st.heap[u];
    assert Member(st, u, s.sender.value, "sender") && Member(st, u, s.receiver.value, "receiver");
    DestroyFails(st, s.id);
    if s.sourceDevice == s.receiverTarget && s.targetDevice == s.receiverSource {
      BeginsIs(st, u);
      StartsWith(st, TransferBegins(st, u), u);
    }
  }

  lemma BeginsIs(st: Relay, u: nat)
    requires u < |st.heap| && st.heap[u].sender.Some? && st.heap[u].sender.value in st.conns
    ensures Begun(st, u) == TransferBegins(st, u)
  {
  }

  lemma StartsWith(st: Relay, begun: Relay, u: nat)
    requires u < |st.heap| && Live(st, u) && TableOk(st) && AccountsOk(st)
    requires st.heap[u].phase == PAIRING && st.heap[u].sender.Some? && st.heap[u].receiver.Some?
    requires st.heap[u].sender != st.heap[u].receiver
    requires st.heap[u].sender.value in st.conns && st.heap[u].receiver.value in st.conns
    requires begun == TransferBegins(st, u) == Begun(st, u)
    ensures var s, st' := st.heap[u], StartTransfer(st, u);
            if |s.remainder| > s.size then Fails(begun, st', s.id)
            else
              var over := |s.remainder| == s.size;
              st' == begun.(
                heap := begun.heap[u := begun.heap[u].(
                          toReceiver := begun.heap[u].toReceiver
                                        + (if s.remainder == [] then [] else [Payload(s.remainder)]),
                          remaining := s.size - |s.remainder|, phase := if over then WAIT_ACK else TRANSFERRING)],
                conns := if over then ListenersAfterPayload(begun.conns, s) else begun.conns)
  {
    var s := st.heap[u];
    if |s.remainder| > s.size {
      SameAccounts(st, begun, u);
      DestroyFails(begun, s.id);
    } else if s.remainder != [] {
      PassedOnIs(begun, u, s.remainder);
    } else {
      assert begun.heap[u].toReceiver + [] == begun.heap[u].toReceiver;
    }
  }
}
