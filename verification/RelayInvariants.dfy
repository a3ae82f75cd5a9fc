/**
 * What every step of the relay keeps: exact forwarding, the accounts, the pairing of
 * sockets and the bound on a session's life.
 */
module RelayInvariants {
  import opened Prelude
  import opened Framing
  import opened FileRelay

  // ---- Statements about one session --------------------------------------------------

  /** The payload bytes among the writes to a receiver. */
  function Forwarded(o: seq<Out>): Bytes {
    if o == [] then []
    else Forwarded(o[..|o| - 1]) + (if o[|o| - 1].Payload? then o[|o| - 1].bytes else [])
  }

  lemma ForwardedSnoc(o: seq<Out>, w: Out)
    ensures Forwarded(o + [w]) == Forwarded(o) + (if w.Payload? then w.bytes else [])
  {
    assert (o + [w])[..|o|] == o;
  }

  /** The sender has been told of no success. */
  ghost predicate NotTold(o: seq<Out>) {
    forall w <- o :: w.Line? && w.msg.ok != Some(true)
  }

  /** What holds of a session in every phase, a failed one included. */
  ghost predicate Sound(s: Session) {
    && Forwarded(s.toReceiver) <= s.senderIn
    && |Forwarded(s.toReceiver)| <= s.size
    && (s.sender.Some? ==> s.sender != s.receiver)
    && s.releases + (if s.accounted != 0 then 1 else 0) <= 1
  }

  /** The receiver got the two protocol lines, then only payload. */
  ghost predicate ReceiverStream(s: Session) {
    && |s.toReceiver| >= 2
    && s.toReceiver[0] == Line(RegisteredMsg(s.id))
    && s.toReceiver[1] == Line(MetadataMsg(s.id, s.size, s.sha256))
    && (forall k | 2 <= k < |s.toReceiver| :: s.toReceiver[k].Payload?)
  }

  /** A started transfer that has not failed: all the sender delivered has been forwarded. */
  ghost predicate Exact(s: Session) {
    && s.sender.Some? && s.receiver.Some? && s.sender != s.receiver
    && s.sourceDevice == s.receiverTarget && s.targetDevice == s.receiverSource
    && ReceiverStream(s)
    && Forwarded(s.toReceiver) == s.senderIn
    && |s.senderIn| + s.remaining == s.size
  }

  /** A sender is told ok only after its whole payload and a matching acknowledgement. */
  ghost predicate Acknowledged(s: Session, cfg: Config) {
    && |s.toSender| == 2 && s.toSender[0] == Line(ReadyMsg(s.id))
    && s.toSender[1].Line? && ValidAck(s, s.toSender[1].msg)
    && Classify(s.ackIn, cfg.headerBytes).Complete?
    && cfg.parse(Classify(s.ackIn, cfg.headerBytes).header) == Some(s.toSender[1].msg)
  }

  ghost predicate SessionOk(s: Session, cfg: Config) {
    && Sound(s)
    && (s.sender.Some? ==> s.size <= cfg.maxBytes)
    && match s.phase
       case PAIRING =>
         && s.toSender == [] && s.ackIn == []
         && s.toReceiver == (if s.receiver.Some? then [Line(RegisteredMsg(s.id))] else [])
         && (if s.sender.Some? then s.senderIn == s.remainder else s.accounted == 0)
       case TRANSFERRING => Exact(s) && 0 < s.remaining && s.ackIn == [] && s.toSender == [Line(ReadyMsg(s.id))]
       case WAIT_ACK =>
         Exact(s) && s.remaining == 0 && s.toSender == [Line(ReadyMsg(s.id))]
         && Classify(s.ackIn, cfg.headerBytes).Pending?
       case DONE => Exact(s) && s.remaining == 0 && Acknowledged(s, cfg)
       case FAILED => NotTold(s.toSender)
  }

  // ---- Statements about the whole relay ----------------------------------------------

  ghost predicate ConnOk(st: Relay, x: Sock) {
    x in st.conns &&
    var c := st.conns[x];
    match c.session
    case None =>
      && (c.mode == Header || c.mode == Quiet)
      && (if c.ended then |c.out| <= 1 else c.out == [])
      && NotTold(c.out)
    case Some(u) =>
      && u < |st.heap| && c.out == [] && c.hello.Some? && ValidHello(c.hello.value)
      && c.mode != Header
      && var h, s := c.hello.value, st.heap[u];
         && h.id == Some(s.id) && h.token == Some(s.token)
         && (if h.role == Some("sender") then
               s.sender == Some(x) && c.mode != AckHeader
               && h.sourceDevice == Some(s.sourceDevice) && h.targetDevice == Some(s.targetDevice)
               && h.size == Some(s.size) && h.sha256 == Some(s.sha256)
             else
               s.receiver == Some(x) && (c.mode == Quiet || c.mode == AckHeader)
               && h.sourceDevice == Some(s.receiverSource) && h.targetDevice == Some(s.receiverTarget))
  }

  /** The session's sockets belong to it alone. */
  ghost predicate Joined(st: Relay, u: nat)
    requires u < |st.heap|
  {
    var s := st.heap[u];
    && (s.sender.Some? ==> Member(st, u, s.sender.value, "sender"))
    && (s.receiver.Some? ==> Member(st, u, s.receiver.value, "receiver"))
  }

  ghost predicate Member(st: Relay, u: nat, x: Sock, role: string) {
    x in st.conns && st.conns[x].session == Some(u) && st.conns[x].hello.Some?
    && st.conns[x].hello.value.role == Some(role)
  }

  ghost predicate Open(st: Relay, x: Sock, mode: Mode) {
    Writable(st, x) && st.conns[x].mode == mode
  }

  /** Listeners of a live session, by phase. */
  ghost predicate Listening(st: Relay, u: nat)
    requires u < |st.heap|
  {
    var s := st.heap[u];
    && (s.sender.Some? ==>
          Open(st, s.sender.value,
               if s.phase == TRANSFERRING then Consuming else if s.phase == WAIT_ACK then Overrun else Quiet))
    && (s.receiver.Some? ==>
          Open(st, s.receiver.value, if s.phase == WAIT_ACK then AckHeader else Quiet)
          && (s.phase == WAIT_ACK ==> st.conns[s.receiver.value].buffered == s.ackIn))
  }

  /** Timers of a live session: one is always armed, and together they bound its life. */
  ghost predicate Timed(st: Relay, s: Session) {
    && NotDue(s, st.now)
    && match s.phase
       case PAIRING => s.pairingTimer == Some(s.createdAt + st.cfg.pairingMs)
       case _ =>
         s.deadlineTimer.Some? && s.stallTimer.Some?
         && s.deadlineTimer.value <= s.createdAt + st.cfg.pairingMs + st.cfg.maxDurationMs
  }

  /** A live session holds the account its sender was admitted with, not yet released. */
  ghost predicate Charged(s: Session) {
    s.accounted == (if s.sender.Some? then s.size else 0) && s.releases == 0
  }

  ghost predicate LiveOk(st: Relay, u: nat)
    requires u < |st.heap|
  {
    var s := st.heap[u];
    && s.phase != DONE && s.phase != FAILED
    && Charged(s) && Timed(st, s) && Listening(st, u)
  }

  ghost predicate EntryOk(st: Relay, u: nat)
    requires u < |st.heap|
  {
    && SessionOk(st.heap[u], st.cfg)
    && Joined(st, u)
    && (if Live(st, u) then LiveOk(st, u) else DeadOk(st.heap[u]))
  }

  /**
   * A released session holds no account, and what it held was released exactly once; one
   * dropped while pairing never had a socket.
   */
  ghost predicate DeadOk(s: Session) {
    && s.accounted == 0
    && s.releases == (if s.sender.Some? && s.size > 0 then 1 else 0)
    && (s.phase == DONE || s.phase == FAILED || (s.phase == PAIRING && s.sender.None? && s.receiver.None?))
  }

  ghost predicate TableOk(st: Relay) {
    && (forall id <- st.sessions :: st.sessions[id] < |st.heap| && st.heap[st.sessions[id]].id == id)
    && |st.sessions| <= st.cfg.maxSessions
    && st.sockets <= st.conns.Keys
  }

  function Accounts(heap: seq<Session>): seq<nat> {
    seq(|heap|, i requires 0 <= i < |heap| => heap[i].accounted)
  }

  ghost predicate AccountsOk(st: Relay) {
    st.inFlight == Sum(Accounts(st.heap)) && st.inFlight <= st.cfg.maxInFlight
  }

  /** Everything but what concerns session `u` itself. */
  ghost predicate OkBut(st: Relay, u: nat) {
    && u < |st.heap| && Live(st, u) && Joined(st, u) && Charged(st.heap[u])
    && TableOk(st) && AccountsOk(st)
    && (forall v | 0 <= v < |st.heap| && v != u :: EntryOk(st, v))
    && (forall x <- st.conns :: ConnOk(st, x))
  }

  ghost predicate RelayOk(st: Relay) {
    && TableOk(st) && AccountsOk(st)
    && (forall v | 0 <= v < |st.heap| :: EntryOk(st, v))
    && (forall x <- st.conns :: ConnOk(st, x))
  }

  // ---- Framing: what a step on one session cannot touch ------------------------------

  /** Only session `u`, its sockets and unregistered sockets differ. */
  ghost predicate SameElsewhere(st: Relay, st': Relay, u: nat) {
    && st'.cfg == st.cfg && st'.now == st.now && st'.sockets == st.sockets
    && st.conns.Keys <= st'.conns.Keys
    && u < |st.heap| == |st'.heap|
    && (forall v | 0 <= v < |st.heap| && v != u :: st'.heap[v] == st.heap[v])
    && (forall x <- st.conns ::
          st.conns[x].session.Some? && st.conns[x].session != Some(u) ==> st'.conns[x] == st.conns[x])
    && (forall v | 0 <= v < |st.heap| && v != u :: Live(st', v) == Live(st, v))
  }

  lemma EntryElsewhere(st: Relay, st': Relay, u: nat, v: nat)
    requires SameElsewhere(st, st', u) && v < |st.heap| && v != u && EntryOk(st, v)
    ensures EntryOk(st', v)
  {
    var s := st.heap[v];
    if s.sender.Some? { assert Member(st, v, s.sender.value, "sender"); }
    if s.receiver.Some? { assert Member(st, v, s.receiver.value, "receiver"); }
  }

  lemma EntriesElsewhere(st: Relay, st': Relay, u: nat)
    requires SameElsewhere(st, st', u) && forall v | 0 <= v < |st.heap| && v != u :: EntryOk(st, v)
    ensures forall v | 0 <= v < |st'.heap| && v != u :: EntryOk(st', v)
  {
    forall v | 0 <= v < |st'.heap| && v != u ensures EntryOk(st', v) {
      EntryElsewhere(st, st', u, v);
    }
  }

  lemma SumAccounts(heap: seq<Session>, u: nat, s: Session)
    requires u < |heap|
    ensures Sum(Accounts(heap[u := s])) + heap[u].accounted == Sum(Accounts(heap)) + s.accounted
  {
    SumUpdate(Accounts(heap), u, s.accounted);
    assert Accounts(heap[u := s]) == Accounts(heap)[u := s.accounted];
  }

  lemma AccountBounded(s: seq<nat>, i: nat)
    requires i < |s|
    ensures s[i] <= Sum(s)
  {
    SumUpdate(s, i, 0);
  }

  /** A step confined to session `u` keeps the invariant if it restores it there. */
  lemma Restore(st: Relay, st': Relay, u: nat)
    requires OkBut(st, u) && SameElsewhere(st, st', u)
    requires TableOk(st') && AccountsOk(st') && EntryOk(st', u)
    requires forall x <- st'.conns ::
               (x !in st.conns || st.conns[x].session.None? || st.conns[x].session == Some(u)) ==> ConnOk(st', x)
    ensures RelayOk(st')
  {
    forall v | 0 <= v < |st'.heap| ensures EntryOk(st', v) {
      if v != u { EntryElsewhere(st, st', u, v); }
    }
    forall x <- st'.conns ensures ConnOk(st', x) {
      if x in st.conns && st.conns[x].session.Some? && st.conns[x].session != Some(u) {
        assert ConnOk(st, x);
      }
    }
  }

  // ---- One lemma per operation -------------------------------------------------------

  /** Releasing: the clamp in the code is never reached, and what is released was admitted once. */
  lemma ReleaseIsExact(st: Relay, u: nat)
    requires u < |st.heap| && AccountsOk(st)
    ensures st.heap[u].accounted <= st.inFlight
  {
    AccountBounded(Accounts(st.heap), u);
  }

  ghost predicate SameParties(s: Session, s': Session) {
    && s'.id == s.id && s'.token == s.token && s'.sender == s.sender && s'.receiver == s.receiver
    && s'.receiverSource == s.receiverSource && s'.receiverTarget == s.receiverTarget
    && s'.sourceDevice == s.sourceDevice && s'.targetDevice == s.targetDevice
    && s'.size == s.size && s'.sha256 == s.sha256
  }

  /** The state after a session ended, seen from outside: only its own sockets are ended. */
  ghost predicate EndedIn(st: Relay, st': Relay, u: nat) {
    && u < |st.heap| == |st'.heap|
    && st' == st.(heap := st.heap[u := st'.heap[u]], sessions := st.sessions - {st.heap[u].id},
                  inFlight := st'.inFlight, conns := st'.conns)
    && SameParties(st.heap[u], st'.heap[u]) && DeadOk(st'.heap[u])
    && st'.inFlight + st.heap[u].accounted == st.inFlight
    && st'.conns.Keys == st.conns.Keys
    && (forall x <- st.conns ::
          st'.conns[x] == st.conns[x] ||
          (st.conns[x].session == Some(u) && st'.conns[x] == st.conns[x].(ended := true)))
  }

  lemma EndedElsewhere(st: Relay, st': Relay, u: nat)
    requires u < |st.heap| && Live(st, u) && EndedIn(st, st', u)
    ensures SameElsewhere(st, st', u) && !Live(st', u)
  {
  }

  lemma EndedTable(st: Relay, st': Relay, u: nat)
    requires u < |st.heap| && Live(st, u) && TableOk(st) && EndedIn(st, st', u)
    ensures TableOk(st')
  {
    forall id <- st'.sessions ensures st'.sessions[id] < |st'.heap| && st'.heap[st'.sessions[id]].id == id {
      assert id in st.sessions;
    }
    assert |st.sessions| == |st'.sessions| + 1;
  }

  lemma EndedAccounts(st: Relay, st': Relay, u: nat)
    requires AccountsOk(st) && EndedIn(st, st', u)
    ensures AccountsOk(st')
  {
    SumAccounts(st.heap, u, st'.heap[u]);
  }

  lemma EndedEntry(st: Relay, st': Relay, u: nat)
    requires u < |st.heap| && Joined(st, u) && EndedIn(st, st', u) && !Live(st', u)
    requires st'.heap[u].phase == PAIRING ==> st'.heap[u].sender.None? && st'.heap[u].receiver.None?
    requires SessionOk(st'.heap[u], st.cfg)
    ensures EntryOk(st', u)
  {
    var s := st.heap[u];
    if s.sender.Some? { assert Member(st, u, s.sender.value, "sender"); }
    if s.receiver.Some? { assert Member(st, u, s.receiver.value, "receiver"); }
  }

  lemma EndedConn(st: Relay, st': Relay, u: nat, x: Sock)
    requires EndedIn(st, st', u) && ConnOk(st, x) && (st.conns[x].session.None? || st.conns[x].session == Some(u))
    ensures ConnOk(st', x)
  {
  }

  /** Closing ends the session's sockets and nothing else. */
  lemma CloseBothIs(st: Relay, s: Session)
    ensures var st' := CloseBoth(st, s);
            && st' == st.(conns := st'.conns) && st'.conns.Keys == st.conns.Keys
            && (forall x <- st.conns ::
                  st'.conns[x] == st.conns[x]
                  || ((s.sender == Some(x) || s.receiver == Some(x)) && st'.conns[x] == st.conns[x].(ended := true)))
  {
  }

  lemma FinishEnds(st: Relay, u: nat, phase: Phase, toSender: Option<Json>, toReceiver: Option<Json>)
    requires u < |st.heap| && Live(st, u) && Joined(st, u) && Charged(st.heap[u])
    requires st.heap[u].accounted <= st.inFlight
    requires phase == DONE || phase == FAILED
    ensures EndedIn(st, Finish(st, u, phase, toSender, toReceiver), u)
  {
    var s := st.heap[u];
    var ended := Released(s).(
      phase := phase,
      toSender := s.toSender + Goodbye(st, s.sender, toSender),
      toReceiver := s.toReceiver + Goodbye(st, s.receiver, toReceiver));
    CloseBothIs(st.(heap := st.heap[u := ended], sessions := Without(st.sessions, s.id, u),
                    inFlight := st.inFlight - s.accounted), s);
    if s.sender.Some? { assert Member(st, u, s.sender.value, "sender"); }
    if s.receiver.Some? { assert Member(st, u, s.receiver.value, "receiver"); }
  }

  /** Ending a session subtracts exactly its account: the total stays the sum, unclamped. */
  lemma FinishReleases(st: Relay, u: nat, phase: Phase, toSender: Option<Json>, toReceiver: Option<Json>)
    requires OkBut(st, u) && (phase == DONE || phase == FAILED)
    ensures var st' := Finish(st, u, phase, toSender, toReceiver);
            && st'.inFlight == st.inFlight - st.heap[u].accounted == Sum(Accounts(st'.heap))
            && |st'.sessions| == |st.sessions| - 1 && u < |st'.heap|
            && st'.heap[u].releases == (if st.heap[u].accounted > 0 then 1 else 0)
  {
    var st' := Finish(st, u, phase, toSender, toReceiver);
    ReleaseIsExact(st, u);
    FinishEnds(st, u, phase, toSender, toReceiver);
    SumAccounts(st.heap, u, st'.heap[u]);
  }

  lemma EndedOk(st: Relay, st': Relay, u: nat)
    requires OkBut(st, u) && EndedIn(st, st', u)
    requires SessionOk(st'.heap[u], st.cfg)
    ensures RelayOk(st') && !Live(st', u)
  {
    EndedElsewhere(st, st', u);
    EndedTable(st, st', u);
    EndedAccounts(st, st', u);
    EndedEntry(st, st', u);
    forall x <- st'.conns | st.conns[x].session.None? || st.conns[x].session == Some(u) ensures ConnOk(st', x) {
      assert ConnOk(st, x);
      EndedConn(st, st', u, x);
    }
    Restore(st, st', u);
  }

  lemma FinishOk(st: Relay, u: nat, phase: Phase, toSender: Option<Json>, toReceiver: Option<Json>)
    requires OkBut(st, u) && (phase == DONE || phase == FAILED)
    requires SessionOk(Finish(st, u, phase, toSender, toReceiver).heap[u], st.cfg)
    ensures RelayOk(Finish(st, u, phase, toSender, toReceiver))
    ensures !Live(Finish(st, u, phase, toSender, toReceiver), u)
  {
    var st' := Finish(st, u, phase, toSender, toReceiver);
    ReleaseIsExact(st, u);
    FinishEnds(st, u, phase, toSender, toReceiver);
    EndedOk(st, st', u);
  }

  lemma SoundAfterGoodbye(s: Session, w: Out)
    requires Sound(s) && w.Line?
    ensures Sound(s.(toReceiver := s.toReceiver + [w]))
  {
    ForwardedSnoc(s.toReceiver, w);
  }

  function Bye(s: Session): Option<Json> { Some(FailureMsg(s.id)) }

  /** A session that fails keeps sound streams: its goodbyes are lines. */
  lemma FailedSession(st: Relay, u: nat)
    requires u < |st.heap| && Sound(st.heap[u]) && NotTold(st.heap[u].toSender)
    requires st.heap[u].sender.Some? ==> st.heap[u].size <= st.cfg.maxBytes
    ensures SessionOk(FinishRecord(st, u), st.cfg)
  {
    var s := st.heap[u];
    SoundAfterGoodbye(s, Line(FailureMsg(s.id)));
    assert s.toReceiver + [] == s.toReceiver;
    assert s.toSender + [] == s.toSender;
  }

  function FinishRecord(st: Relay, u: nat): Session
    requires u < |st.heap|
  {
    var s := st.heap[u];
    Released(s).(
      phase := FAILED,
      toSender := s.toSender + Goodbye(st, s.sender, Bye(s)),
      toReceiver := s.toReceiver + Goodbye(st, s.receiver, Bye(s)))
  }

  lemma DestroyIs(st: Relay, u: nat)
    requires u < |st.heap| && Live(st, u)
    ensures Destroy(st, st.heap[u].id) == Finish(st, u, FAILED, Bye(st.heap[u]), Bye(st.heap[u]))
    ensures u < |Destroy(st, st.heap[u].id).heap| && Destroy(st, st.heap[u].id).heap[u] == FinishRecord(st, u)
  {
    CloseBothIs(st.(heap := st.heap[u := FinishRecord(st, u)], sessions := Without(st.sessions, st.heap[u].id, u),
                    inFlight := if st.heap[u].accounted <= st.inFlight then st.inFlight - st.heap[u].accounted else 0),
                st.heap[u]);
  }

  /** destroySession from any moment of a handler. */
  lemma DestroyOk(st: Relay, u: nat)
    requires OkBut(st, u)
    requires Sound(st.heap[u]) && NotTold(st.heap[u].toSender)
    requires st.heap[u].sender.Some? ==> st.heap[u].size <= st.cfg.maxBytes
    ensures RelayOk(Destroy(st, st.heap[u].id))
    ensures !Live(Destroy(st, st.heap[u].id), u)
  {
    FailedSession(st, u);
    DestroyIs(st, u);
    FinishOk(st, u, FAILED, Bye(st.heap[u]), Bye(st.heap[u]));
  }

  /** destroySession on a relay at rest. */
  lemma DestroyByIdOk(st: Relay, id: string)
    requires RelayOk(st)
    ensures RelayOk(Destroy(st, id))
  {
    if id in st.sessions {
      var u := st.sessions[id];
      assert EntryOk(st, u);
      DestroyOk(st, u);
    }
  }

  // ---- A session at work -------------------------------------------------------------

  /** Within a handler: only the session's record and its sockets' listeners change. */
  ghost predicate WorkedIn(st: Relay, st': Relay, u: nat) {
    && u < |st.heap| == |st'.heap|
    && st' == st.(heap := st.heap[u := st'.heap[u]], conns := st'.conns)
    && SameParties(st.heap[u], st'.heap[u]) && st'.heap[u].accounted == st.heap[u].accounted
    && st'.heap[u].releases == st.heap[u].releases
    && st'.conns.Keys == st.conns.Keys
    && (forall x <- st.conns ::
          st'.conns[x] == st.conns[x] ||
          (st.conns[x].session == Some(u) && Relistened(st.heap[u], x, st.conns[x], st'.conns[x])))
  }

  /** A socket of `s` got another listener, one of its role. */
  ghost predicate Relistened(s: Session, x: Sock, c: Conn, c': Conn) {
    && c' == c.(mode := c'.mode, buffered := c'.buffered)
    && c'.mode != Header
    && (c'.mode == AckHeader ==> s.sender != Some(x))
    && (c'.mode == Consuming || c'.mode == Overrun ==> s.receiver != Some(x))
  }

  lemma WorkedElsewhere(st: Relay, st': Relay, u: nat)
    requires WorkedIn(st, st', u) && TableOk(st) && Live(st, u) && Joined(st, u)
    ensures SameElsewhere(st, st', u) && TableOk(st') && Live(st', u) && Joined(st', u)
  {
    var s := st.heap[u];
    if s.sender.Some? { assert Member(st, u, s.sender.value, "sender"); }
    if s.receiver.Some? { assert Member(st, u, s.receiver.value, "receiver"); }
  }

  lemma ConnWorked(st: Relay, st': Relay, u: nat, x: Sock)
    requires WorkedIn(st, st', u) && ConnOk(st, x)
    ensures ConnOk(st', x)
  {
  }

  lemma WorkedBut(st: Relay, st': Relay, u: nat)
    requires OkBut(st, u) && WorkedIn(st, st', u)
    ensures OkBut(st', u)
  {
    SumAccounts(st.heap, u, st'.heap[u]);
    WorkedElsewhere(st, st', u);
    EntriesElsewhere(st, st', u);
    forall x <- st'.conns ensures ConnOk(st', x) {
      ConnWorked(st, st', u, x);
    }
  }

  lemma AtRest(st: Relay, u: nat)
    requires OkBut(st, u) && SessionOk(st.heap[u], st.cfg) && LiveOk(st, u)
    ensures RelayOk(st)
  {
  }

  /** The facts about a live transfer that every handler may use. */
  ghost predicate InTransfer(st: Relay, u: nat) {
    && u < |st.heap|
    && var s := st.heap[u];
       && s.phase == TRANSFERRING && s.sender.Some? && s.receiver.Some? && s.sender != s.receiver
       && s.size <= st.cfg.maxBytes && s.accounted == s.size && s.releases == 0
       && s.sourceDevice == s.receiverTarget && s.targetDevice == s.receiverSource
       && s.ackIn == [] && s.toSender == [Line(ReadyMsg(s.id))] && ReceiverStream(s)
       && Timed(st, s) && Listening(st, u)
  }

  /** What waitForAck does, seen from outside. */
  lemma WaitForAckWorks(st: Relay, u: nat)
    requires InTransfer(st, u) && Joined(st, u)
    ensures var st' := WaitForAck(st, u);
            && WorkedIn(st, st', u)
            && st'.heap[u] == st.heap[u].(phase := WAIT_ACK, stallTimer := Some(st.now + st.cfg.stallMs))
            && Listening(st', u)
  {
    var s := st.heap[u];
    assert Member(st, u, s.sender.value, "sender") && Member(st, u, s.receiver.value, "receiver");
  }

  /** Entering WAIT_ACK, which happens only here and only with the payload complete. */
  lemma WaitForAckOk(st: Relay, u: nat)
    requires OkBut(st, u) && InTransfer(st, u) && Exact(st.heap[u]) && st.heap[u].remaining == 0
    ensures RelayOk(WaitForAck(st, u))
  {
    WaitForAckWorks(st, u);
    WorkedBut(st, WaitForAck(st, u), u);
    AtRest(WaitForAck(st, u), u);
  }

  /** The chunk last taken from the sender is all that is still to be forwarded. */
  ghost predicate Holding(s: Session, chunk: Bytes) {
    && Forwarded(s.toReceiver) + chunk == s.senderIn
    && |Forwarded(s.toReceiver)| + s.remaining == s.size
  }

  lemma PassedExact(st: Relay, u: nat, chunk: Bytes)
    requires InTransfer(st, u) && Joined(st, u) && Holding(st.heap[u], chunk) && |chunk| <= st.heap[u].remaining
    ensures var st1 := st.(heap := st.heap[u := Passed(st.heap[u], chunk, st.now + st.cfg.stallMs)]);
            Exact(st1.heap[u]) && WorkedIn(st, st1, u) && InTransfer(st1, u)
  {
    ForwardedSnoc(st.heap[u].toReceiver, Payload(chunk));
  }

  /** The state after `consume` passed a chunk on, before it looks at what remains. */
  function PassedOn(st: Relay, u: nat, chunk: Bytes): Relay
    requires u < |st.heap| && |chunk| <= st.heap[u].remaining
  {
    st.(heap := st.heap[u := Passed(st.heap[u], chunk, st.now + st.cfg.stallMs)])
  }

  lemma PassedOnOk(st: Relay, u: nat, chunk: Bytes)
    requires OkBut(st, u) && InTransfer(st, u) && Holding(st.heap[u], chunk) && |chunk| <= st.heap[u].remaining
    ensures var st1 := PassedOn(st, u, chunk);
            if st1.heap[u].remaining == 0 then RelayOk(WaitForAck(st1, u)) else RelayOk(st1)
  {
    var st1 := PassedOn(st, u, chunk);
    PassedExact(st, u, chunk);
    WorkedBut(st, st1, u);
    if st1.heap[u].remaining == 0 {
      WaitForAckOk(st1, u);
    } else {
      AtRest(st1, u);
    }
  }

  /** `consume`, on a chunk just taken from the sender. */
  lemma ConsumeOk(st: Relay, u: nat, chunk: Bytes)
    requires OkBut(st, u) && InTransfer(st, u) && Holding(st.heap[u], chunk)
    ensures RelayOk(Consume(st, u, chunk))
  {
    if |chunk| > st.heap[u].remaining {
      DestroyOk(st, u);
    } else {
      PassedOnOk(st, u, chunk);
    }
  }

  /**
   * What `consume` forwards: a chunk within what remains goes out whole and completes the
   * payload exactly at zero; a larger one fails the session and nothing of it goes out.
   */
  lemma ConsumeForwards(st: Relay, u: nat, chunk: Bytes)
    requires u < |st.heap| && Live(st, u) && InTransfer(st, u)
    ensures var s, st' := st.heap[u], Consume(st, u, chunk);
            && |st'.heap| == |st.heap|
            && var s' := st'.heap[u];
               if |chunk| > s.remaining then s'.phase == FAILED && Forwarded(s'.toReceiver) == Forwarded(s.toReceiver)
               else
                 && Forwarded(s'.toReceiver) == Forwarded(s.toReceiver) + chunk
                 && s'.remaining == s.remaining - |chunk|
                 && s'.phase == if |chunk| == s.remaining then WAIT_ACK else TRANSFERRING
  {
    var s := st.heap[u];
    if |chunk| > s.remaining {
      DestroyIs(st, u);
      ForwardedSnoc(s.toReceiver, Line(FailureMsg(s.id)));
      assert s.toReceiver + [] == s.toReceiver;
    } else {
      ForwardedSnoc(s.toReceiver, Payload(chunk));
      assert chunk == [] ==> Forwarded(s.toReceiver) + chunk == Forwarded(s.toReceiver);
    }
  }

  // ---- Starting a transfer -----------------------------------------------------------

  ghost predicate Paired(st: Relay, u: nat) {
    && u < |st.heap|
    && var s := st.heap[u];
       && s.phase == PAIRING && s.sender.Some? && s.receiver.Some?
       && s.sourceDevice == s.receiverTarget && s.targetDevice == s.receiverSource
       && SessionOk(s, st.cfg) && s.accounted == s.size && s.releases == 0
       && Timed(st, s) && Listening(st, u)
  }

  lemma PairedNow(st: Relay, u: nat)
    requires u < |st.heap| && SessionOk(st.heap[u], st.cfg) && LiveOk(st, u) && st.heap[u].phase == PAIRING
    requires var s := st.heap[u];
             && s.sender.Some? && s.receiver.Some?
             && s.sourceDevice == s.receiverTarget && s.targetDevice == s.receiverSource
    ensures Paired(st, u)
  {
  }

  lemma BegunInTransfer(st: Relay, u: nat)
    requires Paired(st, u) && Joined(st, u)
    ensures var st1 := Begun(st, u);
            && WorkedIn(st, st1, u) && InTransfer(st1, u)
            && st1.heap[u].remaining == st.heap[u].size
            && Holding(st1.heap[u], st.heap[u].remainder)
  {
    var s := st.heap[u];
    assert Member(st, u, s.sender.value, "sender") && Member(st, u, s.receiver.value, "receiver");
    ForwardedSnoc([], Line(RegisteredMsg(s.id)));
    ForwardedSnoc([Line(RegisteredMsg(s.id))], Line(MetadataMsg(s.id, s.size, s.sha256)));
  }

  /** The bytes that came with the sender's header are consumed first. */
  lemma RemainderOk(st: Relay, u: nat, remainder: Bytes)
    requires OkBut(st, u) && InTransfer(st, u) && Holding(st.heap[u], remainder)
    requires st.heap[u].remaining == st.heap[u].size
    ensures RelayOk(if remainder != [] then Consume(st, u, remainder)
                    else if st.heap[u].size == 0 then WaitForAck(st, u) else st)
  {
    if remainder != [] {
      ConsumeOk(st, u, remainder);
    } else if st.heap[u].size == 0 {
      WaitForAckOk(st, u);
    } else {
      AtRest(st, u);
    }
  }

  lemma StartTransferOk(st: Relay, u: nat)
    requires OkBut(st, u) && Paired(st, u)
    ensures RelayOk(StartTransfer(st, u))
  {
    BegunInTransfer(st, u);
    WorkedBut(st, Begun(st, u), u);
    RemainderOk(Begun(st, u), u, st.heap[u].remainder);
  }

  /** Mirrored devices start the transfer, others fail the session. */
  lemma PairOk(st: Relay, u: nat)
    requires OkBut(st, u) && SessionOk(st.heap[u], st.cfg) && LiveOk(st, u) && st.heap[u].phase == PAIRING
    ensures RelayOk(Pair(st, u))
  {
    var s := st.heap[u];
    if s.sender.None? || s.receiver.None? {
      AtRest(st, u);
    } else if s.sourceDevice != s.receiverTarget || s.targetDevice != s.receiverSource {
      DestroyOk(st, u);
    } else {
      PairedNow(st, u);
      StartTransferOk(st, u);
    }
  }

  /**
   * What pairing decides: mismatched devices fail the session; mirrored ones start it, and
   * the bytes that came with the sender's header already decide how far it gets.
   */
  lemma PairDecides(st: Relay, u: nat)
    requires OkBut(st, u) && SessionOk(st.heap[u], st.cfg) && LiveOk(st, u) && st.heap[u].phase == PAIRING
    requires st.heap[u].sender.Some? && st.heap[u].receiver.Some?
    ensures var s, st' := st.heap[u], Pair(st, u);
            && u < |st'.heap|
            && st'.heap[u].phase
                 == if s.sourceDevice != s.receiverTarget || s.targetDevice != s.receiverSource then FAILED
                    else if |s.remainder| > s.size then FAILED
                    else if |s.remainder| == s.size then WAIT_ACK
                    else TRANSFERRING
  {
    var s := st.heap[u];
    if s.sourceDevice != s.receiverTarget || s.targetDevice != s.receiverSource {
      DestroyIs(st, u);
    } else {
      PairedNow(st, u);
      StartDecides(st, u);
    }
  }

  lemma StartDecides(st: Relay, u: nat)
    requires Paired(st, u) && Joined(st, u) && Live(st, u)
    ensures var s, st' := st.heap[u], StartTransfer(st, u);
            && u < |st'.heap|
            && st'.heap[u].phase == if |s.remainder| > s.size then FAILED
                                    else if |s.remainder| == s.size then WAIT_ACK
                                    else TRANSFERRING
  {
    BegunInTransfer(st, u);
    if st.heap[u].remainder != [] {
      ConsumeForwards(Begun(st, u), u, st.heap[u].remainder);
    } else if st.heap[u].size == 0 {
      WaitForAckWorks(Begun(st, u), u);
    }
  }

  // ---- Joining a session -------------------------------------------------------------

  /** The parties that had joined stay as they were. */
  ghost predicate KeepsParties(s: Session, s': Session) {
    && s'.id == s.id && s'.token == s.token
    && (s.sender.Some? ==>
          s'.sender == s.sender && s'.sourceDevice == s.sourceDevice && s'.targetDevice == s.targetDevice
          && s'.size == s.size && s'.sha256 == s.sha256)
    && (s.receiver.Some? ==>
          s'.receiver == s.receiver && s'.receiverSource == s.receiverSource && s'.receiverTarget == s.receiverTarget)
  }

  /** Socket `x`, so far in no session, became a party of `u`. */
  ghost predicate JoinedIn(st: Relay, st': Relay, u: nat, x: Sock) {
    && u < |st.heap| == |st'.heap| && x in st.conns && st.conns[x].session.None?
    && st' == st.(heap := st.heap[u := st'.heap[u]], inFlight := st'.inFlight,
                  conns := st.conns[x := ConnOf(st', x)])
    && KeepsParties(st.heap[u], st'.heap[u])
    && st'.inFlight + st.heap[u].accounted == st.inFlight + st'.heap[u].accounted
    && st'.inFlight <= st.cfg.maxInFlight
  }

  lemma JoinedElsewhere(st: Relay, st': Relay, u: nat, x: Sock)
    requires JoinedIn(st, st', u, x) && TableOk(st) && Live(st, u)
    ensures SameElsewhere(st, st', u) && TableOk(st') && Live(st', u)
  {
  }

  lemma ConnAfterJoin(st: Relay, st': Relay, u: nat, x: Sock, y: Sock)
    requires JoinedIn(st, st', u, x) && ConnOk(st, y) && y != x
    ensures ConnOk(st', y)
  {
  }

  lemma JoinedAccounts(st: Relay, st': Relay, u: nat, x: Sock)
    requires JoinedIn(st, st', u, x) && AccountsOk(st)
    ensures AccountsOk(st')
  {
    SumAccounts(st.heap, u, st'.heap[u]);
  }

  lemma JoinedBut(st: Relay, st': Relay, u: nat, x: Sock)
    requires RelayOk(st) && Live(st, u) && JoinedIn(st, st', u, x)
    requires ConnOk(st', x) && Joined(st', u) && Charged(st'.heap[u])
    ensures OkBut(st', u)
  {
    JoinedElsewhere(st, st', u, x);
    JoinedAccounts(st, st', u, x);
    EntriesElsewhere(st, st', u);
    forall y <- st'.conns ensures ConnOk(st', y) {
      if y != x { ConnAfterJoin(st, st', u, x, y); }
    }
  }

  /** A socket about to register: its header was read, and it belongs to no session. */
  ghost predicate Applicant(st: Relay, x: Sock) {
    x in st.conns && st.conns[x].session.None? && st.conns[x].mode == Quiet
  }

  ghost predicate Joinable(st: Relay, x: Sock, u: nat, h: Json) {
    && Applicant(st, x) && Writable(st, x) && u < |st.heap| && Live(st, u)
    && st.heap[u].phase == PAIRING && ValidHello(h)
    && h.id == Some(st.heap[u].id) && h.token == Some(st.heap[u].token)
  }

  lemma ReceiverMember(st: Relay, x: Sock, u: nat, h: Json)
    requires Joinable(st, x, u, h) && EntryOk(st, u) && ConnOk(st, x) && AccountsOk(st)
    requires st.heap[u].receiver.None? && h.role == Some("receiver")
    ensures var st' := Membered(st, x, u, h, WithReceiver(st.heap[u], x, h), 0);
            && JoinedIn(st, st', u, x) && ConnOk(st', x) && Joined(st', u)
            && SessionOk(st'.heap[u], st.cfg) && LiveOk(st', u) && st'.heap[u].phase == PAIRING
  {
    var s := st.heap[u];
    ForwardedSnoc([], Line(RegisteredMsg(s.id)));
    if s.sender.Some? { assert Member(st, u, s.sender.value, "sender"); }
  }

  lemma SenderMember(st: Relay, x: Sock, u: nat, h: Json, rest: Bytes)
    requires Joinable(st, x, u, h) && EntryOk(st, u) && ConnOk(st, x) && AccountsOk(st)
    requires st.heap[u].sender.None? && h.role == Some("sender")
    requires ValidSize(h.size, st.cfg) && ValidSha(h.sha256) && st.inFlight + h.size.value <= st.cfg.maxInFlight
    ensures var st' := Membered(st, x, u, h, WithSender(st.heap[u], x, h, rest), h.size.value);
            && JoinedIn(st, st', u, x) && ConnOk(st', x) && Joined(st', u)
            && SessionOk(st'.heap[u], st.cfg) && LiveOk(st', u) && st'.heap[u].phase == PAIRING
  {
    var s := st.heap[u];
    if s.receiver.Some? {
      assert Member(st, u, s.receiver.value, "receiver");
      ForwardedSnoc([], Line(RegisteredMsg(s.id)));
    }
  }

  lemma JoinReceiverOk(st: Relay, x: Sock, u: nat, h: Json)
    requires RelayOk(st) && Applicant(st, x) && Live(st, u) && st.heap[u].phase == PAIRING
    requires ValidHello(h) && h.id == Some(st.heap[u].id) && h.token == Some(st.heap[u].token)
    requires h.role == Some("receiver")
    ensures RelayOk(JoinReceiver(st, x, u, h))
  {
    var s := st.heap[u];
    if s.receiver.Some? {
      RefuseOk(st, x, "DUPLICATE_ROLE");
    } else if !Writable(st, x) {
      DestroyByIdOk(st, s.id);
    } else {
      assert EntryOk(st, u) && ConnOk(st, x);
      var st' := Membered(st, x, u, h, WithReceiver(s, x, h), 0);
      ReceiverMember(st, x, u, h);
      JoinedBut(st, st', u, x);
      PairOk(st', u);
    }
  }

  lemma JoinSenderOk(st: Relay, x: Sock, u: nat, h: Json, rest: Bytes)
    requires RelayOk(st) && Applicant(st, x) && Live(st, u) && st.heap[u].phase == PAIRING
    requires ValidHello(h) && h.id == Some(st.heap[u].id) && h.token == Some(st.heap[u].token)
    requires h.role == Some("sender")
    ensures RelayOk(JoinSender(st, x, u, h, rest))
  {
    var s := st.heap[u];
    if !ValidSize(h.size, st.cfg) || !ValidSha(h.sha256) {
      RefuseOk(st, x, "INVALID_METADATA");
    } else if s.sender.Some? {
      RefuseOk(st, x, "DUPLICATE_ROLE");
    } else if st.inFlight + h.size.value > st.cfg.maxInFlight {
      RefuseOk(st, x, "BUSY");
      if s.receiver.None? {
        assert EntryOk(st, u);
        DropOk(Refuse(st, x, "BUSY"), u);
      }
    } else if !Writable(st, x) {
      DestroyByIdOk(st, s.id);
    } else {
      assert EntryOk(st, u) && ConnOk(st, x);
      var st' := Membered(st, x, u, h, WithSender(s, x, h, rest), h.size.value);
      SenderMember(st, x, u, h, rest);
      JoinedBut(st, st', u, x);
      PairOk(st', u);
    }
  }

  // ---- Steps outside any session -----------------------------------------------------

  /** Only an unregistered socket changes. */
  lemma LooseOk(st: Relay, st': Relay, x: Sock)
    requires RelayOk(st) && (x in st.conns ==> st.conns[x].session.None?)
    requires x in st'.conns && st'.conns[x].session.None? && ConnOk(st', x)
    requires st' == st.(conns := st.conns[x := st'.conns[x]], sockets := st'.sockets)
    requires st.sockets <= st'.sockets <= st.sockets + {x}
    ensures RelayOk(st')
  {
    forall v | 0 <= v < |st'.heap| ensures EntryOk(st', v) {
      LooseEntry(st, st', x, v);
    }
    forall y <- st'.conns ensures ConnOk(st', y) {
      if y != x { assert ConnOk(st, y); }
    }
  }

  lemma LooseEntry(st: Relay, st': Relay, x: Sock, v: nat)
    requires v < |st.heap| && EntryOk(st, v) && (x in st.conns ==> st.conns[x].session.None?)
    requires x in st'.conns && st'.conns[x].session.None?
    requires st' == st.(conns := st.conns[x := st'.conns[x]], sockets := st'.sockets)
    requires st.sockets <= st'.sockets <= st.sockets + {x}
    ensures EntryOk(st', v)
  {
    var s := st.heap[v];
    if s.sender.Some? { assert Member(st, v, s.sender.value, "sender"); }
    if s.receiver.Some? { assert Member(st, v, s.receiver.value, "receiver"); }
  }

  lemma RefuseOk(st: Relay, x: Sock, code: string)
    requires RelayOk(st) && x in st.conns && st.conns[x].session.None?
    ensures RelayOk(Refuse(st, x, code))
    ensures Refuse(st, x, code).heap == st.heap && Refuse(st, x, code).sessions == st.sessions
  {
    assert ConnOk(st, x);
    if Writable(st, x) { LooseOk(st, Refuse(st, x, code), x); }
  }

  /** A session dropped for lack of in-flight capacity before anyone joined it. */
  lemma DropOk(st: Relay, u: nat)
    requires RelayOk(st) && Live(st, u)
    requires st.heap[u].phase == PAIRING && st.heap[u].sender.None? && st.heap[u].receiver.None?
    ensures RelayOk(st.(heap := st.heap[u := Released(st.heap[u])],
                        sessions := Without(st.sessions, st.heap[u].id, u)))
  {
    var st' := st.(heap := st.heap[u := Released(st.heap[u])],
                   sessions := Without(st.sessions, st.heap[u].id, u));
    assert EntryOk(st, u);
    assert EndedIn(st, st', u);
    EndedOk(st, st', u);
  }

  lemma OpenedTable(st: Relay, id: string, token: string)
    requires TableOk(st) && AccountsOk(st) && id !in st.sessions && |st.sessions| < st.cfg.maxSessions
    ensures TableOk(Opened(st, id, token)) && AccountsOk(Opened(st, id, token))
  {
    var st' := Opened(st, id, token);
    OpenedSize(st.sessions, id, |st.heap|);
    assert Accounts(st'.heap)[..|st.heap|] == Accounts(st.heap);
  }

  lemma OpenedSize(m: map<string, nat>, id: string, u: nat)
    requires id !in m
    ensures |m[id := u]| == |m| + 1
  {
    assert m[id := u].Keys == m.Keys + {id};
    assert |m[id := u].Keys| == |m.Keys| + 1;
  }

  lemma OpenedLast(st: Relay, id: string, token: string)
    ensures Live(Opened(st, id, token), |st.heap|) && EntryOk(Opened(st, id, token), |st.heap|)
  {
  }

  lemma OpenedConn(st: Relay, id: string, token: string, y: Sock)
    requires ConnOk(st, y)
    ensures ConnOk(Opened(st, id, token), y)
  {
  }

  lemma OpenedOk(st: Relay, id: string, token: string)
    requires RelayOk(st) && id !in st.sessions && |st.sessions| < st.cfg.maxSessions
    ensures RelayOk(Opened(st, id, token)) && Live(Opened(st, id, token), |st.heap|)
  {
    var st' := Opened(st, id, token);
    OpenedTable(st, id, token);
    OpenedLast(st, id, token);
    forall v | 0 <= v < |st'.heap| ensures EntryOk(st', v) {
      if v < |st.heap| { OpenedEntry(st, id, token, v); }
    }
    forall y <- st'.conns ensures ConnOk(st', y) { OpenedConn(st, id, token, y); }
  }

  lemma OpenedEntry(st: Relay, id: string, token: string, v: nat)
    requires v < |st.heap| && EntryOk(st, v) && id !in st.sessions
    ensures EntryOk(Opened(st, id, token), v)
  {
  }

  lemma RegisterOk(st: Relay, x: Sock, h: Json, rest: Bytes)
    requires RelayOk(st) && Applicant(st, x)
    ensures RelayOk(Register(st, x, h, rest))
  {
    if !ValidHello(h) {
      RefuseOk(st, x, "INVALID_REGISTRATION");
    } else if h.id.value !in st.sessions && |st.sessions| >= st.cfg.maxSessions {
      RefuseOk(st, x, "BUSY");
    } else {
      var id := h.id.value;
      var st1 := if id in st.sessions then st else Opened(st, id, h.token.value);
      if id !in st.sessions { OpenedOk(st, id, h.token.value); }
      RegisterInOk(st1, x, st1.sessions[id], h, rest);
    }
  }

  lemma RegisterInOk(st: Relay, x: Sock, u: nat, h: Json, rest: Bytes)
    requires RelayOk(st) && Applicant(st, x) && Live(st, u) && ValidHello(h) && h.id == Some(st.heap[u].id)
    ensures RelayOk(RegisterIn(st, x, u, h, rest))
  {
    if st.heap[u].token != h.token.value {
      RefuseOk(st, x, "TICKET_MISMATCH");
    } else if st.heap[u].phase != PAIRING {
      RefuseOk(st, x, "DUPLICATE_ROLE");
    } else if h.role == Some("receiver") {
      JoinReceiverOk(st, x, u, h);
    } else {
      JoinSenderOk(st, x, u, h, rest);
    }
  }

  // ---- Events ------------------------------------------------------------------------

  lemma HeaderDataOk(st: Relay, x: Sock, chunk: Bytes)
    requires RelayOk(st) && x in st.conns && st.conns[x].mode == Header
    ensures RelayOk(OnHeaderData(st, x, chunk))
  {
    var buffered := st.conns[x].buffered + chunk;
    assert ConnOk(st, x);
    LooseOk(st, SetMode(st, x, Header, buffered), x);
    var quiet := SetMode(st, x, Quiet, buffered);
    LooseOk(st, quiet, x);
    match Classify(buffered, st.cfg.headerBytes)
    case Pending =>
    case TooLarge => RefuseOk(quiet, x, "INVALID_REGISTRATION");
    case Complete(header, rest) =>
      match st.cfg.parse(header)
      case None => RefuseOk(quiet, x, "INVALID_REGISTRATION");
      case Some(h) => RegisterOk(quiet, x, h, rest);
  }

  lemma OkButOf(st: Relay, u: nat)
    requires RelayOk(st) && Live(st, u)
    ensures OkBut(st, u) && EntryOk(st, u)
  {
    assert EntryOk(st, u);
  }

  /** A stale or live socket of any session changes its listener to Quiet. */
  lemma QuietOk(st: Relay, x: Sock, u: nat, buffered: Bytes)
    requires RelayOk(st) && x in st.conns && st.conns[x].session == Some(u) && !Live(st, u)
    ensures RelayOk(SetMode(st, x, Quiet, buffered))
    ensures st.conns[x].mode == AckHeader ==> RelayOk(SetMode(st, x, AckHeader, buffered))
  {
    assert ConnOk(st, x);
    RelistenDead(st, SetMode(st, x, Quiet, buffered), x, u);
    if st.conns[x].mode == AckHeader {
      RelistenDead(st, SetMode(st, x, AckHeader, buffered), x, u);
    }
  }

  lemma RelistenDead(st: Relay, st': Relay, x: Sock, u: nat)
    requires RelayOk(st) && x in st.conns && st.conns[x].session == Some(u) && !Live(st, u)
    requires st' == st.(conns := st.conns[x := ConnOf(st', x)]) && ConnOk(st', x)
    requires ConnOf(st', x) == st.conns[x].(mode := ConnOf(st', x).mode, buffered := ConnOf(st', x).buffered)
    ensures RelayOk(st')
  {
    forall v | 0 <= v < |st'.heap| ensures EntryOk(st', v) {
      RelistenEntry(st, st', x, u, v);
    }
    forall y <- st'.conns ensures ConnOk(st', y) {
      if y != x { assert ConnOk(st, y); }
    }
  }

  lemma RelistenEntry(st: Relay, st': Relay, x: Sock, u: nat, v: nat)
    requires v < |st.heap| && EntryOk(st, v)
    requires x in st.conns && st.conns[x].session == Some(u) && !Live(st, u)
    requires st' == st.(conns := st.conns[x := ConnOf(st', x)])
    requires ConnOf(st', x) == st.conns[x].(mode := ConnOf(st', x).mode, buffered := ConnOf(st', x).buffered)
    ensures EntryOk(st', v)
  {
    var s := st.heap[v];
    if s.sender.Some? { assert Member(st, v, s.sender.value, "sender"); }
    if s.receiver.Some? { assert Member(st, v, s.receiver.value, "receiver"); }
  }

  ghost predicate AwaitingAck(st: Relay, x: Sock, u: nat) {
    && x in st.conns && st.conns[x].session == Some(u) && u < |st.heap|
    && st.heap[u].phase == WAIT_ACK && st.heap[u].receiver == Some(x)
  }

  lemma HeardAckWorks(st: Relay, x: Sock, u: nat, buffered: Bytes, mode: Mode)
    requires AwaitingAck(st, x, u) && st.heap[u].sender != Some(x) && (mode == Quiet || mode == AckHeader)
    ensures WorkedIn(st, HeardAck(st, x, u, buffered, mode), u)
    ensures HeardAck(st, x, u, buffered, mode).heap[u] == st.heap[u].(ackIn := buffered)
  {
  }

  lemma HeardAckBut(st: Relay, x: Sock, u: nat, buffered: Bytes, mode: Mode)
    requires RelayOk(st) && Live(st, u) && AwaitingAck(st, x, u) && (mode == Quiet || mode == AckHeader)
    ensures WorkedIn(st, HeardAck(st, x, u, buffered, mode), u)
    ensures OkBut(HeardAck(st, x, u, buffered, mode), u)
    ensures HeardAck(st, x, u, buffered, mode).heap[u] == st.heap[u].(ackIn := buffered)
  {
    OkButOf(st, u);
    HeardAckWorks(st, x, u, buffered, mode);
    WorkedBut(st, HeardAck(st, x, u, buffered, mode), u);
  }

  lemma DoneSession(s: Session, ack: Json, cfg: Config)
    requires Sound(s) && Exact(s) && s.remaining == 0 && s.size <= cfg.maxBytes
    requires s.toSender == [Line(ReadyMsg(s.id))] && ValidAck(s, ack)
    requires Classify(s.ackIn, cfg.headerBytes).Complete?
    requires cfg.parse(Classify(s.ackIn, cfg.headerBytes).header) == Some(ack)
    ensures SessionOk(Released(s).(phase := DONE, toSender := s.toSender + [Line(ack)],
                                   toReceiver := s.toReceiver + []), cfg)
  {
    assert s.toReceiver + [] == s.toReceiver;
  }

  /** The acknowledgement read in full and found valid. */
  lemma AcknowledgedOk(st: Relay, u: nat, ack: Json)
    requires OkBut(st, u) && Exact(st.heap[u]) && st.heap[u].remaining == 0 && st.heap[u].size <= st.cfg.maxBytes
    requires st.heap[u].toSender == [Line(ReadyMsg(st.heap[u].id))] && ValidAck(st.heap[u], ack)
    requires Classify(st.heap[u].ackIn, st.cfg.headerBytes).Complete?
    requires st.cfg.parse(Classify(st.heap[u].ackIn, st.cfg.headerBytes).header) == Some(ack)
    requires Writable(st, st.heap[u].sender.value)
    ensures RelayOk(Finish(st, u, DONE, Some(ack), None))
  {
    DoneSession(st.heap[u], ack, st.cfg);
    FinishOk(st, u, DONE, Some(ack), None);
  }

  lemma StaleAckOk(st: Relay, x: Sock, u: nat, buffered: Bytes)
    requires RelayOk(st) && x in st.conns && st.conns[x].session == Some(u) && st.conns[x].mode == AckHeader
    requires u < |st.heap| && !Live(st, u)
    ensures RelayOk(OnStaleAck(st, x, u, buffered))
  {
    QuietOk(st, x, u, buffered);
    DestroyByIdOk(SetMode(st, x, Quiet, buffered), st.heap[u].id);
  }

  lemma LiveAwaiting(st: Relay, x: Sock, u: nat)
    requires RelayOk(st) && Live(st, u) && x in st.conns && st.conns[x].session == Some(u)
    requires st.conns[x].mode == AckHeader
    ensures AwaitingAck(st, x, u) && st.conns[x].buffered == st.heap[u].ackIn
  {
    assert EntryOk(st, u) && ConnOk(st, x);
  }

  /** The ways a chunk of acknowledgement can end. */
  ghost predicate AckOutcome(st: Relay, quiet: Relay, pending: Relay, u: nat, st': Relay)
    requires u < |st.heap| && u < |quiet.heap| && u < |pending.heap|
  {
    || (st' == pending && Classify(pending.heap[u].ackIn, st.cfg.headerBytes).Pending?)
    || st' == Destroy(quiet, st.heap[u].id)
    || exists ack :: AcknowledgedBy(st, quiet, u, ack, st')
  }

  ghost predicate AcknowledgedBy(st: Relay, quiet: Relay, u: nat, ack: Json, st': Relay)
    requires u < |st.heap| && u < |quiet.heap|
  {
    && st' == Finish(quiet, u, DONE, Some(ack), None) && ValidAck(st.heap[u], ack)
    && Classify(quiet.heap[u].ackIn, st.cfg.headerBytes).Complete?
    && st.cfg.parse(Classify(quiet.heap[u].ackIn, st.cfg.headerBytes).header) == Some(ack)
  }

  lemma LiveAckOutcome(st: Relay, x: Sock, u: nat, buffered: Bytes)
    requires u < |st.heap|
    ensures |HeardAck(st, x, u, buffered, Quiet).heap| == |HeardAck(st, x, u, buffered, AckHeader).heap| == |st.heap|
    ensures AckOutcome(st, HeardAck(st, x, u, buffered, Quiet), HeardAck(st, x, u, buffered, AckHeader), u,
                       OnLiveAck(st, x, u, buffered))
  {
    var verdict := Classify(buffered, st.cfg.headerBytes);
    if verdict.Complete? && st.cfg.parse(verdict.header).Some?
       && ValidAck(st.heap[u], st.cfg.parse(verdict.header).value) {
      assert AcknowledgedBy(st, HeardAck(st, x, u, buffered, Quiet), u, st.cfg.parse(verdict.header).value,
                            OnLiveAck(st, x, u, buffered));
    }
  }

  /** What an awaiting session is, apart from the acknowledgement it has heard. */
  lemma AwaitingIs(s: Session, heard: Session, cfg: Config)
    requires SessionOk(s, cfg) && s.phase == WAIT_ACK && heard == s.(ackIn := heard.ackIn)
    requires s.sender.Some?
    ensures Sound(heard) && NotTold(heard.toSender) && heard.size <= cfg.maxBytes
    ensures Exact(heard) && heard.remaining == 0 && heard.toSender == [Line(ReadyMsg(heard.id))]
  {
  }

  lemma AckPendingOk(st: Relay, pending: Relay, u: nat)
    requires u < |st.heap| == |pending.heap| && st.heap[u].phase == WAIT_ACK && SessionOk(st.heap[u], st.cfg)
    requires OkBut(pending, u) && pending.cfg == st.cfg && Listening(pending, u) && pending.now == st.now
    requires LiveOk(st, u) && pending.heap[u] == st.heap[u].(ackIn := pending.heap[u].ackIn)
    requires Classify(pending.heap[u].ackIn, st.cfg.headerBytes).Pending?
    ensures RelayOk(pending)
  {
    AtRest(pending, u);
  }

  lemma AckOutcomeOk(st: Relay, quiet: Relay, pending: Relay, u: nat, st': Relay)
    requires u < |st.heap| == |quiet.heap| == |pending.heap| && st.heap[u].phase == WAIT_ACK
    requires SessionOk(st.heap[u], st.cfg) && LiveOk(st, u)
    requires WorkedIn(st, quiet, u) && WorkedIn(st, pending, u) && OkBut(quiet, u) && OkBut(pending, u)
    requires quiet.heap[u] == pending.heap[u] == st.heap[u].(ackIn := quiet.heap[u].ackIn)
    requires Writable(quiet, st.heap[u].sender.value) && Listening(pending, u)
    requires AckOutcome(st, quiet, pending, u, st')
    ensures RelayOk(st')
  {
    AwaitingIs(st.heap[u], quiet.heap[u], st.cfg);
    if st' == pending && Classify(pending.heap[u].ackIn, st.cfg.headerBytes).Pending? {
      AckPendingOk(st, pending, u);
    } else if st' == Destroy(quiet, st.heap[u].id) {
      DestroyOk(quiet, u);
    } else {
      var ack :| AcknowledgedBy(st, quiet, u, ack, st');
      AcknowledgedOk(quiet, u, ack);
    }
  }

  lemma LiveAckOk(st: Relay, x: Sock, u: nat, buffered: Bytes)
    requires RelayOk(st) && Live(st, u) && x in st.conns && st.conns[x].session == Some(u)
    requires st.conns[x].mode == AckHeader
    ensures RelayOk(OnLiveAck(st, x, u, buffered))
  {
    LiveAwaiting(st, x, u);
    assert EntryOk(st, u);
    HeardAckBut(st, x, u, buffered, Quiet);
    HeardAckBut(st, x, u, buffered, AckHeader);
    LiveAckOutcome(st, x, u, buffered);
    AckOutcomeOk(st, HeardAck(st, x, u, buffered, Quiet), HeardAck(st, x, u, buffered, AckHeader), u,
                 OnLiveAck(st, x, u, buffered));
  }

  lemma HeardPayloadWorks(st: Relay, u: nat, chunk: Bytes)
    requires u < |st.heap|
    ensures WorkedIn(st, HeardPayload(st, u, chunk), u)
  {
  }

  /** What the bytes just taken leave to be forwarded. */
  lemma HeardPayloadHolds(st: Relay, u: nat, chunk: Bytes)
    requires EntryAtWork(st, u) && st.heap[u].phase != PAIRING
    ensures Sound(HeardPayload(st, u, chunk).heap[u])
    ensures st.heap[u].phase == TRANSFERRING ==>
              InTransfer(HeardPayload(st, u, chunk), u) && Holding(HeardPayload(st, u, chunk).heap[u], chunk)
  {
    if st.heap[u].sender.Some? { assert Member(st, u, st.heap[u].sender.value, "sender"); }
    if st.heap[u].receiver.Some? { assert Member(st, u, st.heap[u].receiver.value, "receiver"); }
  }

  ghost predicate EntryAtWork(st: Relay, u: nat) {
    u < |st.heap| && Live(st, u) && EntryOk(st, u)
  }

  lemma HeardPayloadBut(st: Relay, x: Sock, u: nat, chunk: Bytes)
    requires RelayOk(st) && Live(st, u) && st.heap[u].sender == Some(x) && st.heap[u].phase != PAIRING
    ensures OkBut(HeardPayload(st, u, chunk), u)
    ensures Sound(HeardPayload(st, u, chunk).heap[u])
    ensures st.heap[u].phase == TRANSFERRING ==>
              InTransfer(HeardPayload(st, u, chunk), u) && Holding(HeardPayload(st, u, chunk).heap[u], chunk)
  {
    OkButOf(st, u);
    assert EntryOk(st, u);
    HeardPayloadHolds(st, u, chunk);
    HeardPayloadWorks(st, u, chunk);
    WorkedBut(st, HeardPayload(st, u, chunk), u);
  }

  lemma QuietWorks(st: Relay, x: Sock, u: nat)
    requires u < |st.heap| && x in st.conns && st.conns[x].session == Some(u)
    ensures WorkedIn(st, SetMode(st, x, Quiet, []), u)
  {
  }

  lemma QuietBut(st: Relay, x: Sock, u: nat)
    requires OkBut(st, u) && x in st.conns && st.conns[x].session == Some(u)
    ensures OkBut(SetMode(st, x, Quiet, []), u)
  {
    QuietWorks(st, x, u);
    WorkedBut(st, SetMode(st, x, Quiet, []), u);
  }

  /** A sender's listener names its session as sender. */
  lemma SenderOf(st: Relay, x: Sock, u: nat)
    requires RelayOk(st) && x in st.conns && st.conns[x].session == Some(u)
    requires st.conns[x].mode == Consuming || st.conns[x].mode == Overrun
    ensures u < |st.heap| && st.heap[u].sender == Some(x)
    ensures Live(st, u) ==> st.heap[u].phase == if st.conns[x].mode == Consuming then TRANSFERRING else WAIT_ACK
  {
    assert ConnOk(st, x);
    if Live(st, u) { assert EntryOk(st, u); }
  }

  lemma ConsumingOk(st: Relay, x: Sock, u: nat, chunk: Bytes)
    requires RelayOk(st) && x in st.conns && st.conns[x].session == Some(u) && st.conns[x].mode == Consuming
    requires u < |st.heap|
    ensures RelayOk(OnPayload(st, u, chunk))
  {
    SenderOf(st, x, u);
    if Live(st, u) {
      assert EntryOk(st, u);
      HeardPayloadBut(st, x, u, chunk);
      ConsumeOk(HeardPayload(st, u, chunk), u, chunk);
    }
  }

  lemma OverrunOk(st: Relay, x: Sock, u: nat, chunk: Bytes)
    requires RelayOk(st) && x in st.conns && st.conns[x].session == Some(u) && st.conns[x].mode == Overrun
    requires u < |st.heap|
    ensures RelayOk(OnOverrun(st, x, u, chunk))
  {
    if Live(st, u) {
      OverrunLiveOk(st, x, u, chunk);
    } else {
      QuietOk(st, x, u, []);
      DestroyByIdOk(SetMode(st, x, Quiet, []), st.heap[u].id);
    }
  }

  lemma OverrunLiveOk(st: Relay, x: Sock, u: nat, chunk: Bytes)
    requires RelayOk(st) && x in st.conns && st.conns[x].session == Some(u) && st.conns[x].mode == Overrun
    requires u < |st.heap| && Live(st, u)
    ensures RelayOk(Destroy(SetMode(HeardPayload(st, u, chunk), x, Quiet, []), st.heap[u].id))
  {
    SenderOf(st, x, u);
    assert EntryOk(st, u);
    LiveDestroyable(st, u);
    HeardPayloadBut(st, x, u, chunk);
    OverrunFails(HeardPayload(st, u, chunk), x, u);
  }

  lemma OverrunFails(st: Relay, x: Sock, u: nat)
    requires OkBut(st, u) && x in st.conns && st.conns[x].session == Some(u)
    requires Sound(st.heap[u]) && NotTold(st.heap[u].toSender) && st.heap[u].size <= st.cfg.maxBytes
    ensures RelayOk(Destroy(SetMode(st, x, Quiet, []), st.heap[u].id))
  {
    QuietBut(st, x, u);
    DestroyOk(SetMode(st, x, Quiet, []), u);
  }

  lemma DataOk(st: Relay, x: Sock, chunk: Bytes)
    requires RelayOk(st)
    ensures RelayOk(OnData(st, x, chunk))
  {
    if x in st.sockets && x in st.conns && chunk != [] {
      var c := st.conns[x];
      assert ConnOk(st, x);
      if c.mode == Header {
        HeaderDataOk(st, x, chunk);
      } else if c.session.Some? {
        match c.mode
        case Consuming => ConsumingOk(st, x, c.session.value, chunk);
        case Overrun => OverrunOk(st, x, c.session.value, chunk);
        case AckHeader =>
          if Live(st, c.session.value) {
            LiveAckOk(st, x, c.session.value, c.buffered + chunk);
          } else {
            StaleAckOk(st, x, c.session.value, c.buffered + chunk);
          }
        case _ =>
      }
    }
  }

  /** Socket `x` was ended, closed or silenced; it is still the party it was. */
  ghost predicate Around(st: Relay, st': Relay, x: Sock) {
    && x in st.conns
    && st' == st.(conns := st.conns[x := ConnOf(st', x)], sockets := st'.sockets)
    && ConnOf(st', x).session == st.conns[x].session && ConnOf(st', x).hello == st.conns[x].hello
    && (st'.sockets == st.sockets || st'.sockets == st.sockets - {x})
  }

  lemma AroundConns(st: Relay, st': Relay, x: Sock)
    requires RelayOk(st) && Around(st, st', x) && ConnOk(st', x)
    ensures forall y <- st'.conns :: ConnOk(st', y)
    ensures TableOk(st') && AccountsOk(st')
  {
    forall y <- st'.conns ensures ConnOk(st', y) {
      if y != x { assert ConnOk(st, y); }
    }
  }

  /** What still holds then: all of it, but for the session the socket belongs to. */
  lemma AroundBut(st: Relay, st': Relay, x: Sock)
    requires RelayOk(st) && Around(st, st', x) && ConnOk(st', x)
    ensures var c := st.conns[x].session;
            if c.Some? && Live(st, c.value) then OkBut(st', c.value) && EntryOk(st, c.value) else RelayOk(st')
  {
    var c := st.conns[x];
    AroundConns(st, st', x);
    assert ConnOk(st, x);
    forall v | 0 <= v < |st'.heap| && (c.session != Some(v) || !Live(st, v)) ensures EntryOk(st', v) {
      EntryAround(st, st', x, v);
    }
    if c.session.Some? && Live(st, c.session.value) {
      assert EntryOk(st, c.session.value);
      JoinedAround(st, st', x, c.session.value);
    }
  }

  /** destroySession called by the handlers of socket `x`. */
  lemma DestroyOfOk(st: Relay, st': Relay, x: Sock)
    requires RelayOk(st) && Around(st, st', x) && ConnOk(st', x)
    ensures RelayOk(DestroyOf(st', x))
  {
    var c := st.conns[x].session;
    AroundBut(st, st', x);
    if c.Some? && Live(st, c.value) {
      LiveDestroyable(st, c.value);
      DestroyOk(st', c.value);
      assert SessionId(st', x) == Some(st'.heap[c.value].id);
    } else if c.Some? && c.value < |st.heap| {
      DestroyByIdOk(st', st.heap[c.value].id);
    }
  }

  lemma LiveDestroyable(st: Relay, u: nat)
    requires EntryAtWork(st, u)
    ensures Sound(st.heap[u]) && NotTold(st.heap[u].toSender)
    ensures st.heap[u].sender.Some? ==> st.heap[u].size <= st.cfg.maxBytes
  {
  }

  lemma JoinedAround(st: Relay, st': Relay, x: Sock, u: nat)
    requires u < |st.heap| && Joined(st, u) && Around(st, st', x)
    ensures Joined(st', u)
  {
    var s := st.heap[u];
    if s.sender.Some? { assert Member(st, u, s.sender.value, "sender"); }
    if s.receiver.Some? { assert Member(st, u, s.receiver.value, "receiver"); }
  }

  lemma EntryAround(st: Relay, st': Relay, x: Sock, v: nat)
    requires v < |st.heap| && EntryOk(st, v) && Around(st, st', x)
    requires st.conns[x].session != Some(v) || !Live(st, v)
    ensures EntryOk(st', v)
  {
    JoinedAround(st, st', x, v);
    var s := st.heap[v];
    if s.sender.Some? { assert Member(st, v, s.sender.value, "sender"); }
    if s.receiver.Some? { assert Member(st, v, s.receiver.value, "receiver"); }
  }

  lemma EndOk(st: Relay, x: Sock)
    requires RelayOk(st)
    ensures RelayOk(OnEnd(st, x))
  {
    if x in st.sockets && x in st.conns {
      assert ConnOk(st, x);
      var quiet := SetMode(st, x, Quiet, []);
      if st.conns[x].mode == Header {
        LooseOk(st, quiet, x);
        RefuseOk(quiet, x, "INVALID_REGISTRATION");
      } else if st.conns[x].mode == AckHeader {
        DestroyOfOk(st, quiet, x);
      }
    }
  }

  lemma TickOk(st: Relay, now: int)
    requires RelayOk(st) && st.now <= now && NothingDueBefore(st, now)
    ensures RelayOk(st.(now := now))
  {
    var st' := st.(now := now);
    forall v | 0 <= v < |st'.heap| ensures EntryOk(st', v) {
      TickEntry(st, now, v);
    }
    forall y <- st'.conns ensures ConnOk(st', y) {
      assert ConnOk(st, y);
    }
  }

  lemma TickEntry(st: Relay, now: int, v: nat)
    requires v < |st.heap| && EntryOk(st, v) && NothingDueBefore(st, now)
    ensures EntryOk(st.(now := now), v)
  {
  }

  // ---- Main results ------------------------------------------------------------------

  lemma SocketErrorOk(st: Relay, x: Sock)
    requires RelayOk(st) && x in st.sockets
    ensures RelayOk(DestroyOf(End(st, x), x))
  {
    assert ConnOk(st, x);
    DestroyOfOk(st, End(st, x), x);
  }

  lemma CloseOk(st: Relay, x: Sock)
    requires RelayOk(st) && x in st.sockets
    ensures RelayOk(DestroyOf(st.(sockets := st.sockets - {x}), x))
  {
    assert ConnOk(st, x);
    DestroyOfOk(st, st.(sockets := st.sockets - {x}), x);
  }

  lemma HeaderTimeoutOk(st: Relay, x: Sock)
    requires RelayOk(st)
    ensures RelayOk(Step(st, HeaderTimeout(x)))
  {
    if x in st.conns && SessionId(st, x).None? {
      assert ConnOk(st, x);
      RefuseOk(st, x, "HEADER_TIMEOUT");
    }
  }

  lemma ConnectOk(st: Relay, x: Sock)
    requires RelayOk(st)
    ensures RelayOk(Step(st, Connect(x)))
  {
    if x !in st.conns { LooseOk(st, Step(st, Connect(x)), x); }
  }

  /** Every event, in every state, keeps the relay's invariant. */
  lemma StepOk(st: Relay, e: Event)
    requires RelayOk(st)
    ensures RelayOk(Step(st, e))
  {
    match e
    case Connect(x) => ConnectOk(st, x);
    case Data(x, chunk) => DataOk(st, x, chunk);
    case EndOfInput(x) => EndOk(st, x);
    case SocketError(x) => if x in st.sockets { SocketErrorOk(st, x); }
    case Close(x) => if x in st.sockets { CloseOk(st, x); }
    case HeaderTimeout(x) => HeaderTimeoutOk(st, x);
    case Fire(id) => DestroyByIdOk(st, id);
    case Tick(now) => if st.now <= now && NothingDueBefore(st, now) { TickOk(st, now); }
  }

  lemma {:induction false} RunOk(cfg: Config, now: int, events: seq<Event>)
    ensures RelayOk(Run(Start(cfg, now), events))
  {
    RunOkFrom(Start(cfg, now), events);
  }

  lemma {:induction false} RunOkFrom(st: Relay, events: seq<Event>)
    requires RelayOk(st)
    ensures RelayOk(Run(st, events))
    decreases events
  {
    if events != [] {
      StepOk(st, events[0]);
      RunOkFrom(Step(st, events[0]), events[1..]);
    }
  }
}
