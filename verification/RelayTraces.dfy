/**
 * How a step of the relay relates to the one before: what was written is never taken
 * back, a finished session never changes, and what a session heard is exactly what its
 * sockets delivered.
 */
module RelayTraces {
  import opened Prelude
  import opened Framing
  import opened FileRelay
  import opened RelayInvariants

  function Rank(p: Phase): nat {
    match p
    case PAIRING => 0
    case TRANSFERRING => 1
    case WAIT_ACK => 2
    case _ => 3
  }

  /** The same session later: parties stay, streams grow, phases only advance. */
  ghost predicate SessionLater(s: Session, s': Session) {
    && s'.id == s.id && s'.token == s.token && s'.createdAt == s.createdAt
    && (s.sender.Some? ==> s'.sender == s.sender && s'.size == s.size && s'.sha256 == s.sha256)
    && (s.receiver.Some? ==> s'.receiver == s.receiver)
    && s.toSender <= s'.toSender && s.toReceiver <= s'.toReceiver
    && Rank(s.phase) <= Rank(s'.phase)
  }

  ghost predicate ConnLater(c: Conn, c': Conn) {
    if c.session.Some? then c'.session == c.session && c'.hello == c.hello && c'.out == c.out
    else
      && c'.session.None? && c'.hello == c.hello && c.out <= c'.out
      && (c'.mode == Header ==> c.mode == Header && c'.buffered == c.buffered)
      && (c'.mode == Header || c'.mode == Quiet)
  }

  /** What the relay does on its own account, without hearing anything new. */
  ghost predicate Follows(st: Relay, st': Relay) {
    && |st.heap| <= |st'.heap| && st.conns.Keys == st'.conns.Keys && st'.cfg == st.cfg
    && (forall v | 0 <= v < |st.heap| :: SessionFollows(st, st', v))
    && (forall x <- st.conns :: ConnLater(st.conns[x], st'.conns[x]))
  }

  ghost predicate SessionFollows(st: Relay, st': Relay, v: nat)
    requires v < |st.heap| <= |st'.heap|
  {
    && SessionLater(st.heap[v], st'.heap[v])
    && st'.heap[v].senderIn == st.heap[v].senderIn && st'.heap[v].ackIn == st.heap[v].ackIn
    && (!Live(st, v) ==> st'.heap[v] == st.heap[v] && !Live(st', v))
  }

  /** Every conn of session-less sockets is in a mode of its own. */
  ghost predicate ModesOk(st: Relay) {
    forall x <- st.conns :: st.conns[x].session.None? ==> st.conns[x].mode == Header || st.conns[x].mode == Quiet
  }

  lemma RelayModes(st: Relay)
    requires RelayOk(st)
    ensures ModesOk(st)
  {
    forall x <- st.conns ensures st.conns[x].session.None? ==> st.conns[x].mode == Header || st.conns[x].mode == Quiet {
      assert ConnOk(st, x);
    }
  }

  lemma FollowsTransitively(a: Relay, b: Relay, c: Relay)
    requires Follows(a, b) && Follows(b, c)
    ensures Follows(a, c)
  {
    forall v | 0 <= v < |a.heap| ensures SessionFollows(a, c, v) {
      assert SessionFollows(a, b, v) && SessionFollows(b, c, v);
    }
    forall x <- a.conns ensures ConnLater(a.conns[x], c.conns[x]) {
      assert ConnLater(a.conns[x], b.conns[x]) && ConnLater(b.conns[x], c.conns[x]);
    }
  }

  lemma EndedFollows(st: Relay, st': Relay, u: nat)
    requires u < |st.heap| && Live(st, u) && ModesOk(st) && EndedIn(st, st', u)
    requires SessionLater(st.heap[u], st'.heap[u])
    requires st'.heap[u].senderIn == st.heap[u].senderIn && st'.heap[u].ackIn == st.heap[u].ackIn
    ensures Follows(st, st')
  {
    forall v | 0 <= v < |st.heap| ensures SessionFollows(st, st', v) {}
  }

  lemma FinishSession(st: Relay, u: nat, phase: Phase, toSender: Option<Json>, toReceiver: Option<Json>)
    requires u < |st.heap| && (phase == DONE || phase == FAILED)
    ensures var s, s' := st.heap[u], Finish(st, u, phase, toSender, toReceiver).heap[u];
            SessionLater(s, s') && s'.senderIn == s.senderIn && s'.ackIn == s.ackIn
  {
  }

  lemma FinishFollows(st: Relay, u: nat, phase: Phase, toSender: Option<Json>, toReceiver: Option<Json>)
    requires OkBut(st, u) && ModesOk(st) && (phase == DONE || phase == FAILED)
    ensures Follows(st, Finish(st, u, phase, toSender, toReceiver))
    ensures !Live(Finish(st, u, phase, toSender, toReceiver), u)
  {
    var st' := Finish(st, u, phase, toSender, toReceiver);
    ReleaseIsExact(st, u);
    FinishEnds(st, u, phase, toSender, toReceiver);
    FinishSession(st, u, phase, toSender, toReceiver);
    EndedElsewhere(st, st', u);
    EndedFollows(st, st', u);
  }

  lemma DestroyFollows(st: Relay, u: nat)
    requires OkBut(st, u) && ModesOk(st)
    ensures Follows(st, Destroy(st, st.heap[u].id)) && !Live(Destroy(st, st.heap[u].id), u)
  {
    FinishFollows(st, u, FAILED, Some(FailureMsg(st.heap[u].id)), Some(FailureMsg(st.heap[u].id)));
  }

  lemma DestroyByIdFollows(st: Relay, id: string)
    requires RelayOk(st)
    ensures Follows(st, Destroy(st, id))
  {
    RelayModes(st);
    if id in st.sessions {
      OkButOf(st, st.sessions[id]);
      DestroyFollows(st, st.sessions[id]);
    }
  }

  /** Work within one live session that hears nothing. */
  lemma WorkedFollows(st: Relay, st': Relay, u: nat)
    requires WorkedIn(st, st', u) && ModesOk(st) && Live(st, u)
    requires SessionLater(st.heap[u], st'.heap[u])
    requires st'.heap[u].senderIn == st.heap[u].senderIn && st'.heap[u].ackIn == st.heap[u].ackIn
    ensures Follows(st, st') && ModesOk(st')
  {
    forall v | 0 <= v < |st.heap| ensures SessionFollows(st, st', v) {}
  }

  lemma WaitForAckFollows(st: Relay, u: nat)
    requires InTransfer(st, u) && Joined(st, u) && ModesOk(st) && Live(st, u)
    ensures Follows(st, WaitForAck(st, u))
  {
    WaitForAckWorks(st, u);
    WorkedFollows(st, WaitForAck(st, u), u);
  }

  lemma ConsumeFollows(st: Relay, u: nat, chunk: Bytes)
    requires OkBut(st, u) && InTransfer(st, u) && Holding(st.heap[u], chunk) && ModesOk(st)
    ensures Follows(st, Consume(st, u, chunk))
  {
    if |chunk| > st.heap[u].remaining {
      DestroyFollows(st, u);
    } else {
      PassedFollows(st, u, chunk);
    }
  }

  lemma PassedFollows(st: Relay, u: nat, chunk: Bytes)
    requires u < |st.heap| && Live(st, u) && Joined(st, u) && TableOk(st) && InTransfer(st, u) && ModesOk(st)
    requires Holding(st.heap[u], chunk) && |chunk| <= st.heap[u].remaining
    ensures var st1 := PassedOn(st, u, chunk);
            if st1.heap[u].remaining == 0 then Follows(st, WaitForAck(st1, u)) else Follows(st, st1)
  {
    var st1 := PassedOn(st, u, chunk);
    PassedOnFollows(st, u, chunk);
    if st1.heap[u].remaining == 0 {
      WaitForAckFollows(st1, u);
      FollowsTransitively(st, st1, WaitForAck(st1, u));
    }
  }

  lemma PassedOnFollows(st: Relay, u: nat, chunk: Bytes)
    requires u < |st.heap| && Live(st, u) && Joined(st, u) && TableOk(st) && InTransfer(st, u) && ModesOk(st)
    requires Holding(st.heap[u], chunk) && |chunk| <= st.heap[u].remaining
    ensures var st1 := PassedOn(st, u, chunk);
            Follows(st, st1) && ModesOk(st1) && Live(st1, u) && Joined(st1, u) && InTransfer(st1, u)
  {
    PassedExact(st, u, chunk);
    WorkedFollows(st, PassedOn(st, u, chunk), u);
    WorkedElsewhere(st, PassedOn(st, u, chunk), u);
  }

  lemma BegunFollows(st: Relay, u: nat)
    requires Paired(st, u) && Live(st, u) && Joined(st, u) && ModesOk(st)
    ensures Follows(st, Begun(st, u)) && ModesOk(Begun(st, u))
  {
    BegunInTransfer(st, u);
    WorkedFollows(st, Begun(st, u), u);
  }

  lemma RemainderFollows(st: Relay, u: nat, remainder: Bytes)
    requires OkBut(st, u) && InTransfer(st, u) && Holding(st.heap[u], remainder) && ModesOk(st)
    ensures Follows(st, if remainder != [] then Consume(st, u, remainder)
                        else if st.heap[u].size == 0 then WaitForAck(st, u) else st)
  {
    if remainder != [] {
      ConsumeFollows(st, u, remainder);
    } else if st.heap[u].size == 0 {
      WaitForAckFollows(st, u);
    }
  }

  lemma AfterBegunFollows(st: Relay, u: nat)
    requires OkBut(st, u) && Paired(st, u)
    requires ModesOk(Begun(st, u))
    ensures Follows(Begun(st, u), StartTransfer(st, u))
  {
    BegunInTransfer(st, u);
    WorkedBut(st, Begun(st, u), u);
    RemainderFollows(Begun(st, u), u, st.heap[u].remainder);
  }

  lemma StartTransferFollows(st: Relay, u: nat)
    requires OkBut(st, u) && Paired(st, u) && ModesOk(st)
    ensures Follows(st, StartTransfer(st, u))
  {
    BegunFollows(st, u);
    AfterBegunFollows(st, u);
    FollowsTransitively(st, Begun(st, u), StartTransfer(st, u));
  }

  lemma PairFollows(st: Relay, u: nat)
    requires OkBut(st, u) && SessionOk(st.heap[u], st.cfg) && LiveOk(st, u) && st.heap[u].phase == PAIRING
    requires ModesOk(st)
    ensures Follows(st, Pair(st, u))
  {
    var s := st.heap[u];
    if s.sender.None? || s.receiver.None? {
    } else if s.sourceDevice != s.receiverTarget || s.targetDevice != s.receiverSource {
      DestroyFollows(st, u);
    } else {
      PairedNow(st, u);
      StartTransferFollows(st, u);
    }
  }

  // ---- Steps that hear something -----------------------------------------------------

  /** The bytes the event hands to the listener of socket `x`. */
  function Delivered(st: Relay, e: Event, x: Sock): Bytes {
    if e.Data? && e.x == x && x in st.sockets && x in st.conns && st.conns[x].mode != Quiet then e.chunk else []
  }

  /** A live session heard exactly what its sockets delivered. */
  ghost predicate Heard(st: Relay, st': Relay, e: Event, v: nat)
    requires v < |st.heap| <= |st'.heap|
  {
    var s, s' := st.heap[v], st'.heap[v];
    && (s.sender.Some? ==> s'.senderIn == s.senderIn + Delivered(st, e, s.sender.value))
    && (s.receiver.Some? ==> s'.ackIn == s.ackIn + Delivered(st, e, s.receiver.value))
  }

  ghost predicate SessionEvolves(st: Relay, st': Relay, e: Event, v: nat)
    requires v < |st.heap| <= |st'.heap|
  {
    && SessionLater(st.heap[v], st'.heap[v])
    && (if Live(st, v) then Heard(st, st', e, v) else st'.heap[v] == st.heap[v] && !Live(st', v))
  }

  /** The event completed the header with which socket `x` became a party of `u`. */
  ghost predicate Accepted(st: Relay, st': Relay, e: Event, x: Sock, u: nat)
    requires x in st.conns && x in st'.conns
  {
    && e.Data? && e.x == x && x in st.sockets && st.conns[x].mode == Header && st.conns[x].out == []
    && u < |st'.heap|
    && var verdict := Classify(st.conns[x].buffered + e.chunk, st.cfg.headerBytes);
       && verdict.Complete? && st'.conns[x].hello.Some?
       && st.cfg.parse(verdict.header) == st'.conns[x].hello
       && (st'.conns[x].hello.value.role == Some("sender") ==> st'.heap[u].senderIn == verdict.rest)
       && (st'.conns[x].hello.value.role == Some("receiver") ==> st'.heap[u].ackIn == [])
  }

  ghost predicate ConnEvolves(st: Relay, st': Relay, e: Event, x: Sock)
    requires x in st.conns && x in st'.conns
  {
    var c, c' := st.conns[x], st'.conns[x];
    match (c.session, c'.session)
    case (Some(u), _) => c'.session == c.session && c'.hello == c.hello && c'.out == c.out
    case (None, Some(u)) => Accepted(st, st', e, x, u)
    case (None, None) =>
      && c.out <= c'.out
      && (c'.mode == Header ==> c.mode == Header && c'.buffered == c.buffered + Delivered(st, e, x))
  }

  ghost predicate NewConn(c: Conn) {
    c.session.None? && (c.mode == Header ==> c.buffered == [])
  }

  ghost predicate Evolves(st: Relay, st': Relay, e: Event) {
    && |st.heap| <= |st'.heap| && st.conns.Keys <= st'.conns.Keys && st'.cfg == st.cfg
    && (forall v | 0 <= v < |st.heap| :: SessionEvolves(st, st', e, v))
    && (forall x <- st.conns :: ConnEvolves(st, st', e, x))
    && (forall x <- st'.conns :: x !in st.conns ==> NewConn(st'.conns[x]))
  }

  /** A step that hears nothing. */
  lemma FollowsEvolves(st: Relay, st': Relay, e: Event)
    requires Follows(st, st')
    requires forall x :: Delivered(st, e, x) == []
    ensures Evolves(st, st', e)
  {
    forall v | 0 <= v < |st.heap| ensures SessionEvolves(st, st', e, v) {
      assert SessionFollows(st, st', v);
    }
    forall x <- st.conns ensures ConnEvolves(st, st', e, x) {
      assert ConnLater(st.conns[x], st'.conns[x]);
    }
  }

  /** Hearing, then acting on it. */
  lemma EvolvesThenFollows(st: Relay, mid: Relay, st': Relay, e: Event)
    requires Evolves(st, mid, e) && Follows(mid, st')
    ensures Evolves(st, st', e)
  {
    forall v | 0 <= v < |st.heap| ensures SessionEvolves(st, st', e, v) {
      assert SessionEvolves(st, mid, e, v) && SessionFollows(mid, st', v);
    }
    forall x <- st.conns ensures ConnEvolves(st, st', e, x) {
      ConnEvolvesThen(st, mid, st', e, x);
    }
    forall x <- st'.conns | x !in st.conns ensures NewConn(st'.conns[x]) {
      assert ConnLater(mid.conns[x], st'.conns[x]);
    }
  }

  lemma ConnEvolvesThen(st: Relay, mid: Relay, st': Relay, e: Event, x: Sock)
    requires |mid.heap| <= |st'.heap| && x in st.conns && x in mid.conns && x in st'.conns
    requires ConnEvolves(st, mid, e, x) && ConnLater(mid.conns[x], st'.conns[x])
    requires forall v | 0 <= v < |mid.heap| :: SessionFollows(mid, st', v)
    ensures ConnEvolves(st, st', e, x)
  {
    var c, m := st.conns[x], mid.conns[x];
    if c.session.None? && m.session.Some? {
      assert SessionFollows(mid, st', m.session.value);
    }
  }

  /** Reading a header without joining: only the socket itself changes. */
  lemma LooseEvolves(st: Relay, st': Relay, e: Event)
    requires e.Data? && e.x in st.conns && e.x in st.sockets && st.conns[e.x].mode == Header
    requires st.conns[e.x].session.None?
    requires st' == st.(conns := st.conns[e.x := ConnOf(st', e.x)])
    requires var c' := ConnOf(st', e.x);
             && c'.session.None? && st.conns[e.x].out <= c'.out
             && (c'.mode == Header ==> c'.buffered == st.conns[e.x].buffered + e.chunk)
    requires RelayOk(st)
    ensures Evolves(st, st', e)
  {
    forall v | 0 <= v < |st.heap| ensures SessionEvolves(st, st', e, v) {
      LooseSession(st, e, v);
    }
    forall x <- st.conns ensures ConnEvolves(st, st', e, x) {
      assert ConnOk(st, x);
      LooseConn(st, st', e, x);
    }
  }

  lemma LooseConn(st: Relay, st': Relay, e: Event, x: Sock)
    requires e.Data? && e.x in st.conns && e.x in st.sockets && st.conns[e.x].mode == Header
    requires st' == st.(conns := st.conns[e.x := ConnOf(st', e.x)])
    requires var c' := ConnOf(st', e.x);
             && c'.session.None? && st.conns[e.x].out <= c'.out
             && (c'.mode == Header ==> c'.buffered == st.conns[e.x].buffered + e.chunk)
    requires x in st.conns && ConnOk(st, x) && st.conns[e.x].session.None?
    ensures ConnEvolves(st, st', e, x)
  {
  }

  /** An unregistered socket is a party of no session. */
  lemma LooseSession(st: Relay, e: Event, v: nat)
    requires RelayOk(st) && v < |st.heap| && e.Data? && e.x in st.conns && st.conns[e.x].session.None?
    ensures st.heap[v].sender.Some? ==> Delivered(st, e, st.heap[v].sender.value) == []
    ensures st.heap[v].receiver.Some? ==> Delivered(st, e, st.heap[v].receiver.value) == []
  {
    assert EntryOk(st, v);
    var s := st.heap[v];
    if s.sender.Some? { assert Member(st, v, s.sender.value, "sender"); }
    if s.receiver.Some? { assert Member(st, v, s.receiver.value, "receiver"); }
  }

  ghost predicate Parsed(cfg: Config, verdict: Framed, h: Json, rest: Bytes) {
    verdict.Complete? && cfg.parse(verdict.header) == Some(h) && verdict.rest == rest
  }

  /** The header read, and what the relay does before it admits the socket. */
  ghost predicate HeaderRead(st: Relay, mid: Relay, e: Event, h: Json, rest: Bytes) {
    && e.Data? && e.x in st.conns && e.x in st.sockets && st.conns[e.x].mode == Header
    && Parsed(st.cfg, Classify(st.conns[e.x].buffered + e.chunk, st.cfg.headerBytes), h, rest)
    && Follows(st, mid)
    && mid.conns[e.x].session.None? && mid.conns[e.x].mode == Quiet
  }

  /** Not admitted: the steps that follow are the relay's own. */
  lemma HeaderReadEvolves(st: Relay, mid: Relay, e: Event, h: Json, rest: Bytes)
    requires RelayOk(st) && HeaderRead(st, mid, e, h, rest)
    ensures Evolves(st, mid, e)
  {
    forall v | 0 <= v < |st.heap| ensures SessionEvolves(st, mid, e, v) {
      assert ConnOk(st, e.x);
      LooseSession(st, e, v);
      assert SessionFollows(st, mid, v);
    }
    forall x <- st.conns ensures ConnEvolves(st, mid, e, x) {
      assert ConnLater(st.conns[x], mid.conns[x]) && ConnOk(st, x);
      HeaderReadConn(st, mid, e, x);
    }
  }

  lemma HeaderReadConn(st: Relay, mid: Relay, e: Event, x: Sock)
    requires e.Data? && e.x in st.conns && e.x in mid.conns && mid.conns[e.x].mode == Quiet
    requires x in st.conns && x in mid.conns && ConnOk(st, x) && ConnLater(st.conns[x], mid.conns[x])
    ensures ConnEvolves(st, mid, e, x)
  {
  }

  /** Admitted: the session's record takes the socket in. */
  lemma MemberedEvolves(st: Relay, mid: Relay, st': Relay, e: Event, u: nat, h: Json, rest: Bytes)
    requires RelayOk(st) && HeaderRead(st, mid, e, h, rest) && Live(mid, u)
    requires mid.conns[e.x].out == []
    requires JoinedIn(mid, st', u, e.x) && ConnOf(st', e.x) == mid.conns[e.x].(session := Some(u), hello := Some(h))
    requires SessionLater(mid.heap[u], st'.heap[u])
    requires if h.role == Some("sender") then
               mid.heap[u].sender.None? && st'.heap[u].senderIn == rest && st'.heap[u].ackIn == mid.heap[u].ackIn
             else
               mid.heap[u].receiver.None? && st'.heap[u].senderIn == mid.heap[u].senderIn
               && st'.heap[u].ackIn == mid.heap[u].ackIn == []
    ensures Evolves(st, st', e)
  {
    HeaderReadEvolves(st, mid, e, h, rest);
    forall v | 0 <= v < |st.heap| ensures SessionEvolves(st, st', e, v) {
      assert SessionEvolves(st, mid, e, v);
    }
    forall x <- st.conns ensures ConnEvolves(st, st', e, x) {
      assert ConnEvolves(st, mid, e, x) && ConnLater(st.conns[x], mid.conns[x]) && ConnOk(st, x);
      MemberedConn(st, mid, st', e, u, h, rest, x);
    }
  }

  lemma MemberedConn(st: Relay, mid: Relay, st': Relay, e: Event, u: nat, h: Json, rest: Bytes, x: Sock)
    requires e.Data? && e.x in st.conns && e.x in mid.conns && e.x in st.sockets && st.conns[e.x].mode == Header
    requires Parsed(st.cfg, Classify(st.conns[e.x].buffered + e.chunk, st.cfg.headerBytes), h, rest)
    requires mid.conns[e.x].out == [] && mid.conns[e.x].mode == Quiet
    requires JoinedIn(mid, st', u, e.x) && ConnOf(st', e.x) == mid.conns[e.x].(session := Some(u), hello := Some(h))
    requires h.role == Some("sender") ==> st'.heap[u].senderIn == rest
    requires h.role != Some("sender") ==> st'.heap[u].ackIn == []
    requires x in st.conns && x in mid.conns && ConnOk(st, x)
    requires ConnEvolves(st, mid, e, x) && ConnLater(st.conns[x], mid.conns[x])
    ensures ConnEvolves(st, st', e, x)
  {
  }

  lemma RefuseFollows(st: Relay, x: Sock, code: string)
    requires x in st.conns && st.conns[x].session.None? && ModesOk(st)
    ensures Follows(st, Refuse(st, x, code))
  {
    var st' := Refuse(st, x, code);
    forall v | 0 <= v < |st.heap| ensures SessionFollows(st, st', v) {}
  }

  lemma RefusedEvolves(st: Relay, mid: Relay, e: Event, h: Json, rest: Bytes, code: string)
    requires RelayOk(st) && RelayOk(mid) && HeaderRead(st, mid, e, h, rest)
    ensures Evolves(st, Refuse(mid, e.x, code), e)
  {
    HeaderReadEvolves(st, mid, e, h, rest);
    RelayModes(mid);
    RefuseFollows(mid, e.x, code);
    EvolvesThenFollows(st, mid, Refuse(mid, e.x, code), e);
  }

  lemma DestroyedEvolves(st: Relay, mid: Relay, e: Event, h: Json, rest: Bytes, id: string)
    requires RelayOk(st) && RelayOk(mid) && HeaderRead(st, mid, e, h, rest)
    ensures Evolves(st, Destroy(mid, id), e)
  {
    HeaderReadEvolves(st, mid, e, h, rest);
    DestroyByIdFollows(mid, id);
    EvolvesThenFollows(st, mid, Destroy(mid, id), e);
  }

  lemma PairedEvolves(st: Relay, mid: Relay, joined: Relay, e: Event, u: nat)
    requires RelayOk(mid) && Live(mid, u) && e.Data? && JoinedIn(mid, joined, u, e.x)
    requires ConnOk(joined, e.x) && Joined(joined, u) && Evolves(st, joined, e)
    requires SessionOk(joined.heap[u], joined.cfg) && LiveOk(joined, u) && joined.heap[u].phase == PAIRING
    ensures Evolves(st, Pair(joined, u), e)
  {
    JoinedBut(mid, joined, u, e.x);
    JoinedModes(mid, joined, u, e.x);
    PairFollows(joined, u);
    EvolvesThenFollows(st, joined, Pair(joined, u), e);
  }

  lemma JoinedModes(mid: Relay, joined: Relay, u: nat, x: Sock)
    requires RelayOk(mid) && JoinedIn(mid, joined, u, x) && ConnOk(joined, x)
    ensures ModesOk(joined)
  {
    RelayModes(mid);
  }

  lemma JoinReceiverEvolves(st: Relay, mid: Relay, e: Event, u: nat, h: Json, rest: Bytes)
    requires RelayOk(st) && RelayOk(mid) && HeaderRead(st, mid, e, h, rest)
    requires Live(mid, u) && mid.heap[u].phase == PAIRING && h.role == Some("receiver")
    requires ValidHello(h) && h.id == Some(mid.heap[u].id) && h.token == Some(mid.heap[u].token)
    ensures Evolves(st, JoinReceiver(mid, e.x, u, h), e)
  {
    var s := mid.heap[u];
    if s.receiver.Some? {
      RefusedEvolves(st, mid, e, h, rest, "DUPLICATE_ROLE");
    } else if !Writable(mid, e.x) {
      DestroyedEvolves(st, mid, e, h, rest, s.id);
    } else {
      assert EntryOk(mid, u) && ConnOk(mid, e.x);
      var joined := Membered(mid, e.x, u, h, WithReceiver(s, e.x, h), 0);
      ReceiverMember(mid, e.x, u, h);
      MemberedEvolves(st, mid, joined, e, u, h, rest);
      PairedEvolves(st, mid, joined, e, u);
    }
  }

  lemma JoinSenderEvolves(st: Relay, mid: Relay, e: Event, u: nat, h: Json, rest: Bytes)
    requires RelayOk(st) && RelayOk(mid) && HeaderRead(st, mid, e, h, rest)
    requires Live(mid, u) && mid.heap[u].phase == PAIRING && h.role == Some("sender")
    requires ValidHello(h) && h.id == Some(mid.heap[u].id) && h.token == Some(mid.heap[u].token)
    ensures Evolves(st, JoinSender(mid, e.x, u, h, rest), e)
  {
    var s := mid.heap[u];
    if !ValidSize(h.size, mid.cfg) || !ValidSha(h.sha256) {
      RefusedEvolves(st, mid, e, h, rest, "INVALID_METADATA");
    } else if s.sender.Some? {
      RefusedEvolves(st, mid, e, h, rest, "DUPLICATE_ROLE");
    } else if mid.inFlight + h.size.value > mid.cfg.maxInFlight {
      BusyEvolves(st, mid, e, u, h, rest);
    } else if !Writable(mid, e.x) {
      DestroyedEvolves(st, mid, e, h, rest, s.id);
    } else {
      SeatedEvolves(st, mid, e, u, h, rest);
    }
  }

  lemma SeatedEvolves(st: Relay, mid: Relay, e: Event, u: nat, h: Json, rest: Bytes)
    requires RelayOk(st) && RelayOk(mid) && HeaderRead(st, mid, e, h, rest)
    requires Live(mid, u) && mid.heap[u].phase == PAIRING && mid.heap[u].sender.None? && Writable(mid, e.x)
    requires ValidHello(h) && h.id == Some(mid.heap[u].id) && h.token == Some(mid.heap[u].token)
    requires h.role == Some("sender") && ValidSize(h.size, mid.cfg) && ValidSha(h.sha256)
    requires mid.inFlight + h.size.value <= mid.cfg.maxInFlight
    ensures Evolves(st, Pair(Membered(mid, e.x, u, h, WithSender(mid.heap[u], e.x, h, rest), h.size.value), u), e)
  {
    var joined := Membered(mid, e.x, u, h, WithSender(mid.heap[u], e.x, h, rest), h.size.value);
    assert EntryOk(mid, u) && ConnOk(mid, e.x);
    SenderMember(mid, e.x, u, h, rest);
    MemberedEvolves(st, mid, joined, e, u, h, rest);
    PairedEvolves(st, mid, joined, e, u);
  }

  lemma BusyEvolves(st: Relay, mid: Relay, e: Event, u: nat, h: Json, rest: Bytes)
    requires RelayOk(st) && RelayOk(mid) && HeaderRead(st, mid, e, h, rest)
    requires Live(mid, u) && mid.heap[u].phase == PAIRING && mid.heap[u].sender.None?
    requires ValidHello(h) && h.role == Some("sender") && ValidSize(h.size, mid.cfg) && ValidSha(h.sha256)
    requires mid.inFlight + h.size.value > mid.cfg.maxInFlight
    ensures Evolves(st, JoinSender(mid, e.x, u, h, rest), e)
  {
    var refused := Refuse(mid, e.x, "BUSY");
    RefusedEvolves(st, mid, e, h, rest, "BUSY");
    RefuseOk(mid, e.x, "BUSY");
    if mid.heap[u].receiver.None? {
      DropFollows(refused, u);
      EvolvesThenFollows(st, refused, Dropped(refused, u), e);
    }
  }

  lemma DropFollows(st: Relay, u: nat)
    requires RelayOk(st) && Live(st, u) && st.heap[u].phase == PAIRING
    requires st.heap[u].sender.None? && st.heap[u].receiver.None?
    ensures Follows(st, Dropped(st, u))
  {
    assert EntryOk(st, u);
    RelayModes(st);
    DropEnds(st, u);
    EndedElsewhere(st, Dropped(st, u), u);
    EndedFollows(st, Dropped(st, u), u);
  }

  lemma DropEnds(st: Relay, u: nat)
    requires u < |st.heap| && Live(st, u) && EntryOk(st, u) && st.heap[u].phase == PAIRING
    requires st.heap[u].sender.None? && st.heap[u].receiver.None?
    ensures EndedIn(st, Dropped(st, u), u)
  {
  }

  /** The session that no socket joined is forgotten again. */
  function Dropped(st: Relay, u: nat): Relay
    requires u < |st.heap|
  {
    st.(heap := st.heap[u := Released(st.heap[u])], sessions := Without(st.sessions, st.heap[u].id, u))
  }

  lemma RegisterInEvolves(st: Relay, mid: Relay, e: Event, u: nat, h: Json, rest: Bytes)
    requires RelayOk(st) && RelayOk(mid) && HeaderRead(st, mid, e, h, rest)
    requires Live(mid, u) && ValidHello(h) && h.id == Some(mid.heap[u].id)
    ensures Evolves(st, RegisterIn(mid, e.x, u, h, rest), e)
  {
    if mid.heap[u].token != h.token.value {
      RefusedEvolves(st, mid, e, h, rest, "TICKET_MISMATCH");
    } else if mid.heap[u].phase != PAIRING {
      RefusedEvolves(st, mid, e, h, rest, "DUPLICATE_ROLE");
    } else if h.role == Some("receiver") {
      JoinReceiverEvolves(st, mid, e, u, h, rest);
    } else {
      JoinSenderEvolves(st, mid, e, u, h, rest);
    }
  }

  lemma OpenedFollows(st: Relay, id: string, token: string)
    requires RelayOk(st) && id !in st.sessions
    ensures Follows(st, Opened(st, id, token))
  {
    RelayModes(st);
    forall v | 0 <= v < |st.heap| ensures SessionFollows(st, Opened(st, id, token), v) {
      assert EntryOk(st, v);
    }
  }

  lemma RegisterEvolves(st: Relay, quiet: Relay, e: Event, h: Json, rest: Bytes)
    requires RelayOk(st) && RelayOk(quiet) && HeaderRead(st, quiet, e, h, rest)
    ensures Evolves(st, Register(quiet, e.x, h, rest), e)
  {
    if !ValidHello(h) {
      RefusedEvolves(st, quiet, e, h, rest, "INVALID_REGISTRATION");
    } else if h.id.value !in quiet.sessions && |quiet.sessions| >= quiet.cfg.maxSessions {
      RefusedEvolves(st, quiet, e, h, rest, "BUSY");
    } else if h.id.value in quiet.sessions {
      RegisterInEvolves(st, quiet, e, quiet.sessions[h.id.value], h, rest);
    } else {
      var fresher := Opened(quiet, h.id.value, h.token.value);
      OpenedOk(quiet, h.id.value, h.token.value);
      OpenedFollows(quiet, h.id.value, h.token.value);
      FollowsTransitively(st, quiet, fresher);
      RegisterInEvolves(st, fresher, e, |quiet.heap|, h, rest);
    }
  }

  // ---- One lemma per event -----------------------------------------------------------

  lemma HeaderDataEvolves(st: Relay, e: Event)
    requires RelayOk(st) && e.Data? && e.x in st.conns && e.x in st.sockets && st.conns[e.x].mode == Header
    ensures Evolves(st, OnHeaderData(st, e.x, e.chunk), e)
  {
    var x := e.x;
    var buffered := st.conns[x].buffered + e.chunk;
    match Classify(buffered, st.cfg.headerBytes)
    case Pending =>
      assert ConnOk(st, x);
      LooseEvolves(st, SetMode(st, x, Header, buffered), e);
    case TooLarge => RefusedHeaderEvolves(st, e, buffered);
    case Complete(header, rest) =>
      match st.cfg.parse(header)
      case None => RefusedHeaderEvolves(st, e, buffered);
      case Some(h) => HeaderCompleteEvolves(st, e, h, rest);
  }

  lemma RefusedHeaderEvolves(st: Relay, e: Event, buffered: Bytes)
    requires RelayOk(st) && e.Data? && e.x in st.conns && e.x in st.sockets && st.conns[e.x].mode == Header
    ensures Evolves(st, Refuse(SetMode(st, e.x, Quiet, buffered), e.x, "INVALID_REGISTRATION"), e)
  {
    assert ConnOk(st, e.x);
    LooseEvolves(st, Refuse(SetMode(st, e.x, Quiet, buffered), e.x, "INVALID_REGISTRATION"), e);
  }

  lemma HeaderCompleteEvolves(st: Relay, e: Event, h: Json, rest: Bytes)
    requires RelayOk(st) && e.Data? && e.x in st.conns && e.x in st.sockets && st.conns[e.x].mode == Header
    requires Parsed(st.cfg, Classify(st.conns[e.x].buffered + e.chunk, st.cfg.headerBytes), h, rest)
    ensures Evolves(st, Register(SetMode(st, e.x, Quiet, st.conns[e.x].buffered + e.chunk), e.x, h, rest), e)
  {
    var quiet := SetMode(st, e.x, Quiet, st.conns[e.x].buffered + e.chunk);
    assert ConnOk(st, e.x);
    LooseOk(st, quiet, e.x);
    RelayModes(st);
    SilencedFollows(st, e.x, st.conns[e.x].buffered + e.chunk);
    RegisterEvolves(st, quiet, e, h, rest);
  }

  lemma SilencedFollows(st: Relay, x: Sock, buffered: Bytes)
    requires x in st.conns && ModesOk(st)
    ensures Follows(st, SetMode(st, x, Quiet, buffered))
  {
    forall v | 0 <= v < |st.heap| ensures SessionFollows(st, SetMode(st, x, Quiet, buffered), v) {}
  }

  /** A live session hears a chunk on socket `x`, then acts. */
  lemma HeardEvolves(st: Relay, heard: Relay, e: Event, u: nat)
    requires RelayOk(st) && Live(st, u) && e.Data? && e.x in st.sockets && WorkedIn(st, heard, u)
    requires e.x in st.conns && st.conns[e.x].session == Some(u) && st.conns[e.x].mode != Quiet
    requires SessionLater(st.heap[u], heard.heap[u])
    requires heard.heap[u].senderIn == st.heap[u].senderIn + (if st.heap[u].sender == Some(e.x) then e.chunk else [])
    requires heard.heap[u].ackIn == st.heap[u].ackIn + (if st.heap[u].receiver == Some(e.x) then e.chunk else [])
    ensures Evolves(st, heard, e)
  {
    forall v | 0 <= v < |st.heap| ensures SessionEvolves(st, heard, e, v) {
      HeardSession(st, heard, e, u, v);
    }
    forall x <- st.conns ensures ConnEvolves(st, heard, e, x) {
      assert ConnOk(st, x);
      HeardConn(st, heard, e, u, x);
    }
  }

  lemma HeardConn(st: Relay, heard: Relay, e: Event, u: nat, x: Sock)
    requires x in st.conns && ConnOk(st, x) && WorkedIn(st, heard, u)
    requires e.Data? && e.x in st.conns && st.conns[e.x].session == Some(u)
    ensures ConnEvolves(st, heard, e, x)
  {
  }

  lemma HeardSession(st: Relay, heard: Relay, e: Event, u: nat, v: nat)
    requires v < |st.heap| && EntryOk(st, v) && Live(st, u) && e.Data? && e.x in st.sockets && WorkedIn(st, heard, u)
    requires e.x in st.conns && st.conns[e.x].session == Some(u) && st.conns[e.x].mode != Quiet
    requires SessionLater(st.heap[u], heard.heap[u])
    requires heard.heap[u].senderIn == st.heap[u].senderIn + (if st.heap[u].sender == Some(e.x) then e.chunk else [])
    requires heard.heap[u].ackIn == st.heap[u].ackIn + (if st.heap[u].receiver == Some(e.x) then e.chunk else [])
    ensures SessionEvolves(st, heard, e, v)
  {
    var s := st.heap[v];
    if s.sender.Some? { assert Member(st, v, s.sender.value, "sender"); }
    if s.receiver.Some? { assert Member(st, v, s.receiver.value, "receiver"); }
  }

  /** Nothing is delivered to a session by a socket of one that has ended. */
  lemma StaleDelivery(st: Relay, e: Event, u: nat, v: nat)
    requires e.Data? && e.x in st.conns && st.conns[e.x].session == Some(u) && !Live(st, u)
    requires v < |st.heap| && Joined(st, v) && Live(st, v)
    ensures st.heap[v].sender.Some? ==> Delivered(st, e, st.heap[v].sender.value) == []
    ensures st.heap[v].receiver.Some? ==> Delivered(st, e, st.heap[v].receiver.value) == []
  {
    if st.heap[v].sender.Some? { assert Member(st, v, st.heap[v].sender.value, "sender"); }
    if st.heap[v].receiver.Some? { assert Member(st, v, st.heap[v].receiver.value, "receiver"); }
  }

  lemma StaleSession(st: Relay, st': Relay, e: Event, u: nat, v: nat)
    requires e.Data? && e.x in st.conns && st.conns[e.x].session == Some(u) && !Live(st, u)
    requires v < |st.heap| <= |st'.heap| && Joined(st, v) && SessionFollows(st, st', v)
    ensures SessionEvolves(st, st', e, v)
  {
    if Live(st, v) { StaleDelivery(st, e, u, v); }
  }

  lemma StaleConn(st: Relay, st': Relay, e: Event, u: nat, x: Sock)
    requires e.Data? && e.x in st.conns && st.conns[e.x].session == Some(u)
    requires x in st.conns && x in st'.conns && ConnOk(st, x) && ConnLater(st.conns[x], st'.conns[x])
    ensures ConnEvolves(st, st', e, x)
  {
  }

  lemma StaleEvolves(st: Relay, st': Relay, e: Event, u: nat)
    requires RelayOk(st) && e.Data? && e.x in st.conns && st.conns[e.x].session == Some(u) && !Live(st, u)
    requires Follows(st, st')
    ensures Evolves(st, st', e)
  {
    forall v | 0 <= v < |st.heap| ensures SessionEvolves(st, st', e, v) {
      assert SessionFollows(st, st', v) && EntryOk(st, v);
      StaleSession(st, st', e, u, v);
    }
    forall x <- st.conns ensures ConnEvolves(st, st', e, x) {
      assert ConnOk(st, x) && ConnLater(st.conns[x], st'.conns[x]);
      StaleConn(st, st', e, u, x);
    }
  }

  lemma RelistenFollows(st: Relay, x: Sock, mode: Mode, buffered: Bytes)
    requires x in st.conns && st.conns[x].session.Some? && ModesOk(st)
    ensures Follows(st, SetMode(st, x, mode, buffered))
  {
    forall v | 0 <= v < |st.heap| ensures SessionFollows(st, SetMode(st, x, mode, buffered), v) {}
  }

  lemma SessionDataEvolves(st: Relay, e: Event, u: nat)
    requires RelayOk(st) && e.Data? && e.x in st.conns && e.x in st.sockets
    requires st.conns[e.x].session == Some(u) && u < |st.heap| && st.conns[e.x].mode != Quiet
    ensures Evolves(st, OnSessionData(st, e.x, u, e.chunk), e)
  {
    assert ConnOk(st, e.x);
    match st.conns[e.x].mode
    case Consuming => ConsumingEvolves(st, e, u);
    case Overrun => OverrunEvolves(st, e, u);
    case AckHeader => AckDataEvolves(st, e, u);
  }

  lemma ConsumingEvolves(st: Relay, e: Event, u: nat)
    requires RelayOk(st) && e.Data? && e.x in st.conns && e.x in st.sockets
    requires st.conns[e.x].session == Some(u) && u < |st.heap| && st.conns[e.x].mode == Consuming
    ensures Evolves(st, OnPayload(st, u, e.chunk), e)
  {
    SenderOf(st, e.x, u);
    RelayModes(st);
    if Live(st, u) {
      assert EntryOk(st, u);
      ConsumingLiveEvolves(st, HeardPayload(st, u, e.chunk), e, u);
    } else {
      StaleEvolves(st, st, e, u);
    }
  }

  lemma ConsumingLiveEvolves(st: Relay, heard: Relay, e: Event, u: nat)
    requires RelayOk(st) && e.Data? && e.x in st.conns && e.x in st.sockets && Live(st, u)
    requires st.conns[e.x].session == Some(u) && st.conns[e.x].mode == Consuming
    requires st.heap[u].sender == Some(e.x) && st.heap[u].phase == TRANSFERRING
    requires heard == HeardPayload(st, u, e.chunk)
    ensures heard.heap[u].sender.Some? && heard.heap[u].receiver.Some? && Evolves(st, Consume(heard, u, e.chunk), e)
  {
    RelayModes(st);
    HeardPayloadBut(st, e.x, u, e.chunk);
    HeardPayloadWorks(st, u, e.chunk);
    HeardEvolves(st, heard, e, u);
    ConsumeFollows(heard, u, e.chunk);
    EvolvesThenFollows(st, heard, Consume(heard, u, e.chunk), e);
  }

  lemma OverrunEvolves(st: Relay, e: Event, u: nat)
    requires RelayOk(st) && e.Data? && e.x in st.conns && e.x in st.sockets
    requires st.conns[e.x].session == Some(u) && u < |st.heap| && st.conns[e.x].mode == Overrun
    ensures Evolves(st, OnOverrun(st, e.x, u, e.chunk), e)
  {
    SenderOf(st, e.x, u);
    RelayModes(st);
    if Live(st, u) {
      assert EntryOk(st, u);
      OverrunLiveEvolves(st, e, u);
    } else {
      QuietThenDestroy(st, e.x, u, []);
      StaleEvolves(st, Destroy(SetMode(st, e.x, Quiet, []), st.heap[u].id), e, u);
    }
  }

  lemma OverrunLiveEvolves(st: Relay, e: Event, u: nat)
    requires RelayOk(st) && e.Data? && e.x in st.conns && e.x in st.sockets && Live(st, u)
    requires st.conns[e.x].session == Some(u) && st.conns[e.x].mode == Overrun
    ensures Evolves(st, Destroy(SetMode(HeardPayload(st, u, e.chunk), e.x, Quiet, []), st.heap[u].id), e)
  {
    SenderOf(st, e.x, u);
    assert EntryOk(st, u);
    OneSide(st, u);
    HeardPayloadBut(st, e.x, u, e.chunk);
    HeardPayloadWorks(st, u, e.chunk);
    QuietBut(HeardPayload(st, u, e.chunk), e.x, u);
    QuietWorks(HeardPayload(st, u, e.chunk), e.x, u);
    OverrunFrom(st, HeardPayload(st, u, e.chunk), SetMode(HeardPayload(st, u, e.chunk), e.x, Quiet, []), e, u);
  }

  /** No socket is on both sides of a session. */
  lemma OneSide(st: Relay, u: nat)
    requires u < |st.heap| && Joined(st, u)
    ensures st.heap[u].sender.Some? ==> st.heap[u].sender != st.heap[u].receiver
  {
    var s := st.heap[u];
    if s.sender.Some? { assert Member(st, u, s.sender.value, "sender"); }
    if s.receiver.Some? { assert Member(st, u, s.receiver.value, "receiver"); }
  }

  lemma OverrunFrom(st: Relay, heard: Relay, quiet: Relay, e: Event, u: nat)
    requires RelayOk(st) && e.Data? && e.x in st.conns && e.x in st.sockets && Live(st, u)
    requires st.conns[e.x].session == Some(u) && st.conns[e.x].mode == Overrun
    requires st.heap[u].sender == Some(e.x) && st.heap[u].receiver != Some(e.x)
    requires WorkedIn(st, heard, u) && WorkedIn(heard, quiet, u) && OkBut(quiet, u)
    requires quiet.heap[u] == st.heap[u].(senderIn := st.heap[u].senderIn + e.chunk)
    ensures Evolves(st, Destroy(quiet, quiet.heap[u].id), e)
  {
    WorkedTwice(st, heard, quiet, u);
    OverrunHeard(st, quiet, e, u);
    ThenDestroy(st, quiet, e, u);
  }

  lemma OverrunHeard(st: Relay, quiet: Relay, e: Event, u: nat)
    requires RelayOk(st) && e.Data? && e.x in st.conns && e.x in st.sockets && Live(st, u)
    requires st.conns[e.x].session == Some(u) && st.conns[e.x].mode == Overrun
    requires st.heap[u].sender == Some(e.x) && st.heap[u].receiver != Some(e.x) && WorkedIn(st, quiet, u)
    requires quiet.heap[u] == st.heap[u].(senderIn := st.heap[u].senderIn + e.chunk)
    ensures Evolves(st, quiet, e)
  {
    HeardEvolves(st, quiet, e, u);
  }

  lemma WorkedTwice(a: Relay, b: Relay, c: Relay, u: nat)
    requires WorkedIn(a, b, u) && WorkedIn(b, c, u)
    ensures WorkedIn(a, c, u)
  {
  }

  lemma AckDataEvolves(st: Relay, e: Event, u: nat)
    requires RelayOk(st) && e.Data? && e.x in st.conns && e.x in st.sockets
    requires st.conns[e.x].session == Some(u) && u < |st.heap| && st.conns[e.x].mode == AckHeader
    ensures Evolves(st, OnSessionData(st, e.x, u, e.chunk), e)
  {
    if Live(st, u) {
      LiveAckEvolves(st, e, u);
    } else {
      StaleAckEvolves(st, e, u, st.conns[e.x].buffered + e.chunk);
    }
  }

  lemma StaleAckEvolves(st: Relay, e: Event, u: nat, buffered: Bytes)
    requires RelayOk(st) && e.Data? && e.x in st.conns && !Live(st, u) && u < |st.heap|
    requires st.conns[e.x].session == Some(u) && st.conns[e.x].mode == AckHeader
    ensures Evolves(st, OnStaleAck(st, e.x, u, buffered), e)
  {
    RelayModes(st);
    RelistenFollows(st, e.x, Quiet, buffered);
    RelistenFollows(st, e.x, AckHeader, buffered);
    QuietThenDestroy(st, e.x, u, buffered);
    StaleEvolves(st, OnStaleAck(st, e.x, u, buffered), e, u);
  }

  lemma QuietThenDestroy(st: Relay, x: Sock, u: nat, buffered: Bytes)
    requires RelayOk(st) && x in st.conns && st.conns[x].session == Some(u) && !Live(st, u) && u < |st.heap|
    ensures Follows(st, Destroy(SetMode(st, x, Quiet, buffered), st.heap[u].id))
  {
    var quiet := SetMode(st, x, Quiet, buffered);
    RelayModes(st);
    QuietOk(st, x, u, buffered);
    RelistenFollows(st, x, Quiet, buffered);
    DestroyByIdFollows(quiet, st.heap[u].id);
    FollowsTransitively(st, quiet, Destroy(quiet, st.heap[u].id));
  }

  lemma HeardAckEvolves(st: Relay, e: Event, u: nat, mode: Mode)
    requires RelayOk(st) && Live(st, u) && e.Data? && e.x in st.conns && e.x in st.sockets
    requires st.conns[e.x].session == Some(u) && st.conns[e.x].mode == AckHeader
    requires mode == Quiet || mode == AckHeader
    ensures var heard := HeardAck(st, e.x, u, st.conns[e.x].buffered + e.chunk, mode);
            WorkedIn(st, heard, u) && heard.heap[u].id == st.heap[u].id && Evolves(st, heard, e)
  {
    var buffered := st.conns[e.x].buffered + e.chunk;
    LiveAwaiting(st, e.x, u);
    assert EntryOk(st, u);
    OneSide(st, u);
    HeardAckWorks(st, e.x, u, buffered, mode);
    HeardEvolves(st, HeardAck(st, e.x, u, buffered, mode), e, u);
  }

  lemma QuietModes(st: Relay, quiet: Relay, u: nat)
    requires RelayOk(st) && WorkedIn(st, quiet, u)
    ensures ModesOk(quiet)
  {
    RelayModes(st);
  }

  lemma ThenDestroy(st: Relay, quiet: Relay, e: Event, u: nat)
    requires RelayOk(st) && WorkedIn(st, quiet, u) && OkBut(quiet, u) && Evolves(st, quiet, e)
    ensures Evolves(st, Destroy(quiet, quiet.heap[u].id), e)
  {
    QuietModes(st, quiet, u);
    DestroyFollows(quiet, u);
    EvolvesThenFollows(st, quiet, Destroy(quiet, quiet.heap[u].id), e);
  }

  lemma ThenFinish(st: Relay, quiet: Relay, e: Event, u: nat, ack: Json)
    requires RelayOk(st) && WorkedIn(st, quiet, u) && OkBut(quiet, u) && Evolves(st, quiet, e)
    ensures Evolves(st, Finish(quiet, u, DONE, Some(ack), None), e)
  {
    QuietModes(st, quiet, u);
    FinishFollows(quiet, u, DONE, Some(ack), None);
    EvolvesThenFollows(st, quiet, Finish(quiet, u, DONE, Some(ack), None), e);
  }

  lemma AckOutcomeEvolves(st: Relay, quiet: Relay, pending: Relay, e: Event, u: nat, st': Relay)
    requires RelayOk(st) && u < |st.heap| == |quiet.heap| && quiet.heap[u].id == st.heap[u].id
    requires WorkedIn(st, quiet, u) && OkBut(quiet, u) && Evolves(st, quiet, e) && Evolves(st, pending, e)
    requires u < |pending.heap| && AckOutcome(st, quiet, pending, u, st')
    ensures Evolves(st, st', e)
  {
    if st' == Destroy(quiet, st.heap[u].id) {
      ThenDestroy(st, quiet, e, u);
    } else if st' != pending {
      var ack :| st' == Finish(quiet, u, DONE, Some(ack), None);
      ThenFinish(st, quiet, e, u, ack);
    }
  }

  lemma LiveAckEvolves(st: Relay, e: Event, u: nat)
    requires RelayOk(st) && Live(st, u) && e.Data? && e.x in st.conns && e.x in st.sockets
    requires st.conns[e.x].session == Some(u) && st.conns[e.x].mode == AckHeader
    ensures Evolves(st, OnLiveAck(st, e.x, u, st.conns[e.x].buffered + e.chunk), e)
  {
    var buffered := st.conns[e.x].buffered + e.chunk;
    LiveAwaiting(st, e.x, u);
    HeardAckBut(st, e.x, u, buffered, Quiet);
    HeardAckEvolves(st, e, u, Quiet);
    HeardAckEvolves(st, e, u, AckHeader);
    LiveAckOutcome(st, e.x, u, buffered);
    AckOutcomeEvolves(st, HeardAck(st, e.x, u, buffered, Quiet), HeardAck(st, e.x, u, buffered, AckHeader), e, u,
                      OnLiveAck(st, e.x, u, buffered));
  }

  /** destroySession called by the handlers of socket `x`, whose own state changed. */
  lemma DestroyOfFollows(st: Relay, st': Relay, x: Sock)
    requires RelayOk(st) && Around(st, st', x) && ConnOk(st', x)
    requires ConnLater(st.conns[x], st'.conns[x])
    ensures Follows(st, DestroyOf(st', x))
  {
    var c := st.conns[x].session;
    RelayModes(st);
    assert ConnOk(st, x);
    AroundFollows(st, st', x);
    AroundBut(st, st', x);
    if c.Some? && Live(st, c.value) {
      DestroyFollows(st', c.value);
      FollowsTransitively(st, st', Destroy(st', st.heap[c.value].id));
    } else if c.Some? {
      DestroyByIdFollows(st', st.heap[c.value].id);
      FollowsTransitively(st, st', Destroy(st', st.heap[c.value].id));
    }
  }

  lemma AroundFollows(st: Relay, st': Relay, x: Sock)
    requires ModesOk(st) && Around(st, st', x) && ConnLater(st.conns[x], st'.conns[x])
    ensures Follows(st, st') && ModesOk(st')
  {
    forall v | 0 <= v < |st.heap| ensures SessionFollows(st, st', v) {}
  }

  lemma SocketErrorFollows(st: Relay, x: Sock)
    requires RelayOk(st) && x in st.sockets
    ensures Follows(st, DestroyOf(End(st, x), x))
  {
    assert ConnOk(st, x);
    DestroyOfFollows(st, End(st, x), x);
  }

  lemma CloseFollows(st: Relay, x: Sock)
    requires RelayOk(st) && x in st.sockets
    ensures Follows(st, DestroyOf(st.(sockets := st.sockets - {x}), x))
  {
    assert ConnOk(st, x);
    DestroyOfFollows(st, st.(sockets := st.sockets - {x}), x);
  }

  lemma TimeoutFollows(st: Relay, x: Sock)
    requires RelayOk(st) && SessionId(st, x).None?
    ensures Follows(st, Refuse(st, x, "HEADER_TIMEOUT"))
  {
    RelayModes(st);
    if x in st.conns {
      assert ConnOk(st, x);
      RefuseFollows(st, x, "HEADER_TIMEOUT");
    } else {
      SameFollows(st, st);
    }
  }

  /** Only the clock moved, or nothing at all. */
  lemma SameFollows(st: Relay, st': Relay)
    requires ModesOk(st) && st' == st.(now := st'.now)
    ensures Follows(st, st')
  {
    forall v | 0 <= v < |st.heap| ensures SessionFollows(st, st', v) {}
  }

  /** Events that deliver no bytes. */
  lemma OtherFollows(st: Relay, e: Event)
    requires RelayOk(st) && !e.Data? && !e.Connect?
    ensures Follows(st, Step(st, e))
  {
    RelayModes(st);
    SameFollows(st, st);
    match e
    case EndOfInput(x) => if x in st.sockets && x in st.conns { EndFollows(st, x); }
    case SocketError(x) => if x in st.sockets { SocketErrorFollows(st, x); }
    case Close(x) => if x in st.sockets { CloseFollows(st, x); }
    case HeaderTimeout(x) => if SessionId(st, x).None? { TimeoutFollows(st, x); }
    case Fire(id) => DestroyByIdFollows(st, id);
    case Tick(now) => SameFollows(st, st.(now := now));
  }

  lemma EndFollows(st: Relay, x: Sock)
    requires RelayOk(st) && x in st.sockets && x in st.conns
    ensures Follows(st, OnEnd(st, x))
  {
    assert ConnOk(st, x);
    RelayModes(st);
    var quiet := SetMode(st, x, Quiet, []);
    if st.conns[x].mode == Header {
      SilencedThenRefused(st, x);
    } else if st.conns[x].mode == AckHeader {
      DestroyOfFollows(st, quiet, x);
    }
  }

  lemma SilencedThenRefused(st: Relay, x: Sock)
    requires x in st.conns && st.conns[x].session.None? && ModesOk(st)
    ensures Follows(st, Refuse(SetMode(st, x, Quiet, []), x, "INVALID_REGISTRATION"))
  {
    var quiet := SetMode(st, x, Quiet, []);
    SilencedFollows(st, x, []);
    RefuseFollows(quiet, x, "INVALID_REGISTRATION");
    FollowsTransitively(st, quiet, Refuse(quiet, x, "INVALID_REGISTRATION"));
  }

  lemma ConnectKeeps(st: Relay, x: Sock)
    ensures var st' := Step(st, Connect(x));
            && st'.heap == st.heap && st'.sessions == st.sessions && st'.cfg == st.cfg
            && st.conns.Keys <= st'.conns.Keys
            && (forall y <- st.conns :: st'.conns[y] == st.conns[y])
            && (forall y <- st'.conns :: y !in st.conns ==> NewConn(st'.conns[y]))
  {
  }

  lemma ConnectEvolves(st: Relay, x: Sock)
    requires RelayOk(st)
    ensures Evolves(st, Step(st, Connect(x)), Connect(x))
  {
    ConnectKeeps(st, x);
    StillEvolves(st, Step(st, Connect(x)), Connect(x));
  }

  lemma StillEvolves(st: Relay, st': Relay, e: Event)
    requires RelayOk(st) && !e.Data?
    requires st'.heap == st.heap && st'.sessions == st.sessions && st'.cfg == st.cfg && st.conns.Keys <= st'.conns.Keys
    requires forall y <- st.conns :: st'.conns[y] == st.conns[y]
    requires forall y <- st'.conns :: y !in st.conns ==> NewConn(st'.conns[y])
    ensures Evolves(st, st', e)
  {
    forall v | 0 <= v < |st.heap| ensures SessionEvolves(st, st', e, v) {}
    forall y <- st.conns ensures ConnEvolves(st, st', e, y) { assert ConnOk(st, y); }
  }

  lemma DataEvolves(st: Relay, e: Event)
    requires RelayOk(st) && e.Data?
    ensures Evolves(st, Step(st, e), e)
  {
    RelayModes(st);
    if e.x in st.sockets && e.x in st.conns && e.chunk != [] && st.conns[e.x].mode != Quiet {
      var c := st.conns[e.x];
      assert ConnOk(st, e.x);
      if c.mode == Header {
        HeaderDataEvolves(st, e);
      } else {
        SessionDataEvolves(st, e, c.session.value);
      }
    } else {
      assert Step(st, e) == st;
      forall v | 0 <= v < |st.heap| ensures SessionFollows(st, st, v) {}
      FollowsEvolves(st, st, e);
    }
  }

  // ---- Main result -------------------------------------------------------------------

  /**
   * Any event: nothing written is taken back, phases only advance, a finished session
   * never changes, and each live session heard exactly the bytes its sockets delivered.
   */
  lemma StepEvolves(st: Relay, e: Event)
    requires RelayOk(st)
    ensures Evolves(st, Step(st, e), e)
  {
    if e.Data? {
      DataEvolves(st, e);
    } else if e.Connect? {
      ConnectEvolves(st, e.x);
    } else {
      OtherFollows(st, e);
      FollowsEvolves(st, Step(st, e), e);
    }
  }
}
