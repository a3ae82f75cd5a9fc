/** Once the sending endpoint returns, the file is committed at the receiver, byte for byte. */
module EndToEndProof {
  import opened Prelude
  import opened Framing
  import opened FileRelay
  import opened RelayInvariants
  import opened RelayTraces
  import opened EndToEnd
  import T = TransferStates

  // ---- The invariant -----------------------------------------------------------------

  function TwoLines(a: Bytes, b: Bytes): Bytes { a + [NEWLINE] + b + [NEWLINE] }

  ghost predicate ReadsSuccess(g: Setup, line: Bytes) {
    NEWLINE !in line && g.cfg.parse(line).Some? && IsSuccess(g.offer, g.cfg.parse(line).value)
  }

  ghost predicate ReadsMetadata(g: Setup, line: Bytes) {
    NEWLINE !in line && g.cfg.parse(line).Some? && IsMetadata(g.offer, g.cfg.parse(line).value)
  }

  ghost predicate SenderOk(g: Setup, s: Sender, inbound: Bytes) {
    && (s.written == [] || s.written == LineOf(g, SenderHello(g.offer)) + s.sent)
    && (s.phase == SStart ==> s.written == [])
    && (s.phase != SStart && s.phase != SFailed ==> s.written == LineOf(g, SenderHello(g.offer)) + s.sent)
    && (s.written == [] ==> s.sent == [])
    && s.taken <= |s.written| && s.got <= |inbound|
    && (s.phase == SStart ==> s.got == 0 && s.buffer == [])
    && (s.phase == SAwaitReady ==> s.buffer == inbound[..s.got])
    && (s.phase == SSending || s.phase == SAwaitAck ==>
          NEWLINE !in s.line0 && inbound[..s.got] == s.line0 + [NEWLINE] + s.buffer)
    && (s.phase == SReturned ==>
          && NEWLINE !in s.line0 && inbound[..s.got] == TwoLines(s.line0, s.line1) + s.buffer
          && ReadsSuccess(g, s.line1))
    && (s.phase == SAwaitAck || s.phase == SReturned ==>
          |s.sent| == g.offer.size && g.sha(s.sent) == g.offer.sha256)
  }

  /** The phases in which both protocol lines have been read. */
  predicate Receiving(p: ReceiverPhase) {
    p.RReceiving? || Holding(p) || PlacedAt(p).Some?
  }

  /** The verified part is waiting to be placed. */
  predicate Holding(p: ReceiverPhase) {
    p.RVerified? || p.RCommitting? || p.RLinkRefused? || p.RRenameRefused? || p.RCopying?
  }

  predicate Complete(p: ReceiverPhase) { Receiving(p) && !p.RReceiving? }

  function PlacedAt(p: ReceiverPhase): Option<Path> {
    match p
    case RPlaced(path) => Some(path)
    case RPartGone(path) => Some(path)
    case RCommitted(path) => Some(path)
    case RAcked(path) => Some(path)
    case _ => None
  }

  ghost predicate ReceiverWrote(g: Setup, r: Receiver) {
    var hello := LineOf(g, ReceiverHello(g.offer));
    match r.phase
    case RStart => r.written == []
    case RPrepared => r.written == []
    case RAcked(path) => r.written == hello + LineOf(g, AckMsg(g.offer, path))
    case RFailed =>
      r.written == [] || r.written == hello || r.written == hello + LineOf(g, ReceiverFailure(g.offer))
    case _ => r.written == hello
  }

  /** The record names a file with the offered size and hash. */
  predicate CommittedFile(g: Setup, r: Receiver) {
    r.path.Some? && r.path.value != g.part && r.path.value in r.disk && Acceptable(g, r.disk[r.path.value])
  }

  ghost predicate ReceiverRecord(g: Setup, r: Receiver) {
    && (r.path.Some? ==> r.path.value != g.part)
    && (r.state == Some(T.DATA_COMMITTED) ==>
          (r.phase.RCommitted? || r.phase.RAcked? || r.phase.RFailed?) && CommittedFile(g, r))
    && (r.phase.RStart? ==> r.state == None)
  }

  ghost predicate ReceiverFiles(g: Setup, r: Receiver) {
    && (r.phase.RReceiving? || Holding(r.phase) ==>
          g.part in r.disk && r.disk[g.part] == r.received)
    && (r.phase.RCopying? ==> r.phase.path != g.part)
    && (PlacedAt(r.phase).Some? ==>
          var p := PlacedAt(r.phase).value;
          p != g.part && p in r.disk && r.disk[p] == r.received)
    && (Complete(r.phase) ==> Acceptable(g, r.received))
    && ReceiverRecord(g, r)
    && (r.phase.RCommitted? || r.phase.RAcked? ==> r.state == Some(T.DATA_COMMITTED) && r.path == PlacedAt(r.phase))
  }

  ghost predicate ReceiverOk(g: Setup, r: Receiver, inbound: Bytes) {
    && ReceiverWrote(g, r) && ReceiverFiles(g, r)
    && r.taken <= |r.written| && r.got <= |inbound|
    && (r.phase.RStart? || r.phase.RPrepared? ==> r.got == 0 && r.buffer == [])
    && (r.phase.RAwaitRegistered? ==> r.buffer == inbound[..r.got])
    && (r.phase.RAwaitMetadata? ==> NEWLINE !in r.line0 && inbound[..r.got] == r.line0 + [NEWLINE] + r.buffer)
    && (r.phase.RRemainder? ==>
          && NEWLINE !in r.line0 && inbound[..r.got] == TwoLines(r.line0, r.line1) + r.buffer
          && ReadsMetadata(g, r.line1) && r.received == [])
    && (Receiving(r.phase) ==>
          && NEWLINE !in r.line0 && inbound[..r.got] == TwoLines(r.line0, r.line1) + r.received
          && ReadsMetadata(g, r.line1))
    && (r.phase in {RStart, RPrepared, RAwaitRegistered, RAwaitMetadata} ==> r.received == [])
  }

  /** What the relay read from the sender's socket is what the sender wrote. */
  ghost predicate SenderLink(g: Setup, st: Relay, s: Sender) {
    s.taken <= |s.written| &&
    if S !in st.conns then s.taken == 0
    else
      var c := st.conns[S];
      match c.session
      case None => c.mode == Header ==> c.buffered == s.written[..s.taken]
      case Some(u) =>
        && u < |st.heap| && c.hello == Some(SenderHello(g.offer))
        && LineOf(g, SenderHello(g.offer)) + st.heap[u].senderIn <= s.written
        && (Live(st, u) ==> LineOf(g, SenderHello(g.offer)) + st.heap[u].senderIn == s.written[..s.taken])
  }

  ghost predicate ReceiverLink(g: Setup, st: Relay, r: Receiver) {
    r.taken <= |r.written| &&
    if R !in st.conns then r.taken == 0
    else
      var c := st.conns[R];
      match c.session
      case None => c.mode == Header ==> c.buffered == r.written[..r.taken]
      case Some(u) =>
        && u < |st.heap| && c.hello == Some(ReceiverHello(g.offer))
        && |LineOf(g, ReceiverHello(g.offer))| <= r.base && NextBytes(r.written, r.base, st.heap[u].ackIn)
        && (Live(st, u) ==> r.base + |st.heap[u].ackIn| == r.taken)
  }

  /** Nobody else ever presented the ticket. */
  ghost predicate OthersIgnorant(g: Setup, st: Relay) {
    forall x <- st.conns ::
      x != S && x != R && st.conns[x].session.Some? ==>
        st.conns[x].hello.Some? && st.conns[x].hello.value.token != Some(g.offer.ticket)
  }

  /** The endpoints, and what they have in common with the relay. */
  ghost predicate PartsOk(g: Setup, st: Relay, s: Sender, r: Receiver) {
    && SenderOk(g, s, Wire(g, Stream(st, S))) && ReceiverOk(g, r, Wire(g, Stream(st, R)))
    && SenderLink(g, st, s) && ReceiverLink(g, st, r) && OthersIgnorant(g, st)
  }

  ghost predicate SystemOk(g: Setup, sys: System) {
    && CodecOk(g) && NamesOk(g) && RelayOk(sys.relay) && sys.relay.cfg == g.cfg
    && PartsOk(g, sys.relay, sys.snd, sys.rcv)
  }

  // ---- Streams grow ------------------------------------------------------------------

  lemma {:induction false} WireExtends(g: Setup, o: seq<Out>, o': seq<Out>)
    requires o <= o'
    ensures Wire(g, o) <= Wire(g, o')
  {
    if |o'| > |o| {
      WireExtends(g, o, o'[..|o'| - 1]);
    } else {
      assert o == o';
    }
  }

  lemma StreamExtends(st: Relay, st': Relay, e: Event, x: Sock)
    requires RelayOk(st) && RelayOk(st') && Evolves(st, st', e)
    ensures Stream(st, x) <= Stream(st', x)
  {
    if x in st.conns {
      assert ConnOk(st, x) && ConnOk(st', x) && ConnEvolves(st, st', e, x);
      if st.conns[x].session.Some? {
        var u := st.conns[x].session.value;
        assert SessionEvolves(st, st', e, u) && EntryOk(st', u);
        MemberStreamExtends(st, st', e, x, u);
      } else {
        LooseStreamExtends(st, st', e, x);
      }
    }
  }

  lemma LooseStreamExtends(st: Relay, st': Relay, e: Event, x: Sock)
    requires x in st.conns && x in st'.conns && st.conns[x].session.None?
    requires ConnOk(st, x) && ConnOk(st', x) && ConnEvolves(st, st', e, x)
    ensures Stream(st, x) <= Stream(st', x)
  {
  }

  lemma MemberStreamExtends(st: Relay, st': Relay, e: Event, x: Sock, u: nat)
    requires x in st.conns && x in st'.conns && st.conns[x].session == Some(u) && u < |st.heap| <= |st'.heap|
    requires ConnOk(st, x) && ConnOk(st', x) && ConnEvolves(st, st', e, x) && SessionEvolves(st, st', e, u)
    requires Joined(st', u)
    ensures Stream(st, x) <= Stream(st', x)
  {
  }

  lemma SenderOkExtends(g: Setup, s: Sender, inbound: Bytes, inbound': Bytes)
    requires SenderOk(g, s, inbound) && inbound <= inbound'
    ensures SenderOk(g, s, inbound')
  {
    assert inbound'[..s.got] == inbound[..s.got];
  }

  lemma ReceiverOkExtends(g: Setup, r: Receiver, inbound: Bytes, inbound': Bytes)
    requires ReceiverOk(g, r, inbound) && inbound <= inbound'
    ensures ReceiverOk(g, r, inbound')
  {
    assert inbound'[..r.got] == inbound[..r.got];
  }

  // ---- Steps of the relay ------------------------------------------------------------

  /** The header of a stream that begins with an encoded line is that line. */
  lemma HeaderOf(g: Setup, j: Json, tail: Bytes, seen: Bytes, limit: nat)
    requires CodecOk(g) && seen <= LineOf(g, j) + tail && Classify(seen, limit).Complete?
    ensures Classify(seen, limit).header == g.enc(j)
    ensures seen == LineOf(g, j) + Classify(seen, limit).rest
  {
    var whole := LineOf(g, j) + tail;
    ClassifyExtends(seen, whole[|seen|..], limit);
    assert whole == seen + whole[|seen|..];
    assert whole == g.enc(j) + [NEWLINE] + tail;
    ClassifyLine(g.enc(j), tail, limit);
    CompleteSplits(seen, limit);
  }

  lemma SenderLinkKept(g: Setup, st: Relay, st': Relay, e: Event, s: Sender)
    requires CodecOk(g) && st.cfg == g.cfg && RelayOk(st) && RelayOk(st') && Evolves(st, st', e)
    requires SenderLink(g, st, s)
    requires s.written == [] || s.written == LineOf(g, SenderHello(g.offer)) + s.sent
    requires e.Data? && e.x == S ==> NextBytes(s.written, s.taken, e.chunk)
    ensures SenderLink(g, st', s.(taken := s.taken + |Delivered(st, e, S)|))
  {
    if S in st.conns {
      var c, c' := st.conns[S], st'.conns[S];
      assert ConnOk(st, S) && ConnOk(st', S) && ConnEvolves(st, st', e, S);
      if c.session.Some? {
        assert SessionEvolves(st, st', e, c.session.value);
        SenderHeard(g, st, st', e, s, c.session.value);
      } else if c'.session.Some? {
        SenderAccepted(g, st, st', e, s, c'.session.value);
      } else {
        SenderLoose(g, st, st', e, s);
      }
    } else {
      SenderNew(g, st, st', e, s);
    }
  }

  /** Its socket is connected but in no session, before and after. */
  lemma SenderLoose(g: Setup, st: Relay, st': Relay, e: Event, s: Sender)
    requires S in st.conns && S in st'.conns && SenderLink(g, st, s) && ConnEvolves(st, st', e, S)
    requires st.conns[S].session.None? && st'.conns[S].session.None?
    requires e.Data? && e.x == S ==> NextBytes(s.written, s.taken, e.chunk)
    ensures SenderLink(g, st', s.(taken := s.taken + |Delivered(st, e, S)|))
  {
  }

  /** Its socket was not connected before. */
  lemma SenderNew(g: Setup, st: Relay, st': Relay, e: Event, s: Sender)
    requires S !in st.conns && SenderLink(g, st, s) && (S in st'.conns ==> NewConn(st'.conns[S]))
    requires e.Data? && e.x == S ==> NextBytes(s.written, s.taken, e.chunk)
    ensures SenderLink(g, st', s.(taken := s.taken + |Delivered(st, e, S)|))
  {
  }

  lemma SenderHeard(g: Setup, st: Relay, st': Relay, e: Event, s: Sender, u: nat)
    requires S in st.conns && st.conns[S].session == Some(u) && ConnOk(st, S) && S in st'.conns
    requires |st.heap| <= |st'.heap| && SessionEvolves(st, st', e, u) && ConnEvolves(st, st', e, S)
    requires SenderLink(g, st, s)
    requires e.Data? && e.x == S ==> NextBytes(s.written, s.taken, e.chunk)
    ensures SenderLink(g, st', s.(taken := s.taken + |Delivered(st, e, S)|))
  {
    var chunk := Delivered(st, e, S);
    var hello := LineOf(g, SenderHello(g.offer));
    if Live(st, u) {
      assert hello + st'.heap[u].senderIn == (hello + st.heap[u].senderIn) + chunk;
      assert s.written[..s.taken] + chunk == s.written[..s.taken + |chunk|];
    }
  }

  /** The bytes the relay has seen of a stream. */
  lemma SeenIsPrefix(written: Bytes, taken: nat, buffered: Bytes, chunk: Bytes)
    requires taken <= |written| && buffered == written[..taken] && NextBytes(written, taken, chunk)
    ensures buffered + chunk == written[..taken + |chunk|] && buffered + chunk <= written
  {
  }

  /** The header a stream completes is the hello it begins with. */
  lemma HelloSeen(g: Setup, hello: Json, tail: Bytes, written: Bytes, seen: Bytes)
    requires CodecOk(g) && seen <= written && (written == [] || written == LineOf(g, hello) + tail)
    requires Classify(seen, g.cfg.headerBytes).Complete?
    ensures var verdict := Classify(seen, g.cfg.headerBytes);
            g.cfg.parse(verdict.header) == Some(hello) && LineOf(g, hello) + verdict.rest == seen
  {
    if written != [] {
      HeaderOf(g, hello, tail, seen, g.cfg.headerBytes);
    }
  }

  lemma SenderAccepted(g: Setup, st: Relay, st': Relay, e: Event, s: Sender, u: nat)
    requires CodecOk(g) && st.cfg == g.cfg && SenderLink(g, st, s)
    requires S in st.conns && st.conns[S].session == None && S in st'.conns && ConnOk(st', S)
    requires st'.conns[S].session == Some(u) && Accepted(st, st', e, S, u)
    requires s.written == [] || s.written == LineOf(g, SenderHello(g.offer)) + s.sent
    requires e.Data? && e.x == S ==> NextBytes(s.written, s.taken, e.chunk)
    ensures SenderLink(g, st', s.(taken := s.taken + |Delivered(st, e, S)|))
  {
    var seen := st.conns[S].buffered + e.chunk;
    SeenIsPrefix(s.written, s.taken, st.conns[S].buffered, e.chunk);
    HelloSeen(g, SenderHello(g.offer), s.sent, s.written, seen);
    assert Delivered(st, e, S) == e.chunk;
    SenderJoined(g, st', s.(taken := s.taken + |e.chunk|), u, Classify(seen, g.cfg.headerBytes).rest);
  }

  lemma SenderJoined(g: Setup, st: Relay, s: Sender, u: nat, rest: Bytes)
    requires S in st.conns && st.conns[S].session == Some(u) && u < |st.heap|
    requires st.conns[S].hello == Some(SenderHello(g.offer)) && st.heap[u].senderIn == rest
    requires s.taken <= |s.written| && LineOf(g, SenderHello(g.offer)) + rest == s.written[..s.taken]
    ensures SenderLink(g, st, s)
  {
  }

  lemma ReceiverLinkKept(g: Setup, st: Relay, st': Relay, e: Event, r: Receiver, r': Receiver, tail: Bytes)
    requires CodecOk(g) && st.cfg == g.cfg && RelayOk(st) && RelayOk(st') && Evolves(st, st', e)
    requires ReceiverLink(g, st, r)
    requires r.written == [] || r.written == LineOf(g, ReceiverHello(g.offer)) + tail
    requires e.Data? && e.x == R ==> NextBytes(r.written, r.taken, e.chunk)
    requires r'.written == r.written && r'.taken == r.taken + |Delivered(st, e, R)|
    requires r'.base == if ConnOf(st, R).session.None? && ConnOf(st', R).session.Some? then r'.taken else r.base
    ensures ReceiverLink(g, st', r')
  {
    if R in st.conns {
      var c, c' := st.conns[R], st'.conns[R];
      assert ConnOk(st, R) && ConnOk(st', R) && ConnEvolves(st, st', e, R);
      if c.session.Some? {
        assert SessionEvolves(st, st', e, c.session.value);
        ReceiverHeard(g, st, st', e, r, r', c.session.value);
      } else if c'.session.Some? {
        ReceiverAccepted(g, st, st', e, r, r', c'.session.value, tail);
      } else {
        ReceiverLoose(g, st, st', e, r, r');
      }
    } else {
      ReceiverNew(g, st, st', e, r, r');
    }
  }

  /** Its socket is connected but in no session, before and after. */
  lemma ReceiverLoose(g: Setup, st: Relay, st': Relay, e: Event, r: Receiver, r': Receiver)
    requires R in st.conns && R in st'.conns && ReceiverLink(g, st, r) && ConnEvolves(st, st', e, R)
    requires st.conns[R].session.None? && st'.conns[R].session.None?
    requires e.Data? && e.x == R ==> NextBytes(r.written, r.taken, e.chunk)
    requires r'.written == r.written && r'.taken == r.taken + |Delivered(st, e, R)|
    ensures ReceiverLink(g, st', r')
  {
  }

  /** Its socket was not connected before. */
  lemma ReceiverNew(g: Setup, st: Relay, st': Relay, e: Event, r: Receiver, r': Receiver)
    requires R !in st.conns && ReceiverLink(g, st, r) && (R in st'.conns ==> NewConn(st'.conns[R]))
    requires e.Data? && e.x == R ==> NextBytes(r.written, r.taken, e.chunk)
    requires r'.written == r.written && r'.taken == r.taken + |Delivered(st, e, R)|
    ensures ReceiverLink(g, st', r')
  {
  }

  lemma ReceiverHeard(g: Setup, st: Relay, st': Relay, e: Event, r: Receiver, r': Receiver, u: nat)
    requires R in st.conns && st.conns[R].session == Some(u) && ConnOk(st, R) && R in st'.conns
    requires |st.heap| <= |st'.heap| && SessionEvolves(st, st', e, u) && ConnEvolves(st, st', e, R)
    requires ReceiverLink(g, st, r)
    requires e.Data? && e.x == R ==> NextBytes(r.written, r.taken, e.chunk)
    requires r'.written == r.written && r'.taken == r.taken + |Delivered(st, e, R)| && r'.base == r.base
    ensures ReceiverLink(g, st', r')
  {
    var chunk := Delivered(st, e, R);
    if Live(st, u) {
      var heard := st.heap[u].ackIn;
      assert st.conns[R].hello.value.role == Some("receiver");
      assert r.written[r.base..r.base + |heard|] + r.written[r.taken..r.taken + |chunk|]
          == r.written[r.base..r.base + |heard| + |chunk|];
    }
  }

  lemma ReceiverAccepted(g: Setup, st: Relay, st': Relay, e: Event, r: Receiver, r': Receiver, u: nat, tail: Bytes)
    requires CodecOk(g) && st.cfg == g.cfg && ReceiverLink(g, st, r)
    requires R in st.conns && st.conns[R].session == None && R in st'.conns && ConnOk(st', R)
    requires st'.conns[R].session == Some(u) && Accepted(st, st', e, R, u)
    requires r.written == [] || r.written == LineOf(g, ReceiverHello(g.offer)) + tail
    requires e.Data? && e.x == R ==> NextBytes(r.written, r.taken, e.chunk)
    requires r'.written == r.written && r'.taken == r.taken + |Delivered(st, e, R)| && r'.base == r'.taken
    ensures ReceiverLink(g, st', r')
  {
    SeenIsPrefix(r.written, r.taken, st.conns[R].buffered, e.chunk);
    HelloSeen(g, ReceiverHello(g.offer), tail, r.written, st.conns[R].buffered + e.chunk);
  }

  lemma OthersStayIgnorant(g: Setup, sys: System, e: Event, st': Relay)
    requires OthersIgnorant(g, sys.relay) && RelayOk(sys.relay) && RelayOk(st') && sys.relay.cfg == g.cfg
    requires CanHappen(g, sys, e) && Evolves(sys.relay, st', e)
    ensures OthersIgnorant(g, st')
  {
    forall x <- st'.conns | x != S && x != R && st'.conns[x].session.Some?
      ensures st'.conns[x].hello.Some? && st'.conns[x].hello.value.token != Some(g.offer.ticket)
    {
      assert ConnOk(st', x);
      if x in sys.relay.conns {
        assert ConnEvolves(sys.relay, st', e, x);
      }
    }
  }

  /** Both endpoints' streams grow with a step of the relay. */
  lemma InboundExtends(g: Setup, st: Relay, st': Relay, e: Event, x: Sock)
    requires RelayOk(st) && RelayOk(st') && Evolves(st, st', e)
    ensures Wire(g, Stream(st, x)) <= Wire(g, Stream(st', x))
  {
    StreamExtends(st, st', e, x);
    WireExtends(g, Stream(st, x), Stream(st', x));
  }

  lemma SenderAtRelayStep(g: Setup, st: Relay, st': Relay, e: Event, s: Sender, s': Sender)
    requires CodecOk(g) && st.cfg == g.cfg && RelayOk(st) && RelayOk(st') && Evolves(st, st', e)
    requires SenderLink(g, st, s) && SenderOk(g, s, Wire(g, Stream(st, S)))
    requires e.Data? && e.x == S ==> NextBytes(s.written, s.taken, e.chunk)
    requires s' == s.(taken := s.taken + |Delivered(st, e, S)|)
    ensures SenderLink(g, st', s') && SenderOk(g, s', Wire(g, Stream(st', S)))
  {
    SenderLinkKept(g, st, st', e, s);
    InboundExtends(g, st, st', e, S);
    SenderOkExtends(g, s, Wire(g, Stream(st, S)), Wire(g, Stream(st', S)));
  }

  lemma ReceiverAtRelayStep(g: Setup, st: Relay, st': Relay, e: Event, r: Receiver, r': Receiver)
    requires CodecOk(g) && st.cfg == g.cfg && RelayOk(st) && RelayOk(st') && Evolves(st, st', e)
    requires ReceiverLink(g, st, r) && ReceiverOk(g, r, Wire(g, Stream(st, R)))
    requires e.Data? && e.x == R ==> NextBytes(r.written, r.taken, e.chunk)
    requires r' == r.(taken := r.taken + |Delivered(st, e, R)|, base := r'.base)
    requires r'.base == if ConnOf(st, R).session.None? && ConnOf(st', R).session.Some? then r'.taken else r.base
    ensures ReceiverLink(g, st', r') && ReceiverOk(g, r', Wire(g, Stream(st', R)))
  {
    var tail := ReceiverTail(g, r);
    ReceiverLinkKept(g, st, st', e, r, r', tail);
    InboundExtends(g, st, st', e, R);
    ReceiverTaken(g, r, r', Wire(g, Stream(st, R)), Wire(g, Stream(st', R)));
  }

  lemma ReceiverTaken(g: Setup, r: Receiver, r': Receiver, inbound: Bytes, inbound': Bytes)
    requires ReceiverOk(g, r, inbound) && inbound <= inbound'
    requires r' == r.(taken := r'.taken, base := r'.base) && r'.taken <= |r'.written|
    ensures ReceiverOk(g, r', inbound')
  {
    ReceiverOkExtends(g, r, inbound, inbound');
  }

  /** What the receiver has written after its first line. */
  lemma ReceiverTail(g: Setup, r: Receiver) returns (tail: Bytes)
    requires ReceiverWrote(g, r)
    ensures r.written == [] || r.written == LineOf(g, ReceiverHello(g.offer)) + tail
  {
    ReceiverPrefix(g, r);
    tail := if r.written == [] then [] else r.written[|LineOf(g, ReceiverHello(g.offer))|..];
  }

  lemma ReceiverPrefix(g: Setup, r: Receiver)
    requires ReceiverWrote(g, r)
    ensures r.written == [] || LineOf(g, ReceiverHello(g.offer)) <= r.written
  {
  }

  lemma AfterRelayFields(sys: System, e: Event, st': Relay)
    ensures var sys' := AfterRelay(sys, e, st');
            && sys'.relay == st' && sys'.snd == sys.snd.(taken := sys.snd.taken + |Delivered(sys.relay, e, S)|)
            && sys'.rcv == sys.rcv.(taken := sys.rcv.taken + |Delivered(sys.relay, e, R)|, base := sys'.rcv.base)
            && sys'.rcv.base == if ConnOf(sys.relay, R).session.None? && ConnOf(st', R).session.Some?
                                then sys'.rcv.taken else sys.rcv.base
  {
  }

  lemma SenderAfterRelay(g: Setup, sys: System, st': Relay, e: Event, s': Sender)
    requires SystemOk(g, sys) && RelayOk(st') && Evolves(sys.relay, st', e) && CanHappen(g, sys, e)
    requires s' == sys.snd.(taken := sys.snd.taken + |Delivered(sys.relay, e, S)|)
    ensures SenderLink(g, st', s') && SenderOk(g, s', Wire(g, Stream(st', S)))
  {
    SenderAtRelayStep(g, sys.relay, st', e, sys.snd, s');
  }

  lemma ReceiverAfterRelay(g: Setup, sys: System, st': Relay, e: Event, r': Receiver)
    requires SystemOk(g, sys) && RelayOk(st') && Evolves(sys.relay, st', e) && CanHappen(g, sys, e)
    requires r' == sys.rcv.(taken := sys.rcv.taken + |Delivered(sys.relay, e, R)|, base := r'.base)
    requires r'.base == if ConnOf(sys.relay, R).session.None? && ConnOf(st', R).session.Some?
                        then r'.taken else sys.rcv.base
    ensures ReceiverLink(g, st', r') && ReceiverOk(g, r', Wire(g, Stream(st', R)))
  {
    ReceiverAtRelayStep(g, sys.relay, st', e, sys.rcv, r');
  }

  lemma AfterRelayOk(g: Setup, sys: System, e: Event, st': Relay)
    requires SystemOk(g, sys) && CanHappen(g, sys, e)
    requires RelayOk(st') && Evolves(sys.relay, st', e)
    ensures SystemOk(g, AfterRelay(sys, e, st'))
  {
    var sys' := AfterRelay(sys, e, st');
    AfterRelayFields(sys, e, st');
    SenderAfterRelay(g, sys, st', e, sys'.snd);
    ReceiverAfterRelay(g, sys, st', e, sys'.rcv);
    OthersStayIgnorant(g, sys, e, st');
  }

  lemma RelayStepOk(g: Setup, sys: System, e: Event)
    requires SystemOk(g, sys) && CanHappen(g, sys, e)
    ensures SystemOk(g, AfterRelay(sys, e, Step(sys.relay, e)))
  {
    StepOk(sys.relay, e);
    StepEvolves(sys.relay, e);
    AfterRelayOk(g, sys, e, Step(sys.relay, e));
  }

  // ---- Steps of the endpoints --------------------------------------------------------

  lemma NextStretch(inbound: Bytes, got: nat, n: nat)
    requires got + n <= |inbound|
    ensures inbound[..got + n] == inbound[..got] + inbound[got..got + n]
  {
  }

  lemma AfterLine(line: Bytes, buffer: Bytes, more: Bytes)
    ensures line + [NEWLINE] + (buffer + more) == (line + [NEWLINE] + buffer) + more
  {
  }

  lemma SenderBuffers(g: Setup, s: Sender, inbound: Bytes, n: nat)
    requires SenderOk(g, s, inbound) && (s.phase == SAwaitReady || s.phase == SAwaitAck) && s.got + n <= |inbound|
    ensures SenderOk(g, SenderFed(s, inbound, n), inbound)
  {
    NextStretch(inbound, s.got, n);
    AfterLine(s.line0, s.buffer, inbound[s.got..s.got + n]);
  }

  lemma SenderLineOk(g: Setup, s: Sender, inbound: Bytes)
    requires SenderOk(g, s, inbound) && (s.phase == SAwaitReady || s.phase == SAwaitAck)
    ensures SenderOk(g, SenderLine(g, s), inbound)
  {
    if Classify(s.buffer, RESPONSE_LIMIT).Complete? {
      CompleteSplits(s.buffer, RESPONSE_LIMIT);
      var line, rest := Classify(s.buffer, RESPONSE_LIMIT).header, Classify(s.buffer, RESPONSE_LIMIT).rest;
      assert s.line0 + [NEWLINE] + (line + [NEWLINE] + rest) == TwoLines(s.line0, line) + rest;
    }
  }

  lemma SenderPartOk(g: Setup, s: Sender, inbound: Bytes, e: SenderEvent)
    requires SenderOk(g, s, inbound)
    ensures SenderOk(g, SenderStep(g, s, inbound, e), inbound)
    ensures s.written <= SenderStep(g, s, inbound, e).written && SenderStep(g, s, inbound, e).taken == s.taken
  {
    match e
    case SRead(n) =>
      if (s.phase == SAwaitReady || s.phase == SAwaitAck) && s.got + n <= |inbound| {
        SenderBuffers(g, s, inbound, n);
        SenderLineOk(g, SenderFed(s, inbound, n), inbound);
      }
    case SSend(chunk) =>
      var hello := LineOf(g, SenderHello(g.offer));
      assert hello + s.sent + chunk == hello + (s.sent + chunk);
    case _ =>
  }

  lemma SenderStepOk(g: Setup, sys: System, e: SenderEvent)
    requires SystemOk(g, sys)
    ensures SystemOk(g, sys.(snd := SenderStep(g, sys.snd, Inbound(g, sys, S), e)))
  {
    SenderPartOk(g, sys.snd, Inbound(g, sys, S), e);
    SenderLinkWrites(g, sys.relay, sys.snd, SenderStep(g, sys.snd, Inbound(g, sys, S), e));
  }

  /** Writing more changes nothing the relay has already read. */
  lemma SenderLinkWrites(g: Setup, st: Relay, s: Sender, s': Sender)
    requires SenderLink(g, st, s) && s.written <= s'.written && s'.taken == s.taken
    ensures SenderLink(g, st, s')
  {
    assert s'.written[..s.taken] == s.written[..s.taken];
  }

  lemma ReceiverLinkWrites(g: Setup, st: Relay, r: Receiver, r': Receiver)
    requires ReceiverLink(g, st, r) && r.written <= r'.written && r'.taken == r.taken && r'.base == r.base
    ensures ReceiverLink(g, st, r')
  {
    assert r'.written[..r.taken] == r.written[..r.taken];
  }

  lemma ReceiverFailOk(g: Setup, r: Receiver, canceled: bool, tell: bool, inbound: Bytes)
    requires ReceiverWrote(g, r) && ReceiverRecord(g, r) && r.taken <= |r.written| && r.got <= |inbound|
    requires r.phase.RStart? || r.phase.RCommitted? || r.phase.RAcked? ==> ReceiverOk(g, r, inbound)
    ensures ReceiverOk(g, ReceiverFail(g, r, canceled, tell), inbound)
    ensures r.written <= ReceiverFail(g, r, canceled, tell).written
  {
  }

  lemma ReceiverBuffers(g: Setup, r: Receiver, inbound: Bytes, n: nat)
    requires ReceiverOk(g, r, inbound) && (r.phase == RAwaitRegistered || r.phase == RAwaitMetadata)
    requires r.got + n <= |inbound|
    ensures ReceiverOk(g, ReceiverFed(r, inbound, n), inbound)
  {
    NextStretch(inbound, r.got, n);
    AfterLine(r.line0, r.buffer, inbound[r.got..r.got + n]);
    if r.phase == RAwaitRegistered {
      BuffersFirst(g, r, ReceiverFed(r, inbound, n), inbound);
    } else {
      BuffersSecond(g, r, ReceiverFed(r, inbound, n), inbound);
    }
  }

  lemma BuffersFirst(g: Setup, r: Receiver, r': Receiver, inbound: Bytes)
    requires ReceiverOk(g, r, inbound) && r.phase == RAwaitRegistered && r'.got <= |inbound|
    requires r' == r.(buffer := r'.buffer, got := r'.got) && r'.buffer == inbound[..r'.got]
    ensures ReceiverOk(g, r', inbound)
  {
  }

  lemma BuffersSecond(g: Setup, r: Receiver, r': Receiver, inbound: Bytes)
    requires ReceiverOk(g, r, inbound) && r.phase == RAwaitMetadata && r'.got <= |inbound|
    requires r' == r.(buffer := r'.buffer, got := r'.got)
    requires inbound[..r'.got] == r.line0 + [NEWLINE] + r'.buffer
    ensures ReceiverOk(g, r', inbound)
  {
  }

  lemma RegisteredLineOk(g: Setup, r: Receiver, line: Bytes, rest: Bytes, inbound: Bytes)
    requires ReceiverOk(g, r, inbound) && r.phase == RAwaitRegistered
    requires NEWLINE !in line && r.buffer == line + [NEWLINE] + rest
    ensures ReceiverOk(g, r.(phase := RAwaitMetadata, line0 := line, buffer := rest, state := Some(T.READY)), inbound)
  {
  }

  lemma MetadataLineOk(g: Setup, r: Receiver, line: Bytes, rest: Bytes, inbound: Bytes)
    requires ReceiverOk(g, r, inbound) && r.phase == RAwaitMetadata
    requires ReadsMetadata(g, line) && r.buffer == line + [NEWLINE] + rest
    ensures var r' := r.(phase := RRemainder, line1 := line, buffer := rest, state := Some(T.TRANSFERRING));
            ReceiverOk(g, r', inbound)
  {
    assert r.line0 + [NEWLINE] + (line + [NEWLINE] + rest) == TwoLines(r.line0, line) + rest;
  }

  lemma ReceiverLineOk(g: Setup, r: Receiver, inbound: Bytes)
    requires ReceiverOk(g, r, inbound) && (r.phase == RAwaitRegistered || r.phase == RAwaitMetadata)
    ensures ReceiverOk(g, ReceiverLine(g, r), inbound)
    ensures r.written <= ReceiverLine(g, r).written
  {
    ReceiverFailOk(g, r, false, true, inbound);
    var verdict := Classify(r.buffer, RESPONSE_LIMIT);
    if verdict.Complete? {
      CompleteSplits(r.buffer, RESPONSE_LIMIT);
      if r.phase == RAwaitRegistered {
        RegisteredLineOk(g, r, verdict.header, verdict.rest, inbound);
      } else if ReadsMetadata(g, verdict.header) {
        MetadataLineOk(g, r, verdict.header, verdict.rest, inbound);
      }
    }
  }

  lemma ReceiverReadOk(g: Setup, r: Receiver, inbound: Bytes, n: nat)
    requires ReceiverOk(g, r, inbound)
    ensures ReceiverOk(g, ReceiverRead(g, r, inbound, n), inbound)
    ensures r.written <= ReceiverRead(g, r, inbound, n).written
  {
    if (r.phase == RAwaitRegistered || r.phase == RAwaitMetadata) && r.got + n <= |inbound| {
      ReceiverBuffers(g, r, inbound, n);
      ReceiverLineOk(g, ReceiverFed(r, inbound, n), inbound);
    }
  }

  /** A chunk appended to the part is the next stretch of the stream. */
  lemma ReceiverConsumeOk(g: Setup, r: Receiver, chunk: Bytes, inbound: Bytes)
    requires ReceiverWrote(g, r) && ReceiverRecord(g, r) && r.taken <= |r.written| && r.got <= |inbound|
    requires r.phase.RRemainder? || r.phase.RReceiving?
    requires NEWLINE !in r.line0 && inbound[..r.got] == TwoLines(r.line0, r.line1) + r.received + chunk
    requires ReadsMetadata(g, r.line1)
    ensures ReceiverOk(g, ReceiverConsume(g, r, chunk), inbound)
    ensures r.written <= ReceiverConsume(g, r, chunk).written
  {
    ReceiverFailOk(g, r, false, true, inbound);
    assert TwoLines(r.line0, r.line1) + r.received + chunk == TwoLines(r.line0, r.line1) + (r.received + chunk);
  }

  lemma ReceiverStreamOk(g: Setup, r: Receiver, inbound: Bytes, e: ReceiverEvent)
    requires ReceiverOk(g, r, inbound) && (e.RTakeRemainder? || e.RConsume?)
    ensures ReceiverOk(g, ReceiverStep(g, r, inbound, e), inbound)
    ensures r.written <= ReceiverStep(g, r, inbound, e).written
  {
    if e.RTakeRemainder? && r.phase == RRemainder {
      assert TwoLines(r.line0, r.line1) + r.received + r.buffer == TwoLines(r.line0, r.line1) + r.buffer;
      ReceiverConsumeOk(g, r.(buffer := []), r.buffer, inbound);
    } else if e.RConsume? && r.phase == RReceiving && r.got + e.n <= |inbound| {
      assert inbound[..r.got] + inbound[r.got..r.got + e.n] == inbound[..r.got + e.n];
      ReceiverConsumeOk(g, r.(got := r.got + e.n), inbound[r.got..r.got + e.n], inbound);
    }
  }

  /** An attempt on any volume, taken names included: what is placed is the whole part. */
  lemma ReceiverAttemptOk(g: Setup, r: Receiver, inbound: Bytes, e: ReceiverEvent)
    requires NamesOk(g) && ReceiverOk(g, r, inbound) && (e.RLink? || e.RRename? || e.ROpenCopy?)
    ensures ReceiverOk(g, ReceiverStep(g, r, inbound, e), inbound)
    ensures r.written <= ReceiverStep(g, r, inbound, e).written
  {
    if e.RLink? && r.phase.RCommitting? {
      LinkTriedOk(g, r, inbound);
    } else if e.RRename? && r.phase.RLinkRefused? {
      RenameTriedOk(g, r, inbound);
    }
  }

  lemma LinkTriedOk(g: Setup, r: Receiver, inbound: Bytes)
    requires NamesOk(g) && ReceiverOk(g, r, inbound) && r.phase.RCommitting?
    ensures var r' := LinkTried(g, r, g.candidate(r.phase.index), r.phase.index);
            ReceiverOk(g, r', inbound) && r'.written == r.written
  {
  }

  lemma RenameTriedOk(g: Setup, r: Receiver, inbound: Bytes)
    requires NamesOk(g) && ReceiverOk(g, r, inbound) && r.phase.RLinkRefused?
    ensures var r' := RenameTried(g, r, g.candidate(r.phase.index), r.phase.index);
            ReceiverOk(g, r', inbound) && r'.written == r.written
  {
  }

  /** A stop and the recovery after it; an acknowledged transfer stays as it is. */
  lemma ReceiverStopOk(g: Setup, r: Receiver, inbound: Bytes, same: bool)
    requires ReceiverOk(g, r, inbound)
    ensures ReceiverOk(g, ReceiverStopped(g, r, same), inbound)
    ensures r.written <= ReceiverStopped(g, r, same).written
  {
    if !r.phase.RStart? && !r.phase.RAcked? {
      StoppedRecord(g, r, same);
      FailedIsOk(g, ReceiverStopped(g, r, same), inbound);
    }
  }

  lemma StoppedRecord(g: Setup, r: Receiver, same: bool)
    requires ReceiverRecord(g, r) && ReceiverWrote(g, r) && !r.phase.RStart? && !r.phase.RAcked?
    ensures var r' := ReceiverStopped(g, r, same);
            && r'.phase.RFailed? && ReceiverRecord(g, r') && ReceiverWrote(g, r')
            && r'.written == r.written && r'.taken == r.taken && r'.got == r.got
  {
  }

  lemma FailedIsOk(g: Setup, r: Receiver, inbound: Bytes)
    requires r.phase.RFailed? && ReceiverRecord(g, r) && ReceiverWrote(g, r)
    requires r.taken <= |r.written| && r.got <= |inbound|
    ensures ReceiverOk(g, r, inbound)
  {
  }

  lemma ReceiverCopyOk(g: Setup, r: Receiver, inbound: Bytes, e: ReceiverEvent)
    requires ReceiverOk(g, r, inbound) && e.RCopySome?
    ensures ReceiverOk(g, ReceiverStep(g, r, inbound, e), inbound)
    ensures r.written <= ReceiverStep(g, r, inbound, e).written
  {
    if r.phase.RCopying? { assert r.received[..|r.received|] == r.received; }
  }

  lemma ReceiverPartOk(g: Setup, r: Receiver, inbound: Bytes, e: ReceiverEvent)
    requires NamesOk(g) && ReceiverOk(g, r, inbound)
    ensures ReceiverOk(g, ReceiverStep(g, r, inbound, e), inbound)
    ensures r.written <= ReceiverStep(g, r, inbound, e).written
  {
    match e
    case RRead(n) => ReceiverReadOk(g, r, inbound, n);
    case RTakeRemainder => ReceiverStreamOk(g, r, inbound, e);
    case RConsume(n) => ReceiverStreamOk(g, r, inbound, e);
    case RVerify => ReceiverFailOk(g, r, false, true, inbound);
    case RLink => ReceiverAttemptOk(g, r, inbound, e);
    case RRename => ReceiverAttemptOk(g, r, inbound, e);
    case ROpenCopy => ReceiverAttemptOk(g, r, inbound, e);
    case RStop(same) => ReceiverStopOk(g, r, inbound, same);
    case RCopySome(n) => ReceiverCopyOk(g, r, inbound, e);
    case RFail(canceled, tell) => ReceiverFailOk(g, r, canceled, tell, inbound);
    case RPrepare => ReceiverBeginOk(g, r, inbound, e);
    case RWriteHello => ReceiverBeginOk(g, r, inbound, e);
    case _ => ReceiverSaveOk(g, r, inbound, e);
  }

  lemma ReceiverBeginOk(g: Setup, r: Receiver, inbound: Bytes, e: ReceiverEvent)
    requires ReceiverOk(g, r, inbound) && (e.RPrepare? || e.RWriteHello?)
    ensures ReceiverOk(g, ReceiverStep(g, r, inbound, e), inbound)
    ensures r.written <= ReceiverStep(g, r, inbound, e).written
  {
  }

  /** The events that only move the receiver on: its record, its part, its last line. */
  lemma ReceiverSaveOk(g: Setup, r: Receiver, inbound: Bytes, e: ReceiverEvent)
    requires NamesOk(g) && ReceiverOk(g, r, inbound)
    requires e.RSaveCommitting? || e.RRemovePart? || e.RSaveCommitted? || e.RAck?
    ensures ReceiverOk(g, ReceiverStep(g, r, inbound, e), inbound)
    ensures r.written <= ReceiverStep(g, r, inbound, e).written
  {
  }

  /** What the relay has read of the receiver's socket is the relay's business. */
  predicate SameTaken(r: Receiver, r': Receiver) { r'.taken == r.taken && r'.base == r.base }

  lemma FailUntouched(g: Setup, r: Receiver, canceled: bool, tell: bool)
    ensures SameTaken(r, ReceiverFail(g, r, canceled, tell))
  {
  }

  lemma ReadUntouched(g: Setup, r: Receiver, inbound: Bytes, n: nat)
    ensures SameTaken(r, ReceiverRead(g, r, inbound, n))
  {
    if r.got + n <= |inbound| { FailUntouched(g, ReceiverFed(r, inbound, n), false, true); }
  }

  lemma ConsumeUntouched(g: Setup, r: Receiver, chunk: Bytes)
    ensures SameTaken(r, ReceiverConsume(g, r, chunk))
  {
    FailUntouched(g, r, false, true);
  }

  lemma ReceiverUntouched(g: Setup, r: Receiver, inbound: Bytes, e: ReceiverEvent)
    ensures SameTaken(r, ReceiverStep(g, r, inbound, e))
  {
    match e
    case RRead(n) => ReadUntouched(g, r, inbound, n);
    case RTakeRemainder => ConsumeUntouched(g, r.(buffer := []), r.buffer);
    case RConsume(n) =>
      if r.got + n <= |inbound| { ConsumeUntouched(g, r.(got := r.got + n), inbound[r.got..r.got + n]); }
    case RVerify => FailUntouched(g, r, false, true);
    case RFail(canceled, tell) => FailUntouched(g, r, canceled, tell);
    case _ =>
  }

  lemma ReceiverStepOk(g: Setup, sys: System, e: ReceiverEvent)
    requires SystemOk(g, sys)
    ensures SystemOk(g, sys.(rcv := ReceiverStep(g, sys.rcv, Inbound(g, sys, R), e)))
  {
    ReceiverPartOk(g, sys.rcv, Inbound(g, sys, R), e);
    ReceiverUntouched(g, sys.rcv, Inbound(g, sys, R), e);
    ReceiverLinkWrites(g, sys.relay, sys.rcv, ReceiverStep(g, sys.rcv, Inbound(g, sys, R), e));
  }

  lemma WithFileOk(g: Setup, r: Receiver, path: Path, content: Option<Bytes>, inbound: Bytes)
    requires ReceiverOk(g, r, inbound) && path !in InUse(g, r)
    ensures ReceiverOk(g, WithFile(r, path, content), inbound)
  {
  }

  lemma OtherFileOk(g: Setup, sys: System, path: Path, content: Option<Bytes>)
    requires SystemOk(g, sys)
    ensures SystemOk(g, Happens(g, sys, OtherFile(path, content)))
  {
    if path !in InUse(g, sys.rcv) {
      WithFileOk(g, sys.rcv, path, content, Inbound(g, sys, R));
      ReceiverLinkWrites(g, sys.relay, sys.rcv, WithFile(sys.rcv, path, content));
    }
  }

  lemma HappensOk(g: Setup, sys: System, h: Happening)
    requires SystemOk(g, sys)
    ensures SystemOk(g, Happens(g, sys, h))
  {
    match h
    case AtRelay(e) => if CanHappen(g, sys, e) { RelayStepOk(g, sys, e); }
    case AtSender(e) => SenderStepOk(g, sys, e);
    case AtReceiver(e) => ReceiverStepOk(g, sys, e);
    case OtherFile(path, content) => OtherFileOk(g, sys, path, content);
  }

  // ---- What the lines read tell about the lines written ------------------------------

  lemma {:induction false} WireConcat(g: Setup, a: seq<Out>, b: seq<Out>)
    ensures Wire(g, a + b) == Wire(g, a) + Wire(g, b)
    decreases |b|
  {
    if b == [] {
      assert a + b == a;
    } else {
      WireConcat(g, a, b[..|b| - 1]);
      assert (a + b)[..|a + b| - 1] == a + b[..|b| - 1];
    }
  }

  lemma WireOne(g: Setup, m: Json)
    ensures Wire(g, [Line(m)]) == LineOf(g, m)
  {
    assert Wire(g, []) == [];
  }

  lemma WirePair(g: Setup, a: Json, b: Json, rest: seq<Out>)
    ensures Wire(g, [Line(a), Line(b)] + rest) == TwoLines(g.enc(a), g.enc(b)) + Wire(g, rest)
  {
    WireConcat(g, [Line(a), Line(b)], rest);
    WireConcat(g, [Line(a)], [Line(b)]);
    assert [Line(a)] + [Line(b)] == [Line(a), Line(b)];
    WireOne(g, a);
    WireOne(g, b);
  }

  /** A stream has one first line. */
  lemma FirstLine(a: Bytes, x: Bytes, b: Bytes, y: Bytes)
    requires NEWLINE !in a && NEWLINE !in b && a + [NEWLINE] + x == b + [NEWLINE] + y
    ensures a == b && x == y
  {
    var limit := |a| + |b|;
    ClassifyLine(a, x, limit);
    ClassifyLine(b, y, limit);
  }

  lemma FirstTwoLines(a0: Bytes, a1: Bytes, x: Bytes, b0: Bytes, b1: Bytes, y: Bytes)
    requires NEWLINE !in a0 && NEWLINE !in a1 && NEWLINE !in b0 && NEWLINE !in b1
    requires TwoLines(a0, a1) + x == TwoLines(b0, b1) + y
    ensures a0 == b0 && a1 == b1 && x == y
  {
    assert TwoLines(a0, a1) + x == a0 + [NEWLINE] + (a1 + [NEWLINE] + x);
    assert TwoLines(b0, b1) + y == b0 + [NEWLINE] + (b1 + [NEWLINE] + y);
    FirstLine(a0, a1 + [NEWLINE] + x, b0, b1 + [NEWLINE] + y);
    FirstLine(a1, x, b1, y);
  }

  /** One encoded line does not hold two. */
  lemma OneLineOnly(g: Setup, m: Json, line0: Bytes, line1: Bytes, tail: Bytes)
    requires CodecOk(g) && NEWLINE !in line0
    ensures LineOf(g, m) != TwoLines(line0, line1) + tail
  {
    if LineOf(g, m) == TwoLines(line0, line1) + tail {
      assert TwoLines(line0, line1) + tail == line0 + [NEWLINE] + (line1 + [NEWLINE] + tail);
      assert LineOf(g, m) == g.enc(m) + [NEWLINE] + [];
      FirstLine(line0, line1 + [NEWLINE] + tail, g.enc(m), []);
    }
  }

  /** Two lines read from a stream of lines are its first two. */
  lemma TwoLinesOf(g: Setup, o: seq<Out>, line0: Bytes, line1: Bytes, tail: Bytes)
    requires CodecOk(g) && (forall w <- o :: w.Line?)
    requires NEWLINE !in line0 && NEWLINE !in line1
    requires Wire(g, o) == TwoLines(line0, line1) + tail
    ensures |o| >= 2 && line1 == g.enc(o[1].msg)
  {
    if |o| == 1 {
      assert o[0] in o && o == [Line(o[0].msg)];
      WireOne(g, o[0].msg);
      OneLineOnly(g, o[0].msg, line0, line1, tail);
    } else if |o| >= 2 {
      assert o[0] in o && o[1] in o;
      assert o == [Line(o[0].msg), Line(o[1].msg)] + o[2..];
      WirePair(g, o[0].msg, o[1].msg, o[2..]);
      FirstTwoLines(line0, line1, tail, g.enc(o[0].msg), g.enc(o[1].msg), Wire(g, o[2..]));
    }
  }

  lemma {:induction false} WirePayload(g: Setup, o: seq<Out>)
    requires forall k | 0 <= k < |o| :: o[k].Payload?
    ensures Wire(g, o) == Forwarded(o)
  {
    if o != [] { WirePayload(g, o[..|o| - 1]); }
  }

  lemma {:induction false} ForwardedTail(o: seq<Out>)
    requires |o| >= 2 && o[0].Line? && o[1].Line?
    ensures Forwarded(o) == Forwarded(o[2..])
    decreases |o|
  {
    var init := o[..|o| - 1];
    if |o| == 2 {
      assert init[..|init| - 1] == [];
      assert Forwarded([]) == [] && Forwarded(init) == [] && Forwarded(o) == [];
    } else {
      ForwardedTail(init);
      assert o[2..][..|o[2..]| - 1] == init[2..];
    }
  }

  /** The bytes of a receiver's stream are its two protocol lines and the payload. */
  lemma ReceiverWire(g: Setup, s: Session)
    requires ReceiverStream(s)
    ensures Wire(g, s.toReceiver)
         == TwoLines(g.enc(RegisteredMsg(s.id)), g.enc(MetadataMsg(s.id, s.size, s.sha256))) + Forwarded(s.toReceiver)
  {
    var o := s.toReceiver;
    assert o == [o[0], o[1]] + o[2..];
    WirePair(g, o[0].msg, o[1].msg, o[2..]);
    WirePayload(g, o[2..]);
    ForwardedTail(o);
  }

  // ---- From the sender's success back to the receiver's disk -------------------------

  lemma RestOfStream(inbound: Bytes, got: nat, head: Bytes, buffer: Bytes)
    requires got <= |inbound| && inbound[..got] == head + buffer
    ensures inbound == head + (buffer + inbound[got..])
  {
    assert inbound == inbound[..got] + inbound[got..];
  }

  /** The second line of everything the relay wrote to the sender is the one it read. */
  lemma SenderSecondLine(g: Setup, s: Sender, o: seq<Out>)
    requires CodecOk(g) && SenderOk(g, s, Wire(g, o)) && s.phase == SReturned && (forall w <- o :: w.Line?)
    ensures |o| >= 2 && o[1].msg.ok == Some(true)
  {
    var inbound := Wire(g, o);
    RestOfStream(inbound, s.got, TwoLines(s.line0, s.line1), s.buffer);
    TwoLinesOf(g, o, s.line0, s.line1, s.buffer + inbound[s.got..]);
    assert o[1] in o;
  }

  /** Only a session that ended in DONE tells its sender ok. */
  lemma SuccessMeansDone(g: Setup, sys: System)
    requires SystemOk(g, sys) && sys.snd.phase == SReturned
    ensures S in sys.relay.conns && sys.relay.conns[S].session.Some?
    ensures var u := sys.relay.conns[S].session.value;
            u < |sys.relay.heap| && sys.relay.heap[u].phase == DONE && sys.relay.heap[u].sender == Some(S)
  {
    var st := sys.relay;
    var o := Stream(st, S);
    var c := ConnOf(st, S);
    if S in st.conns { assert ConnOk(st, S); }
    if c.session.Some? {
      assert EntryOk(st, c.session.value);
      StreamLines(st.heap[c.session.value], st.cfg);
    }
    SenderSecondLine(g, sys.snd, o);
    assert o[1] in o;
  }

  lemma StreamLines(s: Session, cfg: Config)
    requires SessionOk(s, cfg)
    ensures forall w <- s.toSender :: w.Line?
    ensures s.phase != DONE ==> NotTold(s.toSender)
  {
    if s.phase == DONE { assert s.toSender == [s.toSender[0], s.toSender[1]]; }
  }

  /** A success line among the receiver's bytes is the one it wrote after committing. */
  lemma SuccessIsAck(g: Setup, r: Receiver, heard: Bytes, header: Bytes)
    requires CodecOk(g) && ReceiverWrote(g, r) && |LineOf(g, ReceiverHello(g.offer))| <= r.base
    requires NextBytes(r.written, r.base, heard)
    requires NEWLINE !in header && header + [NEWLINE] <= heard
    requires g.cfg.parse(header).Some? && g.cfg.parse(header).value.ok == Some(true)
    ensures r.phase.RAcked?
  {
    var hello := LineOf(g, ReceiverHello(g.offer));
    assert heard <= r.written[r.base..];
    if r.written == hello + LineOf(g, ReceiverFailure(g.offer)) {
      LastLine(g, ReceiverFailure(g.offer), hello, r.base, header);
    }
  }

  /** The acknowledgement the relay accepted is the receiver's. */
  lemma AcknowledgedByReceiver(g: Setup, sys: System, u: nat)
    requires SystemOk(g, sys) && u < |sys.relay.heap| && R in sys.relay.conns
    requires sys.relay.conns[R].session == Some(u)
    requires Acknowledged(sys.relay.heap[u], g.cfg)
    ensures sys.rcv.phase.RAcked?
  {
    var heard := sys.relay.heap[u].ackIn;
    CompleteSplits(heard, g.cfg.headerBytes);
    SuccessIsAck(g, sys.rcv, heard, Classify(heard, g.cfg.headerBytes).header);
  }

  /** A complete line found inside an encoded line, and parseable, is that line. */
  lemma LastLine(g: Setup, j: Json, hello: Bytes, base: nat, header: Bytes)
    requires CodecOk(g) && |hello| <= base && NEWLINE !in header && g.cfg.parse(header).Some?
    requires base <= |hello + LineOf(g, j)| && header + [NEWLINE] <= (hello + LineOf(g, j))[base..]
    ensures header == g.enc(j)
  {
    var i := base - |hello|;
    var text := g.enc(j);
    assert (hello + LineOf(g, j))[base..] == LineOf(g, j)[i..];
    assert i <= |text|;
    assert LineOf(g, j)[i..] == text[i..] + [NEWLINE];
    var tail := LineOf(g, j)[i..][|header| + 1..];
    assert text[i..] + [NEWLINE] + [] == header + [NEWLINE] + tail;
    assert NEWLINE !in text[i..];
    FirstLine(header, tail, text[i..], []);
    if i == 0 { assert text[0..] == text; }
  }

  /** The bytes the receiver stored are the bytes the relay forwarded. */
  lemma ReceivedIsForwarded(g: Setup, r: Receiver, s: Session)
    requires CodecOk(g) && ReceiverOk(g, r, Wire(g, s.toReceiver)) && Complete(r.phase)
    requires Exact(s) && s.remaining == 0
    ensures r.received == Forwarded(s.toReceiver)
  {
    var inbound := Wire(g, s.toReceiver);
    var meta := MetadataMsg(s.id, s.size, s.sha256);
    var f := Forwarded(s.toReceiver);
    ReceiverWire(g, s);
    var tail := r.received + inbound[r.got..];
    RestOfStream(inbound, r.got, TwoLines(r.line0, r.line1), r.received);
    assert g.cfg.parse(g.enc(meta)) == Some(meta) && NEWLINE !in g.enc(meta);
    FirstTwoLines(r.line0, r.line1, tail, g.enc(RegisteredMsg(s.id)), g.enc(meta), f);
    assert r.received == tail[..|r.received|];
  }

  /** Whoever acknowledged the sender's session is the receiver. */
  lemma PeerIsReceiver(g: Setup, sys: System, u: nat)
    requires SystemOk(g, sys) && S in sys.relay.conns && sys.relay.conns[S].session == Some(u)
    requires u < |sys.relay.heap| && sys.relay.heap[u].phase == DONE
    ensures R in sys.relay.conns && sys.relay.conns[R].session == Some(u)
    ensures sys.relay.heap[u].receiver == Some(R)
  {
    var st := sys.relay;
    var s := st.heap[u];
    assert ConnOk(st, S) && EntryOk(st, u);
    assert s.token == g.offer.ticket;
    var y := s.receiver.value;
    assert Member(st, u, y, "receiver");
    assert ConnOk(st, y);
  }

  /**
   * End-to-end commit: when the sending endpoint has returned, the receiver's record is
   * DATA_COMMITTED and the file at its path holds exactly the bytes that were sent.
   */
  lemma ReturnedMeansCommitted(g: Setup, sys: System)
    requires SystemOk(g, sys) && sys.snd.phase == SReturned
    ensures sys.rcv.state == Some(T.DATA_COMMITTED) && sys.rcv.path.Some?
    ensures sys.rcv.path.value in sys.rcv.disk && sys.rcv.disk[sys.rcv.path.value] == sys.snd.sent
    ensures |sys.snd.sent| == g.offer.size && g.sha(sys.snd.sent) == g.offer.sha256
  {
    SuccessMeansDone(g, sys);
    var st := sys.relay;
    var u := st.conns[S].session.value;
    PeerIsReceiver(g, sys, u);
    assert EntryOk(st, u);
    AcknowledgedByReceiver(g, sys, u);
    ReceivedIsForwarded(g, sys.rcv, st.heap[u]);
    SentIsForwarded(g, sys, u);
  }

  lemma SentIsForwarded(g: Setup, sys: System, u: nat)
    requires SystemOk(g, sys) && sys.snd.phase == SReturned
    requires S in sys.relay.conns && sys.relay.conns[S].session == Some(u) && u < |sys.relay.heap|
    requires Exact(sys.relay.heap[u]) && sys.relay.heap[u].remaining == 0 && sys.relay.heap[u].sender == Some(S)
    ensures sys.snd.sent == Forwarded(sys.relay.heap[u].toReceiver)
  {
    var s := sys.relay.heap[u];
    var hello := LineOf(g, SenderHello(g.offer));
    assert ConnOk(sys.relay, S);
    assert hello + s.senderIn <= hello + sys.snd.sent;
    assert s.senderIn == (hello + s.senderIn)[|hello|..];
    assert sys.snd.sent == (hello + sys.snd.sent)[|hello|..];
    assert s.size == g.offer.size;
  }

  lemma InitOk(g: Setup, now: int, disk: map<Path, Bytes>)
    requires CodecOk(g) && NamesOk(g)
    ensures SystemOk(g, Init(g, now, disk))
  {
  }

  lemma {:induction false} RunSystemOk(g: Setup, sys: System, run: seq<Happening>)
    requires SystemOk(g, sys)
    ensures SystemOk(g, RunSystem(g, sys, run))
    decreases run
  {
    if run != [] {
      HappensOk(g, sys, run[0]);
      RunSystemOk(g, Happens(g, sys, run[0]), run[1..]);
    }
  }

  /** Over every run, stops and recoveries included, a committed record names a file it describes. */
  lemma CommittedRecordHolds(g: Setup, now: int, disk: map<Path, Bytes>, run: seq<Happening>)
    requires CodecOk(g) && NamesOk(g)
    ensures var r := RunSystem(g, Init(g, now, disk), run).rcv;
            r.state == Some(T.DATA_COMMITTED) ==> CommittedFile(g, r)
  {
    InitOk(g, now, disk);
    RunSystemOk(g, Init(g, now, disk), run);
  }

  /** The same over every run: any interleaving, any chunking, any other clients and files. */
  lemma EndToEndCommit(g: Setup, now: int, disk: map<Path, Bytes>, run: seq<Happening>)
    requires CodecOk(g) && NamesOk(g) && RunSystem(g, Init(g, now, disk), run).snd.phase == SReturned
    ensures var sys := RunSystem(g, Init(g, now, disk), run);
            && sys.rcv.state == Some(T.DATA_COMMITTED) && sys.rcv.path.Some?
            && sys.rcv.path.value in sys.rcv.disk && sys.rcv.disk[sys.rcv.path.value] == sys.snd.sent
            && |sys.snd.sent| == g.offer.size && g.sha(sys.snd.sent) == g.offer.sha256
  {
    InitOk(g, now, disk);
    RunSystemOk(g, Init(g, now, disk), run);
    ReturnedMeansCommitted(g, RunSystem(g, Init(g, now, disk), run));
  }
}
