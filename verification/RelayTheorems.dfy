/** The relay's guarantees, each over every run from an empty relay. */
module RelayTheorems {
  import opened Prelude
  import opened Framing
  import opened FileRelay
  import opened RelayInvariants
  import opened RelayTraces

  /** A line in which the sender reads success. */
  ghost predicate ToldOk(s: Session) {
    exists w <- s.toSender :: w.Line? && w.msg.ok == Some(true)
  }

  /**
   * Stream exactness, for every chunking: the receiver is sent a prefix of what the sender
   * delivered after its header, never a byte past the declared size; while the transfer
   * stands, the prefix is everything and its length is `size - remaining`; the
   * acknowledgement is awaited exactly when the payload is complete; and the sender is
   * told ok exactly when a matching acknowledgement was read after that.
   */
  lemma StreamExactness(cfg: Config, now: int, events: seq<Event>, u: nat)
    requires u < |Run(Start(cfg, now), events).heap|
    ensures var s := Run(Start(cfg, now), events).heap[u];
            var f := Forwarded(s.toReceiver);
            && f <= s.senderIn && |f| <= s.size
            && (s.phase in {TRANSFERRING, WAIT_ACK, DONE} ==> f == s.senderIn && |f| == s.size - s.remaining)
            && (s.phase == TRANSFERRING ==> |f| < s.size)
            && (s.phase in {WAIT_ACK, DONE} ==> |f| == s.size)
            && (ToldOk(s) <==> s.phase == DONE)
            && (ToldOk(s) ==> Acknowledged(s, Run(Start(cfg, now), events).cfg))
  {
    RunOk(cfg, now, events);
    var st := Run(Start(cfg, now), events);
    assert EntryOk(st, u);
    SessionExact(st.heap[u], st.cfg);
  }

  lemma SessionExact(s: Session, cfg: Config)
    requires SessionOk(s, cfg)
    ensures var f := Forwarded(s.toReceiver);
            && f <= s.senderIn && |f| <= s.size
            && (s.phase in {TRANSFERRING, WAIT_ACK, DONE} ==> f == s.senderIn && |f| == s.size - s.remaining)
            && (s.phase == TRANSFERRING ==> |f| < s.size)
            && (s.phase in {WAIT_ACK, DONE} ==> |f| == s.size)
            && (ToldOk(s) <==> s.phase == DONE)
            && (ToldOk(s) ==> Acknowledged(s, cfg))
  {
    if s.phase == DONE { assert s.toSender[1] in s.toSender; }
  }

  /** The accounts of the live sessions. */
  function LiveAccounts(st: Relay): seq<nat> {
    seq(|st.heap|, i requires 0 <= i < |st.heap| => if Live(st, i) then st.heap[i].accounted else 0)
  }

  /**
   * Accounting: the in-flight total is the sum over live sessions and stays within its
   * limit, as does their number; an ended session's size was released exactly once.
   */
  lemma Accounting(cfg: Config, now: int, events: seq<Event>)
    ensures var st := Run(Start(cfg, now), events);
            && st.inFlight == Sum(LiveAccounts(st)) <= st.cfg.maxInFlight
            && |st.sessions| <= st.cfg.maxSessions
            && (forall u | 0 <= u < |st.heap| && !Live(st, u) && st.heap[u].sender.Some? ::
                  st.heap[u].releases == (if st.heap[u].size > 0 then 1 else 0))
            && (forall u | 0 <= u < |st.heap| && Live(st, u) ::
                  st.heap[u].releases == 0 && st.heap[u].accounted <= st.inFlight)
  {
    RunOk(cfg, now, events);
    var st := Run(Start(cfg, now), events);
    forall u | 0 <= u < |st.heap|
      ensures EntryOk(st, u) && st.heap[u].accounted <= st.inFlight && LiveAccounts(st)[u] == Accounts(st.heap)[u]
    {
      assert EntryOk(st, u);
      AccountBounded(Accounts(st.heap), u);
    }
    assert LiveAccounts(st) == Accounts(st.heap);
  }

  /**
   * Pairing: a started session joins two distinct sockets whose headers named this id,
   * carried the same ticket and mirrored each other's devices.
   */
  lemma Pairing(cfg: Config, now: int, events: seq<Event>, u: nat)
    requires u < |Run(Start(cfg, now), events).heap|
    requires Run(Start(cfg, now), events).heap[u].phase in {TRANSFERRING, WAIT_ACK, DONE}
    ensures var st := Run(Start(cfg, now), events);
            var s := st.heap[u];
            && s.sender.Some? && s.receiver.Some? && s.sender != s.receiver
            && var a, b := ConnOf(st, s.sender.value).hello, ConnOf(st, s.receiver.value).hello;
               && a.Some? && b.Some?
               && a.value.role == Some("sender") && b.value.role == Some("receiver")
               && a.value.id == b.value.id == Some(s.id) && a.value.token == b.value.token == Some(s.token)
               && a.value.sourceDevice == b.value.targetDevice && a.value.targetDevice == b.value.sourceDevice
               && a.value.size == Some(s.size) && a.value.sha256 == Some(s.sha256)
  {
    RunOk(cfg, now, events);
    var st := Run(Start(cfg, now), events);
    var s := st.heap[u];
    assert EntryOk(st, u);
    assert Member(st, u, s.sender.value, "sender") && Member(st, u, s.receiver.value, "receiver");
    assert ConnOk(st, s.sender.value) && ConnOk(st, s.receiver.value);
  }

  /**
   * Lifetime: with timers firing on time, a live session always has a timer armed, and it
   * is never older than the pairing time and the absolute deadline together.
   */
  lemma Lifetime(cfg: Config, now: int, events: seq<Event>, u: nat)
    requires Live(Run(Start(cfg, now), events), u)
    ensures var st := Run(Start(cfg, now), events);
            var s := st.heap[u];
            && st.now <= s.createdAt + st.cfg.pairingMs + st.cfg.maxDurationMs
            && (s.phase == PAIRING ==> s.pairingTimer.Some? && st.now <= s.createdAt + st.cfg.pairingMs)
            && (s.phase != PAIRING ==> s.stallTimer.Some? && s.deadlineTimer.Some?)
  {
    RunOk(cfg, now, events);
    assert EntryOk(Run(Start(cfg, now), events), u);
  }

  /**
   * A run only extends what was written and advances the phase of a session, so each phase
   * is entered at most once and an ended session stays as it ended.
   */
  lemma {:induction false} PhasesAdvance(st: Relay, events: seq<Event>, u: nat)
    requires RelayOk(st) && u < |st.heap|
    ensures u < |Run(st, events).heap|
    ensures SessionLater(st.heap[u], Run(st, events).heap[u])
    ensures !Live(st, u) ==> Run(st, events).heap[u] == st.heap[u]
    decreases events
  {
    if events != [] {
      var next := Step(st, events[0]);
      StepEvolves(st, events[0]);
      StepOk(st, events[0]);
      assert SessionEvolves(st, next, events[0], u);
      PhasesAdvance(next, events[1..], u);
    }
  }
}
