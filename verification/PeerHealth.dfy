/**
 * The per-peer circuit breaker: closed, desensitized (part of the traffic), open, and
 * recovering, with deterministic throttling. The clock is an input, the recovery curve a
 * parameter.
 */
module PeerHealth {
  import opened Prelude

  type Peer = string

  datatype Circuit = Closed | Desensitized | Open | Recovering

  datatype Health = Unknown | Healthy | Unhealthy

  datatype PeerState = PeerState(
    health: Health, circuit: Circuit, failures: nat, lastFailureAt: Option<int>, recoveringSince: Option<int>)

  /** `curve`: capacity by time since recovery began, if a rate constant is configured. */
  datatype Config = Config(hard: nat, soft: Option<nat>, capacity: real, resetMs: int, curve: Option<int -> real>)

  datatype Manager = Manager(
    config: Config, states: map<Peer, PeerState>, inFlight: set<Peer>, counters: map<Peer, nat>)

  datatype Step =
    | Check(peer: Peer, now: int)
    | Success(peer: Peer)
    | Failure(peer: Peer, now: int)
    | ProbeFailed(peer: Peer, now: int)

  const COMPLETE := 0.99
  const PERIOD: nat := 10

  /** Math.round of a non-negative number of calls per period. */
  function AllowCount(capacity: real): int { (capacity * PERIOD as real + 0.5).Floor }

  function CheckCapacity(m: Manager, peer: Peer, capacity: real): (bool, Manager) {
    if capacity >= 1.0 then (true, m)
    else if capacity <= 0.0 then (false, m)
    else
      var counter := if peer in m.counters then m.counters[peer] else 0;
      (counter % PERIOD < AllowCount(capacity), m.(counters := m.counters[peer := counter + 1]))
  }

  /** The last failure time counts only when it is truthy, so not at time 0. */
  predicate CooledDown(m: Manager, s: PeerState, now: int) {
    s.lastFailureAt.Some? && s.lastFailureAt.value != 0 && now - s.lastFailureAt.value >= m.config.resetMs
  }

  function IsAvailable(m: Manager, peer: Peer, now: int): (bool, Manager) {
    if peer !in m.states then (true, m)
    else
      var s := m.states[peer];
      match s.circuit
      case Closed => (true, m)
      case Desensitized => CheckCapacity(m, peer, m.config.capacity)
      case Open =>
        if CooledDown(m, s, now) then
          (true, Manager(m.config, m.states[peer := s.(circuit := Recovering, recoveringSince := Some(now))],
                         m.inFlight + {peer}, m.counters[peer := 0]))
        else (false, m)
      case Recovering =>
        if m.config.curve.Some? then
          var capacity := m.config.curve.value(if s.recoveringSince.Some? then now - s.recoveringSince.value else 0);
          if capacity >= COMPLETE then
            (true, m.(states := m.states[peer := PeerState(Healthy, Closed, 0, s.lastFailureAt, None)],
                      inFlight := m.inFlight - {peer}))
          else CheckCapacity(m, peer, capacity)
        else if peer in m.inFlight then (false, m)
        else (true, m.(inFlight := m.inFlight + {peer}))
  }

  function Succeeded(m: Manager, peer: Peer): Manager {
    if peer !in m.states then m
    else
      Manager(m.config, m.states[peer := PeerState(Healthy, Closed, 0, m.states[peer].lastFailureAt, None)],
              m.inFlight - {peer}, m.counters - {peer})
  }

  predicate SoftRange(c: Config, failures: nat) {
    c.soft.Some? && c.soft.value < c.hard && c.soft.value <= failures < c.hard
  }

  function Failed(m: Manager, peer: Peer, now: int): Manager {
    if peer !in m.states then m
    else
      var s := m.states[peer].(failures := m.states[peer].failures + 1, lastFailureAt := Some(now));
      var m1 := m.(states := m.states[peer := s], inFlight := m.inFlight - {peer});
      match s.circuit
      case Recovering => m1.(states := m.states[peer := s.(circuit := Open, recoveringSince := None)])
      case Desensitized =>
        if s.failures >= m.config.hard
        then m1.(states := m.states[peer := s.(circuit := Open, health := Unhealthy)], counters := m.counters - {peer})
        else m1
      case Closed =>
        if SoftRange(m.config, s.failures)
        then m1.(states := m.states[peer := s.(circuit := Desensitized)], counters := m.counters[peer := 0])
        else if s.failures >= m.config.hard
        then m1.(states := m.states[peer := s.(circuit := Open, health := Unhealthy)])
        else m1
      case Open => m1
  }

  function ProbeFailedAt(m: Manager, peer: Peer, now: int): Manager {
    if peer !in m.states then m
    else Failed(m.(states := m.states[peer := m.states[peer].(health := Unhealthy)]), peer, now)
  }

  function Take(m: Manager, e: Step): Manager {
    match e
    case Check(peer, now) => IsAvailable(m, peer, now).1
    case Success(peer) => Succeeded(m, peer)
    case Failure(peer, now) => Failed(m, peer, now)
    case ProbeFailed(peer, now) => ProbeFailedAt(m, peer, now)
  }

  function Run(m: Manager, steps: seq<Step>): Manager
    decreases steps
  {
    if steps == [] then m else Run(Take(m, steps[0]), steps[1..])
  }

  function Fresh(config: Config, peers: set<Peer>): Manager {
    Manager(config, map p | p in peers :: PeerState(Unknown, Closed, 0, None, None), {}, map[])
  }

  // ---- Thresholds --------------------------------------------------------------------

  predicate ConfigOk(c: Config) { c.hard >= 1 && (c.soft.Some? ==> c.soft.value >= 1) }

  /** Where a closed circuit ends: the soft threshold if it lies below the hard one. */
  function Limit(c: Config): nat { if c.soft.Some? && c.soft.value < c.hard then c.soft.value else c.hard }

  /** The failure count determines the circuit, up to open against recovering. */
  ghost predicate PeerOk(c: Config, s: PeerState) {
    match s.circuit
    case Closed => s.failures < Limit(c)
    case Desensitized => c.soft.Some? && c.soft.value < c.hard && c.soft.value <= s.failures < c.hard
    case Open => s.failures >= c.hard && s.lastFailureAt.Some?
    case Recovering => s.failures >= c.hard && s.lastFailureAt.Some? && s.recoveringSince.Some?
  }

  /** A throttled peer has a count, and without a rate constant a recovering one a probe out. */
  ghost predicate EntryOk(m: Manager, p: Peer)
    requires p in m.states
  {
    && PeerOk(m.config, m.states[p])
    && (m.states[p].circuit.Desensitized? || m.states[p].circuit.Recovering? ==> p in m.counters)
    && (m.config.curve.None? && m.states[p].circuit.Recovering? ==> p in m.inFlight)
  }

  ghost predicate ManagerOk(m: Manager) { ConfigOk(m.config) && forall p <- m.states :: EntryOk(m, p) }

  lemma SamePeers(m: Manager, e: Step)
    ensures Take(m, e).config == m.config && Take(m, e).states.Keys == m.states.Keys
  {
  }

  lemma CheckOk(m: Manager, e: Step)
    requires ConfigOk(m.config) && e.Check? && e.peer in m.states && EntryOk(m, e.peer)
    ensures e.peer in Take(m, e).states && EntryOk(Take(m, e), e.peer)
  {
  }

  lemma OutcomeOk(m: Manager, e: Step)
    requires ConfigOk(m.config) && !e.Check? && e.peer in m.states && EntryOk(m, e.peer)
    ensures e.peer in Take(m, e).states && EntryOk(Take(m, e), e.peer)
  {
  }

  /** A step of another peer leaves this one's breaker alone. */
  lemma OthersUntouched(m: Manager, e: Step, peer: Peer)
    requires e.peer != peer
    ensures var m' := Take(m, e);
            && (peer in m'.states <==> peer in m.states) && (peer in m.states ==> m'.states[peer] == m.states[peer])
            && (peer in m'.inFlight <==> peer in m.inFlight)
            && (peer in m'.counters <==> peer in m.counters)
            && (peer in m.counters ==> m'.counters[peer] == m.counters[peer])
  {
  }

  lemma TakeOk(m: Manager, e: Step)
    requires ManagerOk(m)
    ensures ManagerOk(Take(m, e)) && Take(m, e).config == m.config && Take(m, e).states.Keys == m.states.Keys
  {
    var m' := Take(m, e);
    SamePeers(m, e);
    forall p <- m'.states ensures EntryOk(m', p) {
      assert EntryOk(m, p);
      if p != e.peer { OthersUntouched(m, e, p); } else if e.Check? { CheckOk(m, e); } else { OutcomeOk(m, e); }
    }
  }

  lemma {:induction false} RunOk(m: Manager, steps: seq<Step>)
    requires ManagerOk(m)
    ensures ManagerOk(Run(m, steps)) && Run(m, steps).config == m.config
    ensures Run(m, steps).states.Keys == m.states.Keys
    decreases steps
  {
    if steps != [] {
      TakeOk(m, steps[0]);
      RunOk(Take(m, steps[0]), steps[1..]);
    }
  }

  /**
   * In every reachable state: closed means fewer failures than the soft threshold (the hard
   * one when no soft one is in force), desensitized lies between the two, and open or
   * recovering means at least the hard threshold.
   */
  lemma ThresholdsHold(config: Config, peers: set<Peer>, steps: seq<Step>, p: Peer)
    requires ConfigOk(config) && p in peers
    ensures var m := Run(Fresh(config, peers), steps); p in m.states && PeerOk(config, m.states[p])
  {
    RunOk(Fresh(config, peers), steps);
  }

  // ---- One probe at a time -----------------------------------------------------------

  predicate Outcome(e: Step, peer: Peer) { !e.Check? && e.peer == peer }

  /** How many checks of the peer were answered with yes. */
  function Admissions(m: Manager, steps: seq<Step>, peer: Peer): nat
    decreases steps
  {
    if steps == [] then 0
    else
      var e := steps[0];
      (if e.Check? && e.peer == peer && IsAvailable(m, peer, e.now).0 then 1 else 0)
      + Admissions(Take(m, e), steps[1..], peer)
  }

  ghost predicate Tripped(m: Manager, peer: Peer) {
    peer in m.states && (m.states[peer].circuit.Open? || m.states[peer].circuit.Recovering?)
  }

  /** While a probe is out, nothing else gets through. */
  lemma {:induction false} NoneWhileProbing(m: Manager, steps: seq<Step>, peer: Peer)
    requires ManagerOk(m) && m.config.curve.None? && peer in m.states && m.states[peer].circuit.Recovering?
    requires forall e <- steps :: !Outcome(e, peer)
    ensures Admissions(m, steps, peer) == 0
    decreases steps
  {
    if steps != [] {
      assert !Outcome(steps[0], peer);
      if steps[0].peer != peer { OthersUntouched(m, steps[0], peer); }
      TakeOk(m, steps[0]);
      NoneWhileProbing(Take(m, steps[0]), steps[1..], peer);
    }
  }

  /**
   * Without a rate constant, between two recorded outcomes of a tripped peer at most one
   * call is admitted, however often and whenever it is asked for.
   */
  lemma {:induction false} SingleProbe(m: Manager, steps: seq<Step>, peer: Peer)
    requires ManagerOk(m) && m.config.curve.None? && Tripped(m, peer)
    requires forall e <- steps :: !Outcome(e, peer)
    ensures Admissions(m, steps, peer) <= 1
    decreases steps
  {
    if steps != [] {
      var e := steps[0];
      assert !Outcome(e, peer);
      TakeOk(m, e);
      if m.states[peer].circuit.Recovering? {
        NoneWhileProbing(m, steps, peer);
      } else {
        if e.peer != peer { OthersUntouched(m, e, peer); }
        if Take(m, e).states[peer].circuit.Recovering? {
          NoneWhileProbing(Take(m, e), steps[1..], peer);
        } else {
          SingleProbe(Take(m, e), steps[1..], peer);
        }
      }
    }
  }

  lemma SingleProbeInRuns(config: Config, peers: set<Peer>, before: seq<Step>, between: seq<Step>, peer: Peer)
    requires ConfigOk(config) && config.curve.None? && Tripped(Run(Fresh(config, peers), before), peer)
    requires forall e <- between :: !Outcome(e, peer)
    ensures Admissions(Run(Fresh(config, peers), before), between, peer) <= 1
  {
    RunOk(Fresh(config, peers), before);
    SingleProbe(Run(Fresh(config, peers), before), between, peer);
  }

  // ---- Throttling --------------------------------------------------------------------

  /** Of `n` calls, `k` in each full period and at most `k` in the last one. */
  function Quota(n: nat, k: nat): nat { n / PERIOD * k + (if n % PERIOD < k then n % PERIOD else k) }

  function Checks(steps: seq<Step>, peer: Peer): nat
    decreases steps
  {
    if steps == [] then 0 else (if steps[0].Check? && steps[0].peer == peer then 1 else 0) + Checks(steps[1..], peer)
  }

  /** The step meets the peer throttled to share `c` of its calls. */
  predicate ThrottledTo(m: Manager, e: Step, peer: Peer, c: real) {
    peer in m.states &&
    var s := m.states[peer];
    || (s.circuit.Desensitized? && m.config.capacity == c)
    || (s.circuit.Recovering? && m.config.curve.Some? && c < COMPLETE && s.recoveringSince.Some?
        && (e.peer == peer ==> e.Check? && m.config.curve.value(e.now - s.recoveringSince.value) == c))
  }

  /** Every step of the run does. */
  predicate StaysThrottled(m: Manager, steps: seq<Step>, peer: Peer, c: real)
    decreases steps
  {
    steps != [] ==> ThrottledTo(m, steps[0], peer, c) && StaysThrottled(Take(m, steps[0]), steps[1..], peer, c)
  }

  /** `k` is the share `c` of ten calls, rounded to the nearest, halves up; all or none at the ends. */
  predicate Share(c: real, k: nat) {
    if c >= 1.0 then k == 10 else if c <= 0.0 then k == 0 else c * 10.0 - 0.5 < k as real <= c * 10.0 + 0.5
  }

  lemma QuotaStep(n: nat, k: nat)
    requires k <= PERIOD
    ensures Quota(n + 1, k) == Quota(n, k) + (if n % PERIOD < k then 1 else 0)
  {
    if n % PERIOD == PERIOD - 1 {
      assert (n + 1) / PERIOD == n / PERIOD + 1;
      assert (n / PERIOD + 1) * k == n / PERIOD * k + k;
    } else {
      assert (n + 1) / PERIOD == n / PERIOD && (n + 1) % PERIOD == n % PERIOD + 1;
    }
  }

  lemma ShareIsRounded(c: real, k: nat)
    requires 0.0 < c < 1.0 && Share(c, k)
    ensures AllowCount(c) == k <= PERIOD
  {
  }

  /** How a throttled check is counted and answered. */
  lemma ThrottledCheck(m: Manager, peer: Peer, c: real, k: nat)
    requires Share(c, k) && peer in m.counters
    ensures var (ok, m') := CheckCapacity(m, peer, c);
            && m' == m.(counters := m'.counters) && peer in m'.counters
            && if 0.0 < c < 1.0 then
                 (ok <==> m.counters[peer] % PERIOD < k) && m'.counters[peer] == m.counters[peer] + 1
               else (ok <==> c >= 1.0) && m' == m
  {
    if 0.0 < c < 1.0 { ShareIsRounded(c, k); }
  }

  /** The count of admitted calls if `n` were made since the count began. */
  function Admitted(n: nat, c: real, k: nat): nat {
    if c >= 1.0 then n else if c <= 0.0 then 0 else Quota(n, k)
  }

  lemma AdmittedIs(n: nat, c: real, k: nat)
    requires Share(c, k)
    ensures Admitted(n, c, k) == n / 10 * k + (if n % 10 < k then n % 10 else k)
  {
    assert n / 10 * 10 + n % 10 == n;
  }

  lemma AdmittedNext(n: nat, c: real, k: nat)
    requires Share(c, k)
    ensures Admitted(n + 1, c, k)
         == Admitted(n, c, k) + (if c >= 1.0 || (0.0 < c && n % PERIOD < k) then 1 else 0)
  {
    if 0.0 < c < 1.0 {
      ShareIsRounded(c, k);
      QuotaStep(n, k);
    }
  }

  lemma CountedStep(m: Manager, e: Step, peer: Peer, c: real, k: nat, n: nat)
    requires ManagerOk(m) && ThrottledTo(m, e, peer, c) && Share(c, k) && e.Check? && e.peer == peer
    requires 0.0 < c < 1.0 ==> peer in m.counters && m.counters[peer] == n
    ensures 0.0 < c < 1.0 ==> peer in Take(m, e).counters && Take(m, e).counters[peer] == n + 1
    ensures Admitted(n + 1, c, k) == Admitted(n, c, k) + (if IsAvailable(m, peer, e.now).0 then 1 else 0)
  {
    ThrottledStep(m, e, peer, c, k);
    ThrottledCheck(m, peer, c, k);
    AdmittedNext(n, c, k);
  }

  lemma ThrottledStep(m: Manager, e: Step, peer: Peer, c: real, k: nat)
    requires ManagerOk(m) && ThrottledTo(m, e, peer, c) && Share(c, k)
    requires e.Check? && e.peer == peer
    ensures peer in m.counters && IsAvailable(m, peer, e.now) == CheckCapacity(m, peer, c)
  {
    assert EntryOk(m, peer);
  }

  /** What the count was before does not matter at the ends, and else is counted on. */
  lemma {:induction false} ThrottlesFrom(m: Manager, steps: seq<Step>, peer: Peer, c: real, k: nat, n: nat)
    requires ManagerOk(m) && StaysThrottled(m, steps, peer, c) && Share(c, k)
    requires 0.0 < c < 1.0 && steps != [] ==> CountIs(m, peer, n)
    ensures Admitted(n, c, k) + Admissions(m, steps, peer) == Admitted(n + Checks(steps, peer), c, k)
    decreases steps
  {
    if steps != [] {
      var e := steps[0];
      TakeOk(m, e);
      var next := n + (if e.Check? && e.peer == peer then 1 else 0);
      AnyStep(m, e, steps[1..], peer, c, k, n);
      ThrottlesFrom(Take(m, e), steps[1..], peer, c, k, next);
      assert next + Checks(steps[1..], peer) == n + Checks(steps, peer);
    }
  }

  predicate CountIs(m: Manager, peer: Peer, n: nat) { peer in m.counters && m.counters[peer] == n }

  lemma AnyStep(m: Manager, e: Step, rest: seq<Step>, peer: Peer, c: real, k: nat, n: nat)
    requires ManagerOk(m) && ThrottledTo(m, e, peer, c) && Share(c, k) && StaysThrottled(Take(m, e), rest, peer, c)
    requires 0.0 < c < 1.0 ==> CountIs(m, peer, n)
    ensures var own := e.Check? && e.peer == peer;
            && (0.0 < c < 1.0 && rest != [] ==> CountIs(Take(m, e), peer, n + (if own then 1 else 0)))
            && (own ==> Admitted(n + 1, c, k) == Admitted(n, c, k) + (if IsAvailable(m, peer, e.now).0 then 1 else 0))
  {
    if e.Check? && e.peer == peer {
      CountedStep(m, e, peer, c, k, n);
    } else if rest != [] {
      UncountedStep(m, e, rest, peer, c);
    }
  }

  /** A failure, or another peer's step, leaves the count as long as the peer stays throttled. */
  lemma UncountedStep(m: Manager, e: Step, rest: seq<Step>, peer: Peer, c: real)
    requires ManagerOk(m) && ThrottledTo(m, e, peer, c) && !(e.Check? && e.peer == peer)
    requires StaysThrottled(Take(m, e), rest, peer, c) && rest != []
    ensures peer in m.counters && peer in Take(m, e).counters && Take(m, e).counters[peer] == m.counters[peer]
  {
    assert EntryOk(m, peer);
    if e.peer != peer { OthersUntouched(m, e, peer); }
  }

  /** The failure that desensitizes a peer, or the check that lets it recover, starts a new count. */
  lemma EntryResetsCounter(m: Manager, e: Step, peer: Peer)
    requires peer in m.states && Take(m, e).states.Keys == m.states.Keys
    requires Take(m, e).states[peer].circuit != m.states[peer].circuit
    requires Take(m, e).states[peer].circuit.Desensitized? || Take(m, e).states[peer].circuit.Recovering?
    ensures peer in Take(m, e).counters && Take(m, e).counters[peer] == 0
    ensures Take(m, e).states[peer].circuit.Recovering? ==>
              e.Check? && e.peer == peer && Take(m, e).states[peer].recoveringSince == Some(e.now)
  {
    if e.peer != peer { OthersUntouched(m, e, peer); }
  }

  /**
   * Exact throttling: from the failure that desensitized the peer, or the check that let it
   * recover gradually, other peers' steps (and while desensitized, failures) interleaved: as
   * long as its share of calls is `c`, any `n` checks admit exactly
   * floor(n / 10) * k + min(n mod 10, k), where k is that share of ten, rounded; all of them
   * from a share of 1 on, none at 0.
   */
  lemma ThrottlesExactly(m: Manager, entry: Step, steps: seq<Step>, peer: Peer, c: real, k: nat)
    requires ManagerOk(m) && peer in m.states && Share(c, k)
    requires var m' := Take(m, entry);
             && peer in m'.states && m'.states[peer].circuit != m.states[peer].circuit
             && (m'.states[peer].circuit.Desensitized? || m'.states[peer].circuit.Recovering?)
             && StaysThrottled(m', steps, peer, c)
    ensures var n := Checks(steps, peer);
            Admissions(Take(m, entry), steps, peer) == n / 10 * k + (if n % 10 < k then n % 10 else k)
  {
    TakeOk(m, entry);
    EntryResetsCounter(m, entry, peer);
    ThrottlesFrom(Take(m, entry), steps, peer, c, k, 0);
    AdmittedIs(0, c, k);
    AdmittedIs(Checks(steps, peer), c, k);
  }

  /** There is exactly one such share of ten calls, whatever the share. */
  lemma EveryShare(c: real) returns (k: nat)
    ensures k <= PERIOD && Share(c, k) && forall j: nat :: Share(c, j) ==> j == k
  {
    k := if c >= 1.0 then 10 else if c <= 0.0 then 0 else AllowCount(c);
  }

  /** Nothing but checks: a desensitized peer stays throttled to its configured share. */
  lemma {:induction false} ChecksStayThrottled(m: Manager, steps: seq<Step>, peer: Peer)
    requires ManagerOk(m) && peer in m.states && m.states[peer].circuit.Desensitized?
    requires forall e <- steps :: e.Check?
    ensures StaysThrottled(m, steps, peer, m.config.capacity)
    decreases steps
  {
    if steps != [] {
      assert steps[0] in steps;
      TakeOk(m, steps[0]);
      ChecksStayThrottled(Take(m, steps[0]), steps[1..], peer);
    }
  }

  /** A run is its steps, one after the other. */
  lemma {:induction false} RunSnoc(m: Manager, steps: seq<Step>, e: Step)
    ensures Run(m, steps + [e]) == Take(Run(m, steps), e)
    decreases steps
  {
    if steps == [] {
      assert Run(m, [e]) == Run(Take(m, e), []);
    } else {
      assert (steps + [e])[1..] == steps[1..] + [e];
      RunSnoc(Take(m, steps[0]), steps[1..], e);
    }
  }

  // ---- What a step decides -----------------------------------------------------------

  /** A peer that is not configured is never held back, and nothing is recorded of it. */
  lemma UnknownPeer(m: Manager, e: Step)
    requires e.peer !in m.states
    ensures Take(m, e) == m && (e.Check? ==> IsAvailable(m, e.peer, e.now).0)
  {
  }

  /**
   * A check of an open circuit is admitted exactly if the time since the last failure has
   * reached the reset time (a failure at time zero counts as none); then recovery begins.
   */
  lemma OpenDecides(m: Manager, peer: Peer, now: int)
    requires ManagerOk(m) && peer in m.states && m.states[peer].circuit.Open?
    ensures var s, (ok, m') := m.states[peer], IsAvailable(m, peer, now);
            && s.lastFailureAt.Some? && peer in m'.states
            && (ok <==> s.lastFailureAt.value != 0 && now - s.lastFailureAt.value >= m.config.resetMs)
            && m'.states[peer] == if ok then s.(circuit := Recovering, recoveringSince := Some(now)) else s
  {
    assert EntryOk(m, peer);
  }

  /**
   * Gradual recovery ends with the first check at which the curve has reached 0.99: it is
   * admitted and the circuit is closed, with no failures.
   */
  lemma RecoveryCompletes(m: Manager, peer: Peer, now: int)
    requires ManagerOk(m) && peer in m.states && m.states[peer].circuit.Recovering? && m.config.curve.Some?
    ensures var s, (ok, m') := m.states[peer], IsAvailable(m, peer, now);
            && s.recoveringSince.Some? && peer in m'.states
            && if m.config.curve.value(now - s.recoveringSince.value) >= 0.99 then
                 ok && m'.states[peer] == PeerState(Healthy, Closed, 0, s.lastFailureAt, None)
               else m'.states[peer] == s
  {
    assert EntryOk(m, peer);
  }

  /** A closed circuit admits everything and records nothing. */
  lemma ClosedAdmits(m: Manager, peer: Peer, now: int)
    requires peer in m.states && m.states[peer].circuit.Closed?
    ensures IsAvailable(m, peer, now) == (true, m)
  {
  }

  /** A success closes the circuit from anywhere, with no failures. */
  lemma SuccessDecides(m: Manager, peer: Peer)
    requires peer in m.states
    ensures var m' := Take(m, Success(peer));
            && peer in m'.states && peer !in m'.inFlight && peer !in m'.counters
            && m'.states[peer] == PeerState(Healthy, Closed, 0, m.states[peer].lastFailureAt, None)
  {
  }

  /**
   * A failure counts, whether of a call or of a health probe. A tripped circuit is open
   * afterwards; one that was not opens at the hard threshold and is desensitized from the
   * soft one on, if that lies below.
   */
  lemma FailureDecides(m: Manager, e: Step)
    requires ManagerOk(m) && (e.Failure? || e.ProbeFailed?) && e.peer in m.states
    ensures var s, m' := m.states[e.peer], Take(m, e);
            && e.peer in m'.states && e.peer !in m'.inFlight
            && var s', n := m'.states[e.peer], s.failures + 1;
               && s'.failures == n && s'.lastFailureAt == Some(e.now)
               && s'.circuit == (if Tripped(m, e.peer) || n >= m.config.hard then Open
                                 else if m.config.soft.Some? && n >= m.config.soft.value then Desensitized
                                 else Closed)
               && s'.recoveringSince == (if s.circuit.Recovering? then None else s.recoveringSince)
               && (s.circuit.Desensitized? && s'.circuit.Open? ==> e.peer !in m'.counters)
               && (!s.circuit.Desensitized? && s'.circuit.Desensitized? ==>
                     e.peer in m'.counters && m'.counters[e.peer] == 0)
               && s'.health == (if e.ProbeFailed? || (!Tripped(m, e.peer) && n >= m.config.hard) then Unhealthy
                                else s.health)
  {
    assert EntryOk(m, e.peer);
  }

  // ---- The three-state breaker -------------------------------------------------------

  /** The breaker this one replaced. */
  datatype Legacy = Shut(failures: nat) | Tripping(at: int) | HalfOpen

  function LegacyTake(c: Config, l: Legacy, e: Step): Legacy {
    match e
    case Check(_, now) => if l.Tripping? && l.at != 0 && now - l.at >= c.resetMs then HalfOpen else l
    case Success(_) => Shut(0)
    case Failure(_, now) => if l.Shut? && l.failures + 1 < c.hard then Shut(l.failures + 1) else Tripping(now)
    case ProbeFailed(_, now) => if l.Shut? && l.failures + 1 < c.hard then Shut(l.failures + 1) else Tripping(now)
  }

  predicate LegacyAdmits(c: Config, l: Legacy, now: int) {
    l.Shut? || (l.Tripping? && l.at != 0 && now - l.at >= c.resetMs)
  }

  function AsLegacy(s: PeerState): Legacy {
    match s.circuit
    case Open => Tripping(if s.lastFailureAt.Some? then s.lastFailureAt.value else 0)
    case Recovering => HalfOpen
    case _ => Shut(s.failures)
  }

  /** The answers to one peer's checks, in order. */
  function Answers(m: Manager, steps: seq<Step>, peer: Peer): seq<bool>
    decreases steps
  {
    if steps == [] then []
    else
      var e := steps[0];
      (if e.Check? && e.peer == peer then [IsAvailable(m, peer, e.now).0] else [])
      + Answers(Take(m, e), steps[1..], peer)
  }

  function LegacyAnswers(c: Config, l: Legacy, steps: seq<Step>, peer: Peer): seq<bool>
    decreases steps
  {
    if steps == [] then []
    else
      var e := steps[0];
      (if e.Check? && e.peer == peer then [LegacyAdmits(c, l, e.now)] else [])
      + LegacyAnswers(c, if e.peer == peer then LegacyTake(c, l, e) else l, steps[1..], peer)
  }

  lemma LegacyStep(m: Manager, e: Step, peer: Peer)
    requires ManagerOk(m) && m.config.soft == None && m.config.curve.None? && peer in m.states
    ensures peer in Take(m, e).states
    ensures AsLegacy(Take(m, e).states[peer])
         == if e.peer == peer then LegacyTake(m.config, AsLegacy(m.states[peer]), e) else AsLegacy(m.states[peer])
    ensures e.Check? && e.peer == peer ==>
              (IsAvailable(m, peer, e.now).0 <==> LegacyAdmits(m.config, AsLegacy(m.states[peer]), e.now))
  {
    if e.peer != peer { OthersUntouched(m, e, peer); }
  }

  /** Without the optional settings the breaker answers every call like the three-state one. */
  lemma {:induction false} LegacyRefined(m: Manager, steps: seq<Step>, peer: Peer)
    requires ManagerOk(m) && m.config.soft == None && m.config.curve.None? && peer in m.states
    ensures Answers(m, steps, peer) == LegacyAnswers(m.config, AsLegacy(m.states[peer]), steps, peer)
    decreases steps
  {
    if steps != [] {
      TakeOk(m, steps[0]);
      LegacyStep(m, steps[0], peer);
      LegacyRefined(Take(m, steps[0]), steps[1..], peer);
    }
  }

  lemma LegacyBehaviour(config: Config, peers: set<Peer>, steps: seq<Step>, peer: Peer)
    requires ConfigOk(config) && config.soft == None && config.curve.None? && peer in peers
    ensures Answers(Fresh(config, peers), steps, peer) == LegacyAnswers(config, Shut(0), steps, peer)
  {
    LegacyRefined(Fresh(config, peers), steps, peer);
  }

  // ---- Peers do not affect each other ------------------------------------------------

  /** The steps of one peer, in order. */
  function Only(steps: seq<Step>, peer: Peer): seq<Step> {
    if steps == [] then []
    else (if steps[0].peer == peer then [steps[0]] else []) + Only(steps[1..], peer)
  }

  /** Two managers that hold the same for one peer. */
  ghost predicate Alike(a: Manager, b: Manager, peer: Peer) {
    && a.config == b.config && peer in a.states && peer in b.states && a.states[peer] == b.states[peer]
    && (peer in a.inFlight <==> peer in b.inFlight)
    && (peer in a.counters <==> peer in b.counters)
    && (peer in a.counters ==> a.counters[peer] == b.counters[peer])
  }

  lemma AlikeCheck(a: Manager, b: Manager, peer: Peer, now: int)
    requires Alike(a, b, peer)
    ensures IsAvailable(a, peer, now).0 == IsAvailable(b, peer, now).0
    ensures Alike(IsAvailable(a, peer, now).1, IsAvailable(b, peer, now).1, peer)
  {
  }

  lemma AlikeFailed(a: Manager, b: Manager, peer: Peer, now: int)
    requires Alike(a, b, peer)
    ensures Alike(Failed(a, peer, now), Failed(b, peer, now), peer)
  {
  }

  lemma AlikeStep(a: Manager, b: Manager, e: Step)
    requires Alike(a, b, e.peer)
    ensures Alike(Take(a, e), Take(b, e), e.peer)
    ensures e.Check? ==> IsAvailable(a, e.peer, e.now).0 == IsAvailable(b, e.peer, e.now).0
  {
    match e
    case Check(peer, now) => AlikeCheck(a, b, peer, now);
    case Success(peer) =>
    case Failure(peer, now) => AlikeFailed(a, b, peer, now);
    case ProbeFailed(peer, now) =>
      AlikeFailed(a.(states := a.states[peer := a.states[peer].(health := Unhealthy)]),
                  b.(states := b.states[peer := b.states[peer].(health := Unhealthy)]), peer, now);
  }

  lemma OtherStep(a: Manager, b: Manager, e: Step, peer: Peer)
    requires Alike(a, b, peer) && e.peer != peer
    ensures Alike(Take(a, e), b, peer)
  {
    OthersUntouched(a, e, peer);
  }

  lemma {:induction false} OnlyOwnSteps(a: Manager, b: Manager, steps: seq<Step>, peer: Peer)
    requires Alike(a, b, peer)
    ensures Alike(Run(a, steps), Run(b, Only(steps, peer)), peer)
    ensures Answers(a, steps, peer) == Answers(b, Only(steps, peer), peer)
    decreases steps
  {
    if steps != [] {
      var e, rest := steps[0], Only(steps[1..], peer);
      if e.peer == peer {
        AlikeStep(a, b, e);
        OnlyOwnSteps(Take(a, e), Take(b, e), steps[1..], peer);
        assert ([e] + rest)[1..] == rest;
      } else {
        OtherStep(a, b, e, peer);
        OnlyOwnSteps(Take(a, e), b, steps[1..], peer);
        assert [] + rest == rest;
      }
    }
  }

  /** A peer is answered as if it were the only one: the others' steps change nothing for it. */
  lemma PeersAreIndependent(config: Config, peers: set<Peer>, steps: seq<Step>, peer: Peer)
    requires peer in peers
    ensures Answers(Fresh(config, peers), steps, peer) == Answers(Fresh(config, {peer}), Only(steps, peer), peer)
    ensures Run(Fresh(config, peers), steps).states.Keys >= {peer}
    ensures Run(Fresh(config, {peer}), Only(steps, peer)).states.Keys >= {peer}
    ensures Run(Fresh(config, peers), steps).states[peer] == Run(Fresh(config, {peer}), Only(steps, peer)).states[peer]
  {
    OnlyOwnSteps(Fresh(config, peers), Fresh(config, {peer}), steps, peer);
  }

  // ---- The manager object ------------------------------------------------------------

  class PeerHealthManager {
    const config: Config
    var states: map<Peer, PeerState>
    var recoveringInFlight: set<Peer>
    var capacityCounters: map<Peer, nat>

    constructor (config: Config, peers: set<Peer>)
      ensures State() == Fresh(config, peers)
    {
      this.config := config;
      states := map p | p in peers :: PeerState(Unknown, Closed, 0, None, None);
      recoveringInFlight, capacityCounters := {}, map[];
    }

    ghost function State(): Manager
      reads this
    {
      Manager(config, states, recoveringInFlight, capacityCounters)
    }

    method Capacity(peer: Peer, capacity: real) returns (allowed: bool)
      modifies `capacityCounters
      ensures (allowed, State()) == CheckCapacity(old(State()), peer, capacity)
    {
      if capacity >= 1.0 { return true; }
      if capacity <= 0.0 { return false; }
      var counter := 0;
      if peer in capacityCounters { counter := capacityCounters[peer]; }
      capacityCounters := capacityCounters[peer := counter + 1];
      var allowCount := AllowCount(capacity);
      return counter % PERIOD < allowCount;
    }

    method Available(peer: Peer, now: int) returns (available: bool)
      modifies this
      ensures (available, State()) == IsAvailable(old(State()), peer, now)
    {
      if peer !in states { return true; }
      var state := states[peer];
      if state.circuit == Closed { return true; }
      if state.circuit == Desensitized {
        available := Capacity(peer, config.capacity);
        return;
      }
      if state.circuit == Open {
        if state.lastFailureAt.Some? && state.lastFailureAt.value != 0
           && now - state.lastFailureAt.value >= config.resetMs {
          states := states[peer := state.(circuit := Recovering, recoveringSince := Some(now))];
          recoveringInFlight := recoveringInFlight + {peer};
          capacityCounters := capacityCounters[peer := 0];
          return true;
        }
        return false;
      }
      if config.curve.Some? {
        var elapsed := if state.recoveringSince.Some? then now - state.recoveringSince.value else 0;
        var capacity := config.curve.value(elapsed);
        if capacity >= COMPLETE {
          states := states[peer := PeerState(Healthy, Closed, 0, state.lastFailureAt, None)];
          recoveringInFlight := recoveringInFlight - {peer};
          return true;
        }
        available := Capacity(peer, capacity);
        return;
      }
      if peer in recoveringInFlight { return false; }
      recoveringInFlight := recoveringInFlight + {peer};
      return true;
    }

    method RecordSuccess(peer: Peer)
      modifies this
      ensures State() == Succeeded(old(State()), peer)
    {
      if peer !in states { return; }
      var state := states[peer];
      states := states[peer := state.(failures := 0, health := Healthy, recoveringSince := None, circuit := Closed)];
      recoveringInFlight := recoveringInFlight - {peer};
      capacityCounters := capacityCounters - {peer};
    }

    method RecordFailure(peer: Peer, now: int)
      modifies this
      ensures State() == Failed(old(State()), peer, now)
    {
      if peer !in states { return; }
      var state := states[peer].(failures := states[peer].failures + 1, lastFailureAt := Some(now));
      recoveringInFlight := recoveringInFlight - {peer};
      if state.circuit == Recovering {
        state := state.(circuit := Open, recoveringSince := None);
      } else if state.circuit == Desensitized {
        if state.failures >= config.hard {
          state := state.(circuit := Open, health := Unhealthy);
          capacityCounters := capacityCounters - {peer};
        }
      } else if state.circuit == Closed {
        if SoftRange(config, state.failures) {
          state := state.(circuit := Desensitized);
          capacityCounters := capacityCounters[peer := 0];
        } else if state.failures >= config.hard {
          state := state.(circuit := Open, health := Unhealthy);
        }
      }
      states := states[peer := state];
    }
  }
}
