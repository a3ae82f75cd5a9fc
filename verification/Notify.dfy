/**
 * The sending gateway: an `a2a-transfer://` message goes out only after the receiving
 * gateway's own store has said that the file is committed. Every request and answer may be
 * delayed between its steps, and the payload transfer may claim anything.
 */
module Notify {
  import opened Prelude
  import opened TransferStates
  import opened ControlPlane

  /** A status request; unless the transfer is active its answer is a record loaded later. */
  datatype Query = Pending(id: Id) | Replied(id: Id, status: Status)

  datatype Phase =
    | Idle
    | Preparing(p: nat)
    | Sending
    | Checking(query: Option<nat>)
    | Polling(query: Option<nat>)
    | Notified
    | Abandoned

  datatype System = System(own: Offer, g: Gateway, queries: seq<Query>, phase: Phase)

  datatype Step =
    | Receiver(e: Event)
    | Ask(id: Id)
    | LoadStatus(q: nat)
    | SenderPrepares
    | SenderHears
    | PayloadEnds(ok: bool)
    | SenderAsks
    | SenderReads
    | SenderAbandons

  predicate SaysCommitted(s: Status) { s.Recorded? && IsCommitted(s.state) }

  function Asked(s: System, id: Id): System {
    s.(queries := s.queries + [if id in s.g.active then Replied(id, Status.Receiving) else Pending(id)])
  }

  function StatusLoaded(s: System, q: nat): System {
    if q < |s.queries| && s.queries[q].Pending? then
      var id := s.queries[q].id;
      var status := if id in s.g.records then Recorded(s.g.records[id].state) else NotFound;
      s.(queries := s.queries[q := Replied(id, status)])
    else s
  }

  function AtReceiver(s: System, e: Event): System { s.(g := Take(s.g, e)) }

  function Heard(s: System): System {
    if s.phase.Preparing? && s.phase.p < |s.g.prepares| && s.g.prepares[s.phase.p].Answered? then
      match s.g.prepares[s.phase.p].answer
      case AlreadyCommitted => s.(phase := Polling(None))
      case Ready => s.(phase := Sending)
      case _ => s.(phase := Abandoned)
    else s
  }

  function Read(s: System): System {
    match s.phase
    case Checking(Some(q)) =>
      if q < |s.queries| && s.queries[q].Replied? then
        if SaysCommitted(s.queries[q].status) then s.(phase := Polling(None))
        else AtReceiver(s.(phase := Abandoned), Cancel(s.own.id))
      else s
    case Polling(Some(q)) =>
      if q < |s.queries| && s.queries[q].Replied? then
        s.(phase := if SaysCommitted(s.queries[q].status) then Notified else Polling(None))
      else s
    case _ => s
  }

  function Asks(s: System): System {
    match s.phase
    case Checking(None) => Asked(s, s.own.id).(phase := Checking(Some(|s.queries|)))
    case Polling(None) => Asked(s, s.own.id).(phase := Polling(Some(|s.queries|)))
    case _ => s
  }

  function Happens(s: System, e: Step): System {
    match e
    case Receiver(event) => AtReceiver(s, event)
    case Ask(id) => Asked(s, id)
    case LoadStatus(q) => StatusLoaded(s, q)
    case SenderPrepares =>
      if s.phase.Idle? then s.(g := Arrived(s.g, s.own), phase := Preparing(|s.g.prepares|)) else s
    case SenderHears => Heard(s)
    case PayloadEnds(ok) =>
      if s.phase.Sending? then s.(phase := if ok then Polling(None) else Checking(None)) else s
    case SenderAsks => Asks(s)
    case SenderReads => Read(s)
    case SenderAbandons => if s.phase.Notified? then s else s.(phase := Abandoned)
  }

  function RunSystem(s: System, steps: seq<Step>): System
    decreases steps
  {
    if steps == [] then s else RunSystem(Happens(s, steps[0]), steps[1..])
  }

  // ---- The invariant -----------------------------------------------------------------

  /** Nobody else prepares a transfer under the sender's freshly drawn id. */
  predicate OwnIdOnly(own: Offer, e: Step) { e.Receiver? && e.e.Arrive? ==> e.e.offer.id != own.id }

  ghost predicate Untouched(g: Gateway, id: Id) {
    id !in g.records && forall n | 0 <= n < |g.receives| :: g.receives[n].id != id
  }

  ghost predicate OnePrepare(g: Gateway, id: Id) {
    forall i, j | 0 <= i < j < |g.prepares| :: !(g.prepares[i].offer.id == id && g.prepares[j].offer.id == id)
  }

  predicate Undecided(p: Prepare) { p.Asked? || p.Loaded? }

  /** Until the one prepare is decided nothing has happened under the id. */
  ghost predicate FirstUse(g: Gateway, id: Id) {
    forall p | 0 <= p < |g.prepares| && g.prepares[p].offer.id == id && Undecided(g.prepares[p]) ::
      Untouched(g, id)
  }

  ghost predicate OwnedFor(g: Gateway, id: Id) {
    forall n: nat | n < |g.receives| && g.receives[n].id == id :: OwnsRecord(g, n)
  }

  ghost predicate GatewayOwn(g: Gateway, id: Id) {
    GatewayOk(g) && OnePrepare(g, id) && FirstUse(g, id) && OwnedFor(g, id)
  }

  ghost predicate SystemOk(s: System) {
    && GatewayOwn(s.g, s.own.id)
    && (s.phase.Idle? ==>
          Untouched(s.g, s.own.id) && forall p | 0 <= p < |s.g.prepares| :: s.g.prepares[p].offer.id != s.own.id)
    && (forall q | 0 <= q < |s.queries| && s.queries[q].Replied? && s.queries[q].id == s.own.id
                   && SaysCommitted(s.queries[q].status) :: CommittedIn(s.g.records, s.own.id))
    && ((s.phase.Checking? || s.phase.Polling?) && s.phase.query.Some? && s.phase.query.value < |s.queries| ==>
          s.queries[s.phase.query.value].id == s.own.id)
    && ((s.phase.Checking? || s.phase.Polling?) && s.phase.query.Some? ==> s.phase.query.value < |s.queries|)
    && (s.phase.Notified? ==> CommittedIn(s.g.records, s.own.id))
  }

  /** Under an id prepared once, a committed record stays committed. */
  lemma OwnCommitKept(g: Gateway, e: Event, id: Id)
    requires OwnedFor(g, id) && CommittedIn(g.records, id)
    ensures CommittedIn(Take(g, e).records, id)
  {
    LosesIff(g, e, id);
    if e.Save? && e.n < |g.receives| && g.receives[e.n].id == id { assert OwnsRecord(g, e.n); }
  }

  lemma OwnedForKept(g: Gateway, e: Event, id: Id)
    requires GatewayOk(g) && OwnedFor(g, id) && !(Stale(g, e) && g.prepares[e.p].offer.id == id)
    ensures OwnedFor(Take(g, e), id)
  {
    var g' := Take(g, e);
    ReceivesKept(g, e);
    forall n: nat | n < |g'.receives| && g'.receives[n].id == id ensures OwnsRecord(g', n) {
      if n < |g.receives| {
        assert OwnsRecord(g, n);
        OwnsKept(g, e, n);
      }
    }
  }

  /** Prepares keep their offer and are decided once; a new one is an arrival. */
  lemma OffersKept(g: Gateway, e: Event)
    ensures var g' := Take(g, e);
            && |g'.prepares| == |g.prepares| + (if e.Arrive? then 1 else 0)
            && (forall p | 0 <= p < |g.prepares| ::
                  g'.prepares[p].offer == g.prepares[p].offer
                  && (Undecided(g'.prepares[p]) ==>
                        Undecided(g.prepares[p]) && (e == Decide(p) ==> g.prepares[p].Asked?)))
            && (e.Arrive? ==> g'.prepares[|g.prepares|].offer == e.offer)
  {
  }

  lemma UntouchedKept(g: Gateway, e: Event, id: Id)
    requires Untouched(g, id)
    requires e.Decide? && e.p < |g.prepares| && g.prepares[e.p].Loaded? ==> g.prepares[e.p].offer.id != id
    ensures Untouched(Take(g, e), id)
  {
  }

  lemma PreparesKept(g: Gateway, e: Event, id: Id)
    requires OnePrepare(g, id) && FirstUse(g, id)
    requires e.Arrive? ==> e.offer.id != id
    ensures OnePrepare(Take(g, e), id) && FirstUse(Take(g, e), id)
  {
    var g' := Take(g, e);
    OffersKept(g, e);
    forall p | 0 <= p < |g'.prepares| && g'.prepares[p].offer.id == id && Undecided(g'.prepares[p])
      ensures Untouched(g', id)
    {
      assert g.prepares[p].offer.id == id && Undecided(g.prepares[p]);
      UntouchedKept(g, e, id);
    }
  }

  lemma GatewayOwnKept(g: Gateway, e: Event, id: Id)
    requires GatewayOwn(g, id) && (e.Arrive? ==> e.offer.id != id)
    ensures GatewayOwn(Take(g, e), id)
  {
    TakeOk(g, e);
    PreparesKept(g, e, id);
    OwnedForKept(g, e, id);
  }

  lemma IdleKept(g: Gateway, e: Event, id: Id)
    requires Untouched(g, id) && (forall p | 0 <= p < |g.prepares| :: g.prepares[p].offer.id != id)
    requires e.Arrive? ==> e.offer.id != id
    ensures Untouched(Take(g, e), id)
    ensures forall p | 0 <= p < |Take(g, e).prepares| :: Take(g, e).prepares[p].offer.id != id
  {
    UntouchedKept(g, e, id);
    OffersKept(g, e);
  }

  lemma ReceiverStepOk(s: System, e: Event)
    requires SystemOk(s) && (e.Arrive? ==> e.offer.id != s.own.id)
    ensures SystemOk(AtReceiver(s, e))
  {
    GatewayOwnKept(s.g, e, s.own.id);
    if CommittedIn(s.g.records, s.own.id) { OwnCommitKept(s.g, e, s.own.id); }
    if s.phase.Idle? { IdleKept(s.g, e, s.own.id); }
  }

  lemma OwnArriveOk(s: System)
    requires SystemOk(s) && s.phase.Idle?
    ensures SystemOk(s.(g := Arrived(s.g, s.own), phase := Preparing(|s.g.prepares|)))
  {
    var g' := Arrived(s.g, s.own);
    PrepareOk(s.g, Arrive(s.own));
  }

  /** Asking, loading a status and the sender's own progress leave the gateway as it is. */
  ghost predicate AnswersOk(s: System) {
    forall q | 0 <= q < |s.queries| && s.queries[q].Replied? && s.queries[q].id == s.own.id
               && SaysCommitted(s.queries[q].status) :: CommittedIn(s.g.records, s.own.id)
  }

  lemma QueryOk(s: System, e: Step)
    requires SystemOk(s) && (e.Ask? || e.LoadStatus? || e.SenderAsks?)
    ensures SystemOk(Happens(s, e))
  {
    assert AnswersOk(Happens(s, e));
  }

  lemma PhaseOk(s: System, e: Step)
    requires SystemOk(s) && (e.SenderHears? || e.PayloadEnds? || e.SenderAbandons?)
    ensures SystemOk(Happens(s, e))
  {
    assert Happens(s, e).g == s.g && Happens(s, e).queries == s.queries;
  }

  lemma AnswerOk(s: System, phase: Phase)
    requires SystemOk(s) && !s.phase.Idle? && !phase.Idle?
    requires phase.Checking? || phase.Polling? ==> phase.query == None
    requires phase.Notified? ==> CommittedIn(s.g.records, s.own.id)
    ensures SystemOk(s.(phase := phase))
  {
  }

  lemma CheckingReadOk(s: System, q: nat)
    requires SystemOk(s) && s.phase == Checking(Some(q))
    ensures SystemOk(Read(s))
  {
    if s.queries[q].Replied? {
      if SaysCommitted(s.queries[q].status) {
        AnswerOk(s, Polling(None));
      } else {
        AnswerOk(s, Abandoned);
        ReceiverStepOk(s.(phase := Abandoned), Cancel(s.own.id));
      }
    }
  }

  lemma PollingReadOk(s: System, q: nat)
    requires SystemOk(s) && s.phase == Polling(Some(q))
    ensures SystemOk(Read(s))
  {
    if s.queries[q].Replied? {
      AnswerOk(s, if SaysCommitted(s.queries[q].status) then Notified else Polling(None));
    }
  }

  lemma ReadOk(s: System)
    requires SystemOk(s)
    ensures SystemOk(Read(s))
  {
    match s.phase
    case Checking(Some(q)) => CheckingReadOk(s, q);
    case Polling(Some(q)) => PollingReadOk(s, q);
    case _ =>
  }

  lemma HappensOk(s: System, e: Step)
    requires SystemOk(s) && OwnIdOnly(s.own, e)
    ensures SystemOk(Happens(s, e)) && Happens(s, e).own == s.own
  {
    match e
    case Receiver(event) => ReceiverStepOk(s, event);
    case SenderPrepares => if s.phase.Idle? { OwnArriveOk(s); }
    case SenderReads => ReadOk(s);
    case _ =>
      if e.Ask? || e.LoadStatus? || e.SenderAsks? { QueryOk(s, e); } else { PhaseOk(s, e); }
  }

  lemma {:induction false} RunSystemOk(s: System, steps: seq<Step>)
    requires SystemOk(s) && forall e <- steps :: OwnIdOnly(s.own, e)
    ensures SystemOk(RunSystem(s, steps)) && RunSystem(s, steps).own == s.own
    decreases steps
  {
    if steps != [] {
      assert steps[0] in steps;
      forall e <- steps[1..] ensures OwnIdOnly(s.own, e) { assert e in steps; }
      HappensOk(s, steps[0]);
      RunSystemOk(Happens(s, steps[0]), steps[1..]);
    }
  }

  /**
   * Notify only after commit: with a fresh id, whatever other transfers, cancels, resolves,
   * delays and payload outcomes are interleaved, a sent notification means that the
   * receiver's record is DATA_COMMITTED or COMPLETED, then and ever after.
   */
  lemma NotifyOnlyAfterCommit(own: Offer, limits: Limits, records: map<Id, Entry>, steps: seq<Step>)
    requires LimitsOk(limits) && own.id !in records && forall e <- steps :: OwnIdOnly(own, e)
    ensures var s := RunSystem(System(own, Fresh(limits, records), [], Idle), steps);
            s.phase.Notified? ==> CommittedIn(s.g.records, own.id)
  {
    RunSystemOk(System(own, Fresh(limits, records), [], Idle), steps);
  }

  // ---- What the sender does ----------------------------------------------------------

  /**
   * A status request is answered at once exactly while an unreleased receive has the id, and
   * otherwise with the record as it is loaded later.
   */
  lemma StatusAnswers(s: System, id: Id, q: nat)
    requires ActiveOk(s.g)
    ensures Happens(s, Ask(id))
         == s.(queries := s.queries + [if IdInUse(s.g, id) then Replied(id, Status.Receiving) else Pending(id)])
    ensures var s' := Happens(s, LoadStatus(q));
            if q < |s.queries| && s.queries[q].Pending? then
              var asked := s.queries[q].id;
              s' == s.(queries := s.queries[q := Replied(asked, if asked in s.g.records
                                                                then Recorded(s.g.records[asked].state)
                                                                else NotFound)])
            else s' == s
  {
    UsedIffActive(s.g, id);
  }

  /** The answer to request `q` says that the transfer is committed. */
  predicate Confirmed(s: System, q: nat) {
    && q < |s.queries| && s.queries[q].Replied?
    && s.queries[q].status in {Recorded(DATA_COMMITTED), Recorded(COMPLETED)}
  }

  /**
   * Up to the payload's end: the sender prepares once, sends only when the receiver is ready,
   * waits for a confirmation after success or for a file that was there already, and checks
   * for one after a failure.
   */
  lemma SenderDecides(s: System, ok: bool)
    ensures s.phase.Idle? ==>
              Happens(s, SenderPrepares) == s.(g := Take(s.g, Arrive(s.own)), phase := Preparing(|s.g.prepares|))
    ensures s.phase.Preparing? && s.phase.p < |s.g.prepares| ==>
              var prepare := s.g.prepares[s.phase.p];
              Happens(s, SenderHears)
                == if !prepare.Answered? then s
                   else s.(phase := if prepare.answer == Ready then Sending
                                    else if prepare.answer == AlreadyCommitted then Polling(None) else Abandoned)
    ensures s.phase.Sending? ==>
              Happens(s, PayloadEnds(ok)) == s.(phase := if ok then Polling(None) else Checking(None))
    ensures !s.phase.Idle? ==> Happens(s, SenderPrepares) == s
    ensures !s.phase.Preparing? ==> Happens(s, SenderHears) == s
    ensures !s.phase.Sending? ==> Happens(s, PayloadEnds(ok)) == s
    ensures Happens(s, SenderAbandons) == s.(phase := if s.phase.Notified? then Notified else Abandoned)
  {
  }

  /**
   * After it: a check that does not confirm the commit abandons the transfer and asks the
   * receiver to stop; a wait goes on until an answer confirms, and only then notifies.
   */
  lemma AnswersDecide(s: System)
    requires ActiveOk(s.g)
    ensures (s.phase == Checking(None) || s.phase == Polling(None)) ==>
              Happens(s, SenderAsks)
                == Happens(s, Ask(s.own.id)).(phase := if s.phase.Checking? then Checking(Some(|s.queries|))
                                                       else Polling(Some(|s.queries|)))
    ensures (s.phase.Checking? || s.phase.Polling?) && s.phase.query.Some? && s.phase.query.value < |s.queries| ==>
              var q, s' := s.phase.query.value, Happens(s, SenderReads);
              if s.queries[q].Pending? then s' == s
              else if s.phase.Polling? then s' == s.(phase := if Confirmed(s, q) then Notified else Polling(None))
              else if Confirmed(s, q) then s' == s.(phase := Polling(None))
              else
                && s' == s.(phase := Abandoned, g := Take(s.g, Cancel(s.own.id)))
                && forall n | n in Unreleased(s.g) && s.g.receives[n].id == s.own.id :: s'.g.receives[n].canceled
  {
    CancelAsks(s.g, s.own.id);
  }

  lemma RunTwo(s: System, a: Step, b: Step, rest: seq<Step>)
    ensures RunSystem(s, [a, b] + rest) == RunSystem(Happens(Happens(s, a), b), rest)
  {
    var steps := [a, b] + rest;
    assert steps[1..] == [b] + rest && steps[1..][1..] == rest;
    assert RunSystem(s, steps) == RunSystem(Happens(s, a), steps[1..]);
  }

  lemma RunOne(s: System, a: Step)
    ensures RunSystem(s, [a]) == Happens(s, a)
  {
    assert RunSystem(s, [a]) == RunSystem(Happens(s, a), []);
  }

  /** Asked anew, a committed transfer is confirmed and the sender notifies. */
  lemma AsksAndNotifies(s: System)
    requires s.phase == Polling(None) && CommittedIn(s.g.records, s.own.id) && s.own.id !in s.g.active
    ensures RunSystem(s, Announcing(s)).phase.Notified?
  {
    var asked := Happens(s, SenderAsks);
    var loaded := Happens(asked, LoadStatus(|s.queries|));
    assert loaded.queries[|s.queries|] == Replied(s.own.id, Recorded(s.g.records[s.own.id].state));
    assert Happens(loaded, SenderReads).phase.Notified?;
    assert Announcing(s) == [SenderAsks, LoadStatus(|s.queries|)] + [SenderReads];
    RunTwo(s, SenderAsks, LoadStatus(|s.queries|), [SenderReads]);
    RunOne(loaded, SenderReads);
  }

  function Announcing(s: System): seq<Step> { [SenderAsks, LoadStatus(|s.queries|), SenderReads] }

  /**
   * Progress: once the receiver has committed and released the transfer, a sender that waits,
   * or whose payload ends well, can always go on to notify by its own steps alone.
   */
  lemma CommitIsAnnounced(s: System) returns (steps: seq<Step>)
    requires CommittedIn(s.g.records, s.own.id) && s.own.id !in s.g.active
    requires s.phase.Sending? || s.phase == Polling(None)
             || (s.phase.Polling? && s.phase.query.value < |s.queries|)
    ensures forall e <- steps :: e.PayloadEnds? || e.SenderAsks? || e.LoadStatus? || e.SenderReads?
    ensures RunSystem(s, steps).phase.Notified?
  {
    if s.phase == Polling(None) {
      AsksAndNotifies(s);
      steps := Announcing(s);
    } else {
      var first := if s.phase.Sending? then PayloadEnds(true) else LoadStatus(s.phase.query.value);
      var s1 := Happens(s, first);
      var s2 := Happens(s1, SenderReads);
      if s2.phase.Notified? {
        steps := [first, SenderReads];
        assert steps == [first, SenderReads] + [];
        RunTwo(s, first, SenderReads, []);
      } else {
        AsksAndNotifies(s2);
        steps := [first, SenderReads] + Announcing(s2);
        RunTwo(s, first, SenderReads, Announcing(s2));
      }
    }
  }

  /** Everything the two gateways do for one file, up to its commit. */
  function Handover(offer: Offer): seq<Step> {
    [SenderPrepares, Receiver(Load(0))] + ([Receiver(Decide(0)), Receiver(Save(0, PREPARING))]
    + ([Receiver(Save(0, READY)), Receiver(Respond(0))] + ([SenderHears, Receiver(Save(0, TRANSFERRING))]
    + ([Receiver(Save(0, COMMITTING)), Receiver(Save(0, DATA_COMMITTED))]
    + ([Receiver(Stop(0)), Receiver(Release(0))] + [])))))
  }

  predicate Welcome(l: Limits, offer: Offer) {
    LimitsOk(l) && Valid(l, offer) && (l.device.Some? ==> l.device.value == offer.details.target)
  }

  lemma HandoverPrepares(offer: Offer, l: Limits)
    requires Welcome(l, offer)
    ensures Take(Take(Arrived(Fresh(l, map[]), offer), Load(0)), Decide(0)) == Started0(l, offer)
  {
    assert Arrived(Fresh(l, map[]), offer).prepares == [Prepare.Asked(offer)];
    assert Take(Arrived(Fresh(l, map[]), offer), Load(0)).prepares == [Loaded(offer, None)];
  }

  function At(own: Offer, g: Gateway, phase: Phase): System { System(own, g, [], phase) }

  lemma HandoverAdmits(own: Offer, l: Limits)
    requires Welcome(l, own)
    ensures var s := Happens(Happens(At(own, Fresh(l, map[]), Idle), SenderPrepares), Receiver(Load(0)));
            Happens(Happens(s, Receiver(Decide(0))), Receiver(Save(0, PREPARING)))
              == At(own, SavedBy(Started0(l, own), 0, PREPARING), Preparing(0))
  {
    HandoverPrepares(own, l);
  }

  lemma HandoverReady(own: Offer, l: Limits)
    requires own.details.size >= 0
    ensures var s := At(own, SavedBy(Started0(l, own), 0, PREPARING), Preparing(0));
            Happens(Happens(s, Receiver(Save(0, READY))), Receiver(Respond(0)))
              == At(own, Told(Single(l, own, READY, Saved(READY)), own), Preparing(0))
  {
    RaceSaves(l, own);
    var ready := Single(l, own, READY, Saved(READY));
    assert Take(ready, Respond(0)).prepares == [Answered(own, Ready)];
  }

  function Told(g: Gateway, own: Offer): Gateway { g.(prepares := [Answered(own, Ready)]) }

  lemma HandoverSends(own: Offer, l: Limits)
    requires own.details.size >= 0
    ensures var s := At(own, Told(Single(l, own, READY, Saved(READY)), own), Preparing(0));
            Happens(Happens(s, SenderHears), Receiver(Save(0, TRANSFERRING)))
              == At(own, Told(Single(l, own, TRANSFERRING, Saved(TRANSFERRING)), own), Sending)
  {
  }

  lemma HandoverPlaces(own: Offer, l: Limits)
    requires own.details.size >= 0
    ensures var s := At(own, Told(Single(l, own, TRANSFERRING, Saved(TRANSFERRING)), own), Sending);
            Happens(Happens(s, Receiver(Save(0, COMMITTING))), Receiver(Save(0, DATA_COMMITTED)))
              == At(own, Told(Single(l, own, DATA_COMMITTED, Saved(DATA_COMMITTED)), own), Sending)
  {
  }

  lemma HandoverEnds(own: Offer, l: Limits)
    requires own.details.size >= 0
    ensures var s := At(own, Told(Single(l, own, DATA_COMMITTED, Saved(DATA_COMMITTED)), own), Sending);
            Happens(Happens(s, Receiver(Stop(0))), Receiver(Release(0)))
              == At(own, Committed0(l, own, [Answered(own, Ready)]), Sending)
  {
    RaceReleases(l, own, [Answered(own, Ready)]);
  }

  lemma HandoverCommits(own: Offer, l: Limits)
    requires Welcome(l, own)
    ensures RunSystem(At(own, Fresh(l, map[]), Idle), Handover(own))
         == At(own, Committed0(l, own, [Answered(own, Ready)]), Sending)
  {
    HandoverAdmits(own, l);
    HandoverReady(own, l);
    HandoverSends(own, l);
    HandoverPlaces(own, l);
    HandoverEnds(own, l);
    HandoverRuns(At(own, Fresh(l, map[]), Idle), own);
  }

  lemma HandoverRuns(s: System, own: Offer)
    ensures var s1 := Happens(Happens(s, SenderPrepares), Receiver(Load(0)));
            var s2 := Happens(Happens(s1, Receiver(Decide(0))), Receiver(Save(0, PREPARING)));
            var s3 := Happens(Happens(s2, Receiver(Save(0, READY))), Receiver(Respond(0)));
            var s4 := Happens(Happens(s3, SenderHears), Receiver(Save(0, TRANSFERRING)));
            var s5 := Happens(Happens(s4, Receiver(Save(0, COMMITTING))), Receiver(Save(0, DATA_COMMITTED)));
            RunSystem(s, Handover(own)) == Happens(Happens(s5, Receiver(Stop(0))), Receiver(Release(0)))
  {
    var s1 := Happens(Happens(s, SenderPrepares), Receiver(Load(0)));
    var s2 := Happens(Happens(s1, Receiver(Decide(0))), Receiver(Save(0, PREPARING)));
    var s3 := Happens(Happens(s2, Receiver(Save(0, READY))), Receiver(Respond(0)));
    var s4 := Happens(Happens(s3, SenderHears), Receiver(Save(0, TRANSFERRING)));
    var s5 := Happens(Happens(s4, Receiver(Save(0, COMMITTING))), Receiver(Save(0, DATA_COMMITTED)));
    var six := [Receiver(Stop(0)), Receiver(Release(0))] + [];
    var five := [Receiver(Save(0, COMMITTING)), Receiver(Save(0, DATA_COMMITTED))] + six;
    var four := [SenderHears, Receiver(Save(0, TRANSFERRING))] + five;
    var three := [Receiver(Save(0, READY)), Receiver(Respond(0))] + four;
    var two := [Receiver(Decide(0)), Receiver(Save(0, PREPARING))] + three;
    RunTwo(s, SenderPrepares, Receiver(Load(0)), two);
    RunTwo(s1, Receiver(Decide(0)), Receiver(Save(0, PREPARING)), three);
    RunTwo(s2, Receiver(Save(0, READY)), Receiver(Respond(0)), four);
    RunTwo(s3, SenderHears, Receiver(Save(0, TRANSFERRING)), five);
    RunTwo(s4, Receiver(Save(0, COMMITTING)), Receiver(Save(0, DATA_COMMITTED)), six);
    RunTwo(s5, Receiver(Stop(0)), Receiver(Release(0)), []);
  }

  lemma {:induction false} RunAppend(s: System, a: seq<Step>, b: seq<Step>)
    ensures RunSystem(s, a + b) == RunSystem(RunSystem(s, a), b)
    decreases a
  {
    if a == [] {
      assert a + b == b;
    } else {
      assert (a + b)[1..] == a[1..] + b;
      RunAppend(Happens(s, a[0]), a[1..], b);
    }
  }

  /** The hypothesis of the notify theorem is met: every valid offer has a run that ends notified. */
  lemma EveryFileIsAnnounced(own: Offer, limits: Limits) returns (steps: seq<Step>)
    requires LimitsOk(limits) && Valid(limits, own)
    requires limits.device.Some? ==> limits.device.value == own.details.target
    ensures forall e <- steps :: OwnIdOnly(own, e)
    ensures RunSystem(System(own, Fresh(limits, map[]), [], Idle), steps).phase.Notified?
  {
    HandoverCommits(own, limits);
    var s := System(own, Committed0(limits, own, [Answered(own, Ready)]), [], Sending);
    var rest := CommitIsAnnounced(s);
    RunAppend(System(own, Fresh(limits, map[]), [], Idle), Handover(own), rest);
    steps := Handover(own) + rest;
  }

  // ---- The sending routine -----------------------------------------------------------

  datatype Outcome = PrepareFailed | PayloadFailed | NotConfirmed | NotifyFailed | Delivered

  /** One round of the wait: the clock at its start, and the receiver's answer if any came. */
  datatype Poll = Poll(now: int, reply: Option<Status>)

  predicate Confirms(reply: Option<Status>) {
    reply == Some(Recorded(DATA_COMMITTED)) || reply == Some(Recorded(COMPLETED))
  }

  /** The bytes may be there: already committed, sent, or committed although sending failed. */
  predicate MayBeThere(prepared: Option<Answer>, sent: bool, afterFailure: Option<Status>) {
    prepared == Some(AlreadyCommitted) || (prepared == Some(Ready) && (sent || Confirms(afterFailure)))
  }

  /** A confirmation comes in round `k`, and the deadline had not passed before. */
  predicate ConfirmedAt(polls: seq<Poll>, deadline: int, k: nat) {
    && k < |polls| && Confirms(polls[k].reply)
    && (forall j | 0 <= j <= k :: polls[j].now < deadline)
  }

  /**
   * sendStreamFileCore after the file was inspected. `prepared`, `sent`, `afterFailure`,
   * `polls` and `accepted` are the answers of the outside world; `polls` lists the rounds
   * until the clock passes the deadline.
   */
  method SendStreamFile(prepared: Option<Answer>, sent: bool, afterFailure: Option<Status>, polls: seq<Poll>,
                        deadline: int, accepted: bool)
    returns (outcome: Outcome, canceled: bool, notified: bool)
    ensures notified <==>
              MayBeThere(prepared, sent, afterFailure) && exists k: nat :: ConfirmedAt(polls, deadline, k)
    ensures canceled <==> prepared == Some(Ready) && !sent && !Confirms(afterFailure)
    ensures outcome == Delivered <==> notified && accepted
    ensures outcome == NotConfirmed <==> MayBeThere(prepared, sent, afterFailure) && !notified
    ensures outcome == PayloadFailed <==> canceled
    ensures outcome == PrepareFailed <==> prepared != Some(Ready) && prepared != Some(AlreadyCommitted)
  {
    canceled, notified := false, false;
    if prepared == None || (prepared.value != Ready && prepared.value != AlreadyCommitted) {
      return PrepareFailed, canceled, notified;
    }
    var dataCommitted := prepared.value == AlreadyCommitted;
    if !dataCommitted {
      if sent {
        dataCommitted := true;
      } else {
        dataCommitted := afterFailure.Some? && SaysCommitted(afterFailure.value);
        if !dataCommitted {
          canceled := true;
          return PayloadFailed, canceled, notified;
        }
      }
    }
    var receiverCommitted := false;
    var i := 0;
    while i < |polls| && polls[i].now < deadline
      invariant i <= |polls| && !receiverCommitted
      invariant forall j | 0 <= j < i :: polls[j].now < deadline && !Confirms(polls[j].reply)
    {
      if polls[i].reply.Some? && SaysCommitted(polls[i].reply.value) {
        receiverCommitted := true;
        assert ConfirmedAt(polls, deadline, i);
        break;
      }
      i := i + 1;
    }
    if !receiverCommitted {
      return NotConfirmed, canceled, notified;
    }
    notified := true;
    outcome := if accepted then Delivered else NotifyFailed;
  }
}
