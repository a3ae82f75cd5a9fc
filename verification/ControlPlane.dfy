/**
 * The receiving gateway's control plane: prepare, status and cancel requests, the receives
 * they start, and the byte and slot limits that admit them. A step is the code between two
 * awaits, so a prepare decides on a record it loaded earlier.
 */
module ControlPlane {
  import opened Prelude
  import opened TransferStates
  import Commit
  import R = Recovery

  type Id = string

  /** What an offer and a record must agree on; `name` is the sanitised name. */
  datatype Details = Details(source: string, target: string, name: string, mimeType: string, size: int, sha256: string)

  /** `wellFormed`: the textual checks on ids, ticket, hash, names and expiry. */
  datatype Offer = Offer(id: Id, details: Details, wellFormed: bool)

  datatype Entry = Entry(details: Details, state: State)

  datatype Limits = Limits(device: Option<string>, maxFile: nat, maxCount: nat, maxBytes: nat)

  datatype Answer = Invalid | WrongDevice | Different | AlreadyCommitted | AlreadyActive | Busy | Ready | ReceiveFailed

  datatype Prepare =
    | Asked(offer: Offer)
    | Loaded(offer: Offer, existing: Option<Entry>)
    | Awaiting(offer: Offer, n: nat)
    | Answered(offer: Offer, answer: Answer)
    | Dropped(offer: Offer)

  /** One receive: the last state it saved, and how far its promise is. */
  datatype Progress = Started | Saved(state: State) | Over

  datatype Receive = Receive(
    id: Id, details: Details, progress: Progress, ready: bool, canceled: bool, released: bool)

  datatype Gateway = Gateway(
    limits: Limits,
    records: map<Id, Entry>,
    receives: seq<Receive>,
    active: map<Id, nat>,
    activeBytes: nat,
    prepares: seq<Prepare>)

  datatype Status = NotFound | Receiving | Recorded(state: State)

  datatype Event =
    | Arrive(offer: Offer)
    | Load(p: nat)
    | Decide(p: nat)
    | Save(n: nat, state: State)
    | Stop(n: nat)
    | Release(n: nat)
    | Respond(p: nat)
    | Cancel(id: Id)
    | Resolve(id: Id)
    | Restart(verified: set<Id>)

  predicate IsCommitted(state: State) { state == DATA_COMMITTED || state == COMPLETED }

  predicate CommittedIn(records: map<Id, Entry>, id: Id) { id in records && IsCommitted(records[id].state) }

  function Lookup(records: map<Id, Entry>, id: Id): Option<Entry> {
    if id in records then Some(records[id]) else None
  }

  predicate LimitsOk(l: Limits) { 1 <= l.maxCount && l.maxFile <= l.maxBytes }

  // ---- Prepare -----------------------------------------------------------------------

  predicate Valid(l: Limits, offer: Offer) { offer.wellFormed && 0 <= offer.details.size <= l.maxFile }

  function Arrived(g: Gateway, offer: Offer): Gateway {
    g.(prepares := g.prepares + [
         if !Valid(g.limits, offer) then Answered(offer, Invalid)
         else if g.limits.device.Some? && offer.details.target != g.limits.device.value
         then Answered(offer, WrongDevice)
         else Asked(offer)])
  }

  function LoadedAt(g: Gateway, p: nat): Gateway {
    if p < |g.prepares| && g.prepares[p].Asked? then
      var offer := g.prepares[p].offer;
      g.(prepares := g.prepares[p := Loaded(offer, Lookup(g.records, offer.id))])
    else g
  }

  /** The loaded record neither belongs to another offer nor is committed. */
  predicate Open(offer: Offer, existing: Option<Entry>) {
    existing.Some? ==> existing.value.details == offer.details && !IsCommitted(existing.value.state)
  }

  /** The decision after the load: admission, or the answer that refuses it. */
  predicate Admits(g: Gateway, offer: Offer, existing: Option<Entry>) {
    && Open(offer, existing) && offer.id !in g.active
    && |g.active| < g.limits.maxCount && g.activeBytes + offer.details.size <= g.limits.maxBytes
  }

  function Refusal(g: Gateway, offer: Offer, existing: Option<Entry>): Answer {
    if existing.Some? && existing.value.details != offer.details then Different
    else if existing.Some? && IsCommitted(existing.value.state) then AlreadyCommitted
    else if offer.id in g.active then AlreadyActive
    else Busy
  }

  function Admitted(g: Gateway, p: nat, offer: Offer): Gateway
    requires p < |g.prepares| && 0 <= offer.details.size
  {
    g.(receives := g.receives + [Receive(offer.id, offer.details, Started, false, false, false)],
       active := g.active[offer.id := |g.receives|],
       activeBytes := g.activeBytes + offer.details.size,
       prepares := g.prepares[p := Awaiting(offer, |g.receives|)])
  }

  function Decided(g: Gateway, p: nat): Gateway {
    if p < |g.prepares| && g.prepares[p].Loaded? then
      var offer, existing := g.prepares[p].offer, g.prepares[p].existing;
      if offer.details.size >= 0 && Admits(g, offer, existing) then Admitted(g, p, offer)
      else g.(prepares := g.prepares[p := Answered(offer, Refusal(g, offer, existing))])
    else g
  }

  /** The response once the receive is registered with the relay, or has failed. */
  function Responded(g: Gateway, p: nat): Gateway {
    if p < |g.prepares| && g.prepares[p].Awaiting? && g.prepares[p].n < |g.receives| then
      var r := g.receives[g.prepares[p].n];
      if r.ready then g.(prepares := g.prepares[p := Answered(g.prepares[p].offer, Ready)])
      else if r.progress.Over? then g.(prepares := g.prepares[p := Answered(g.prepares[p].offer, ReceiveFailed)])
      else g
    else g
  }

  // ---- Receives ----------------------------------------------------------------------

  /**
   * The saves of a receive come in this order; it may fail at any point before its commit,
   * and fails as canceled only if it was asked to stop.
   */
  predicate MaySave(r: Receive, state: State) {
    match r.progress
    case Over => false
    case Started => state == PREPARING || state == FAILED_CONFIRMED || (state == CANCELED && r.canceled)
    case Saved(last) =>
      match state
      case READY => last == PREPARING
      case TRANSFERRING => last == READY
      case COMMITTING => last == TRANSFERRING || last == COMMITTING
      case DATA_COMMITTED => last == COMMITTING
      case FAILED_CONFIRMED => last != DATA_COMMITTED
      case CANCELED => last != DATA_COMMITTED && r.canceled
      case _ => false
  }

  function SavedBy(g: Gateway, n: nat, state: State): Gateway {
    if n < |g.receives| && MaySave(g.receives[n], state) then
      var r := g.receives[n];
      var over := state == FAILED_CONFIRMED || state == CANCELED;
      g.(records := g.records[r.id := Entry(r.details, state)],
         receives := g.receives[n := r.(progress := if over then Over else Saved(state),
                                        ready := r.ready || state == READY)])
    else g
  }

  function Stopped(g: Gateway, n: nat): Gateway {
    if n < |g.receives| && !g.receives[n].progress.Over?
    then g.(receives := g.receives[n := g.receives[n].(progress := Over)]) else g
  }

  /** The `finally` of an admission; the subtraction is clamped at zero. */
  function Released(g: Gateway, n: nat): Gateway {
    if n < |g.receives| && g.receives[n].progress.Over? && !g.receives[n].released then
      var r := g.receives[n];
      g.(receives := g.receives[n := r.(released := true)],
         active := g.active - {r.id},
         activeBytes := if g.activeBytes >= r.details.size && r.details.size >= 0
                        then g.activeBytes - r.details.size else 0)
    else g
  }

  function Canceled(g: Gateway, id: Id): Gateway {
    if id in g.active && g.active[id] < |g.receives| then
      g.(receives := g.receives[g.active[id] := g.receives[g.active[id]].(canceled := true)])
    else g
  }

  function Resolved(g: Gateway, id: Id): Gateway {
    if CommittedIn(g.records, id) then g.(records := g.records[id := g.records[id].(state := COMPLETED)]) else g
  }

  /** What recovery makes of a record, given whether the file it names is verified as its own. */
  function AfterRestart(state: State, verified: bool): State {
    if state == DATA_COMMITTED || state == COMPLETED || state == FAILED_CONFIRMED || state == CANCELED then state
    else if state == COMMITTING && verified then DATA_COMMITTED
    else FAILED_CONFIRMED
  }

  lemma RestartIsRecovery(setting: R.Setting, fs: Commit.FS, r: R.Record)
    ensures AfterRestart(r.state, R.Verified(setting, fs, r)) == R.Recovered(setting, fs, r).state
  {
  }

  /**
   * The gateway stops and comes back: no receive runs and no prepare waits any more, and
   * every interrupted record is recovered before the next prepare.
   */
  function Restarted(g: Gateway, verified: set<Id>): Gateway {
    g.(records := map id | id in g.records ::
                    g.records[id].(state := AfterRestart(g.records[id].state, id in verified)),
       receives := seq(|g.receives|, n requires 0 <= n < |g.receives| =>
                         g.receives[n].(progress := Over, released := true)),
       active := map[], activeBytes := 0,
       prepares := seq(|g.prepares|, p requires 0 <= p < |g.prepares| =>
                         if g.prepares[p].Answered? then g.prepares[p] else Dropped(g.prepares[p].offer)))
  }

  function StatusOf(g: Gateway, id: Id): Status {
    if id in g.active then Receiving
    else if id in g.records then Recorded(g.records[id].state)
    else NotFound
  }

  function Take(g: Gateway, e: Event): Gateway {
    match e
    case Arrive(offer) => Arrived(g, offer)
    case Load(p) => LoadedAt(g, p)
    case Decide(p) => Decided(g, p)
    case Save(n, state) => SavedBy(g, n, state)
    case Stop(n) => Stopped(g, n)
    case Release(n) => Released(g, n)
    case Respond(p) => Responded(g, p)
    case Cancel(id) => Canceled(g, id)
    case Resolve(id) => Resolved(g, id)
    case Restart(verified) => Restarted(g, verified)
  }

  function Run(g: Gateway, events: seq<Event>): Gateway
    decreases events
  {
    if events == [] then g else Run(Take(g, events[0]), events[1..])
  }

  /** After recovery: the durable records, nothing active. */
  function Fresh(limits: Limits, records: map<Id, Entry>): Gateway { Gateway(limits, records, [], map[], 0, []) }

  // ---- Accounting --------------------------------------------------------------------

  function Held(r: Receive): nat { if r.released || r.details.size < 0 then 0 else r.details.size }

  function Sizes(receives: seq<Receive>): seq<nat> {
    seq(|receives|, i requires 0 <= i < |receives| => Held(receives[i]))
  }

  /** The active map lists exactly the receives that are not yet released. */
  ghost predicate ActiveOk(g: Gateway) {
    && (forall id <- g.active ::
          g.active[id] < |g.receives| && g.receives[g.active[id]].id == id && !g.receives[g.active[id]].released)
    && (forall n | 0 <= n < |g.receives| && !g.receives[n].released ::
          g.receives[n].id in g.active && g.active[g.receives[n].id] == n)
    && (forall n | 0 <= n < |g.receives| && g.receives[n].released :: g.receives[n].progress.Over?)
  }

  ghost predicate SizesOk(g: Gateway) {
    && (forall p | 0 <= p < |g.prepares| && (g.prepares[p].Asked? || g.prepares[p].Loaded?) ::
          0 <= g.prepares[p].offer.details.size <= g.limits.maxFile)
    && (forall n | 0 <= n < |g.receives| :: 0 <= g.receives[n].details.size)
  }

  ghost predicate GatewayOk(g: Gateway) {
    && LimitsOk(g.limits) && ActiveOk(g) && SizesOk(g)
    && |g.active| <= g.limits.maxCount && g.activeBytes <= g.limits.maxBytes
    && g.activeBytes == Sum(Sizes(g.receives))
  }

  lemma SumBounds(s: seq<nat>, i: nat)
    requires i < |s|
    ensures s[i] <= Sum(s)
  {
    SumUpdate(s, i, 0);
  }

  lemma AdmitOk(g: Gateway, p: nat, offer: Offer, existing: Option<Entry>)
    requires GatewayOk(g) && p < |g.prepares| && 0 <= offer.details.size && Admits(g, offer, existing)
    ensures GatewayOk(Admitted(g, p, offer))
  {
    var g' := Admitted(g, p, offer);
    var s, s' := Sizes(g.receives), Sizes(g'.receives);
    assert s'[..|s'| - 1] == s;
  }

  /** The step changes no admission: only records, or how far a receive is. */
  ghost predicate SameAdmissions(g: Gateway, g': Gateway) {
    && g'.limits == g.limits && g'.active == g.active && g'.activeBytes == g.activeBytes && g'.prepares == g.prepares
    && |g'.receives| == |g.receives|
    && (forall n | 0 <= n < |g.receives| ::
          && g'.receives[n].id == g.receives[n].id && g'.receives[n].details == g.receives[n].details
          && g'.receives[n].released == g.receives[n].released
          && (g.receives[n].progress.Over? ==> g'.receives[n].progress.Over?))
  }

  lemma SameBooks(g: Gateway, g': Gateway)
    requires GatewayOk(g) && SameAdmissions(g, g')
    ensures GatewayOk(g')
  {
    assert Sizes(g'.receives) == Sizes(g.receives);
  }

  /** A release takes out its own entry and its own bytes; the clamp never acts. */
  lemma ReleaseOk(g: Gateway, n: nat)
    requires GatewayOk(g) && n < |g.receives| && g.receives[n].progress.Over? && !g.receives[n].released
    ensures GatewayOk(Released(g, n))
    ensures g.receives[n].id in g.active && g.active[g.receives[n].id] == n
    ensures Released(g, n).activeBytes == g.activeBytes - g.receives[n].details.size
    ensures |Released(g, n).active| == |g.active| - 1
  {
    var g' := Released(g, n);
    var s := Sizes(g.receives);
    assert Sizes(g'.receives) == s[n := 0];
    SumUpdate(s, n, 0);
    SumBounds(s, n);
    var id := g.receives[n].id;
    assert g'.active[id := n] == g.active;
  }

  lemma ReceiveOk(g: Gateway, e: Event)
    requires GatewayOk(g) && (e.Save? || e.Stop? || e.Cancel? || e.Resolve?)
    ensures GatewayOk(Take(g, e))
  {
    ProgressOnly(g, e);
    SameBooks(g, Take(g, e));
  }

  lemma ProgressOnly(g: Gateway, e: Event)
    requires e.Save? || e.Stop? || e.Cancel? || e.Resolve?
    ensures SameAdmissions(g, Take(g, e))
  {
  }

  /** The step changes only prepares, and none that waits for its decision is oversized. */
  ghost predicate SameReceives(g: Gateway, g': Gateway) {
    && g'.limits == g.limits && g'.active == g.active && g'.activeBytes == g.activeBytes && g'.receives == g.receives
    && (forall p | 0 <= p < |g'.prepares| && (g'.prepares[p].Asked? || g'.prepares[p].Loaded?) ::
          0 <= g'.prepares[p].offer.details.size <= g.limits.maxFile)
  }

  lemma PreparesOnly(g: Gateway, e: Event)
    requires SizesOk(g) && (e.Arrive? || e.Load? || e.Respond?)
    ensures SameReceives(g, Take(g, e))
  {
  }

  lemma PrepareOk(g: Gateway, e: Event)
    requires GatewayOk(g) && (e.Arrive? || e.Load? || e.Respond?)
    ensures GatewayOk(Take(g, e))
  {
    PreparesOnly(g, e);
    SameReceivesOk(g, Take(g, e));
  }

  lemma SameReceivesOk(g: Gateway, g': Gateway)
    requires GatewayOk(g) && SameReceives(g, g')
    ensures GatewayOk(g')
  {
  }

  lemma DecideOk(g: Gateway, p: nat)
    requires GatewayOk(g)
    ensures GatewayOk(Decided(g, p))
  {
    if p < |g.prepares| && g.prepares[p].Loaded? {
      var offer, existing := g.prepares[p].offer, g.prepares[p].existing;
      if Admits(g, offer, existing) {
        AdmitOk(g, p, offer, existing);
      } else {
        SameReceivesOk(g, Decided(g, p));
      }
    }
  }

  lemma RestartOk(g: Gateway, verified: set<Id>)
    requires GatewayOk(g)
    ensures GatewayOk(Restarted(g, verified))
  {
    var s := Sizes(Restarted(g, verified).receives);
    forall i | 0 <= i < |s| ensures s[i] == 0 {}
    SumZero(s);
  }

  lemma TakeOk(g: Gateway, e: Event)
    requires GatewayOk(g)
    ensures GatewayOk(Take(g, e)) && Take(g, e).limits == g.limits
  {
    LimitsKept(g, e);
    match e
    case Decide(p) => DecideOk(g, p);
    case Release(n) =>
      if n < |g.receives| && g.receives[n].progress.Over? && !g.receives[n].released { ReleaseOk(g, n); }
    case Restart(verified) => RestartOk(g, verified);
    case _ =>
      if e.Arrive? || e.Load? || e.Respond? { PrepareOk(g, e); } else { ReceiveOk(g, e); }
  }

  lemma LimitsKept(g: Gateway, e: Event)
    ensures Take(g, e).limits == g.limits
  {
  }

  lemma {:induction false} RunOk(g: Gateway, events: seq<Event>)
    requires GatewayOk(g)
    ensures GatewayOk(Run(g, events)) && Run(g, events).limits == g.limits
    decreases events
  {
    if events != [] {
      TakeOk(g, events[0]);
      RunOk(Take(g, events[0]), events[1..]);
    }
  }

  /**
   * Admission: over all interleavings of prepares, receives, failures, cancels and releases,
   * the byte account is the sum of the sizes not yet released, both limits hold, and the
   * active map is exactly the set of receives not yet released.
   */
  lemma AdmissionAccounts(limits: Limits, records: map<Id, Entry>, events: seq<Event>)
    requires LimitsOk(limits)
    ensures var g := Run(Fresh(limits, records), events);
            && g.activeBytes == Sum(Sizes(g.receives)) && g.activeBytes <= limits.maxBytes
            && |g.active| <= limits.maxCount && ActiveOk(g)
  {
    RunOk(Fresh(limits, records), events);
  }

  /** The receives whose slot and bytes are taken. */
  function Unreleased(g: Gateway): set<nat> { set n: nat | n < |g.receives| && !g.receives[n].released }

  lemma {:induction false} ValuesCount(m: map<Id, nat>)
    requires forall a <- m, b <- m :: m[a] == m[b] ==> a == b
    ensures |m.Values| == |m|
  {
    if m != map[] {
      var id :| id in m;
      var rest := m - {id};
      ValuesCount(rest);
      OneKeyMore(m, id);
    }
  }

  lemma OneKeyMore(m: map<Id, nat>, id: Id)
    requires id in m && forall a <- m, b <- m :: m[a] == m[b] ==> a == b
    ensures |m| == |m - {id}| + 1 && |m.Values| == |(m - {id}).Values| + 1
  {
    var rest := m - {id};
    assert m.Keys == rest.Keys + {id};
    forall v ensures v in m.Values <==> v in rest.Values + {m[id]} {
      if v in m.Values {
        var a :| a in m && m[a] == v;
        assert a != id ==> a in rest && rest[a] == v;
      }
    }
    assert m.Values == rest.Values + {m[id]};
  }

  lemma ActiveCount(g: Gateway)
    requires ActiveOk(g)
    ensures |g.active| == |Unreleased(g)|
  {
    ValuesCount(g.active);
    forall n | n in Unreleased(g) ensures n in g.active.Values { assert g.active[g.receives[n].id] == n; }
    assert g.active.Values == Unreleased(g);
  }

  /** The loaded record is of this very file and says that it is committed. */
  predicate SaysDone(existing: Option<Entry>, details: Details) {
    && existing.Some? && existing.value.details == details
    && (existing.value.state == DATA_COMMITTED || existing.value.state == COMPLETED)
  }

  ghost predicate IdInUse(g: Gateway, id: Id) { exists n <- Unreleased(g) :: g.receives[n].id == id }

  /** One more receive of this size fits the free slots and the free bytes. */
  predicate RoomFor(g: Gateway, size: int) {
    |Unreleased(g)| < g.limits.maxCount && Sum(Sizes(g.receives)) + size <= g.limits.maxBytes
  }

  lemma UsedIffActive(g: Gateway, id: Id)
    requires ActiveOk(g)
    ensures IdInUse(g, id) <==> id in g.active
  {
    if id in g.active { assert g.active[id] in Unreleased(g); }
  }

  /**
   * Every decision on a loaded prepare, over all runs: a receive starts exactly if its record
   * is neither another file's nor committed, no unreleased receive has its id, and the
   * unreleased ones leave a slot and its bytes free; each refusal has exactly one of these
   * reasons, the first that applies.
   */
  lemma PrepareDecides(limits: Limits, records: map<Id, Entry>, events: seq<Event>, p: nat)
    requires LimitsOk(limits)
    requires var g := Run(Fresh(limits, records), events); p < |g.prepares| && g.prepares[p].Loaded?
    ensures var g := Run(Fresh(limits, records), events);
            var g', offer, existing := Take(g, Decide(p)), g.prepares[p].offer, g.prepares[p].existing;
            var other := existing.Some? && existing.value.details != offer.details;
            var done, used := SaysDone(existing, offer.details), IdInUse(g, offer.id);
            && |g'.prepares| == |g.prepares| && g'.records == g.records
            && (g'.prepares[p] == Answered(offer, Different) <==> other)
            && (g'.prepares[p] == Answered(offer, AlreadyCommitted) <==> done)
            && (g'.prepares[p] == Answered(offer, AlreadyActive) <==> !other && !done && used)
            && (g'.prepares[p] == Answered(offer, Busy) <==>
                  !other && !done && !used && !RoomFor(g, offer.details.size))
            && (g'.prepares[p].Awaiting? <==> !other && !done && !used && RoomFor(g, offer.details.size))
            && if g'.prepares[p].Awaiting? then
                 && g'.prepares[p] == Awaiting(offer, |g.receives|)
                 && g'.receives == g.receives + [Receive(offer.id, offer.details, Started, false, false, false)]
                 && Unreleased(g') == Unreleased(g) + {|g.receives|}
               else g'.receives == g.receives && g'.active == g.active
  {
    var g := Run(Fresh(limits, records), events);
    RunOk(Fresh(limits, records), events);
    ActiveCount(g);
    UsedIffActive(g, g.prepares[p].offer.id);
    AnswerDecides(g, p, IdInUse(g, g.prepares[p].offer.id), RoomFor(g, g.prepares[p].offer.details.size));
    AdmissionTakes(g, p);
  }

  lemma AnswerDecides(g: Gateway, p: nat, used: bool, room: bool)
    requires p < |g.prepares| && g.prepares[p].Loaded? && g.prepares[p].offer.details.size >= 0
    requires used <==> g.prepares[p].offer.id in g.active
    requires room <==> |g.active| < g.limits.maxCount
                       && g.activeBytes + g.prepares[p].offer.details.size <= g.limits.maxBytes
    ensures var g', offer, existing := Take(g, Decide(p)), g.prepares[p].offer, g.prepares[p].existing;
            var other := existing.Some? && existing.value.details != offer.details;
            var done := SaysDone(existing, offer.details);
            && |g'.prepares| == |g.prepares| && g'.records == g.records
            && (g'.prepares[p] == Answered(offer, Different) <==> other)
            && (g'.prepares[p] == Answered(offer, AlreadyCommitted) <==> done)
            && (g'.prepares[p] == Answered(offer, AlreadyActive) <==> !other && !done && used)
            && (g'.prepares[p] == Answered(offer, Busy) <==> !other && !done && !used && !room)
            && (g'.prepares[p].Awaiting? <==> !other && !done && !used && room)
  {
  }

  lemma AdmissionTakes(g: Gateway, p: nat)
    requires p < |g.prepares| && g.prepares[p].Loaded?
    ensures var g', offer := Take(g, Decide(p)), g.prepares[p].offer;
            && p < |g'.prepares|
            && if g'.prepares[p].Awaiting? then
                 && g'.prepares[p] == Awaiting(offer, |g.receives|)
                 && g'.receives == g.receives + [Receive(offer.id, offer.details, Started, false, false, false)]
                 && Unreleased(g') == Unreleased(g) + {|g.receives|}
               else g'.receives == g.receives && g'.active == g.active
  {
  }

  /** A valid offer is admitted when nothing is active, unless its record says otherwise. */
  lemma IdleAdmitsIff(limits: Limits, records: map<Id, Entry>, events: seq<Event>, p: nat)
    requires LimitsOk(limits)
    requires var g := Run(Fresh(limits, records), events);
             p < |g.prepares| && g.prepares[p].Loaded? && g.active == map[]
    ensures var g := Run(Fresh(limits, records), events);
            Decided(g, p).prepares[p].Awaiting? <==> Open(g.prepares[p].offer, g.prepares[p].existing)
  {
    var g := Run(Fresh(limits, records), events);
    RunOk(Fresh(limits, records), events);
    forall n | 0 <= n < |g.receives| ensures Sizes(g.receives)[n] == 0 {}
    SumZero(Sizes(g.receives));
  }

  lemma {:induction false} SumZero(s: seq<nat>)
    requires forall i | 0 <= i < |s| :: s[i] == 0
    ensures Sum(s) == 0
  {
    if s != [] { SumZero(s[..|s| - 1]); }
  }

  // ---- The other requests ------------------------------------------------------------

  /** An offer that breaks the rules, or names another gateway, never reaches the store. */
  lemma ArrivalDecides(g: Gateway, offer: Offer)
    ensures var g' := Take(g, Arrive(offer));
            var ok := offer.wellFormed && 0 <= offer.details.size && offer.details.size <= g.limits.maxFile;
            var here := g.limits.device == None || g.limits.device == Some(offer.details.target);
            && |g'.prepares| == |g.prepares| + 1 && g' == g.(prepares := g'.prepares)
            && (forall p | 0 <= p < |g.prepares| :: g'.prepares[p] == g.prepares[p])
            && g'.prepares[|g.prepares|]
                 == if !ok then Answered(offer, Invalid)
                    else if !here then Answered(offer, WrongDevice) else Asked(offer)
  {
  }

  /** The load finds the record as it is then. */
  lemma LoadDecides(g: Gateway, p: nat)
    requires p < |g.prepares| && g.prepares[p].Asked?
    ensures var g', offer := Take(g, Load(p)), g.prepares[p].offer;
            && g' == g.(prepares := g'.prepares) && |g'.prepares| == |g.prepares|
            && g'.prepares[p].Loaded? && g'.prepares[p].offer == offer
            && (g'.prepares[p].existing.Some? <==> offer.id in g.records)
            && (offer.id in g.records ==> g'.prepares[p].existing.value == g.records[offer.id])
  {
  }

  /** The sender hears that the receiver is ready, or that it failed before it was. */
  lemma ResponseDecides(g: Gateway, p: nat)
    requires p < |g.prepares| && g.prepares[p].Awaiting? && g.prepares[p].n < |g.receives|
    ensures var g', r, offer := Take(g, Respond(p)), g.receives[g.prepares[p].n], g.prepares[p].offer;
            && g' == g.(prepares := g'.prepares) && |g'.prepares| == |g.prepares|
            && (g'.prepares[p] == Answered(offer, Ready) <==> r.ready)
            && (g'.prepares[p] == Answered(offer, ReceiveFailed) <==> !r.ready && r.progress == Over)
            && (g'.prepares[p] == g.prepares[p] <==> !r.ready && r.progress != Over)
  {
  }

  /** A save writes the receive's details and its new state, under its id and no other. */
  lemma SaveWrites(g: Gateway, n: nat, state: State)
    requires n < |g.receives|
    ensures var g', id := Take(g, Save(n, state)), g.receives[n].id;
            && (forall x :: x != id ==> (x in g'.records <==> x in g.records))
            && (forall x <- g.records :: x != id ==> g'.records[x] == g.records[x])
            && if MaySave(g.receives[n], state) then
                 && id in g'.records && g'.records[id] == Entry(g.receives[n].details, state)
                 && |g'.receives| == |g.receives|
                 && g'.receives[n].ready == (g.receives[n].ready || state == READY)
                 && g'.receives[n].progress
                      == if state == FAILED_CONFIRMED || state == CANCELED then Over else Saved(state)
               else g' == g
  {
  }

  /** A resolve completes a committed record and touches no other. */
  lemma ResolveDecides(g: Gateway, id: Id)
    ensures var g' := Take(g, Resolve(id));
            && g' == g.(records := g'.records) && g'.records.Keys == g.records.Keys
            && (forall x <- g.records :: x != id ==> g'.records[x] == g.records[x])
            && (id in g.records ==>
                  g'.records[id] == if g.records[id].state in {DATA_COMMITTED, COMPLETED}
                                    then Entry(g.records[id].details, COMPLETED) else g.records[id])
  {
  }

  /**
   * After a restart no receive is left, so every slot and byte is free, and only answered
   * prepares have been answered; each record is settled, committed exactly if it had been or
   * was committing a file that is verified as its own.
   */
  lemma RestartDecides(g: Gateway, verified: set<Id>)
    ensures var g' := Take(g, Restart(verified));
            && Unreleased(g') == {} && g'.active == map[] && g'.activeBytes == 0 && g'.limits == g.limits
            && |g'.prepares| == |g.prepares| && |g'.receives| == |g.receives|
            && (forall n | 0 <= n < |g.receives| ::
                  g'.receives[n].progress == Over && g'.receives[n].id == g.receives[n].id)
            && (forall p | 0 <= p < |g.prepares| ::
                  g'.prepares[p] == if g.prepares[p].Answered? then g.prepares[p] else Dropped(g.prepares[p].offer))
            && g'.records.Keys == g.records.Keys
            && (forall id <- g.records ::
                  var state := g.records[id].state;
                  && g'.records[id].details == g.records[id].details
                  && g'.records[id].state
                       == if state in {DATA_COMMITTED, COMPLETED, FAILED_CONFIRMED, CANCELED} then state
                          else if state == COMMITTING && id in verified then DATA_COMMITTED else FAILED_CONFIRMED)
  {
  }

  /** Over all runs the status of an id is Receiving exactly while an unreleased receive has it. */
  lemma StatusDecides(limits: Limits, records: map<Id, Entry>, events: seq<Event>, id: Id)
    requires LimitsOk(limits)
    ensures var g := Run(Fresh(limits, records), events);
            && (StatusOf(g, id) == Status.Receiving <==> IdInUse(g, id))
            && (!IdInUse(g, id) ==>
                  StatusOf(g, id) == if id in g.records then Recorded(g.records[id].state) else NotFound)
  {
    RunOk(Fresh(limits, records), events);
    UsedIffActive(Run(Fresh(limits, records), events), id);
  }

  /** Cancel asks the one unreleased receive of that id to stop, and changes nothing else. */
  lemma CancelAsks(g: Gateway, id: Id)
    requires ActiveOk(g)
    ensures var g' := Take(g, Cancel(id));
            && g' == g.(receives := g'.receives) && |g'.receives| == |g.receives|
            && forall n | 0 <= n < |g.receives| ::
                 g'.receives[n] == if n in Unreleased(g) && g.receives[n].id == id
                                   then g.receives[n].(canceled := true) else g.receives[n]
  {
    UsedIffActive(g, id);
  }

  ghost predicate AskedToStop(g: Gateway, records: map<Id, Entry>, asked: set<Id>) {
    && (forall n | 0 <= n < |g.receives| && g.receives[n].canceled :: g.receives[n].id in asked)
    && (forall id <- g.records :: g.records[id].state == CANCELED ==>
          id in asked || (id in records && records[id].state == CANCELED))
  }

  lemma AskedStep(g: Gateway, e: Event, records: map<Id, Entry>, asked: set<Id>)
    requires GatewayOk(g) && AskedToStop(g, records, asked)
    ensures AskedToStop(Take(g, e), records, asked + (if e.Cancel? then {e.id} else {}))
  {
    match e
    case Cancel(id) => AskedByCancel(g, id, records, asked);
    case Save(n, state) => AskedBySave(g, n, state, records, asked);
    case _ => AskedByOther(g, e, records, asked);
  }

  lemma AskedByOther(g: Gateway, e: Event, records: map<Id, Entry>, asked: set<Id>)
    requires !e.Cancel? && !e.Save? && AskedToStop(g, records, asked)
    ensures AskedToStop(Take(g, e), records, asked + {})
  {
    AskedOtherwise(g, e);
    assert asked + {} == asked;
  }

  lemma AskedByCancel(g: Gateway, id: Id, records: map<Id, Entry>, asked: set<Id>)
    requires ActiveOk(g) && AskedToStop(g, records, asked)
    ensures AskedToStop(Take(g, Cancel(id)), records, asked + {id})
  {
    CancelAsks(g, id);
  }

  lemma AskedBySave(g: Gateway, n: nat, state: State, records: map<Id, Entry>, asked: set<Id>)
    requires AskedToStop(g, records, asked)
    ensures AskedToStop(Take(g, Save(n, state)), records, asked + {})
  {
    assert asked + {} == asked;
  }

  lemma AskedOtherwise(g: Gateway, e: Event)
    requires !e.Cancel? && !e.Save?
    ensures var g' := Take(g, e);
            && (forall n | 0 <= n < |g'.receives| && g'.receives[n].canceled ::
                  n < |g.receives| && g.receives[n].canceled && g'.receives[n].id == g.receives[n].id)
            && (forall id <- g'.records :: g'.records[id].state == CANCELED ==>
                  id in g.records && g.records[id].state == CANCELED)
  {
  }

  function Cancels(events: seq<Event>): set<Id> { set e | e in events && e.Cancel? :: e.id }

  lemma CancelsFirst(events: seq<Event>, asked: set<Id>)
    requires events != []
    ensures asked + (if events[0].Cancel? then {events[0].id} else {}) + Cancels(events[1..]) == asked + Cancels(events)
  {
    assert events == [events[0]] + events[1..];
  }

  lemma {:induction false} AskedRun(g: Gateway, events: seq<Event>, records: map<Id, Entry>, asked: set<Id>)
    requires GatewayOk(g) && AskedToStop(g, records, asked)
    ensures AskedToStop(Run(g, events), records, asked + Cancels(events))
    decreases events
  {
    if events != [] {
      AskedStep(g, events[0], records, asked);
      TakeOk(g, events[0]);
      AskedRun(Take(g, events[0]), events[1..], records, asked + (if events[0].Cancel? then {events[0].id} else {}));
      CancelsFirst(events, asked);
    } else {
      assert asked + Cancels(events) == asked;
    }
  }

  /** Over all runs a record becomes CANCELED only if the sender asked for it. */
  lemma CanceledOnlyIfAsked(limits: Limits, records: map<Id, Entry>, events: seq<Event>, id: Id)
    requires LimitsOk(limits)
    requires var g := Run(Fresh(limits, records), events); id in g.records && g.records[id].state == CANCELED
    ensures Cancel(id) in events || (id in records && records[id].state == CANCELED)
  {
    AskedRun(Fresh(limits, records), events, records, {});
  }

  // ---- Committed records -------------------------------------------------------------

  /** An admission on a loaded record that has been committed since. */
  predicate Stale(g: Gateway, e: Event) {
    && e.Decide? && e.p < |g.prepares| && g.prepares[e.p].Loaded? && g.prepares[e.p].offer.details.size >= 0
    && Admits(g, g.prepares[e.p].offer, g.prepares[e.p].existing)
    && CommittedIn(g.records, g.prepares[e.p].offer.id)
  }

  predicate NeverStale(g: Gateway, events: seq<Event>)
    decreases events
  {
    events == [] || (!Stale(g, events[0]) && NeverStale(Take(g, events[0]), events[1..]))
  }

  /** A receive that can still write has not had its id committed by anyone else. */
  ghost predicate OwnsRecord(g: Gateway, n: nat)
    requires n < |g.receives|
  {
    !g.receives[n].progress.Over? && CommittedIn(g.records, g.receives[n].id) ==>
      g.receives[n].progress == Saved(DATA_COMMITTED)
  }

  ghost predicate Owned(g: Gateway) { forall n: nat | n < |g.receives| :: OwnsRecord(g, n) }

  /** Another receive of the same id saves while this one could still write. */
  ghost predicate Intrudes(g: Gateway, e: Event, n: nat)
    requires n < |g.receives|
  {
    && e.Save? && e.n < |g.receives| && e.n != n && g.receives[e.n].id == g.receives[n].id
    && !g.receives[n].progress.Over? && !g.receives[e.n].progress.Over?
  }

  lemma NoIntruder(g: Gateway, e: Event, n: nat)
    requires ActiveOk(g) && n < |g.receives|
    ensures !Intrudes(g, e, n)
  {
  }

  lemma OwnsStep(g: Gateway, e: Event, n: nat)
    requires n < |g.receives| && OwnsRecord(g, n) && !Intrudes(g, e, n)
    ensures n < |Take(g, e).receives| && OwnsRecord(Take(g, e), n)
  {
  }

  lemma OwnsKept(g: Gateway, e: Event, n: nat)
    requires ActiveOk(g) && n < |g.receives| && OwnsRecord(g, n)
    ensures n < |Take(g, e).receives| && OwnsRecord(Take(g, e), n)
  {
    NoIntruder(g, e, n);
    OwnsStep(g, e, n);
  }

  /** Receives keep their place and id; a new one comes from an admission. */
  lemma ReceivesKept(g: Gateway, e: Event)
    ensures var g' := Take(g, e);
            && |g.receives| <= |g'.receives| <= |g.receives| + 1
            && (forall n | 0 <= n < |g.receives| :: g'.receives[n].id == g.receives[n].id)
            && (|g'.receives| > |g.receives| ==>
                  && e.Decide? && e.p < |g.prepares| && g.prepares[e.p].Loaded?
                  && g.prepares[e.p].offer.details.size >= 0
                  && Admits(g, g.prepares[e.p].offer, g.prepares[e.p].existing)
                  && g'.receives[|g.receives|].id == g.prepares[e.p].offer.id && g'.records == g.records)
  {
  }

  lemma TakeOwned(g: Gateway, e: Event)
    requires GatewayOk(g) && Owned(g) && !Stale(g, e)
    ensures Owned(Take(g, e))
  {
    var g' := Take(g, e);
    ReceivesKept(g, e);
    forall n: nat | n < |g'.receives| ensures OwnsRecord(g', n) {
      if n < |g.receives| {
        assert OwnsRecord(g, n);
        OwnsKept(g, e, n);
      }
    }
  }

  /** The step lets a record leave DATA_COMMITTED or COMPLETED. */
  ghost predicate Loses(g: Gateway, e: Event, id: Id) {
    CommittedIn(g.records, id) && !CommittedIn(Take(g, e).records, id)
  }

  /** Exactly which step does: the first save of a receive that found its id committed. */
  lemma LosesIff(g: Gateway, e: Event, id: Id)
    ensures Loses(g, e, id) <==>
              && e.Save? && e.n < |g.receives| && g.receives[e.n].id == id && CommittedIn(g.records, id)
              && MaySave(g.receives[e.n], e.state) && e.state != DATA_COMMITTED
  {
  }

  lemma OwnedKeeps(g: Gateway, e: Event, id: Id)
    requires Owned(g)
    ensures !Loses(g, e, id)
  {
    LosesIff(g, e, id);
    if e.Save? && e.n < |g.receives| { assert OwnsRecord(g, e.n); }
  }

  lemma {:induction false} RunKeeps(g: Gateway, events: seq<Event>, id: Id)
    requires GatewayOk(g) && Owned(g) && NeverStale(g, events) && CommittedIn(g.records, id)
    ensures CommittedIn(Run(g, events).records, id)
    decreases events
  {
    if events != [] {
      OwnedKeeps(g, events[0], id);
      TakeOwned(g, events[0]);
      TakeOk(g, events[0]);
      RunKeeps(Take(g, events[0]), events[1..], id);
    }
  }

  lemma {:induction false} RunOwned(g: Gateway, events: seq<Event>)
    requires GatewayOk(g) && Owned(g) && NeverStale(g, events)
    ensures GatewayOk(Run(g, events)) && Owned(Run(g, events))
    decreases events
  {
    if events != [] {
      TakeOwned(g, events[0]);
      TakeOk(g, events[0]);
      RunOwned(Take(g, events[0]), events[1..]);
    }
  }

  /**
   * Committed for good: in a run without a stale admission, no prepare, receive, cancel or
   * resolve ever moves a record out of DATA_COMMITTED and COMPLETED.
   */
  lemma CommittedForGood(limits: Limits, records: map<Id, Entry>, before: seq<Event>, after: seq<Event>, id: Id)
    requires LimitsOk(limits) && NeverStale(Fresh(limits, records), before)
    requires var g := Run(Fresh(limits, records), before); NeverStale(g, after) && CommittedIn(g.records, id)
    ensures CommittedIn(Run(Run(Fresh(limits, records), before), after).records, id)
  {
    RunOwned(Fresh(limits, records), before);
    RunKeeps(Run(Fresh(limits, records), before), after, id);
  }

  /** A repeated prepare that loads the record just before the first receive commits it. */
  function Race(offer: Offer): seq<Event> {
    [Arrive(offer), Load(0), Decide(0), Save(0, PREPARING), Save(0, READY), Save(0, TRANSFERRING),
     Save(0, COMMITTING), Arrive(offer), Load(1), Save(0, DATA_COMMITTED), Stop(0), Release(0), Decide(1)]
  }

  /** The gateway after the first `k` events. */
  function After(g: Gateway, events: seq<Event>, k: nat): Gateway
    requires k <= |events|
  {
    if k == 0 then g else Take(After(g, events, k - 1), events[k - 1])
  }

  lemma {:induction false} AfterIsRun(g: Gateway, events: seq<Event>, k: nat)
    requires k <= |events|
    ensures Run(After(g, events, k), events[k..]) == Run(g, events)
  {
    if k == 0 {
      assert events[0..] == events;
    } else {
      AfterIsRun(g, events, k - 1);
      assert events[k - 1..][1..] == events[k..];
    }
  }

  /** Event `i` admitted receive `n` of `id`, whose record had been committed since it was loaded. */
  ghost predicate StaleAt(g: Gateway, events: seq<Event>, i: nat, n: nat, id: Id)
    requires i < |events|
  {
    var before := After(g, events, i);
    Stale(before, events[i]) && before.prepares[events[i].p].offer.id == id && |before.receives| == n
  }

  ghost predicate AdmittedStale(g: Gateway, events: seq<Event>, k: nat, n: nat, id: Id)
    requires k <= |events|
  {
    exists i: nat | i < k :: StaleAt(g, events, i, n, id)
  }

  /** A receive either owns its record or was admitted stale and has saved nothing yet. */
  ghost predicate OwnsOrStale(g: Gateway, events: seq<Event>, k: nat, n: nat)
    requires k <= |events| && n < |After(g, events, k).receives|
  {
    var now := After(g, events, k);
    OwnsRecord(now, n) || (now.receives[n].progress == Started && AdmittedStale(g, events, k, n, now.receives[n].id))
  }

  ghost predicate Accounted(g: Gateway, events: seq<Event>, k: nat)
    requires k <= |events|
  {
    forall n: nat | n < |After(g, events, k).receives| :: OwnsOrStale(g, events, k, n)
  }

  lemma FirstSave(g: Gateway, e: Event, n: nat)
    requires n < |g.receives| && g.receives[n].progress == Started
    ensures n < |Take(g, e).receives| && (Take(g, e).receives[n].progress == Started || OwnsRecord(Take(g, e), n))
  {
  }

  /** An admission that is not stale finds its record uncommitted. */
  lemma FreshOwns(g: Gateway, e: Event)
    requires |Take(g, e).receives| > |g.receives| && !Stale(g, e)
    ensures OwnsRecord(Take(g, e), |g.receives|)
  {
    ReceivesKept(g, e);
  }

  /** A gateway that has admitted nothing yet. */
  predicate Initial(g: Gateway) { LimitsOk(g.limits) && g == Fresh(g.limits, g.records) }

  lemma InitialOk(g: Gateway)
    requires Initial(g)
    ensures GatewayOk(g)
  {
  }

  lemma GatewayNext(g: Gateway, events: seq<Event>, k: nat)
    requires 0 < k <= |events| && GatewayOk(After(g, events, k - 1))
    ensures GatewayOk(After(g, events, k))
  {
    TakeOk(After(g, events, k - 1), events[k - 1]);
  }

  lemma {:induction false} GatewayAfter(g: Gateway, events: seq<Event>, k: nat)
    requires k <= |events| && Initial(g)
    ensures GatewayOk(After(g, events, k))
  {
    if k == 0 {
      InitialOk(g);
    } else {
      GatewayAfter(g, events, k - 1);
      GatewayNext(g, events, k);
    }
  }

  lemma OneMoreStale(g: Gateway, events: seq<Event>, k: nat, n: nat)
    requires k < |events| && Initial(g) && Accounted(g, events, k) && n < |After(g, events, k + 1).receives|
    ensures OwnsOrStale(g, events, k + 1, n)
  {
    var now, e := After(g, events, k), events[k];
    GatewayAfter(g, events, k);
    ReceivesKept(now, e);
    if n < |now.receives| {
      assert OwnsOrStale(g, events, k, n);
      if OwnsRecord(now, n) { OwnsKept(now, e, n); } else { FirstSave(now, e, n); }
    } else if Stale(now, e) {
      assert StaleAt(g, events, k, n, now.prepares[e.p].offer.id);
    } else {
      FreshOwns(now, e);
    }
  }

  lemma {:induction false} AccountedAfter(g: Gateway, events: seq<Event>, k: nat)
    requires k <= |events| && Initial(g)
    ensures Accounted(g, events, k)
  {
    if k == 0 {
      AccountedAtFirst(g, events);
    } else {
      AccountedAfter(g, events, k - 1);
      AccountedNext(g, events, k);
    }
  }

  lemma AccountedAtFirst(g: Gateway, events: seq<Event>)
    requires g.receives == []
    ensures Accounted(g, events, 0)
  {
    assert After(g, events, 0) == g;
  }

  lemma AccountedNext(g: Gateway, events: seq<Event>, k: nat)
    requires 0 < k <= |events| && Initial(g) && Accounted(g, events, k - 1)
    ensures Accounted(g, events, k)
  {
    forall n: nat | n < |After(g, events, k).receives| ensures OwnsOrStale(g, events, k, n) {
      OneMoreStale(g, events, k - 1, n);
    }
  }

  /** Receive `n` of `id`, if it has saved nothing yet, finds a commit it has not made. */
  ghost predicate Threatens(g: Gateway, n: nat, id: Id) {
    && n < |g.receives| && g.receives[n].id == id
    && (g.receives[n].progress == Started ==> CommittedIn(g.records, id))
  }

  lemma StaleThreatens(g: Gateway, e: Event)
    requires Stale(g, e)
    ensures Threatens(Take(g, e), |g.receives|, g.prepares[e.p].offer.id)
  {
  }

  /** While it has saved nothing, nobody moves its record out of the commit. */
  lemma ThreatensStill(g: Gateway, e: Event, n: nat, id: Id)
    requires ActiveOk(g) && Threatens(g, n, id)
    ensures Threatens(Take(g, e), n, id)
  {
    ReceivesKept(g, e);
    NoIntruder(g, e, n);
    LosesIff(g, e, id);
  }

  lemma StaleNext(g: Gateway, events: seq<Event>, i: nat, n: nat, id: Id)
    requires i < |events| && StaleAt(g, events, i, n, id)
    ensures Threatens(After(g, events, i + 1), n, id)
  {
    StaleThreatens(After(g, events, i), events[i]);
  }

  lemma ThreatensNext(g: Gateway, events: seq<Event>, k: nat, n: nat, id: Id)
    requires k < |events| && Initial(g) && Threatens(After(g, events, k), n, id)
    ensures Threatens(After(g, events, k + 1), n, id)
  {
    GatewayAfter(g, events, k);
    ThreatensStill(After(g, events, k), events[k], n, id);
  }

  lemma {:induction false} ThreatensUntil(
    limits: Limits, records: map<Id, Entry>, events: seq<Event>, i: nat, k: nat, n: nat, id: Id)
    requires i < k <= |events| && LimitsOk(limits) && StaleAt(Fresh(limits, records), events, i, n, id)
    ensures Threatens(After(Fresh(limits, records), events, k), n, id)
  {
    if k == i + 1 {
      StaleNext(Fresh(limits, records), events, i, n, id);
    } else {
      ThreatensUntil(limits, records, events, i, k - 1, n, id);
      ThreatensNext(Fresh(limits, records), events, k - 1, n, id);
    }
  }

  /** The event is the first save of a receive that was admitted stale, at whatever distance. */
  ghost predicate FirstSaveOfStale(g: Gateway, events: seq<Event>, k: nat, id: Id)
    requires k < |events|
  {
    var now, e := After(g, events, k), events[k];
    && e.Save? && e.n < |now.receives| && now.receives[e.n].progress == Started && MaySave(now.receives[e.n], e.state)
    && AdmittedStale(g, events, k, e.n, id)
  }

  /**
   * Over all runs, a commit is lost exactly by the first save of a receive whose admission,
   * at any distance before, was stale.
   */
  lemma CommitLostIff(limits: Limits, records: map<Id, Entry>, events: seq<Event>, k: nat, id: Id)
    requires LimitsOk(limits) && k < |events|
    ensures var g := Fresh(limits, records);
            Loses(After(g, events, k), events[k], id) <==> FirstSaveOfStale(g, events, k, id)
  {
    var g, e := Fresh(limits, records), events[k];
    var now := After(g, events, k);
    AccountedAfter(g, events, k);
    LosesIff(now, e, id);
    if Loses(now, e, id) {
      assert OwnsOrStale(g, events, k, e.n);
    } else if FirstSaveOfStale(g, events, k, id) {
      var i: nat :| i < k && StaleAt(g, events, i, e.n, id);
      ThreatensUntil(limits, records, events, i, k, e.n, id);
    }
  }

  function Single(l: Limits, offer: Offer, state: State, progress: Progress): Gateway
    requires offer.details.size >= 0
  {
    Gateway(l, map[offer.id := Entry(offer.details, state)],
            [Receive(offer.id, offer.details, progress, true, false, false)],
            map[offer.id := 0], offer.details.size, [Awaiting(offer, 0)])
  }

  function Started0(l: Limits, offer: Offer): Gateway
    requires offer.details.size >= 0
  {
    Gateway(l, map[], [Receive(offer.id, offer.details, Started, false, false, false)],
            map[offer.id := 0], offer.details.size, [Awaiting(offer, 0)])
  }

  lemma RaceAdmits(l: Limits, offer: Offer)
    requires LimitsOk(l) && Valid(l, offer) && (l.device.Some? ==> l.device.value == offer.details.target)
    ensures After(Fresh(l, map[]), Race(offer), 3) == Started0(l, offer)
  {
    var g, e := Fresh(l, map[]), Race(offer);
    assert After(g, e, 1).prepares == [Asked(offer)];
    assert After(g, e, 2).prepares == [Loaded(offer, None)];
  }

  lemma RaceSaves(l: Limits, offer: Offer)
    requires offer.details.size >= 0
    ensures SavedBy(SavedBy(Started0(l, offer), 0, PREPARING), 0, READY) == Single(l, offer, READY, Saved(READY))
    ensures SavedBy(SavedBy(Single(l, offer, READY, Saved(READY)), 0, TRANSFERRING), 0, COMMITTING)
         == Single(l, offer, COMMITTING, Saved(COMMITTING))
  {
    var r := Receive(offer.id, offer.details, Saved(PREPARING), false, false, false);
    assert SavedBy(Started0(l, offer), 0, PREPARING).receives == [r];
  }

  lemma RaceFirst(l: Limits, offer: Offer)
    requires LimitsOk(l) && Valid(l, offer) && (l.device.Some? ==> l.device.value == offer.details.target)
    ensures After(Fresh(l, map[]), Race(offer), 7) == Single(l, offer, COMMITTING, Saved(COMMITTING))
  {
    RaceAdmits(l, offer);
    RaceSaves(l, offer);
    TwoMore(Fresh(l, map[]), Race(offer), 3);
    TwoMore(Fresh(l, map[]), Race(offer), 5);
  }

  lemma TwoMore(g: Gateway, events: seq<Event>, k: nat)
    requires k + 2 <= |events|
    ensures After(g, events, k + 2) == Take(Take(After(g, events, k), events[k]), events[k + 1])
  {
    assert After(g, events, k + 1) == Take(After(g, events, k), events[k]);
  }

  function BothPrepares(offer: Offer): seq<Prepare> {
    [Awaiting(offer, 0), Loaded(offer, Some(Entry(offer.details, COMMITTING)))]
  }

  lemma RaceReloads(l: Limits, offer: Offer)
    requires Valid(l, offer) && (l.device.Some? ==> l.device.value == offer.details.target)
    ensures LoadedAt(Arrived(Single(l, offer, COMMITTING, Saved(COMMITTING)), offer), 1)
         == Single(l, offer, COMMITTING, Saved(COMMITTING)).(prepares := BothPrepares(offer))
  {
    assert Arrived(Single(l, offer, COMMITTING, Saved(COMMITTING)), offer).prepares
        == [Awaiting(offer, 0), Asked(offer)];
  }

  lemma RaceCommits(l: Limits, offer: Offer, prepares: seq<Prepare>)
    requires offer.details.size >= 0
    ensures Stopped(
              SavedBy(Single(l, offer, COMMITTING, Saved(COMMITTING)).(prepares := prepares), 0, DATA_COMMITTED), 0)
         == Single(l, offer, DATA_COMMITTED, Over).(prepares := prepares)
  {
  }

  function Committed0(l: Limits, offer: Offer, prepares: seq<Prepare>): Gateway {
    Gateway(l, map[offer.id := Entry(offer.details, DATA_COMMITTED)],
            [Receive(offer.id, offer.details, Over, true, false, true)], map[], 0, prepares)
  }

  lemma RaceReleases(l: Limits, offer: Offer, prepares: seq<Prepare>)
    requires offer.details.size >= 0
    ensures Released(Single(l, offer, DATA_COMMITTED, Over).(prepares := prepares), 0) == Committed0(l, offer, prepares)
  {
    assert map[offer.id := 0] - {offer.id} == map[];
  }

  lemma RaceSecond(l: Limits, offer: Offer)
    requires LimitsOk(l) && Valid(l, offer) && (l.device.Some? ==> l.device.value == offer.details.target)
    ensures After(Fresh(l, map[]), Race(offer), 12) == Committed0(l, offer, BothPrepares(offer))
  {
    RaceFirst(l, offer);
    RaceReloads(l, offer);
    RaceCommits(l, offer, BothPrepares(offer));
    RaceReleases(l, offer, BothPrepares(offer));
    TwoMore(Fresh(l, map[]), Race(offer), 7);
    TwoMore(Fresh(l, map[]), Race(offer), 9);
  }

  /** The race happens to every valid offer: it ends in an admission over a committed record. */
  lemma RaceIsReachable(limits: Limits, offer: Offer)
    requires LimitsOk(limits) && Valid(limits, offer)
    requires limits.device.Some? ==> limits.device.value == offer.details.target
    ensures var g := Run(Fresh(limits, map[]), Race(offer));
            CommittedIn(g.records, offer.id) && Loses(g, Save(1, PREPARING), offer.id)
  {
    var g, e := Fresh(limits, map[]), Race(offer);
    RaceSecond(limits, offer);
    AfterIsRun(g, e, 13);
    assert e[13..] == [];
    var s := Committed0(limits, offer, BothPrepares(offer));
    assert Stale(s, Decide(1));
    LosesIff(Take(s, Decide(1)), Save(1, PREPARING), offer.id);
  }

  // ---- The gateway object ------------------------------------------------------------

  class FileGateway {
    const limits: Limits
    var records: map<Id, Entry>
    var receives: seq<Receive>
    var activeFileReceives: map<Id, nat>
    var activeReceiveBytes: nat
    var prepares: seq<Prepare>

    constructor (limits: Limits, records: map<Id, Entry>)
      ensures State() == Fresh(limits, records)
    {
      this.limits, this.records := limits, records;
      receives, activeFileReceives, activeReceiveBytes, prepares := [], map[], 0, [];
    }

    ghost function State(): Gateway
      reads this
    {
      Gateway(limits, records, receives, activeFileReceives, activeReceiveBytes, prepares)
    }

    /** The prepare handler up to its load of the record. */
    method OnPrepare(offer: Offer) returns (p: nat)
      modifies `prepares
      ensures State() == Arrived(old(State()), offer) && p == |old(prepares)|
    {
      p := |prepares|;
      if !Valid(limits, offer) {
        prepares := prepares + [Answered(offer, Invalid)];
        return;
      }
      if limits.device.Some? && offer.details.target != limits.device.value {
        prepares := prepares + [Answered(offer, WrongDevice)];
        return;
      }
      prepares := prepares + [Asked(offer)];
    }

    /** The rest of the handler, with the record as it was loaded. */
    method OnLoaded(p: nat)
      requires p < |prepares| && prepares[p].Loaded? && prepares[p].offer.details.size >= 0
      modifies this
      ensures State() == Decided(old(State()), p)
    {
      var offer, existing := prepares[p].offer, prepares[p].existing;
      if existing.Some? {
        if existing.value.details != offer.details {
          prepares := prepares[p := Answered(offer, Different)];
          return;
        }
        if IsCommitted(existing.value.state) {
          prepares := prepares[p := Answered(offer, AlreadyCommitted)];
          return;
        }
      }
      if offer.id in activeFileReceives {
        prepares := prepares[p := Answered(offer, AlreadyActive)];
        return;
      }
      if |activeFileReceives| >= limits.maxCount || activeReceiveBytes + offer.details.size > limits.maxBytes {
        prepares := prepares[p := Answered(offer, Busy)];
        return;
      }
      var n := |receives|;
      receives := receives + [Receive(offer.id, offer.details, Started, false, false, false)];
      activeReceiveBytes := activeReceiveBytes + offer.details.size;
      activeFileReceives := activeFileReceives[offer.id := n];
      prepares := prepares[p := Awaiting(offer, n)];
    }

    /** The `finally` of a receive. */
    method OnCompleted(n: nat)
      requires n < |receives| && receives[n].progress.Over? && !receives[n].released && receives[n].details.size >= 0
      modifies `receives, `activeFileReceives, `activeReceiveBytes
      ensures State() == Released(old(State()), n)
    {
      var r := receives[n];
      receives := receives[n := r.(released := true)];
      activeFileReceives := activeFileReceives - {r.id};
      var left := activeReceiveBytes - r.details.size;
      activeReceiveBytes := if left > 0 then left else 0;
    }

    method OnStatus(id: Id) returns (status: Status)
      ensures status == StatusOf(State(), id)
    {
      if id in activeFileReceives { return Receiving; }
      if id in records { return Recorded(records[id].state); }
      return NotFound;
    }

    /** Cancel asks an active receive to stop; a record is only read. */
    method OnCancel(id: Id) returns (requested: bool)
      requires ActiveOk(State())
      modifies `receives
      ensures State() == Canceled(old(State()), id)
      ensures requested <==> id in activeFileReceives
    {
      requested := id in activeFileReceives;
      if requested {
        var n := activeFileReceives[id];
        receives := receives[n := receives[n].(canceled := true)];
      }
    }
  }
}
