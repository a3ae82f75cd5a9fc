/**
 * The retrying outbox: entries wait, are sent by the relay loop, and end sent or dead. Entries
 * may be added, removed and cleaned up while a flush awaits a send.
 */
module Outbox {
  import opened Prelude
  import StableSort

  type Id = nat

  datatype Status = Pending | Sending | Sent | Dead

  datatype Entry = Entry(status: Status, retries: nat, nextRetryAt: real, createdAt: real)

  datatype Config = Config(maxRetries: int, baseDelay: real, maxDelay: real)

  /**
   * `waiting` is the rest of the running flush's list, `current` the entry whose send it
   * awaits. `sends`, `fails` and `failedAt` record what happened to every id ever enqueued.
   */
  datatype Box = Box(
    config: Config, store: map<Id, Entry>, flushing: bool, waiting: seq<Id>, current: Option<Id>,
    sends: seq<nat>, fails: seq<nat>, failedAt: seq<Option<real>>)

  datatype Step =
    | Enqueue(now: real)
    | Tick(now: real)
    | SendNext
    | SendEnds(ok: bool, now: real, jitter: real)
    | EndFlush
    | Remove(id: Id)
    | Cleanup(now: real, maxAge: real)

  function Pow2(n: nat): real { if n == 0 then 1.0 else 2.0 * Pow2(n - 1) }

  /** Exponential back-off with jitter, capped. */
  function Delay(c: Config, retries: nat, jitter: real): (d: real)
    ensures d <= c.maxDelay
  {
    var delay := c.baseDelay * Pow2(retries) + jitter;
    if delay < c.maxDelay then delay else c.maxDelay
  }

  predicate Due(e: Entry, now: real) { e.status == Pending && e.nextRetryAt <= now }

  /** The due entries among the first `n` ids, oldest id first. */
  function DueIds(store: map<Id, Entry>, n: nat, now: real): seq<Id> {
    if n == 0 then []
    else DueIds(store, n - 1, now) + (if n - 1 in store && Due(store[n - 1], now) then [n - 1] else [])
  }

  function CreatedAt(store: map<Id, Entry>): Id -> StableSort.Key {
    id => StableSort.Key(if id in store then store[id].createdAt else 0.0, 0.0)
  }

  /** getPending: the due entries by creation time, equal times in enqueue order. */
  function PendingIds(store: map<Id, Entry>, n: nat, now: real): seq<Id> {
    StableSort.Sort(DueIds(store, n, now), CreatedAt(store))
  }

  function Enqueued(s: Box, now: real): Box {
    s.(store := s.store[|s.sends| := Entry(Pending, 0, now, now)],
       sends := s.sends + [0], fails := s.fails + [0], failedAt := s.failedAt + [None])
  }

  function Ticked(s: Box, now: real): Box {
    if s.flushing then s else s.(flushing := true, waiting := PendingIds(s.store, |s.sends|, now))
  }

  function WithStatus(store: map<Id, Entry>, id: Id, status: Status): map<Id, Entry> {
    if id in store then store[id := store[id].(status := status)] else store
  }

  function SentNext(s: Box): Box {
    if s.flushing && s.current == None && s.waiting != [] && s.waiting[0] < |s.sends| then
      var id := s.waiting[0];
      s.(store := WithStatus(s.store, id, Sending), waiting := s.waiting[1..], current := Some(id),
         sends := s.sends[id := s.sends[id] + 1])
    else s
  }

  function MarkedFailed(c: Config, store: map<Id, Entry>, id: Id, now: real, jitter: real): map<Id, Entry> {
    if id !in store then store
    else
      var e := store[id].(retries := store[id].retries + 1);
      store[id := if e.retries >= c.maxRetries then e.(status := Dead)
                  else e.(status := Pending, nextRetryAt := now + Delay(c, e.retries, jitter))]
  }

  function SendEnded(s: Box, ok: bool, now: real, jitter: real): Box {
    if s.current.Some? && s.current.value < |s.fails| == |s.failedAt| then
      var id := s.current.value;
      if ok then s.(store := WithStatus(s.store, id, Sent), current := None)
      else
        s.(store := MarkedFailed(s.config, s.store, id, now, jitter), current := None,
           fails := s.fails[id := s.fails[id] + 1], failedAt := s.failedAt[id := Some(now)])
    else s
  }

  predicate Expired(e: Entry, now: real, maxAge: real) { e.status == Sent && e.createdAt < now - maxAge }

  function Cleaned(store: map<Id, Entry>, now: real, maxAge: real): map<Id, Entry> {
    map id | id in store && !Expired(store[id], now, maxAge) :: store[id]
  }

  function Take(s: Box, e: Step): Box {
    match e
    case Enqueue(now) => Enqueued(s, now)
    case Tick(now) => Ticked(s, now)
    case SendNext => SentNext(s)
    case SendEnds(ok, now, jitter) => SendEnded(s, ok, now, jitter)
    case EndFlush => if s.current == None && s.waiting == [] then s.(flushing := false) else s
    case Remove(id) => s.(store := s.store - {id})
    case Cleanup(now, maxAge) => s.(store := Cleaned(s.store, now, maxAge))
  }

  function Run(s: Box, steps: seq<Step>): Box
    decreases steps
  {
    if steps == [] then s else Run(Take(s, steps[0]), steps[1..])
  }

  function Fresh(config: Config): Box { Box(config, map[], false, [], None, [], [], []) }

  // ---- The invariant -----------------------------------------------------------------

  /** How often an entry may be sent: once even when no retries are configured. */
  function Limit(c: Config): nat { if c.maxRetries < 1 then 1 else c.maxRetries }

  ghost predicate StatusOk(s: Box, id: Id, e: Entry)
    requires id < |s.sends| && id < |s.fails|
  {
    && e.retries == s.fails[id]
    && match e.status
       case Pending => s.sends[id] == e.retries < Limit(s.config) && s.current != Some(id)
       case Sending => s.sends[id] == e.retries + 1 && s.current == Some(id)
       case Sent => s.sends[id] == e.retries + 1 && s.current != Some(id)
       case Dead => s.sends[id] == e.retries >= s.config.maxRetries && s.current != Some(id)
  }

  /** When a pending entry may be tried again. */
  ghost predicate TimingOk(s: Box, id: Id, e: Entry)
    requires id < |s.failedAt|
  {
    e.status == Pending ==>
      e.nextRetryAt <= (if s.failedAt[id].Some? then s.failedAt[id].value + s.config.maxDelay else e.createdAt)
  }

  ghost predicate IdOk(s: Box, id: Id)
    requires id < |s.sends| == |s.fails| == |s.failedAt|
  {
    && s.sends[id] <= Limit(s.config)
    && (id in s.waiting ==> s.sends[id] < Limit(s.config) && s.current != Some(id)
                            && (id in s.store ==> s.store[id].status == Pending))
    && (id in s.store ==> StatusOk(s, id, s.store[id]) && TimingOk(s, id, s.store[id]))
  }

  ghost predicate Distinct(ids: seq<Id>) { forall i, j | 0 <= i < j < |ids| :: ids[i] != ids[j] }

  ghost predicate ShapeOk(s: Box) {
    && |s.fails| == |s.sends| && |s.failedAt| == |s.sends|
    && (forall id <- s.store :: id < |s.sends|)
    && (forall i | 0 <= i < |s.waiting| :: s.waiting[i] < |s.sends|) && Distinct(s.waiting)
    && (s.current.Some? ==> s.current.value < |s.sends|)
    && (!s.flushing ==> s.waiting == [] && s.current == None)
  }

  ghost predicate BoxOk(s: Box) { ShapeOk(s) && forall id: nat | id < |s.sends| :: IdOk(s, id) }

  lemma {:induction false} DueIdsAre(store: map<Id, Entry>, n: nat, now: real)
    ensures forall id :: id in DueIds(store, n, now) <==> id < n && id in store && Due(store[id], now)
    ensures Distinct(DueIds(store, n, now))
  {
    if n > 0 { DueIdsAre(store, n - 1, now); }
  }

  /** Every due entry is listed, once, and nothing else is; the list is in creation order. */
  lemma PendingIdsAre(store: map<Id, Entry>, n: nat, now: real)
    ensures forall id :: id in PendingIds(store, n, now)
                    <==> id < n && id in store && store[id].status == Pending && store[id].nextRetryAt <= now
    ensures Distinct(PendingIds(store, n, now))
    ensures StableSort.Ascending(PendingIds(store, n, now), CreatedAt(store))
  {
    var due, ids := DueIds(store, n, now), PendingIds(store, n, now);
    DueIdsAre(store, n, now);
    StableSort.SortIsStable(due, CreatedAt(store));
    assert forall id :: id in ids <==> id in multiset(ids);
    assert forall id :: id in due <==> id in multiset(due);
    DistinctByCount(due);
    CountByDistinct(ids);
  }

  lemma {:induction false} DistinctByCount(ids: seq<Id>)
    requires Distinct(ids)
    ensures forall id :: multiset(ids)[id] <= 1
  {
    if ids != [] {
      DistinctByCount(ids[1..]);
      assert ids == [ids[0]] + ids[1..];
      assert forall i | 0 <= i < |ids[1..]| :: ids[1..][i] == ids[i + 1];
      assert ids[0] !in ids[1..];
    }
  }

  lemma CountByDistinct(ids: seq<Id>)
    requires forall id :: multiset(ids)[id] <= 1
    ensures Distinct(ids)
  {
    forall i, j | 0 <= i < j < |ids| ensures multiset(ids)[ids[i]] >= (if ids[i] == ids[j] then 2 else 1) {
      CountTwo(ids, i, j);
    }
  }

  lemma CountTwo(ids: seq<Id>, i: nat, j: nat)
    requires i < j < |ids|
    ensures multiset(ids)[ids[i]] >= if ids[i] == ids[j] then 2 else 1
  {
    assert ids == ids[..i] + [ids[i]] + ids[i + 1..j] + [ids[j]] + ids[j + 1..];
  }

  /** An id whose entry, counts and place in the flush are as before is as well as before. */
  lemma IdUnchanged(s: Box, s': Box, id: Id)
    requires id < |s.sends| == |s.fails| == |s.failedAt| && id < |s'.sends| == |s'.fails| == |s'.failedAt|
    requires IdOk(s, id) && s'.config == s.config
    requires s'.sends[id] == s.sends[id] && s'.fails[id] == s.fails[id] && s'.failedAt[id] == s.failedAt[id]
    requires id in s'.waiting ==> id in s.waiting
    requires s'.current == Some(id) <==> s.current == Some(id)
    requires id in s'.store ==> id in s.store && s'.store[id] == s.store[id]
    ensures IdOk(s', id)
  {
  }

  lemma EnqueueOk(s: Box, now: real)
    requires BoxOk(s)
    ensures BoxOk(Enqueued(s, now))
  {
    var s' := Enqueued(s, now);
    forall id: nat | id < |s'.sends| ensures IdOk(s', id) {
      if id < |s.sends| { IdUnchanged(s, s', id); }
    }
  }

  lemma TickOk(s: Box, now: real)
    requires BoxOk(s)
    ensures BoxOk(Ticked(s, now))
  {
    if !s.flushing {
      var s' := Ticked(s, now);
      PendingIdsAre(s.store, |s.sends|, now);
      forall i | 0 <= i < |s'.waiting| ensures s'.waiting[i] < |s'.sends| { assert s'.waiting[i] in s'.waiting; }
      forall id: nat | id < |s'.sends| ensures IdOk(s', id) { assert IdOk(s, id); }
    }
  }

  lemma SendNextOk(s: Box)
    requires BoxOk(s)
    ensures BoxOk(SentNext(s))
  {
    var s' := SentNext(s);
    if s' != s {
      var id := s.waiting[0];
      assert IdOk(s, id);
      forall x: nat | x < |s'.sends| ensures IdOk(s', x) {
        assert IdOk(s, x);
        if x != id { IdUnchanged(s, s', x); }
      }
    }
  }

  lemma SendEndsOk(s: Box, ok: bool, now: real, jitter: real)
    requires BoxOk(s)
    ensures BoxOk(SendEnded(s, ok, now, jitter))
  {
    var s' := SendEnded(s, ok, now, jitter);
    if s.current.Some? {
      var id := s.current.value;
      assert IdOk(s, id);
      forall x: nat | x < |s'.sends| ensures IdOk(s', x) {
        if x != id { IdUnchanged(s, s', x); }
      }
    }
  }

  lemma DropOk(s: Box, store: map<Id, Entry>)
    requires BoxOk(s) && forall id <- store :: id in s.store && store[id] == s.store[id]
    ensures BoxOk(s.(store := store))
  {
    var s' := s.(store := store);
    forall id: nat | id < |s'.sends| ensures IdOk(s', id) { IdUnchanged(s, s', id); }
  }

  lemma TakeOk(s: Box, e: Step)
    requires BoxOk(s)
    ensures BoxOk(Take(s, e)) && Take(s, e).config == s.config
  {
    match e
    case Enqueue(now) => EnqueueOk(s, now);
    case Tick(now) => TickOk(s, now);
    case SendNext => SendNextOk(s);
    case SendEnds(ok, now, jitter) => SendEndsOk(s, ok, now, jitter);
    case EndFlush =>
      var s' := Take(s, e);
      forall id: nat | id < |s'.sends| ensures IdOk(s', id) { IdUnchanged(s, s', id); }
    case Remove(id) => DropOk(s, s.store - {id});
    case Cleanup(now, maxAge) => DropOk(s, Cleaned(s.store, now, maxAge));
  }

  lemma {:induction false} RunOk(s: Box, steps: seq<Step>)
    requires BoxOk(s)
    ensures BoxOk(Run(s, steps)) && Run(s, steps).config == s.config
    decreases steps
  {
    if steps != [] {
      TakeOk(s, steps[0]);
      RunOk(Take(s, steps[0]), steps[1..]);
    }
  }

  // ---- Delivery ----------------------------------------------------------------------

  /**
   * In every run no entry is sent more than max(1, maxRetries) times, and the retry count
   * of an entry is the number of its sends that failed.
   */
  lemma SendsAreBounded(config: Config, steps: seq<Step>, id: Id)
    requires id < |Run(Fresh(config), steps).sends|
    ensures var s := Run(Fresh(config), steps);
            && s.sends[id] <= (if config.maxRetries < 1 then 1 else config.maxRetries) && |s.fails| == |s.sends|
            && (id in s.store ==> s.store[id].retries == s.fails[id])
  {
    RunOk(Fresh(config), steps);
    assert IdOk(Run(Fresh(config), steps), id);
  }

  /** Sent, dead or removed, and not part of the running flush. */
  ghost predicate Settled(s: Box, id: Id) {
    && id < |s.sends| && id !in s.waiting && s.current != Some(id)
    && (id in s.store ==> s.store[id].status == Sent || s.store[id].status == Dead)
  }

  lemma SettledStays(s: Box, e: Step, id: Id)
    requires BoxOk(s) && Settled(s, id)
    ensures Settled(Take(s, e), id) && Take(s, e).sends[id] == s.sends[id]
  {
    if e.Tick? { PendingIdsAre(s.store, |s.sends|, e.now); }
    if e.SendNext? && s.waiting != [] { assert s.waiting[0] in s.waiting; }
  }

  /** A sent or dead entry is never sent again, whatever follows. */
  lemma {:induction false} NeverSentAgain(s: Box, steps: seq<Step>, id: Id)
    requires BoxOk(s) && Settled(s, id)
    ensures Settled(Run(s, steps), id) && Run(s, steps).sends[id] == s.sends[id]
    decreases steps
  {
    if steps != [] {
      SettledStays(s, steps[0], id);
      TakeOk(s, steps[0]);
      NeverSentAgain(Take(s, steps[0]), steps[1..], id);
    }
  }

  lemma SentOrDeadIsSettled(s: Box, id: Id)
    requires BoxOk(s) && id in s.store && (s.store[id].status == Sent || s.store[id].status == Dead)
    ensures Settled(s, id)
  {
    assert IdOk(s, id);
  }

  /** The same over runs: once sent or dead, its number of sends is final. */
  lemma SentOrDeadForGood(config: Config, before: seq<Step>, after: seq<Step>, id: Id)
    requires var s := Run(Fresh(config), before);
             id in s.store && (s.store[id].status == Sent || s.store[id].status == Dead)
    ensures var s := Run(Fresh(config), before);
            && id < |s.sends| && |s.sends| <= |Run(s, after).sends|
            && Run(s, after).sends[id] == s.sends[id]
            && (id in Run(s, after).store ==> Run(s, after).store[id].status in {Sent, Dead})
  {
    var s := Run(Fresh(config), before);
    RunOk(Fresh(config), before);
    SentOrDeadIsSettled(s, id);
    NeverSentAgain(s, after, id);
    ListedIsSent(s, after, id);
  }

  /** An entry leaves the store only by `remove`, or by a cleanup after it was sent. */
  lemma DroppedIff(s: Box, e: Step, id: Id)
    requires id in s.store
    ensures id !in Take(s, e).store <==>
              e == Remove(id) || (e.Cleanup? && s.store[id].status == Sent && s.store[id].createdAt + e.maxAge < e.now)
    ensures (e.Remove? || e.Cleanup?) && id in Take(s, e).store ==> Take(s, e).store[id] == s.store[id]
  {
  }

  /** Still stored, or delivered: one send more than failed, and none to come. */
  ghost predicate Accounted(s: Box, id: Id)
    requires |s.fails| == |s.sends|
  {
    id < |s.sends| && (id in s.store || (Settled(s, id) && s.sends[id] == s.fails[id] + 1))
  }

  lemma StillAccounted(s: Box, e: Step, id: Id)
    requires BoxOk(s) && Accounted(s, id) && e != Remove(id)
    ensures |Take(s, e).fails| == |Take(s, e).sends| && Accounted(Take(s, e), id)
  {
    if id in s.store {
      DroppedIff(s, e, id);
      assert IdOk(s, id);
    } else {
      SettledStays(s, e, id);
    }
  }

  lemma {:induction false} AccountedFrom(s: Box, steps: seq<Step>, id: Id)
    requires BoxOk(s) && (id < |s.sends| ==> Accounted(s, id)) && Remove(id) !in steps
    ensures |Run(s, steps).fails| == |Run(s, steps).sends|
    ensures id < |Run(s, steps).sends| ==> Accounted(Run(s, steps), id)
    decreases steps
  {
    if steps != [] {
      TakeOk(s, steps[0]);
      if id < |s.sends| { StillAccounted(s, steps[0], id); }
      AccountedFrom(Take(s, steps[0]), steps[1..], id);
    }
  }

  /**
   * No message is lost: in every run that does not remove it, an enqueued entry is stored,
   * or one of its sends succeeded and all the others failed.
   */
  lemma NoneIsLost(config: Config, steps: seq<Step>, id: Id)
    requires id < |Run(Fresh(config), steps).sends| && Remove(id) !in steps
    ensures var s := Run(Fresh(config), steps);
            |s.fails| == |s.sends| && (id !in s.store ==> s.sends[id] == s.fails[id] + 1)
  {
    AccountedFrom(Fresh(config), steps, id);
  }

  /** A delay doubled once per failure. */
  function Doubled(delay: real, times: nat): real
    decreases times
  {
    if times == 0 then delay else Doubled(delay + delay, times - 1)
  }

  lemma {:induction false} DoubledIsPower(delay: real, n: nat)
    ensures Doubled(delay, n) == delay * Pow2(n)
    decreases n
  {
    if n > 0 { DoubledIsPower(delay + delay, n - 1); }
  }

  /**
   * The end of a send, in every run: success ends the entry; the failure that reaches the
   * limit ends it too; any earlier one lets it wait for the base delay, doubled once per
   * failure, plus the jitter, but no longer than the maximum. No other entry changes.
   */
  lemma SendEndDecides(config: Config, steps: seq<Step>, id: Id, ok: bool, now: real, jitter: real)
    requires var s := Run(Fresh(config), steps); s.current == Some(id) && id in s.store
    ensures var s := Run(Fresh(config), steps);
            var s', e := Take(s, SendEnds(ok, now, jitter)), s.store[id];
            var wait := Doubled(config.baseDelay, e.retries + 1) + jitter;
            && s'.current == None && s'.store.Keys == s.store.Keys && e.status == Sending
            && (forall x <- s.store :: x != id ==> s'.store[x] == s.store[x])
            && s'.store[id]
                 == if ok then e.(status := Sent)
                    else if e.retries + 1 >= config.maxRetries then e.(status := Dead, retries := e.retries + 1)
                    else Entry(Pending, e.retries + 1, now + (if wait > config.maxDelay then config.maxDelay else wait),
                               e.createdAt)
  {
    var s := Run(Fresh(config), steps);
    RunOk(Fresh(config), steps);
    assert IdOk(s, id);
    DoubledIsPower(config.baseDelay, s.store[id].retries + 1);
  }

  /**
   * A new entry is pending, has never been sent and is due at once: the next tick that starts
   * a flush lists it. No earlier entry changes.
   */
  lemma EnqueuedIsListed(s: Box, now: real, later: real)
    requires BoxOk(s) && now <= later
    ensures var id, s' := |s.sends|, Take(s, Enqueue(now));
            && id !in s.store && s'.store.Keys == s.store.Keys + {id}
            && s'.store[id].status == Pending && s'.store[id].retries == 0 && s'.store[id].createdAt == now
            && s'.sends == s.sends + [0]
            && (forall x <- s.store :: s'.store[x] == s.store[x])
            && s'.flushing == s.flushing && s'.waiting == s.waiting && s'.current == s.current
            && (!s.flushing ==> id in Take(s', Tick(later)).waiting)
  {
    PendingIdsAre(Take(s, Enqueue(now)).store, |s.sends| + 1, later);
  }

  /**
   * A tick during a flush does nothing. Any other starts one over the entries that are due,
   * each once, the older before the newer; entries are not changed by that.
   */
  lemma TickDecides(s: Box, now: real)
    requires BoxOk(s)
    ensures var s' := Take(s, Tick(now));
            if s.flushing then s' == s
            else
              && s' == s.(flushing := true, waiting := s'.waiting)
              && (forall id :: id in s'.waiting
                          <==> id in s.store && s.store[id].status == Pending && s.store[id].nextRetryAt <= now)
              && (forall i, j | 0 <= i < j < |s'.waiting| ::
                    && s'.waiting[i] in s.store && s'.waiting[j] in s.store && s'.waiting[i] != s'.waiting[j]
                    && s.store[s'.waiting[i]].createdAt <= s.store[s'.waiting[j]].createdAt)
  {
    if !s.flushing {
      PendingIdsAre(s.store, |s.sends|, now);
      var ids := PendingIds(s.store, |s.sends|, now);
      forall i, j | 0 <= i < j < |ids|
        ensures ids[i] in s.store && ids[j] in s.store
        ensures s.store[ids[i]].createdAt <= s.store[ids[j]].createdAt
      {
        assert ids[i] in ids && ids[j] in ids;
      }
    }
  }

  /** Between two sends the first entry still listed is sent; without one nothing happens. */
  lemma SendNextDecides(s: Box)
    requires BoxOk(s)
    ensures var s' := Take(s, SendNext);
            if !s.flushing || s.current.Some? || s.waiting == [] then s' == s
            else
              var id := s.waiting[0];
              && s'.current == Some(id) && [id] + s'.waiting == s.waiting && s'.store.Keys == s.store.Keys
              && s'.sends == s.sends[id := s.sends[id] + 1] && s'.fails == s.fails
              && (id in s.store ==> s.store[id].status == Pending && s'.store[id] == s.store[id].(status := Sending))
              && (forall x <- s.store :: x != id ==> s'.store[x] == s.store[x])
  {
    if s.waiting != [] { assert IdOk(s, s.waiting[0]); }
  }

  /** What is left of a flush: every entry still listed was sent, once, with this outcome. */
  ghost predicate Flushed(s: Box, s': Box, ok: Id -> bool) {
    && !s'.flushing && |s'.sends| == |s.sends| && |s'.fails| == |s.fails| == |s.sends|
    && (forall id | 0 <= id < |s.sends| ::
          && s'.sends[id] == s.sends[id] + (if id in s.waiting then 1 else 0)
          && s'.fails[id] == s.fails[id] + (if id in s.waiting && !ok(id) then 1 else 0))
    && s'.store.Keys == s.store.Keys
    && (forall id <- s.store ::
          if id in s.waiting then s'.store[id].status == Sent <==> ok(id) else s'.store[id] == s.store[id])
  }

  /** The first entry still listed, sent with this outcome. */
  lemma SendsFirst(s: Box, ok: bool, now: real)
    requires BoxOk(s) && s.flushing && s.current == None && s.waiting != []
    ensures var id, s' := s.waiting[0], Take(Take(s, SendNext), SendEnds(ok, now, 0.0));
            && BoxOk(s') && s'.flushing && s'.current == None && s'.waiting == s.waiting[1..] && id < |s.sends|
            && s'.sends == s.sends[id := s.sends[id] + 1]
            && s'.fails == (if ok then s.fails else s.fails[id := s.fails[id] + 1])
            && s'.store.Keys == s.store.Keys
            && (id in s.store ==> (s'.store[id].status == Sent <==> ok))
            && (forall x <- s.store :: x != id ==> s'.store[x] == s.store[x])
  {
    SendNextDecides(s);
    TakeOk(s, SendNext);
    TakeOk(Take(s, SendNext), SendEnds(ok, now, 0.0));
  }

  lemma FlushedAfter(s: Box, first: Box, s': Box, ok: Id -> bool, id: Id)
    requires ShapeOk(s) && s.waiting != [] && id == s.waiting[0] && Flushed(first, s', ok)
    requires first.waiting == s.waiting[1..] && first.sends == s.sends[id := s.sends[id] + 1]
    requires first.fails == (if ok(id) then s.fails else s.fails[id := s.fails[id] + 1])
    requires first.store.Keys == s.store.Keys && (id in s.store ==> (first.store[id].status == Sent <==> ok(id)))
    requires forall x <- s.store :: x != id ==> first.store[x] == s.store[x]
    ensures Flushed(s, s', ok)
  {
    assert s.waiting == [id] + first.waiting;
    assert id !in first.waiting;
  }

  lemma RunTwo(s: Box, a: Step, b: Step, rest: seq<Step>)
    ensures Run(s, [a, b] + rest) == Run(Take(Take(s, a), b), rest)
  {
    var steps := [a, b] + rest;
    assert steps[1..] == [b] + rest && steps[1..][1..] == rest;
    assert Run(s, steps) == Run(Take(s, a), steps[1..]);
  }

  /** A flush can always be run to its end, whatever the outcomes of its sends. */
  lemma {:induction false} FlushCompletes(s: Box, ok: Id -> bool, now: real) returns (steps: seq<Step>)
    requires BoxOk(s) && s.flushing && s.current == None
    ensures Flushed(s, Run(s, steps), ok)
    decreases |s.waiting|
  {
    if s.waiting == [] {
      steps := [EndFlush];
      assert Run(s, steps) == Run(Take(s, EndFlush), []);
    } else {
      var end := SendEnds(ok(s.waiting[0]), now, 0.0);
      var first := Take(Take(s, SendNext), end);
      SendsFirst(s, ok(s.waiting[0]), now);
      var rest := FlushCompletes(first, ok, now);
      steps := [SendNext, end] + rest;
      RunTwo(s, SendNext, end, rest);
      FlushedAfter(s, first, Run(first, rest), ok, s.waiting[0]);
    }
  }

  // ---- Progress ----------------------------------------------------------------------

  predicate Lists(s: Box, e: Step, id: Id) { e.Tick? && !s.flushing && id in PendingIds(s.store, |s.sends|, e.now) }

  /** How many flushes of the run took the entry on their list. */
  function Listings(s: Box, steps: seq<Step>, id: Id): nat
    decreases steps
  {
    if steps == [] then 0 else (if Lists(s, steps[0], id) then 1 else 0) + Listings(Take(s, steps[0]), steps[1..], id)
  }

  function InList(s: Box, id: Id): nat { if id in s.waiting then 1 else 0 }

  lemma StepConserves(s: Box, e: Step, id: Id)
    requires BoxOk(s) && id < |s.sends|
    ensures |s.sends| <= |Take(s, e).sends|
    ensures (if Lists(s, e, id) then 1 else 0) + InList(s, id) + s.sends[id]
         == Take(s, e).sends[id] + InList(Take(s, e), id)
  {
    if e.SendNext? && s.waiting != [] {
      assert s.waiting == [s.waiting[0]] + s.waiting[1..];
      assert s.waiting[0] !in s.waiting[1..];
    }
  }

  /** Conservation: each time a flush lists an entry it is sent once, unless it still waits. */
  lemma {:induction false} ListedIsSent(s: Box, steps: seq<Step>, id: Id)
    requires BoxOk(s) && id < |s.sends|
    ensures |s.sends| <= |Run(s, steps).sends|
    ensures Listings(s, steps, id) + InList(s, id) + s.sends[id]
         == Run(s, steps).sends[id] + InList(Run(s, steps), id)
    decreases steps
  {
    if steps != [] {
      StepConserves(s, steps[0], id);
      TakeOk(s, steps[0]);
      ListedIsSent(Take(s, steps[0]), steps[1..], id);
    }
  }

  /** A tick that starts a flush, no sooner than maxDelay after the entry last failed. */
  predicate Spaced(s: Box, e: Step, id: Id) {
    && e.Tick? && !s.flushing && id in s.store && id < |s.failedAt|
    && (if s.failedAt[id].Some? then s.failedAt[id].value + s.config.maxDelay else s.store[id].createdAt) <= e.now
  }

  function SpacedTicks(s: Box, steps: seq<Step>, id: Id): nat
    decreases steps
  {
    if steps == [] then 0
    else (if Spaced(s, steps[0], id) then 1 else 0) + SpacedTicks(Take(s, steps[0]), steps[1..], id)
  }

  /** Such a tick takes the entry on its list unless it is sent or dead. */
  lemma SpacedLists(s: Box, e: Step, id: Id)
    requires BoxOk(s) && Spaced(s, e, id)
    ensures Lists(s, e, id) <==> s.store[id].status == Pending
    ensures s.store[id].status != Pending ==> Settled(s, id)
  {
    assert IdOk(s, id);
    PendingIdsAre(s.store, |s.sends|, e.now);
  }

  lemma {:induction false} UnsettledIsListed(s: Box, steps: seq<Step>, id: Id)
    requires BoxOk(s) && id < |s.sends| && !Settled(Run(s, steps), id)
    ensures SpacedTicks(s, steps, id) <= Listings(s, steps, id)
    decreases steps
  {
    if steps != [] {
      if Spaced(s, steps[0], id) {
        SpacedLists(s, steps[0], id);
        if Settled(s, id) { NeverSentAgain(s, steps, id); }
      }
      StepConserves(s, steps[0], id);
      TakeOk(s, steps[0]);
      UnsettledIsListed(Take(s, steps[0]), steps[1..], id);
    }
  }

  /**
   * Every entry ends: once max(1, maxRetries) flushes have started no sooner than maxDelay
   * after its previous failure and none is running, it is sent or dead (or was removed).
   */
  lemma EndsSentOrDead(config: Config, before: seq<Step>, after: seq<Step>, id: Id)
    requires var s := Run(Fresh(config), before);
             && id < |s.sends| && SpacedTicks(s, after, id) >= Limit(config) && !Run(s, after).flushing
    ensures Settled(Run(Run(Fresh(config), before), after), id)
  {
    var s := Run(Fresh(config), before);
    RunOk(Fresh(config), before);
    RunOk(s, after);
    var s' := Run(s, after);
    if !Settled(s', id) {
      UnsettledIsListed(s, after, id);
      ListedIsSent(s, after, id);
      assert IdOk(s', id);
    }
  }

  // ---- The outbox object -------------------------------------------------------------

  class MessageOutbox {
    const config: Config
    var store: map<Id, Entry>
    var isFlushing: bool
    var waiting: seq<Id>
    var current: Option<Id>
    var next: Id
    ghost var sends: seq<nat>
    ghost var fails: seq<nat>
    ghost var failedAt: seq<Option<real>>

    constructor (config: Config)
      ensures Valid() && State() == Fresh(config)
    {
      this.config := config;
      store, isFlushing, waiting, current, next := map[], false, [], None, 0;
      sends, fails, failedAt := [], [], [];
    }

    ghost function State(): Box
      reads this
    {
      Box(config, store, isFlushing, waiting, current, sends, fails, failedAt)
    }

    ghost predicate Valid()
      reads this
    {
      BoxOk(State()) && next == |sends|
    }

    method EnqueueEntry(now: real) returns (id: Id)
      requires Valid()
      modifies this
      ensures Valid() && State() == Enqueued(old(State()), now)
      ensures id !in old(store) && id in store && store[id] == Entry(Pending, 0, now, now)
    {
      EnqueueOk(State(), now);
      id := next;
      store := store[id := Entry(Pending, 0, now, now)];
      next := next + 1;
      sends, fails, failedAt := sends + [0], fails + [0], failedAt + [None];
    }

    /** Collects the due entries in store order, then sorts them by creation time. */
    method GetPending(now: real) returns (ids: seq<Id>)
      requires forall id <- store :: id < next
      ensures ids == PendingIds(store, next, now)
      ensures forall id :: id in ids <==> id in store && store[id].status == Pending && store[id].nextRetryAt <= now
    {
      ids := [];
      var n := 0;
      while n < next
        invariant n <= next && ids == DueIds(store, n, now)
      {
        if n in store && Due(store[n], now) { ids := ids + [n]; }
        n := n + 1;
      }
      ids := StableSort.Sort(ids, CreatedAt(store));
      PendingIdsAre(store, next, now);
    }

    /** A timer tick: at most one flush runs at a time. */
    method OnTick(now: real)
      requires Valid()
      modifies `isFlushing, `waiting
      ensures Valid() && State() == Ticked(old(State()), now)
    {
      TickOk(State(), now);
      if isFlushing { return; }
      isFlushing := true;
      waiting := GetPending(now);
    }

    method SendNextEntry() returns (id: Id)
      requires Valid() && isFlushing && current == None && waiting != []
      modifies this
      ensures Valid() && State() == SentNext(old(State())) && current == Some(id)
    {
      SendNextOk(State());
      id := waiting[0];
      if id in store { store := store[id := store[id].(status := Sending)]; }
      waiting := waiting[1..];
      current := Some(id);
      sends := sends[id := sends[id] + 1];
    }

    method MarkSent(ghost now: real, ghost jitter: real)
      requires Valid() && current.Some?
      modifies `store, `current
      ensures Valid() && State() == SendEnded(old(State()), true, now, jitter)
    {
      SendEndsOk(State(), true, now, jitter);
      var id := current.value;
      if id in store { store := store[id := store[id].(status := Sent)]; }
      current := None;
    }

    method MarkFailed(now: real, jitter: real)
      requires Valid() && current.Some?
      modifies this
      ensures Valid() && State() == SendEnded(old(State()), false, now, jitter)
    {
      SendEndsOk(State(), false, now, jitter);
      var id := current.value;
      current := None;
      fails, failedAt := fails[id := fails[id] + 1], failedAt[id := Some(now)];
      if id in store {
        var entry := store[id].(retries := store[id].retries + 1);
        if entry.retries >= config.maxRetries {
          entry := entry.(status := Dead);
        } else {
          entry := entry.(status := Pending, nextRetryAt := now + Delay(config, entry.retries, jitter));
        }
        store := store[id := entry];
      }
    }

    method RemoveEntry(id: Id)
      requires Valid()
      modifies `store
      ensures Valid() && State() == Take(old(State()), Remove(id))
    {
      TakeOk(State(), Remove(id));
      store := store - {id};
    }

    /** Walks the store and deletes in place. */
    method CleanupSent(now: real, maxAge: real)
      requires Valid()
      modifies `store
      ensures Valid() && State() == Take(old(State()), Cleanup(now, maxAge))
    {
      TakeOk(State(), Cleanup(now, maxAge));
      var left := store.Keys;
      while left != {}
        invariant left <= old(store.Keys)
        invariant forall id ::
                    id in store <==> id in old(store) && (id in left || !Expired(old(store)[id], now, maxAge))
        invariant forall id <- store :: store[id] == old(store)[id]
        decreases |left|
      {
        var id :| id in left;
        left := left - {id};
        if Expired(store[id], now, maxAge) { store := store - {id}; }
      }
      assert store == Cleaned(old(store), now, maxAge);
    }
  }
}
