/**
 * The lazily expiring stores: idempotency answers and accepted nonces. Both keep only what
 * has not expired, yet answer as the whole history dictates.
 */
module TtlStores {
  import opened Prelude

  // ---- Idempotency -------------------------------------------------------------------

  datatype Entry = Entry(fingerprint: string, response: string, expiresAt: int)

  datatype Answer = New | Duplicate(response: string) | Conflict

  datatype Store = Store(defaultTtl: int, entries: map<string, Entry>, expiredCleaned: nat)

  datatype Event =
    | Check(key: string, fingerprint: string, now: int)
    | Put(key: string, fingerprint: string, response: string, ttl: Option<int>, now: int)
    | Cleanup(now: int)

  function AnswerFor(entry: Option<Entry>, fingerprint: string, now: int): Answer {
    if entry.None? || entry.value.expiresAt <= now then New
    else if entry.value.fingerprint == fingerprint then Duplicate(entry.value.response)
    else Conflict
  }

  function Find(entries: map<string, Entry>, key: string): Option<Entry> {
    if key in entries then Some(entries[key]) else None
  }

  function Checked(s: Store, key: string, now: int): Store {
    if key in s.entries && s.entries[key].expiresAt <= now
    then s.(entries := s.entries - {key}, expiredCleaned := s.expiredCleaned + 1) else s
  }

  /** Times to live are in seconds, the clock in milliseconds. */
  function NewEntry(s: Store, e: Event): Entry
    requires e.Put?
  {
    Entry(e.fingerprint, e.response, e.now + (if e.ttl.Some? then e.ttl.value else s.defaultTtl) * 1000)
  }

  function Live(entries: map<string, Entry>, now: int): map<string, Entry> {
    map k | k in entries && entries[k].expiresAt > now :: entries[k]
  }

  function Take(s: Store, e: Event): Store {
    match e
    case Check(key, _, now) => Checked(s, key, now)
    case Put(key, _, _, _, _) => s.(entries := s.entries[key := NewEntry(s, e)])
    case Cleanup(now) =>
      LiveShrinks(s.entries, now);
      s.(entries := Live(s.entries, now), expiredCleaned := s.expiredCleaned + |s.entries| - |Live(s.entries, now)|)
  }

  lemma LiveShrinks(entries: map<string, Entry>, now: int)
    ensures |Live(entries, now)| <= |entries|
  {
    SubsetSize(Live(entries, now).Keys, entries.Keys);
  }

  lemma {:induction false} SubsetSize(a: set<string>, b: set<string>)
    requires a <= b
    ensures |a| <= |b|
  {
    if a != {} {
      var x :| x in a;
      SubsetSize(a - {x}, b - {x});
    }
  }

  lemma OneLess(entries: map<string, Entry>, key: string)
    requires key in entries
    ensures |entries - {key}| == |entries| - 1
  {
    assert (entries - {key}).Keys == entries.Keys - {key};
  }

  /** The last event is the newest. */
  function Run(s: Store, events: seq<Event>): Store {
    if events == [] then s else Take(Run(s, events[..|events| - 1]), events[|events| - 1])
  }

  function Fresh(defaultTtl: int): Store { Store(defaultTtl, map[], 0) }

  ghost predicate InOrder(events: seq<Event>) { forall i, j | 0 <= i < j < |events| :: events[i].now <= events[j].now }

  /** The entry of the latest `store` call for the key in the whole history. */
  function Latest(s: Store, events: seq<Event>, key: string): Option<Entry> {
    if events == [] then None
    else
      var e := events[|events| - 1];
      if e.Put? && e.key == key then Some(NewEntry(s, e)) else Latest(s, events[..|events| - 1], key)
  }

  /** What is kept of a key: its latest entry, or nothing once that has expired. */
  ghost predicate Agrees(s: Store, events: seq<Event>, key: string, now: int) {
    var kept, latest := Find(Run(s, events).entries, key), Latest(s, events, key);
    kept == latest || (kept == None && latest.Some? && latest.value.expiresAt <= now)
  }

  lemma {:induction false} KeepsLatest(s: Store, events: seq<Event>, key: string, now: int)
    requires s.entries == map[] && InOrder(events) && (events != [] ==> events[|events| - 1].now <= now)
    ensures Agrees(s, events, key, now) && Run(s, events).defaultTtl == s.defaultTtl
  {
    if events != [] {
      var before, e := events[..|events| - 1], events[|events| - 1];
      KeepsLatest(s, before, key, e.now);
    }
  }

  /**
   * With a clock that never goes back, a check answers as the latest `store` call for its
   * key in the whole history dictates, wherever cleanups and other checks are inserted.
   */
  lemma CheckRefinesHistory(defaultTtl: int, events: seq<Event>, key: string, fingerprint: string, now: int)
    requires InOrder(events) && (events != [] ==> events[|events| - 1].now <= now)
    ensures AnswerFor(Find(Run(Fresh(defaultTtl), events).entries, key), fingerprint, now)
         == AnswerFor(Latest(Fresh(defaultTtl), events, key), fingerprint, now)
    ensures var answer := AnswerFor(Find(Run(Fresh(defaultTtl), events).entries, key), fingerprint, now);
            var latest := Latest(Fresh(defaultTtl), events, key);
            && (answer == New <==> latest.None? || latest.value.expiresAt <= now)
            && (answer.Duplicate? <==>
                  latest.Some? && now < latest.value.expiresAt && latest.value.fingerprint == fingerprint)
            && (answer.Duplicate? ==> answer.response == latest.value.response)
  {
    KeepsLatest(Fresh(defaultTtl), events, key, now);
  }

  /** An answer stored for so many seconds is given for exactly that long. */
  lemma LivesExactly(s: Store, key: string, fingerprint: string, response: string, ttl: int, at: int, now: int)
    ensures var s' := Take(s, Put(key, fingerprint, response, Some(ttl), at));
            AnswerFor(Find(s'.entries, key), fingerprint, now) == Duplicate(response) <==> now - at < 1000 * ttl
    ensures Take(s, Put(key, fingerprint, response, None, at))
         == Take(s, Put(key, fingerprint, response, Some(s.defaultTtl), at))
  {
  }

  /** What an event leaves of an entry: a check forgets the one of its key, a cleanup any, if it has expired. */
  lemma KeptIffLive(s: Store, e: Event, k: string)
    requires !StoresFor(e, k)
    ensures var s' := Take(s, e);
            && (k in s'.entries <==> k in s.entries && ((e.Cleanup? || (e.Check? && e.key == k)) ==>
                                                          e.now < s.entries[k].expiresAt))
            && (k in s'.entries ==> s'.entries[k] == s.entries[k])
  {
  }

  /** How many `store` calls of the history found no entry for their key. */
  function Additions(s: Store, events: seq<Event>): nat {
    if events == [] then 0
    else
      var before, e := events[..|events| - 1], events[|events| - 1];
      Additions(s, before) + (if e.Put? && e.key !in Run(s, before).entries then 1 else 0)
  }

  /** Conservation: each added entry is still there or was counted as cleaned, once. */
  lemma {:induction false} AddedIsKeptOrCounted(defaultTtl: int, events: seq<Event>)
    ensures var s := Run(Fresh(defaultTtl), events);
            |s.entries| + s.expiredCleaned == Additions(Fresh(defaultTtl), events)
  {
    if events != [] {
      var before, e := events[..|events| - 1], events[|events| - 1];
      AddedIsKeptOrCounted(defaultTtl, before);
      CountStep(Run(Fresh(defaultTtl), before), e);
    }
  }

  lemma CountStep(s: Store, e: Event)
    ensures |Take(s, e).entries| + Take(s, e).expiredCleaned
         == |s.entries| + s.expiredCleaned + (if e.Put? && e.key !in s.entries then 1 else 0)
  {
    match e
    case Check(key, _, _) => if key in s.entries { OneLess(s.entries, key); }
    case Put(key, _, _, _, _) =>
      assert Take(s, e).entries.Keys == s.entries.Keys + {key};
      assert |s.entries.Keys + {key}| == |s.entries.Keys| + (if key in s.entries then 0 else 1);
    case Cleanup(now) => LiveShrinks(s.entries, now);
  }

  /** The latest `store` call for the key that has not expired at `now`. */
  function LatestLive(s: Store, events: seq<Event>, key: string, now: int): Option<Entry> {
    if events == [] then None
    else
      var e := events[|events| - 1];
      if e.Put? && e.key == key && NewEntry(s, e).expiresAt > now then Some(NewEntry(s, e))
      else LatestLive(s, events[..|events| - 1], key, now)
  }

  lemma {:induction false} LatestLiveIs(s: Store, events: seq<Event>, key: string, now: int)
    ensures LatestLive(s, events, key, now).Some? ==> LatestLive(s, events, key, now).value.expiresAt > now
    ensures Latest(s, events, key).Some? && Latest(s, events, key).value.expiresAt > now ==>
              LatestLive(s, events, key, now) == Latest(s, events, key)
    ensures Latest(s, events, key).None? ==> LatestLive(s, events, key, now).None?
  {
    if events != [] { LatestLiveIs(s, events[..|events| - 1], key, now); }
  }

  predicate StoresFor(e: Event, key: string) { e.Put? && e.key == key }

  predicate ExpiredAt(s: Store, e: Event, now: int)
    requires e.Put?
  {
    NewEntry(s, e).expiresAt <= now
  }

  /** An unexpired `store` call for the key is followed by one that expired, the last of all. */
  ghost predicate Hidden(s: Store, events: seq<Event>, key: string, now: int) {
    exists i, j :: 0 <= i < j < |events| && LiveAt(s, events, key, now, i) && LastDead(s, events, key, now, j)
  }

  ghost predicate LiveAt(s: Store, events: seq<Event>, key: string, now: int, i: nat)
    requires i < |events|
  {
    StoresFor(events[i], key) && !ExpiredAt(s, events[i], now)
  }

  ghost predicate LastDead(s: Store, events: seq<Event>, key: string, now: int, j: nat)
    requires j < |events|
  {
    && StoresFor(events[j], key) && ExpiredAt(s, events[j], now)
    && forall k | j < k < |events| :: !StoresFor(events[k], key)
  }

  lemma {:induction false} LatestAt(s: Store, events: seq<Event>, key: string) returns (j: nat)
    requires Latest(s, events, key).Some?
    ensures j < |events| && StoresFor(events[j], key) && Latest(s, events, key) == Some(NewEntry(s, events[j]))
    ensures forall k | j < k < |events| :: !StoresFor(events[k], key)
  {
    j := |events| - 1;
    if !StoresFor(events[j], key) { j := LatestAt(s, events[..j], key); }
  }

  lemma {:induction false} LatestIs(s: Store, events: seq<Event>, key: string, j: nat)
    requires j < |events| && StoresFor(events[j], key) && forall k | j < k < |events| :: !StoresFor(events[k], key)
    ensures Latest(s, events, key) == Some(NewEntry(s, events[j]))
  {
    if j < |events| - 1 { LatestIs(s, events[..|events| - 1], key, j); }
  }

  lemma {:induction false} LatestLiveAt(s: Store, events: seq<Event>, key: string, now: int) returns (i: nat)
    requires LatestLive(s, events, key, now).Some?
    ensures i < |events| && LiveAt(s, events, key, now, i)
  {
    i := |events| - 1;
    if !LiveAt(s, events, key, now, i) { i := LatestLiveAt(s, events[..i], key, now); }
  }

  lemma {:induction false} LiveIsSome(s: Store, events: seq<Event>, key: string, now: int, i: nat)
    requires i < |events| && LiveAt(s, events, key, now, i)
    ensures LatestLive(s, events, key, now).Some?
  {
    if i < |events| - 1 { LiveIsSome(s, events[..|events| - 1], key, now, i); }
  }

  lemma HiddenIff(s: Store, events: seq<Event>, key: string, now: int)
    ensures Hidden(s, events, key, now)
       <==> && LatestLive(s, events, key, now).Some? && Latest(s, events, key).Some?
            && Latest(s, events, key).value.expiresAt <= now
  {
    if Hidden(s, events, key, now) {
      var i, j :| 0 <= i < j < |events| && LiveAt(s, events, key, now, i) && LastDead(s, events, key, now, j);
      LatestIs(s, events, key, j);
      LiveIsSome(s, events, key, now, i);
    }
    if LatestLive(s, events, key, now).Some? && Latest(s, events, key).Some?
       && Latest(s, events, key).value.expiresAt <= now {
      var i := LatestLiveAt(s, events, key, now);
      var j := LatestAt(s, events, key);
      assert LiveAt(s, events, key, now, i) && LastDead(s, events, key, now, j);
    }
  }

  /**
   * An expired store call hides earlier ones: the answer is that of the latest unexpired call
   * unless the last call for the key has expired while an earlier one has not.
   */
  lemma AnswersLatestLiveIff(defaultTtl: int, events: seq<Event>, key: string, fingerprint: string, now: int)
    requires InOrder(events) && (events != [] ==> events[|events| - 1].now <= now)
    ensures var s := Fresh(defaultTtl);
            AnswerFor(Find(Run(s, events).entries, key), fingerprint, now)
              == AnswerFor(LatestLive(s, events, key, now), fingerprint, now)
            <==> !Hidden(s, events, key, now)
  {
    CheckRefinesHistory(defaultTtl, events, key, fingerprint, now);
    LatestLiveIs(Fresh(defaultTtl), events, key, now);
    HiddenIff(Fresh(defaultTtl), events, key, now);
  }

  /** A shorter later time to live makes the store forget a longer earlier one. */
  lemma ShorterTtlHides(key: string, fingerprint: string, response: string)
    ensures var events := [Put(key, fingerprint, response, Some(100), 0), Put(key, fingerprint, response, Some(1), 0)];
            var s := Fresh(60);
            && AnswerFor(Find(Run(s, events).entries, key), fingerprint, 2000) == New
            && AnswerFor(LatestLive(s, events, key, 2000), fingerprint, 2000) == Duplicate(response)
  {
    var s := Fresh(60);
    var first, second := Put(key, fingerprint, response, Some(100), 0), Put(key, fingerprint, response, Some(1), 0);
    var events := [first, second];
    assert events[..1] == [first] && [first][..0] == [];
    assert Latest(s, events, key) == Some(Entry(fingerprint, response, 1000));
    assert LatestLive(s, [first], key, 2000) == Some(Entry(fingerprint, response, 100000));
    CheckRefinesHistory(60, events, key, fingerprint, 2000);
  }

  class IdempotencyStore {
    const defaultTtl: int
    var entries: map<string, Entry>
    var expiredCleaned: nat
    ghost var history: seq<Event>

    constructor (defaultTtl: int)
      ensures Valid() && history == []
    {
      this.defaultTtl := defaultTtl;
      entries, expiredCleaned, history := map[], 0, [];
    }

    ghost function State(): Store
      reads this
    {
      Store(defaultTtl, entries, expiredCleaned)
    }

    ghost predicate Valid()
      reads this
    {
      State() == Run(Fresh(defaultTtl), history) && InOrder(history)
    }

    /** The clock has not gone back since the last call. */
    ghost predicate OnTime(now: int)
      reads this
    {
      history != [] ==> history[|history| - 1].now <= now
    }

    method CheckKey(key: string, fingerprint: string, now: int) returns (answer: Answer)
      requires Valid() && OnTime(now)
      modifies this
      ensures Valid() && history == old(history) + [Check(key, fingerprint, now)]
      ensures answer == AnswerFor(Latest(Fresh(defaultTtl), old(history), key), fingerprint, now)
    {
      CheckRefinesHistory(defaultTtl, history, key, fingerprint, now);
      ghost var before := history;
      history := history + [Check(key, fingerprint, now)];
      assert history[..|before|] == before;
      if key !in entries { return New; }
      var entry := entries[key];
      if entry.expiresAt <= now {
        entries := entries - {key};
        expiredCleaned := expiredCleaned + 1;
        return New;
      }
      if entry.fingerprint == fingerprint { return Duplicate(entry.response); }
      return Conflict;
    }

    method PutKey(key: string, fingerprint: string, response: string, ttl: Option<int>, now: int)
      requires Valid() && OnTime(now)
      modifies this
      ensures Valid() && history == old(history) + [Put(key, fingerprint, response, ttl, now)]
    {
      ghost var before := history;
      history := history + [Put(key, fingerprint, response, ttl, now)];
      assert history[..|before|] == before;
      var seconds := if ttl.Some? then ttl.value else defaultTtl;
      entries := entries[key := Entry(fingerprint, response, now + seconds * 1000)];
    }

    /** Walks the entries and deletes the expired ones in place. */
    method CleanupExpired(now: int)
      requires Valid() && OnTime(now)
      modifies this
      ensures Valid() && history == old(history) + [Cleanup(now)]
    {
      ghost var before := history;
      history := history + [Cleanup(now)];
      assert history[..|before|] == before;
      var left := entries.Keys;
      while left != {}
        modifies `entries, `expiredCleaned
        invariant left <= old(entries.Keys) && entries.Keys <= old(entries.Keys)
        invariant forall k :: k in entries <==> k in old(entries) && (k in left || old(entries)[k].expiresAt > now)
        invariant forall k <- entries :: entries[k] == old(entries)[k]
        invariant expiredCleaned == old(expiredCleaned) + |old(entries)| - |entries|
        decreases |left|
      {
        var k :| k in left;
        left := left - {k};
        if entries[k].expiresAt <= now {
          OneLess(entries, k);
          entries := entries - {k};
          expiredCleaned := expiredCleaned + 1;
        }
      }
      assert entries == Live(old(entries), now);
    }
  }

  // ---- Nonces ------------------------------------------------------------------------

  datatype Use = Add(nonce: string, ttl: int, now: int) | Sweep(now: int)

  predicate Admissible(cache: map<string, int>, nonce: string, now: int) { nonce !in cache || cache[nonce] <= now }

  function Used(cache: map<string, int>, u: Use): map<string, int> {
    match u
    case Add(nonce, ttl, now) => if Admissible(cache, nonce, now) then cache[nonce := now + ttl] else cache
    case Sweep(now) => map n | n in cache && cache[n] > now :: cache[n]
  }

  function UseAll(uses: seq<Use>): map<string, int> {
    if uses == [] then map[] else Used(UseAll(uses[..|uses| - 1]), uses[|uses| - 1])
  }

  /** The `i`th use was an add that was accepted. */
  predicate Accepted(uses: seq<Use>, i: nat) {
    i < |uses| && uses[i].Add? && Admissible(UseAll(uses[..i]), uses[i].nonce, uses[i].now)
  }

  ghost predicate ClockOk(uses: seq<Use>) { forall i, j | 0 <= i < j < |uses| :: uses[i].now <= uses[j].now }

  /** Every accepted add of the nonce has expired at `now`. */
  ghost predicate AllExpired(uses: seq<Use>, nonce: string, now: int) {
    forall i: nat | Accepted(uses, i) && uses[i].nonce == nonce :: uses[i].now + uses[i].ttl <= now
  }

  lemma AcceptedInPrefix(uses: seq<Use>, n: nat, i: nat)
    requires i < n <= |uses|
    ensures Accepted(uses[..n], i) <==> Accepted(uses, i)
  {
    assert uses[..n][..i] == uses[..i];
  }

  lemma {:induction false} FreshIff(uses: seq<Use>, nonce: string, now: int)
    requires ClockOk(uses) && (uses != [] ==> uses[|uses| - 1].now <= now)
    ensures Admissible(UseAll(uses), nonce, now) <==> AllExpired(uses, nonce, now)
    ensures nonce in UseAll(uses) && UseAll(uses)[nonce] > now ==>
              exists i: nat ::
                Accepted(uses, i) && uses[i].nonce == nonce && UseAll(uses)[nonce] == uses[i].now + uses[i].ttl
  {
    if uses != [] {
      var n := |uses| - 1;
      var before, u := uses[..n], uses[n];
      FreshIff(before, nonce, now);
      FreshIff(before, nonce, u.now);
      forall i: nat | i < n ensures Accepted(uses, i) <==> Accepted(before, i) { AcceptedInPrefix(uses, n, i); }
      if AllExpired(uses, nonce, now) {
        forall i: nat | Accepted(before, i) && before[i].nonce == nonce ensures before[i].now + before[i].ttl <= now {
          assert Accepted(uses, i);
        }
        assert u.Add? && u.nonce == nonce && Accepted(uses, n) ==> u.now + u.ttl <= now;
      } else {
        var i: nat :| Accepted(uses, i) && uses[i].nonce == nonce && uses[i].now + uses[i].ttl > now;
        if i < n { assert Accepted(before, i) && !AllExpired(before, nonce, now) && !AllExpired(before, nonce, u.now); }
      }
      if nonce in UseAll(before) && UseAll(before)[nonce] > now {
        var i: nat :| && Accepted(before, i) && before[i].nonce == nonce
                      && UseAll(before)[nonce] == before[i].now + before[i].ttl;
        assert Accepted(uses, i);
      }
      if Accepted(uses, n) { assert UseAll(uses)[u.nonce] == u.now + u.ttl; }
    }
  }

  /**
   * Replay window: with a clock that never goes back and any sweeps in between, an add is
   * accepted if and only if every earlier accepted add of that nonce has outlived its TTL.
   */
  lemma AcceptedIffExpired(uses: seq<Use>, j: nat)
    requires ClockOk(uses) && j < |uses| && uses[j].Add?
    ensures Accepted(uses, j) <==>
              forall i: nat | i < j && Accepted(uses, i) && uses[i].nonce == uses[j].nonce ::
                uses[i].now + uses[i].ttl <= uses[j].now
  {
    var before := uses[..j];
    FreshIff(before, uses[j].nonce, uses[j].now);
    forall i: nat | i < j ensures Accepted(before, i) <==> Accepted(uses, i) { AcceptedInPrefix(uses, j, i); }
    if Accepted(uses, j) {
      assert AllExpired(before, uses[j].nonce, uses[j].now);
    } else {
      var i: nat :| && Accepted(before, i) && before[i].nonce == uses[j].nonce
                    && before[i].now + before[i].ttl > uses[j].now;
      assert Accepted(uses, i);
    }
  }

  lemma UseOneMore(before: seq<Use>, u: Use)
    ensures UseAll(before + [u]) == Used(UseAll(before), u)
    ensures Accepted(before + [u], |before|) <==> u.Add? && Admissible(UseAll(before), u.nonce, u.now)
  {
    assert (before + [u])[..|before|] == before;
  }

  /** A sweep forgets exactly the expired nonces; an add remembers its own until it expires. */
  lemma RememberedIff(uses: seq<Use>, u: Use, n: string)
    ensures var cache, cache' := UseAll(uses), UseAll(uses + [u]);
            n in cache' <==>
              if u.Sweep? then n in cache && u.now < cache[n] else n in cache || n == u.nonce
    ensures var cache, cache' := UseAll(uses), UseAll(uses + [u]);
            n in cache' && (u.Sweep? || n != u.nonce || !Accepted(uses + [u], |uses|)) ==> cache'[n] == cache[n]
  {
    UseOneMore(uses, u);
  }

  class NonceCache {
    var cache: map<string, int>
    ghost var history: seq<Use>

    constructor ()
      ensures Valid() && history == []
    {
      cache, history := map[], [];
    }

    ghost predicate Valid()
      reads this
    {
      cache == UseAll(history)
    }

    method AddNonce(nonce: string, ttl: int, now: int) returns (accepted: bool)
      requires Valid()
      modifies this
      ensures Valid() && history == old(history) + [Add(nonce, ttl, now)]
      ensures accepted <==> Accepted(history, |old(history)|)
    {
      UseOneMore(history, Add(nonce, ttl, now));
      history := history + [Add(nonce, ttl, now)];
      if nonce in cache {
        if cache[nonce] <= now {
          cache := cache - {nonce};
        } else {
          return false;
        }
      }
      cache := cache[nonce := now + ttl];
      assert cache == old(cache)[nonce := now + ttl];
      return true;
    }

    method Cleanup(now: int)
      requires Valid()
      modifies this
      ensures Valid() && history == old(history) + [Sweep(now)]
    {
      ghost var before := history;
      history := history + [Sweep(now)];
      assert history[..|before|] == before;
      var left := cache.Keys;
      while left != {}
        modifies `cache
        invariant left <= old(cache.Keys)
        invariant forall n :: n in cache <==> n in old(cache) && (n in left || old(cache)[n] > now)
        invariant forall n <- cache :: cache[n] == old(cache)[n]
        decreases |left|
      {
        var n :| n in left;
        left := left - {n};
        if cache[n] <= now { cache := cache - {n}; }
      }
      assert cache == Used(old(cache), Sweep(now));
    }
  }
}
