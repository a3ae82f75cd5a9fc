/**
 * Transport ordering: the static priority order, the sliding-window statistics, and the
 * adaptive order by score. Scores are exact real arithmetic.
 */
module TransportFallback {
  import opened StableSort

  datatype Endpoint = Endpoint(url: string, transport: string)

  const UNRANKED: nat := 3

  /** The index in the priority list, or the position after it. */
  function Rank(transport: string): nat {
    if transport == "JSONRPC" then 0 else if transport == "HTTP+JSON" then 1
    else if transport == "GRPC" then 2 else UNRANKED
  }

  predicate Ranked(e: Endpoint) { Rank(e.transport) < UNRANKED }

  function StaticKey(): Endpoint -> Key { (e: Endpoint) => Key(0.0, Rank(e.transport) as real) }

  /** The endpoints by priority, equal priorities and unranked transports in their order. */
  function Order(endpoints: seq<Endpoint>): seq<Endpoint> { Sort(endpoints, StaticKey()) }

  // ---- Statistics --------------------------------------------------------------------

  datatype Outcome = Outcome(ok: bool, latency: real)

  datatype Event = Record(transport: string, ok: bool, latency: real) | Clear

  type Records = map<string, seq<Outcome>>

  function Last<T>(s: seq<T>, n: nat): seq<T> { if |s| <= n then s else s[|s| - n..] }

  function NonNegative(latency: real): real { if latency < 0.0 then 0.0 else latency }

  function Listed(records: Records, transport: string): seq<Outcome> {
    if transport in records then records[transport] else []
  }

  function Recorded(records: Records, window: nat, e: Event): Records {
    match e
    case Clear => map[]
    case Record(transport, ok, latency) =>
      records[transport := Last(Listed(records, transport) + [Outcome(ok, NonNegative(latency))], window)]
  }

  function RecordAll(records: Records, window: nat, events: seq<Event>): Records
    decreases events
  {
    if events == [] then records else RecordAll(Recorded(records, window, events[0]), window, events[1..])
  }

  /** All outcomes of a transport since the last clear. */
  function Outcomes(events: seq<Event>, transport: string): seq<Outcome> {
    if events == [] then []
    else
      var e, before := events[|events| - 1], events[..|events| - 1];
      match e
      case Clear => []
      case Record(t, ok, latency) =>
        Outcomes(before, transport)
        + (if t == transport then [Outcome(ok, if latency > 0.0 then latency else 0.0)] else [])
  }

  lemma {:induction false} RecordAllSnoc(records: Records, window: nat, events: seq<Event>, e: Event)
    ensures RecordAll(records, window, events + [e]) == Recorded(RecordAll(records, window, events), window, e)
    decreases events
  {
    if events == [] {
      assert [] + [e] == [e] && [e][1..] == [];
    } else {
      assert (events + [e])[1..] == events[1..] + [e];
      RecordAllSnoc(Recorded(records, window, events[0]), window, events[1..], e);
    }
  }

  lemma LastOfLast<T>(s: seq<T>, x: T, n: nat)
    requires n >= 1
    ensures Last(Last(s, n) + [x], n) == Last(s + [x], n)
  {
  }

  /** After any history each transport's list is exactly its last `window` outcomes. */
  lemma WindowIsLast(window: nat, events: seq<Event>, transport: string)
    requires window >= 1
    ensures var all := Outcomes(events, transport);
            Listed(RecordAll(map[], window, events), transport)
              == if |all| > window then all[|all| - window..] else all
  {
    KeptIsLast(window, events, transport);
  }

  lemma {:induction false} KeptIsLast(window: nat, events: seq<Event>, transport: string)
    requires window >= 1
    ensures Listed(RecordAll(map[], window, events), transport) == Last(Outcomes(events, transport), window)
  {
    if events != [] {
      var before, e := events[..|events| - 1], events[|events| - 1];
      assert events == before + [e];
      RecordAllSnoc(map[], window, before, e);
      KeptIsLast(window, before, transport);
      if e.Record? && e.transport == transport {
        LastOfLast(Outcomes(before, transport), Outcome(e.ok, NonNegative(e.latency)), window);
      }
    }
  }

  // ---- Scores ------------------------------------------------------------------------

  function Successes(list: seq<Outcome>): seq<Outcome> {
    if list == [] then [] else (if list[0].ok then [list[0]] else []) + Successes(list[1..])
  }

  function Total(list: seq<Outcome>): real { if list == [] then 0.0 else list[0].latency + Total(list[1..]) }

  function SuccessRate(list: seq<Outcome>): real {
    if list == [] then 1.0 else |Successes(list)| as real / |list| as real
  }

  function AvgLatency(list: seq<Outcome>): real {
    var ok := Successes(list);
    if ok == [] then 0.0 else Total(ok) / |ok| as real
  }

  /** The divisor is zero for no latencies that can be recorded. */
  function Score(list: seq<Outcome>, normalizer: real): real
    requires normalizer >= 1.0
  {
    var avg := AvgLatency(list);
    if 1.0 + avg / normalizer == 0.0 then 0.0 else SuccessRate(list) * (1.0 / (1.0 + avg / normalizer))
  }

  ghost predicate LatenciesOk(list: seq<Outcome>) { forall o <- list :: o.latency >= 0.0 }

  lemma {:induction false} SuccessesAre(list: seq<Outcome>)
    ensures |Successes(list)| <= |list|
    ensures forall o <- Successes(list) :: o in list && o.ok
    ensures |Successes(list)| == |list| <==> forall o <- list :: o.ok
    ensures Successes(list) == [] <==> forall o <- list :: !o.ok
  {
    if list != [] {
      SuccessesAre(list[1..]);
      assert list == [list[0]] + list[1..];
    }
  }

  lemma {:induction false} TotalIsNonNegative(list: seq<Outcome>)
    requires LatenciesOk(list)
    ensures Total(list) >= 0.0
    ensures Total(list) == 0.0 <==> forall o <- list :: o.latency == 0.0
  {
    if list != [] {
      assert list == [list[0]] + list[1..];
      TotalIsNonNegative(list[1..]);
    }
  }

  lemma MultiplyOrder(x: real, y: real, b: real)
    requires 0.0 < b
    ensures x < y <==> x * b < y * b
  {
    assert (y - x) * b == y * b - x * b;
  }

  lemma DivideBounds(a: real, b: real)
    requires 0.0 <= a && 0.0 < b
    ensures 0.0 <= a / b
    ensures a <= b ==> a / b <= 1.0
    ensures a / b == 1.0 <==> a == b
    ensures a / b == 0.0 <==> a == 0.0
  {
    var q := a / b;
    assert q * b == a;
    MultiplyOrder(q, 0.0, b);
    MultiplyOrder(1.0, q, b);
  }

  lemma RateBounds(list: seq<Outcome>)
    ensures 0.0 <= SuccessRate(list) <= 1.0
    ensures SuccessRate(list) == 1.0 <==> forall o <- list :: o.ok
    ensures SuccessRate(list) == 0.0 <==> list != [] && forall o <- list :: !o.ok
  {
    SuccessesAre(list);
    if list != [] { DivideBounds(|Successes(list)| as real, |list| as real); }
  }

  lemma LatencyBounds(list: seq<Outcome>)
    requires LatenciesOk(list)
    ensures AvgLatency(list) >= 0.0
    ensures AvgLatency(list) == 0.0 <==> forall o <- list :: o.ok ==> o.latency == 0.0
  {
    var ok := Successes(list);
    SuccessesAre(list);
    SuccessesAll(list);
    TotalIsNonNegative(ok);
    if ok != [] { DivideBounds(Total(ok), |ok| as real); }
  }

  lemma {:induction false} SuccessesAll(list: seq<Outcome>)
    ensures forall o <- list :: o.ok ==> o in Successes(list)
  {
    if list != [] {
      SuccessesAll(list[1..]);
      assert list == [list[0]] + list[1..];
    }
  }

  lemma FactorBounds(avg: real, normalizer: real)
    requires avg >= 0.0 && normalizer >= 1.0
    ensures 1.0 + avg / normalizer >= 1.0
    ensures 0.0 < 1.0 / (1.0 + avg / normalizer) <= 1.0
    ensures 1.0 / (1.0 + avg / normalizer) == 1.0 <==> avg == 0.0
  {
    DivideBounds(avg, normalizer);
    DivideBounds(1.0, 1.0 + avg / normalizer);
  }

  lemma ProductBounds(a: real, b: real)
    requires 0.0 <= a <= 1.0 && 0.0 < b <= 1.0
    ensures 0.0 <= a * b <= 1.0
    ensures a * b == 0.0 <==> a == 0.0
    ensures a * b == 1.0 <==> a == 1.0 && b == 1.0
  {
    assert a * b <= b;
    if a < 1.0 && b == 1.0 { assert a * b == a; }
    if a < 1.0 { assert (1.0 - a) * b > 0.0; }
  }

  /**
   * Every score lies in [0, 1]: 0 exactly after nothing but failures, and 1 exactly when no
   * outcome in the window failed or took time (in particular for untested transports).
   */
  lemma ScoreBounds(list: seq<Outcome>, normalizer: real)
    requires LatenciesOk(list) && normalizer >= 1.0
    ensures 0.0 <= Score(list, normalizer) <= 1.0
    ensures Score(list, normalizer) == 0.0 <==> list != [] && forall o <- list :: !o.ok
    ensures Score(list, normalizer) == 1.0 <==> forall o <- list :: o.ok && o.latency == 0.0
  {
    RateBounds(list);
    LatencyBounds(list);
    FactorBounds(AvgLatency(list), normalizer);
    ProductBounds(SuccessRate(list), 1.0 / (1.0 + AvgLatency(list) / normalizer));
  }

  /** Counted from the other end: how many outcomes were ok, and how long those took. */
  function OkCount(list: seq<Outcome>): nat {
    if list == [] then 0 else OkCount(list[..|list| - 1]) + (if list[|list| - 1].ok then 1 else 0)
  }

  function OkLatency(list: seq<Outcome>): real {
    if list == [] then 0.0
    else OkLatency(list[..|list| - 1]) + (if list[|list| - 1].ok then list[|list| - 1].latency else 0.0)
  }

  lemma {:induction false} SuccessesSnoc(list: seq<Outcome>, o: Outcome)
    ensures Successes(list + [o]) == Successes(list) + (if o.ok then [o] else [])
  {
    if list == [] {
      assert [] + [o] == [o] && [o][1..] == [];
    } else {
      var more := list + [o];
      assert more[0] == list[0] && more[1..] == list[1..] + [o];
      SuccessesSnoc(list[1..], o);
    }
  }

  lemma {:induction false} TotalSnoc(list: seq<Outcome>, o: Outcome)
    ensures Total(list + [o]) == Total(list) + o.latency
  {
    if list == [] {
      assert [] + [o] == [o] && [o][1..] == [];
    } else {
      var more := list + [o];
      assert more[0] == list[0] && more[1..] == list[1..] + [o];
      TotalSnoc(list[1..], o);
    }
  }

  lemma {:induction false} SuccessesCounted(list: seq<Outcome>)
    ensures |Successes(list)| == OkCount(list) && Total(Successes(list)) == OkLatency(list)
  {
    if list != [] {
      var before, o := list[..|list| - 1], list[|list| - 1];
      assert list == before + [o];
      SuccessesCounted(before);
      SuccessesSnoc(before, o);
      if o.ok { TotalSnoc(Successes(before), o); } else { assert Successes(before) + [] == Successes(before); }
    }
  }

  lemma Scaled(rate: real, avg: real, normalizer: real)
    requires avg >= 0.0 && normalizer >= 1.0
    ensures 1.0 + avg / normalizer != 0.0
    ensures rate * (1.0 / (1.0 + avg / normalizer)) * (normalizer + avg) == rate * normalizer
  {
    FactorBounds(avg, normalizer);
    var f := 1.0 + avg / normalizer;
    var g := 1.0 / f;
    assert f * normalizer == normalizer + avg;
    assert g * f == 1.0;
    assert rate * g * (normalizer + avg) == rate * (g * f) * normalizer;
  }

  lemma ScoreFrom(list: seq<Outcome>, normalizer: real, rate: real, avg: real)
    requires rate == SuccessRate(list) && avg == AvgLatency(list) && avg >= 0.0 && normalizer >= 1.0
    ensures Score(list, normalizer) * (normalizer + avg) == rate * normalizer
  {
    Scaled(rate, avg, normalizer);
  }

  /**
   * The score exactly: the share of ok outcomes (all, if there are none) discounted by their
   * mean latency in units of the normaliser: score * (normalizer + mean) = share * normalizer.
   */
  lemma ScoreExactly(list: seq<Outcome>, normalizer: real, share: real, mean: real)
    requires LatenciesOk(list) && normalizer >= 1.0
    requires share == if list == [] then 1.0 else OkCount(list) as real / |list| as real
    requires mean == if OkCount(list) == 0 then 0.0 else OkLatency(list) / OkCount(list) as real
    ensures mean >= 0.0 && Score(list, normalizer) * (normalizer + mean) == share * normalizer
  {
    SuccessesCounted(list);
    LatencyBounds(list);
    ScoreFrom(list, normalizer, share, mean);
  }

  lemma {:induction false} OutcomesOk(events: seq<Event>, transport: string)
    ensures LatenciesOk(Outcomes(events, transport))
  {
    if events != [] { OutcomesOk(events[..|events| - 1], transport); }
  }

  /** After any history every transport's score lies in [0, 1]. */
  lemma ScoresInRange(window: nat, normalizer: real, events: seq<Event>, transport: string)
    requires window >= 1 && normalizer >= 1.0
    ensures 0.0 <= Score(Listed(RecordAll(map[], window, events), transport), normalizer) <= 1.0
  {
    WindowIsLast(window, events, transport);
    OutcomesOk(events, transport);
    var list := Last(Outcomes(events, transport), window);
    assert forall o <- list :: o in Outcomes(events, transport);
    ScoreBounds(list, normalizer);
  }

  /** JSONRPC before HTTP+JSON before GRPC before anything else, along the static order. */
  lemma PriorityOrder(endpoints: seq<Endpoint>, i: nat, j: nat)
    requires i < j < |endpoints|
    ensures multiset(Order(endpoints)) == multiset(endpoints) && |Order(endpoints)| == |endpoints|
    ensures var a, b := Order(endpoints)[i].transport, Order(endpoints)[j].transport;
            && (b == "JSONRPC" ==> a == "JSONRPC")
            && (b == "HTTP+JSON" ==> a in {"JSONRPC", "HTTP+JSON"})
            && (b == "GRPC" ==> a in {"JSONRPC", "HTTP+JSON", "GRPC"})
  {
    SortIsStable(endpoints, StaticKey());
    assert |multiset(Order(endpoints))| == |Order(endpoints)|;
    assert AtMost(StaticKey()(Order(endpoints)[i]), StaticKey()(Order(endpoints)[j]));
  }

  // ---- The adaptive order ------------------------------------------------------------

  function ScoreOf(e: Endpoint, records: Records, normalizer: real): real
    requires normalizer >= 1.0
  {
    Score(Listed(records, e.transport), normalizer)
  }

  /** A higher score comes first, then the better priority. */
  function AdaptiveKey(records: Records, normalizer: real): Endpoint -> Key
    requires normalizer >= 1.0
  {
    (e: Endpoint) => Key(0.0 - ScoreOf(e, records, normalizer), Rank(e.transport) as real)
  }

  function AdaptiveOrder(endpoints: seq<Endpoint>, records: Records, normalizer: real): seq<Endpoint>
    requires normalizer >= 1.0
  {
    Sort(endpoints, AdaptiveKey(records, normalizer))
  }

  /** Scores fall along the list, and equal scores are in priority order. */
  lemma AdaptiveRanks(endpoints: seq<Endpoint>, records: Records, normalizer: real, i: nat, j: nat)
    requires normalizer >= 1.0 && i < j < |endpoints|
    ensures multiset(AdaptiveOrder(endpoints, records, normalizer)) == multiset(endpoints)
    ensures var out := AdaptiveOrder(endpoints, records, normalizer);
            && |out| == |endpoints|
            && var a, b := ScoreOf(out[i], records, normalizer), ScoreOf(out[j], records, normalizer);
               a > b || (a == b && Rank(out[i].transport) <= Rank(out[j].transport))
  {
    SortIsStable(endpoints, AdaptiveKey(records, normalizer));
    var out := AdaptiveOrder(endpoints, records, normalizer);
    assert |multiset(out)| == |out|;
    assert AtMost(AdaptiveKey(records, normalizer)(out[i]), AdaptiveKey(records, normalizer)(out[j]));
  }

  ghost predicate Falling(endpoints: seq<Endpoint>, records: Records, normalizer: real)
    requires normalizer >= 1.0
  {
    forall i, j | 0 <= i < j < |endpoints| ::
      ScoreOf(endpoints[i], records, normalizer) >= ScoreOf(endpoints[j], records, normalizer)
  }

  lemma {:induction false} KeyWithinRank(s: seq<Endpoint>, records: Records, normalizer: real, v: Key)
    requires normalizer >= 1.0
    ensures WithKey(s, AdaptiveKey(records, normalizer), v)
         == WithKey(WithKey(s, StaticKey(), Key(0.0, v.minor)), AdaptiveKey(records, normalizer), v)
  {
    if s != [] {
      KeyWithinRank(s[1..], records, normalizer, v);
      var rest := WithKey(s[1..], StaticKey(), Key(0.0, v.minor));
      assert ([s[0]] + rest)[1..] == rest;
      assert [] + rest == rest;
    }
  }

  /**
   * The two sorts agree on a list if and only if the scores never rise along the static
   * order, duplicates and unranked transports included.
   */
  lemma AdaptiveIsStaticIff(endpoints: seq<Endpoint>, records: Records, normalizer: real)
    requires normalizer >= 1.0
    ensures AdaptiveOrder(endpoints, records, normalizer) == Order(endpoints)
       <==> Falling(Order(endpoints), records, normalizer)
  {
    var fixed, adaptive := Order(endpoints), AdaptiveOrder(endpoints, records, normalizer);
    var key := AdaptiveKey(records, normalizer);
    SortIsStable(endpoints, StaticKey());
    SortIsStable(endpoints, key);
    if Falling(fixed, records, normalizer) {
      assert Ascending(fixed, key) by {
        forall i, j | 0 <= i < j < |fixed| ensures AtMost(key(fixed[i]), key(fixed[j])) {
          assert AtMost(StaticKey()(fixed[i]), StaticKey()(fixed[j]));
        }
      }
      forall v ensures WithKey(fixed, key, v) == WithKey(endpoints, key, v) {
        KeyWithinRank(fixed, records, normalizer, v);
        KeyWithinRank(endpoints, records, normalizer, v);
        assert WithKey(fixed, StaticKey(), Key(0.0, v.minor)) == WithKey(endpoints, StaticKey(), Key(0.0, v.minor));
      }
      StableSortIsSort(endpoints, fixed, key);
    } else if adaptive == fixed {
      forall i, j | 0 <= i < j < |fixed|
        ensures ScoreOf(fixed[i], records, normalizer) >= ScoreOf(fixed[j], records, normalizer)
      {
        assert AtMost(key(adaptive[i]), key(adaptive[j]));
      }
      assert false;
    }
  }

  /** With no recorded outcomes the adaptive order is the static one, for every list. */
  lemma UntestedIsStatic(endpoints: seq<Endpoint>, normalizer: real)
    requires normalizer >= 1.0
    ensures AdaptiveOrder(endpoints, map[], normalizer) == Order(endpoints)
  {
    AdaptiveIsStaticIff(endpoints, map[], normalizer);
  }

  // ---- The static order as it is computed --------------------------------------------

  function Known(s: seq<Endpoint>): seq<Endpoint> {
    if s == [] then [] else Known(s[..|s| - 1]) + (if Ranked(s[|s| - 1]) then [s[|s| - 1]] else [])
  }

  function Others(s: seq<Endpoint>): seq<Endpoint> {
    if s == [] then [] else Others(s[..|s| - 1]) + (if Ranked(s[|s| - 1]) then [] else [s[|s| - 1]])
  }

  lemma {:induction false} WithKeyAppend<T>(a: seq<T>, b: seq<T>, key: T -> Key, v: Key)
    ensures WithKey(a + b, key, v) == WithKey(a, key, v) + WithKey(b, key, v)
  {
    if a == [] {
      assert a + b == b;
    } else {
      WithKeyAppend(a[1..], b, key, v);
      assert (a + b)[1..] == a[1..] + b;
    }
  }

  function RankKey(rank: nat): Key { Key(0.0, rank as real) }

  lemma RankedByKey(e: Endpoint)
    ensures StaticKey()(e) == RankKey(Rank(e.transport))
    ensures Ranked(e) <==> StaticKey()(e) != RankKey(UNRANKED)
  {
  }

  /** One more element: a bucket that takes all elements of key `v`, or none, still does. */
  lemma BucketStep<T>(before: seq<T>, bucket: seq<T>, e: T, key: T -> Key, v: Key, kept: bool, all: bool)
    requires WithKey(bucket, key, v) == if all then WithKey(before, key, v) else []
    requires key(e) == v ==> kept == all
    ensures WithKey(bucket + (if kept then [e] else []), key, v) == if all then WithKey(before + [e], key, v) else []
  {
    assert [e][1..] == [];
    WithKeyAppend(before, [e], key, v);
    WithKeyAppend(bucket, if kept then [e] else [], key, v);
  }

  lemma {:induction false} BucketsHold(s: seq<Endpoint>)
    ensures (forall e <- Known(s) :: Ranked(e)) && (forall e <- Others(s) :: !Ranked(e))
  {
    if s != [] { BucketsHold(s[..|s| - 1]); }
  }

  lemma {:induction false} KnownWithKey(s: seq<Endpoint>, v: Key)
    ensures WithKey(Known(s), StaticKey(), v) == if v != RankKey(UNRANKED) then WithKey(s, StaticKey(), v) else []
  {
    if s != [] {
      var before, e := s[..|s| - 1], s[|s| - 1];
      KnownWithKey(before, v);
      assert s == before + [e];
      RankedByKey(e);
      BucketStep(before, Known(before), e, StaticKey(), v, Ranked(e), v != RankKey(UNRANKED));
    }
  }

  lemma {:induction false} OthersWithKey(s: seq<Endpoint>, v: Key)
    ensures WithKey(Others(s), StaticKey(), v) == if v == RankKey(UNRANKED) then WithKey(s, StaticKey(), v) else []
  {
    if s != [] {
      var before, e := s[..|s| - 1], s[|s| - 1];
      OthersWithKey(before, v);
      assert s == before + [e];
      RankedByKey(e);
      BucketStep(before, Others(before), e, StaticKey(), v, !Ranked(e), v == RankKey(UNRANKED));
    }
  }

  lemma BucketsAscend(known: seq<Endpoint>, others: seq<Endpoint>)
    requires Ascending(known, StaticKey())
    requires (forall e <- known :: Ranked(e)) && (forall e <- others :: !Ranked(e))
    ensures Ascending(known + others, StaticKey())
  {
    var all := known + others;
    forall i, j | 0 <= i < j < |all| ensures AtMost(StaticKey()(all[i]), StaticKey()(all[j])) {
      if j < |known| {
        assert AtMost(StaticKey()(known[i]), StaticKey()(known[j]));
      } else {
        assert others[j - |known|] in others && Rank(all[j].transport) == UNRANKED;
        assert Rank(all[i].transport) <= UNRANKED;
      }
    }
  }

  lemma BucketsWithKey(s: seq<Endpoint>, known: seq<Endpoint>, v: Key)
    requires WithKey(known, StaticKey(), v) == WithKey(Known(s), StaticKey(), v)
    ensures WithKey(known + Others(s), StaticKey(), v) == WithKey(s, StaticKey(), v)
  {
    WithKeyAppend(known, Others(s), StaticKey(), v);
    KnownWithKey(s, v);
    OthersWithKey(s, v);
  }

  lemma SortedKnownIsRanked(s: seq<Endpoint>)
    ensures forall e <- Sort(Known(s), StaticKey()) :: Ranked(e)
    ensures forall e <- Others(s) :: !Ranked(e)
  {
    SortIsStable(Known(s), StaticKey());
    BucketsHold(s);
    forall e | e in Sort(Known(s), StaticKey()) ensures Ranked(e) {
      assert e in multiset(Sort(Known(s), StaticKey())) && e in multiset(Known(s));
    }
  }

  lemma BucketsAreOrder(s: seq<Endpoint>)
    ensures Sort(Known(s), StaticKey()) + Others(s) == Order(s)
  {
    var known := Sort(Known(s), StaticKey());
    SortIsStable(Known(s), StaticKey());
    SortedKnownIsRanked(s);
    BucketsAscend(known, Others(s));
    forall v ensures WithKey(known + Others(s), StaticKey(), v) == WithKey(s, StaticKey(), v) {
      BucketsWithKey(s, known, v);
    }
    StableSortIsSort(s, known + Others(s), StaticKey());
  }

  /** orderTransports: two buckets filled in a loop, the known one sorted. */
  method OrderTransports(endpoints: seq<Endpoint>) returns (ordered: seq<Endpoint>)
    ensures ordered == Order(endpoints)
    ensures multiset(ordered) == multiset(endpoints)
  {
    var known: seq<Endpoint>, unknown: seq<Endpoint> := [], [];
    for i := 0 to |endpoints|
      invariant known == Known(endpoints[..i]) && unknown == Others(endpoints[..i])
    {
      assert endpoints[..i + 1][..i] == endpoints[..i];
      if Ranked(endpoints[i]) {
        known := known + [endpoints[i]];
      } else {
        unknown := unknown + [endpoints[i]];
      }
    }
    assert endpoints[..|endpoints|] == endpoints;
    ordered := Sort(known, StaticKey()) + unknown;
    BucketsAreOrder(endpoints);
    SortIsStable(endpoints, StaticKey());
  }

  class TransportStats {
    const windowSize: nat
    const normalizer: real
    var records: Records
    ghost var history: seq<Event>

    constructor (windowSize: int, normalizer: real)
      ensures Valid() && history == []
      ensures this.windowSize == if windowSize < 1 then 1 else windowSize
    {
      this.windowSize := if windowSize < 1 then 1 else windowSize;
      this.normalizer := if normalizer < 1.0 then 1.0 else normalizer;
      records, history := map[], [];
    }

    ghost predicate Valid()
      reads this
    {
      windowSize >= 1 && normalizer >= 1.0 && records == RecordAll(map[], windowSize, history)
    }

    /** Push, then trim to the window. */
    method Record(transport: string, ok: bool, latency: real)
      requires Valid()
      modifies this
      ensures Valid() && history == old(history) + [Event.Record(transport, ok, latency)]
      ensures Listed(records, transport) == Last(Outcomes(history, transport), windowSize)
      ensures forall t | t != transport :: Listed(records, t) == Listed(old(records), t)
    {
      var list := Listed(records, transport) + [Outcome(ok, NonNegative(latency))];
      if |list| > windowSize { list := list[|list| - windowSize..]; }
      RecordAllSnoc(map[], windowSize, history, Event.Record(transport, ok, latency));
      records := records[transport := list];
      history := history + [Event.Record(transport, ok, latency)];
      WindowIsLast(windowSize, history, transport);
    }

    method ClearAll()
      requires Valid()
      modifies this
      ensures Valid() && records == map[] && history == old(history) + [Clear]
    {
      RecordAllSnoc(map[], windowSize, history, Clear);
      records := map[];
      history := history + [Clear];
    }
  }
}
