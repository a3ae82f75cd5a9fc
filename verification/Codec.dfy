/**
 * A line format that meets what the end-to-end results assume of JSON: every message, any
 * numbers and characters in it, is read back from its line, lines hold no newline, and no
 * proper suffix of a line is a message. It shows those assumptions to be consistent.
 */
module Codec {
  import opened Prelude
  import opened Framing
  import opened FileRelay
  import opened EndToEnd
  import Commit
  import Delivery

  const OPEN: byte := 123
  const COMMA: byte := 44

  // ---- Numbers -----------------------------------------------------------------------

  function Digits(n: nat): Bytes { (if n < 10 then [] else Digits(n / 10)) + [(48 + n % 10) as byte] }

  function Number(b: Bytes): int { if b == [] then 0 else Number(b[..|b| - 1]) * 10 + (b[|b| - 1] as int - 48) }

  predicate IsDigit(b: byte) { 48 <= b <= 57 }

  lemma {:induction false} NumberOfDigits(n: nat)
    ensures Number(Digits(n)) == n && forall b <- Digits(n) :: IsDigit(b)
  {
    var b := Digits(n);
    if n >= 10 {
      NumberOfDigits(n / 10);
      assert b[..|b| - 1] == Digits(n / 10);
    } else {
      assert b[..|b| - 1] == [];
    }
  }

  // ---- Sequences of numbers ----------------------------------------------------------

  function Items(t: seq<nat>): Bytes { if t == [] then [] else Digits(t[0]) + [COMMA] + Items(t[1..]) }

  /** Position of the first comma, or the length. */
  function FirstComma(b: Bytes): (n: nat)
    ensures n <= |b| && COMMA !in b[..n] && (n < |b| ==> b[n] == COMMA)
  {
    if b == [] || b[0] == COMMA then 0 else
      var rest := FirstComma(b[1..]);
      assert b[..rest + 1] == [b[0]] + b[1..][..rest];
      rest + 1
  }

  lemma CommaAt(b: Bytes, n: nat)
    requires n < |b| && b[n] == COMMA && COMMA !in b[..n]
    ensures FirstComma(b) == n
  {
    var m := FirstComma(b);
    forall k | 0 <= k < n ensures b[k] != COMMA { assert b[k] == b[..n][k]; }
    forall k | 0 <= k < m ensures b[k] != COMMA { assert b[k] == b[..m][k]; }
  }

  function ReadItems(b: Bytes): seq<int>
    decreases |b|
  {
    var n := FirstComma(b);
    if n == |b| then [] else [Number(b[..n])] + ReadItems(b[n + 1..])
  }

  lemma {:induction false} ItemsRead(t: seq<nat>)
    ensures ReadItems(Items(t)) == t
    ensures forall b <- Items(t) :: IsDigit(b) || b == COMMA
  {
    if t != [] {
      var first, b := Digits(t[0]), Items(t);
      ItemsRead(t[1..]);
      NumberOfDigits(t[0]);
      assert b[|first|] == COMMA && b[..|first|] == first;
      CommaAt(b, |first|);
      assert b[|first| + 1..] == Items(t[1..]);
      assert t == [t[0]] + t[1..];
    }
  }

  // ---- Fields ------------------------------------------------------------------------

  function IntField(v: Option<int>): seq<nat> {
    match v
    case None => [0]
    case Some(n) => if n >= 0 then [1, n] else [2, -n]
  }

  function FlagField(v: Option<bool>): seq<nat> {
    match v
    case None => [0]
    case Some(b) => [if b then 2 else 1]
  }

  function TextField(v: Option<string>): seq<nat> {
    match v
    case None => [0]
    case Some(s) => [|s| + 1] + seq(|s|, i requires 0 <= i < |s| => s[i] as nat)
  }

  function ReadInt(t: seq<int>): (Option<int>, seq<int>) {
    if t == [] || t[0] == 0 || |t| < 2 then (None, if t == [] then [] else t[1..])
    else (Some(if t[0] == 1 then t[1] else -t[1]), t[2..])
  }

  function ReadFlag(t: seq<int>): (Option<bool>, seq<int>) {
    if t == [] || t[0] == 0 then (None, if t == [] then [] else t[1..]) else (Some(t[0] == 2), t[1..])
  }

  predicate IsCode(n: int) { 0 <= n < 0xD800 || 0xE000 <= n < 0x11_0000 }

  function ReadText(t: seq<int>): (Option<string>, seq<int>) {
    if t == [] || t[0] <= 0 || |t| < t[0] then (None, if t == [] then [] else t[1..])
    else
      (Some(seq(t[0] - 1, i requires 0 <= i < t[0] - 1 => if IsCode(t[i + 1]) then t[i + 1] as char else ' ')),
       t[t[0]..])
  }

  lemma IntRead(v: Option<int>, rest: seq<int>)
    ensures ReadInt(IntField(v) + rest) == (v, rest)
  {
    assert v.Some? ==> (IntField(v) + rest)[2..] == rest;
  }

  lemma FlagRead(v: Option<bool>, rest: seq<int>)
    ensures ReadFlag(FlagField(v) + rest) == (v, rest)
  {
  }

  lemma TextRead(v: Option<string>, rest: seq<int>)
    ensures ReadText(TextField(v) + rest) == (v, rest)
  {
    if v.Some? {
      var t := TextField(v) + rest;
      assert t[t[0]..] == rest;
      forall i | 0 <= i < |v.value| ensures t[i + 1] == v.value[i] as int {}
      assert ReadText(t).0.value == v.value;
    }
  }

  // ---- Messages ----------------------------------------------------------------------

  /** The fields of a message, in order. */
  function Fields(j: Json): seq<nat> {
    IntField(j.version) + (TextField(j.typ) + (TextField(j.id) + (TextField(j.token) + (TextField(j.role)
    + (TextField(j.sourceDevice) + (TextField(j.targetDevice) + (IntField(j.size) + (TextField(j.sha256)
    + (FlagField(j.ok) + (TextField(j.transferId) + (TextField(j.path) + (TextField(j.name)
    + (TextField(j.code) + [])))))))))))))
  }

  function ReadFields(t: seq<int>): Json {
    var (version, t1) := ReadInt(t);
    var (typ, t2) := ReadText(t1);
    var (id, t3) := ReadText(t2);
    var (token, t4) := ReadText(t3);
    var (role, t5) := ReadText(t4);
    var (sourceDevice, t6) := ReadText(t5);
    var (targetDevice, t7) := ReadText(t6);
    var (size, t8) := ReadInt(t7);
    var (sha256, t9) := ReadText(t8);
    var (ok, t10) := ReadFlag(t9);
    var (transferId, t11) := ReadText(t10);
    var (path, t12) := ReadText(t11);
    var (name, t13) := ReadText(t12);
    var (code, _) := ReadText(t13);
    Json(version, typ, id, token, role, sourceDevice, targetDevice, size, sha256, ok, transferId, path, name, code)
  }

  function Encode(j: Json): Bytes { [OPEN] + Items(Fields(j)) }

  function Decode(b: Bytes): Option<Json> {
    if b == [] || b[0] != OPEN then None else Some(ReadFields(ReadItems(b[1..])))
  }

  lemma FieldsRead(j: Json)
    ensures ReadFields(Fields(j)) == j
  {
    var t13 := TextField(j.code) + [];
    var t12 := TextField(j.name) + t13;
    var t11 := TextField(j.path) + t12;
    var t10 := TextField(j.transferId) + t11;
    var t9 := FlagField(j.ok) + t10;
    var t8 := TextField(j.sha256) + t9;
    var t7 := IntField(j.size) + t8;
    var t6 := TextField(j.targetDevice) + t7;
    var t5 := TextField(j.sourceDevice) + t6;
    var t4 := TextField(j.role) + t5;
    var t3 := TextField(j.token) + t4;
    var t2 := TextField(j.id) + t3;
    var t1 := TextField(j.typ) + t2;
    IntRead(j.version, t1);
    TextRead(j.typ, t2);
    TextRead(j.id, t3);
    TextRead(j.token, t4);
    TextRead(j.role, t5);
    TextRead(j.sourceDevice, t6);
    TextRead(j.targetDevice, t7);
    IntRead(j.size, t8);
    TextRead(j.sha256, t9);
    FlagRead(j.ok, t10);
    TextRead(j.transferId, t11);
    TextRead(j.path, t12);
    TextRead(j.name, t13);
    TextRead(j.code, []);
  }

  /** Every message is read back from its line. */
  lemma DecodeEncode(j: Json)
    ensures Decode(Encode(j)) == Some(j) && NEWLINE !in Encode(j)
  {
    ItemsInLine(Fields(j));
    FieldsRead(j);
    DecodedAs(Encode(j), Fields(j), j);
  }

  lemma ItemsInLine(t: seq<nat>)
    ensures ReadItems(([OPEN] + Items(t))[1..]) == t && NEWLINE !in [OPEN] + Items(t)
  {
    ItemsRead(t);
    assert ([OPEN] + Items(t))[1..] == Items(t);
  }

  lemma DecodedAs(b: Bytes, t: seq<int>, j: Json)
    requires b != [] && b[0] == OPEN && ReadItems(b[1..]) == t && ReadFields(t) == j
    ensures Decode(b) == Some(j)
  {
  }

  /** No proper suffix of a line is a message. */
  lemma SuffixIsNone(j: Json, k: nat)
    requires 0 < k <= |Encode(j)|
    ensures Decode(Encode(j)[k..]) == None
  {
    ItemsRead(Fields(j));
    if k < |Encode(j)| { assert Encode(j)[k..][0] == Items(Fields(j))[k - 1] && Encode(j)[k] in Items(Fields(j)); }
  }

  // ---- A setup that meets everything assumed -----------------------------------------

  const LINE_LIMIT: nat := RESPONSE_LIMIT

  function Standard(
    offer: Offer, sha: Bytes -> string, volume: Commit.Volume, part: Path, candidate: nat -> Path): Setup
  {
    Setup(Config(Decode, offer.size, LINE_LIMIT, 60_000, 60_000, 3_600_000, 1, 2, offer.size),
          Encode, sha, offer, volume, part, candidate)
  }

  lemma StandardCodec(
    offer: Offer, sha: Bytes -> string, volume: Commit.Volume, part: Path, candidate: nat -> Path)
    ensures CodecOk(Standard(offer, sha, volume, part, candidate))
  {
    var g := Standard(offer, sha, volume, part, candidate);
    forall j ensures g.cfg.parse(g.enc(j)) == Some(j) && NEWLINE !in g.enc(j) { DecodeEncode(j); }
    forall j, k | 0 < k <= |g.enc(j)| ensures g.cfg.parse(g.enc(j)[k..]) == None { SuffixIsNone(j, k); }
  }

  function Pow10(n: nat): nat { if n == 0 then 1 else 10 * Pow10(n - 1) }

  lemma {:induction false} DigitsLength(n: nat, k: nat)
    requires k >= 1 && n < Pow10(k)
    ensures |Digits(n)| <= k
  {
    if n >= 10 {
      assert k > 1;
      DigitsLength(n / 10, k - 1);
    }
  }

  const BIG: nat := 1_0000_0000_0000_0000

  lemma BigIsPow10()
    ensures Pow10(16) == BIG
  {
    assert Pow10(2) == 100;
    assert Pow10(4) == 1_0000;
    assert Pow10(6) == 100_0000;
    assert Pow10(8) == 1_0000_0000;
    assert Pow10(10) == 100_0000_0000;
    assert Pow10(12) == 1_0000_0000_0000;
    assert Pow10(14) == 100_0000_0000_0000;
  }

  predicate Small(t: seq<nat>) { forall n <- t :: n < BIG }

  lemma {:induction false} ItemsLength(t: seq<nat>)
    requires Small(t)
    ensures |Items(t)| <= 17 * |t|
  {
    if t != [] {
      BigIsPow10();
      assert t[0] in t;
      DigitsLength(t[0], 16);
      assert forall n <- t[1..] :: n in t;
      ItemsLength(t[1..]);
    }
  }

  /** A text of at most `n` characters, if any. */
  predicate Brief(v: Option<string>, n: nat) { v.Some? ==> |v.value| <= n }

  lemma TextLength(v: Option<string>, n: nat)
    requires Brief(v, n) && n <= 1000
    ensures |TextField(v)| <= n + 1 && Small(TextField(v))
  {
  }

  lemma IntLength(v: Option<int>)
    requires v.Some? ==> 0 <= v.value <= MAX_SAFE_INTEGER
    ensures |IntField(v)| <= 2 && Small(IntField(v))
  {
  }

  lemma Joined(a: seq<nat>, m: nat, b: seq<nat>, n: nat)
    requires |a| <= m && |b| <= n && Small(a) && Small(b)
    ensures |a + b| <= m + n && Small(a + b)
  {
  }

  /** What the messages of a transfer have in common: short texts, a safe size. */
  predicate Modest(j: Json) {
    && (j.version.Some? ==> 0 <= j.version.value <= 1) && (j.size.Some? ==> 0 <= j.size.value <= MAX_SAFE_INTEGER)
    && Brief(j.typ, 256) && Brief(j.id, 256) && Brief(j.token, 256) && Brief(j.role, 256)
    && Brief(j.sourceDevice, 256) && Brief(j.targetDevice, 256) && Brief(j.sha256, 256) && Brief(j.transferId, 256)
    && Brief(j.code, 256) && Brief(j.path, 700) && Brief(j.name, 700)
  }

  lemma FieldsLength(j: Json)
    requires Modest(j)
    ensures |Fields(j)| <= 3730 && Small(Fields(j))
  {
    var t13 := TextField(j.code) + [];
    var t12 := TextField(j.name) + t13;
    var t11 := TextField(j.path) + t12;
    var t10 := TextField(j.transferId) + t11;
    var t9 := FlagField(j.ok) + t10;
    var t8 := TextField(j.sha256) + t9;
    var t7 := IntField(j.size) + t8;
    var t6 := TextField(j.targetDevice) + t7;
    var t5 := TextField(j.sourceDevice) + t6;
    var t4 := TextField(j.role) + t5;
    var t3 := TextField(j.token) + t4;
    var t2 := TextField(j.id) + t3;
    var t1 := TextField(j.typ) + t2;
    TextJoined(j.code, 256, [], 0);
    TextJoined(j.name, 700, t13, 257);
    TextJoined(j.path, 700, t12, 958);
    TextJoined(j.transferId, 256, t11, 1659);
    FlagJoined(j.ok, t10, 1916);
    TextJoined(j.sha256, 256, t9, 1917);
    IntJoined(j.size, t8, 2174);
    TextJoined(j.targetDevice, 256, t7, 2176);
    TextJoined(j.sourceDevice, 256, t6, 2433);
    TextJoined(j.role, 256, t5, 2690);
    TextJoined(j.token, 256, t4, 2947);
    TextJoined(j.id, 256, t3, 3204);
    TextJoined(j.typ, 256, t2, 3461);
    IntJoined(j.version, t1, 3718);
  }

  lemma TextJoined(v: Option<string>, m: nat, t: seq<nat>, n: nat)
    requires Brief(v, m) && m <= 1000 && |t| <= n && Small(t)
    ensures |TextField(v) + t| <= n + m + 1 && Small(TextField(v) + t)
  {
    TextLength(v, m);
    Joined(TextField(v), m + 1, t, n);
  }

  lemma IntJoined(v: Option<int>, t: seq<nat>, n: nat)
    requires (v.Some? ==> 0 <= v.value <= MAX_SAFE_INTEGER) && |t| <= n && Small(t)
    ensures |IntField(v) + t| <= n + 2 && Small(IntField(v) + t)
  {
    IntLength(v);
    Joined(IntField(v), 2, t, n);
  }

  lemma FlagJoined(v: Option<bool>, t: seq<nat>, n: nat)
    requires |t| <= n && Small(t)
    ensures |FlagField(v) + t| <= n + 1 && Small(FlagField(v) + t)
  {
    Joined(FlagField(v), 1, t, n);
  }

  lemma LineLength(j: Json)
    requires Modest(j)
    ensures |Encode(j)| <= LINE_LIMIT
  {
    FieldsLength(j);
    ItemsLength(Fields(j));
  }

  /** An offer the receiving gateway accepts. */
  predicate ValidOffer(offer: Offer) {
    && ValidHello(SenderHello(offer)) && ValidHello(ReceiverHello(offer)) && ValidSha(Some(offer.sha256))
    && offer.size <= MAX_SAFE_INTEGER
  }

  predicate BriefOffer(o: Offer) {
    && |o.transferId| <= 256 && |o.ticket| <= 256 && |o.sourceDevice| <= 256 && |o.targetDevice| <= 256
    && |o.sha256| <= 256 && o.size <= MAX_SAFE_INTEGER
  }

  lemma ValidIsBrief(offer: Offer)
    requires ValidOffer(offer)
    ensures BriefOffer(offer)
  {
  }

  lemma BriefFits(g: Setup)
    requires BriefOffer(g.offer) && |g.candidate(0)| <= 700 && g.enc == Encode && g.cfg.headerBytes == LINE_LIMIT
    ensures Delivery.Fits(g)
  {
    LineLength(SenderHello(g.offer));
    LineLength(ReceiverHello(g.offer));
    LineLength(Delivery.Ack(g));
    LineLength(Delivery.Registered(g));
    LineLength(Delivery.Ready(g));
    LineLength(Delivery.Metadata(g));
  }

  lemma ValidAdmits(g: Setup)
    requires CodecOk(g) && Delivery.Fits(g) && ValidOffer(g.offer)
    requires g.cfg.maxBytes == g.cfg.maxInFlight == g.offer.size && g.cfg.maxSessions == 1 && g.cfg.maxConnections == 2
    ensures Delivery.Admissible(g)
  {
  }

  lemma StandardFits(
    offer: Offer, sha: Bytes -> string, volume: Commit.Volume, part: Path, candidate: nat -> Path)
    requires ValidOffer(offer) && |candidate(0)| <= 700
    ensures Delivery.Admissible(Standard(offer, sha, volume, part, candidate))
  {
    var g := Standard(offer, sha, volume, part, candidate);
    StandardCodec(offer, sha, volume, part, candidate);
    ValidIsBrief(offer);
    BriefFits(g);
    ValidAdmits(g);
  }

  /**
   * Nothing assumed is out of reach: for every valid offer, every hash function and content
   * that fit it, every kind of volume and any disk with the first name free, a run over this
   * line format ends with the sender returned and exactly that content sent.
   */
  lemma EveryOfferCanSucceed(
    offer: Offer, sha: Bytes -> string, volume: Commit.Volume, part: Path, candidate: nat -> Path,
    now: int, disk: map<Path, Bytes>, content: Bytes)
    requires ValidOffer(offer) && |candidate(0)| <= 700 && candidate(0) !in disk
    requires forall k: nat :: candidate(k) != part
    requires |content| == offer.size && sha(content) == offer.sha256
    ensures var g := Standard(offer, sha, volume, part, candidate);
            exists run ::
              var sys := RunSystem(g, Init(g, now, disk), run);
              && sys.snd.phase == SReturned && sys.snd.sent == content
  {
    StandardFits(offer, sha, volume, part, candidate);
    Delivery.EveryFileCanArrive(Standard(offer, sha, volume, part, candidate), now, disk, content);
  }
}
