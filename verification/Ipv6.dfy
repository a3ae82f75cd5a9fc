/**
 * Textual IP addresses against numeric ranges: normalisation of IPv6 texts and the tests for
 * private and reserved addresses.
 */
module Ipv6 {
  import opened Prelude

  // ---- Text --------------------------------------------------------------------------

  function IndexOf(s: string, c: char): (i: nat)
    ensures i <= |s| && (i < |s| ==> s[i] == c) && forall j | 0 <= j < i :: s[j] != c
  {
    if s == [] || s[0] == c then 0 else 1 + IndexOf(s[1..], c)
  }

  /** split by one character. */
  function Split(s: string, c: char): seq<string> {
    var i := IndexOf(s, c);
    if i == |s| then [s] else [s[..i]] + Split(s[i + 1..], c)
  }

  function IndexOfDouble(s: string): (i: nat)
    ensures i <= |s| && (i < |s| ==> i + 1 < |s| && s[i] == ':' && s[i + 1] == ':')
    ensures forall j | 0 <= j < i && j + 1 < |s| :: !(s[j] == ':' && s[j + 1] == ':')
  {
    if |s| < 2 then |s| else if s[0] == ':' && s[1] == ':' then 0 else 1 + IndexOfDouble(s[1..])
  }

  /** split by "::". */
  function SplitDouble(s: string): seq<string> {
    var i := IndexOfDouble(s);
    if i == |s| then [s] else [s[..i]] + SplitDouble(s[i + 2..])
  }

  function Join(parts: seq<string>, c: char): string {
    if parts == [] then [] else if |parts| == 1 then parts[0] else parts[0] + [c] + Join(parts[1..], c)
  }

  function Lower(c: char): char { if 'A' <= c <= 'Z' then 'a' + (c - 'A') else c }

  function ToLower(s: string): string { seq(|s|, i requires 0 <= i < |s| => Lower(s[i])) }

  function Pad(s: string): (r: string)
    ensures |r| >= 4
    decreases 4 - |s|
  {
    if |s| >= 4 then s else Pad("0" + s)
  }

  predicate IsHex(c: char) { '0' <= c <= '9' || 'a' <= c <= 'f' || 'A' <= c <= 'F' }

  /** The digits 0 to 9 and the letters a to f in either case. */
  lemma HexDigitsAre(c: char)
    ensures IsHex(c) <==> 48 <= c as int <= 57 || 65 <= c as int <= 70 || 97 <= c as int <= 102
    ensures IsHex(c) ==> Digit(c) == c as int - (if c as int <= 57 then 48 else if c as int <= 70 then 55 else 87)
    ensures 65 <= c as int <= 90 ==> Lower(c) as int == c as int + 32
  {
  }

  function Digit(c: char): (d: nat)
    requires IsHex(c)
    ensures d < 16
  {
    if '0' <= c <= '9' then (c - '0') as nat else (Lower(c) - 'a') as nat + 10
  }

  predicate AllHex(s: string) { forall c <- s :: IsHex(c) }

  /** parseInt(s, 16) on hexadecimal digits. */
  function Hex(s: string): nat
    requires AllHex(s)
  {
    if s == [] then 0 else Hex(s[..|s| - 1]) * 16 + Digit(s[|s| - 1])
  }

  // ---- The functions -----------------------------------------------------------------

  function Zeros(n: int): seq<string> { if n <= 0 then [] else ["0"] + Zeros(n - 1) }

  /** The half of a compressed text: nothing, or its groups. */
  function Half(s: string): seq<string> { if s == "" then [] else Split(s, ':') }

  function Fill(left: seq<string>, right: seq<string>): seq<string> {
    left + Zeros(8 - |left| - |right|) + right
  }

  function Segments(ip: string): seq<string> {
    var halves := SplitDouble(ip);
    if |halves| == 2 then Fill(Half(halves[0]), Half(halves[1])) else Split(ip, ':')
  }

  function Canonical(group: string): string { ToLower(Pad(group)) }

  function CanonicalAll(groups: seq<string>): seq<string> {
    seq(|groups|, i requires 0 <= i < |groups| => Canonical(groups[i]))
  }

  function NormalizeIpv6(ip: string): string { Join(CanonicalAll(Segments(ip)), ':') }

  /** Bitwise and. */
  function And(a: nat, b: nat): nat {
    if a == 0 || b == 0 then 0 else (if a % 2 == 1 && b % 2 == 1 then 1 else 0) + 2 * And(a / 2, b / 2)
  }

  function Number(s: string): Option<nat> {
    if s != [] && (forall c <- s :: '0' <= c <= '9') then
      (var v := Value(s); if v >= 0 then Some(v) else None)
    else None
  }

  predicate InPrivateRange(a: nat, b: nat) {
    a == 0 || a == 10 || a == 127 || (a == 172 && 16 <= b <= 31) || (a == 192 && b == 168) || (a == 169 && b == 254)
  }

  /** Malformed dotted texts count as private. */
  predicate IsPrivateIpv4(ip: string) {
    var parts := Split(ip, '.');
    if |parts| != 4 || (exists p <- parts :: Number(p).None? || Number(p).value > 255) then true
    else InPrivateRange(Number(parts[0]).value, Number(parts[1]).value)
  }

  /** `n` zero groups before the last one. */
  function Zeroed(n: nat, last: string): string { if n == 0 then last else "0000:" + Zeroed(n - 1, last) }

  /** The texts 0000:0000:0000:0000:0000:0000:0000:0001 and the same ending in 0000. */
  const LOOPBACK := Zeroed(7, "0001")
  const UNSPECIFIED := Zeroed(7, "0000")

  /** The prefix 0000:0000:0000:0000:0000:ffff: */
  const MAPPED := Zeroed(5, "ffff") + ":"

  function Dotted(hi: nat, lo: nat): string {
    Join([Decimal(And(hi / 256, 0xff)), Decimal(And(hi, 0xff)), Decimal(And(lo / 256, 0xff)), Decimal(And(lo, 0xff))],
         '.')
  }

  predicate IsPrivateIpv6(ip: string) {
    var normalized := NormalizeIpv6(ip);
    if normalized == LOOPBACK || normalized == UNSPECIFIED then true
    else if |normalized| < 4 || !AllHex(normalized[..4]) then false
    else
      var first := Hex(normalized[..4]);
      if And(first, 0xfe00) == 0xfc00 then true
      else if And(first, 0xffc0) == 0xfe80 then true
      else if MAPPED <= normalized then
        var tail := Split(normalized[30..], ':');
        |tail| == 2 && AllHex(tail[0]) && AllHex(tail[1]) && IsPrivateIpv4(Dotted(Hex(tail[0]), Hex(tail[1])))
      else false
  }

  // ---- Addresses ---------------------------------------------------------------------

  /** A text of hexadecimal groups, section 2.2 of RFC 4291, with at most one "::". */
  datatype Text = Full(groups: seq<string>) | Compressed(left: seq<string>, right: seq<string>)

  predicate IsGroup(g: string) { 1 <= |g| <= 4 && AllHex(g) }

  predicate WellFormed(t: Text) {
    match t
    case Full(groups) => |groups| == 8 && forall g <- groups :: IsGroup(g)
    case Compressed(left, right) =>
      |left| + |right| <= 7 && (forall g <- left :: IsGroup(g)) && (forall g <- right :: IsGroup(g))
  }

  function Render(t: Text): string {
    match t
    case Full(groups) => Join(groups, ':')
    case Compressed(left, right) => Join(left, ':') + "::" + Join(right, ':')
  }

  function Expanded(t: Text): seq<string> {
    match t
    case Full(groups) => groups
    case Compressed(left, right) => Fill(left, right)
  }

  /** The eight 16-bit groups the text stands for. */
  function Words(groups: seq<string>): seq<nat>
    requires forall g <- groups :: IsGroup(g)
  {
    seq(|groups|, i requires 0 <= i < |groups| => assert groups[i] in groups; assert IsGroup(groups[i]); Hex(groups[i]))
  }

  /** The 128-bit number of eight groups, most significant first. */
  function Address(words: seq<nat>): nat {
    if words == [] then 0 else Address(words[..|words| - 1]) * 0x1_0000 + words[|words| - 1]
  }

  // ---- Splitting what was joined -----------------------------------------------------

  predicate Free(s: string, c: char) { forall x <- s :: x != c }

  lemma IndexAt(s: string, c: char, rest: string)
    requires Free(s, c)
    ensures IndexOf(s + [c] + rest, c) == |s|
  {
    var t := s + [c] + rest;
    assert t[|s|] == c;
    forall j | 0 <= j < |s| ensures t[j] != c { assert t[j] == s[j] && s[j] in s; }
  }

  lemma IndexNone(s: string, c: char)
    requires Free(s, c)
    ensures IndexOf(s, c) == |s|
  {
    forall j | 0 <= j < |s| ensures s[j] != c { assert s[j] in s; }
  }

  lemma {:induction false} SplitJoin(parts: seq<string>, c: char)
    requires parts != [] && forall p <- parts :: Free(p, c)
    ensures Split(Join(parts, c), c) == parts
  {
    assert parts[0] in parts;
    if |parts| == 1 {
      IndexNone(parts[0], c);
      assert parts == [parts[0]];
    } else {
      var rest := Join(parts[1..], c);
      forall p <- parts[1..] ensures Free(p, c) { assert p in parts; }
      SplitJoin(parts[1..], c);
      IndexAt(parts[0], c, rest);
      var t := parts[0] + [c] + rest;
      assert t[..|parts[0]|] == parts[0] && t[|parts[0]| + 1..] == rest;
      assert parts == [parts[0]] + parts[1..];
    }
  }

  predicate NoDouble(s: string) { forall i | 0 <= i < |s| - 1 :: !(s[i] == ':' && s[i + 1] == ':') }

  lemma GroupIsFree(g: string)
    requires IsGroup(g)
    ensures Free(g, ':') && g != [] && g[0] != ':' && g[|g| - 1] != ':'
  {
    assert g[0] in g && g[|g| - 1] in g;
  }

  /** Joined groups neither start nor end with a colon, nor contain two in a row. */
  lemma {:induction false} JoinedGroups(groups: seq<string>)
    requires groups != [] && forall g <- groups :: IsGroup(g)
    ensures var s := Join(groups, ':'); s != [] && s[0] != ':' && s[|s| - 1] != ':' && NoDouble(s)
  {
    assert groups[0] in groups;
    GroupIsFree(groups[0]);
    if |groups| == 1 {
      forall i | 0 <= i < |groups[0]| - 1 ensures groups[0][i] != ':' { assert groups[0][i] in groups[0]; }
    } else {
      forall g <- groups[1..] ensures IsGroup(g) { assert g in groups; }
      JoinedGroups(groups[1..]);
      NoDoubleJoin(groups[0], Join(groups[1..], ':'));
    }
  }

  lemma NoDoubleJoin(a: string, b: string)
    requires Free(a, ':') && a != [] && NoDouble(b) && b != [] && b[0] != ':'
    ensures NoDouble(a + [':'] + b)
  {
    var s := a + [':'] + b;
    forall i | 0 <= i < |s| - 1 ensures !(s[i] == ':' && s[i + 1] == ':') {
      if i < |a| { assert s[i] == a[i] && a[i] in a; } else if i > |a| { assert s[i] == b[i - |a| - 1]; }
    }
  }

  lemma NoDoubleSplits(s: string)
    requires NoDouble(s)
    ensures SplitDouble(s) == [s]
  {
  }

  lemma DoubleSplits(a: string, b: string)
    requires NoDouble(a) && NoDouble(b) && (a != [] ==> a[|a| - 1] != ':')
    ensures SplitDouble(a + "::" + b) == [a, b]
  {
    var s := a + "::" + b;
    assert s[|a|] == ':' && s[|a| + 1] == ':';
    forall j | 0 <= j < |a| ensures !(s[j] == ':' && s[j + 1] == ':') { assert s[j] == a[j]; }
    assert IndexOfDouble(s) == |a|;
    assert s[..|a|] == a && s[|a| + 2..] == b;
    NoDoubleSplits(b);
  }

  lemma HalfSplits(groups: seq<string>)
    requires forall g <- groups :: IsGroup(g)
    ensures var s := Join(groups, ':');
            && NoDouble(s) && (s == "" <==> groups == []) && (s != [] ==> s[|s| - 1] != ':')
            && (groups != [] ==> Split(s, ':') == groups)
  {
    if groups != [] {
      JoinedGroups(groups);
      forall g <- groups ensures Free(g, ':') { GroupIsFree(g); }
      SplitJoin(groups, ':');
    }
  }

  /** The segments of a well-formed text are its groups with the omitted zeros put back. */
  lemma SegmentsOfText(t: Text)
    requires WellFormed(t)
    ensures Segments(Render(t)) == Expanded(t)
  {
    match t
    case Full(groups) => SegmentsOfFull(groups);
    case Compressed(left, right) => SegmentsOfCompressed(left, right);
  }

  lemma SegmentsOfFull(groups: seq<string>)
    requires groups != [] && forall g <- groups :: IsGroup(g)
    ensures Segments(Join(groups, ':')) == groups
  {
    HalfSplits(groups);
    NoDoubleSplits(Join(groups, ':'));
  }

  lemma HalfIsGroups(groups: seq<string>)
    requires forall g <- groups :: IsGroup(g)
    ensures Half(Join(groups, ':')) == groups
  {
    HalfSplits(groups);
  }

  lemma SegmentsOfCompressed(left: seq<string>, right: seq<string>)
    requires (forall g <- left :: IsGroup(g)) && (forall g <- right :: IsGroup(g))
    ensures Segments(Join(left, ':') + "::" + Join(right, ':')) == Fill(left, right)
  {
    HalfIsGroups(left);
    HalfIsGroups(right);
    JoinedHalf(left);
    JoinedHalf(right);
    SegmentsOfHalves(Join(left, ':'), Join(right, ':'), left, right);
  }

  lemma JoinedHalf(groups: seq<string>)
    requires forall g <- groups :: IsGroup(g)
    ensures var s := Join(groups, ':'); NoDouble(s) && (s != [] ==> s[|s| - 1] != ':')
  {
    if groups != [] { JoinedGroups(groups); }
  }

  lemma SegmentsOfHalves(a: string, b: string, left: seq<string>, right: seq<string>)
    requires NoDouble(a) && NoDouble(b) && (a != [] ==> a[|a| - 1] != ':')
    requires Half(a) == left && Half(b) == right
    ensures Segments(a + "::" + b) == Fill(left, right)
  {
    DoubleSplits(a, b);
    SegmentsFrom(a + "::" + b, [a, b]);
  }

  lemma SegmentsFrom(ip: string, halves: seq<string>)
    requires SplitDouble(ip) == halves && |halves| == 2
    ensures Segments(ip) == Fill(Half(halves[0]), Half(halves[1]))
  {
  }

  lemma {:induction false} ZerosAre(n: int)
    ensures |Zeros(n)| == if n < 0 then 0 else n
    ensures forall g <- Zeros(n) :: g == "0"
  {
    if n > 0 { ZerosAre(n - 1); }
  }

  lemma ExpandedIsEight(t: Text)
    requires WellFormed(t)
    ensures |Expanded(t)| == 8 && forall g <- Expanded(t) :: IsGroup(g)
  {
    if t.Compressed? { ZerosAre(8 - |t.left| - |t.right|); }
  }

  // ---- Canonical groups --------------------------------------------------------------

  lemma {:induction false} LeadingZero(s: string)
    requires AllHex(s)
    ensures AllHex("0" + s) && Hex("0" + s) == Hex(s)
  {
    var z := "0" + s;
    if s == [] {
      assert z[..0] == [];
    } else {
      forall c <- s[..|s| - 1] ensures IsHex(c) { assert c in s; }
      LeadingZero(s[..|s| - 1]);
      assert z[..|z| - 1] == "0" + s[..|s| - 1];
    }
  }

  lemma {:induction false} PadKeeps(s: string)
    requires AllHex(s) && |s| <= 4
    ensures |Pad(s)| == 4 && AllHex(Pad(s)) && Hex(Pad(s)) == Hex(s)
    decreases 4 - |s|
  {
    if |s| < 4 {
      LeadingZero(s);
      PadKeeps("0" + s);
    }
  }

  lemma LowerDigit(c: char)
    requires IsHex(c)
    ensures IsHex(Lower(c)) && Digit(Lower(c)) == Digit(c)
    ensures '0' <= Lower(c) <= '9' || 'a' <= Lower(c) <= 'f'
  {
  }

  lemma {:induction false} LowerKeeps(s: string)
    requires AllHex(s)
    ensures AllHex(ToLower(s)) && Hex(ToLower(s)) == Hex(s)
  {
    forall i | 0 <= i < |s| ensures IsHex(ToLower(s)[i]) { assert s[i] in s; LowerDigit(s[i]); }
    if s != [] {
      forall c <- s[..|s| - 1] ensures IsHex(c) { assert c in s; }
      LowerKeeps(s[..|s| - 1]);
      assert ToLower(s)[..|s| - 1] == ToLower(s[..|s| - 1]);
      assert s[|s| - 1] in s;
      LowerDigit(s[|s| - 1]);
    }
  }

  /** Four lower-case digits. */
  predicate IsCanonical(g: string) { |g| == 4 && forall c <- g :: '0' <= c <= '9' || 'a' <= c <= 'f' }

  lemma CanonicalKeeps(g: string)
    requires IsGroup(g)
    ensures IsCanonical(Canonical(g)) && Hex(Canonical(g)) == Hex(g)
  {
    PadKeeps(g);
    LowerKeeps(Pad(g));
    forall i | 0 <= i < 4 ensures '0' <= Canonical(g)[i] <= '9' || 'a' <= Canonical(g)[i] <= 'f' {
      assert Pad(g)[i] in Pad(g);
      LowerDigit(Pad(g)[i]);
    }
  }

  lemma {:induction false} HexBound(s: string)
    requires AllHex(s) && |s| <= 4
    ensures Hex(s) < (if |s| == 0 then 1 else if |s| == 1 then 0x10 else if |s| == 2 then 0x100
                      else if |s| == 3 then 0x1000 else 0x1_0000)
  {
    if s != [] {
      forall c <- s[..|s| - 1] ensures IsHex(c) { assert c in s; }
      HexBound(s[..|s| - 1]);
    }
  }

  predicate LowerHex(s: string) { forall c <- s :: '0' <= c <= '9' || 'a' <= c <= 'f' }

  /** Equally long lower-case numerals of one number are the same. */
  lemma LastDigitEqual(x: nat, y: nat, c: nat, d: nat)
    requires c < 16 && d < 16 && x * 16 + c == y * 16 + d
    ensures x == y && c == d
  {
  }

  lemma {:induction false} HexInjective(a: string, b: string)
    requires LowerHex(a) && LowerHex(b) && |a| == |b| && AllHex(a) && AllHex(b) && Hex(a) == Hex(b)
    ensures a == b
  {
    if a != [] {
      var n := |a| - 1;
      assert a[n] in a && b[n] in b;
      forall c <- a[..n] ensures c in a {}
      forall c <- b[..n] ensures c in b {}
      LastDigitEqual(Hex(a[..n]), Hex(b[..n]), Digit(a[n]), Digit(b[n]));
      HexInjective(a[..n], b[..n]);
      assert a == a[..n] + [a[n]] && b == b[..n] + [b[n]];
    }
  }

  // ---- Normalisation -----------------------------------------------------------------

  /** The groups of the normalised text: canonical, with the values of the original ones. */
  lemma NormalGroups(t: Text)
    requires WellFormed(t)
    ensures var groups := CanonicalAll(Expanded(t));
            && NormalizeIpv6(Render(t)) == Join(groups, ':') && |groups| == 8
            && (forall g <- groups :: IsCanonical(g) && IsGroup(g))
            && (forall g <- Expanded(t) :: IsGroup(g))
            && Words(groups) == Words(Expanded(t))
  {
    SegmentsOfText(t);
    ExpandedIsEight(t);
    CanonicalGroups(Expanded(t));
  }

  lemma CanonicalGroups(groups: seq<string>)
    requires forall g <- groups :: IsGroup(g)
    ensures forall g <- CanonicalAll(groups) :: IsCanonical(g) && IsGroup(g)
    ensures Words(CanonicalAll(groups)) == Words(groups)
  {
    var out := CanonicalAll(groups);
    forall i | 0 <= i < |groups| ensures IsCanonical(out[i]) && IsGroup(out[i]) && Hex(out[i]) == Words(groups)[i] {
      assert groups[i] in groups;
      CanonicalKeeps(groups[i]);
    }
  }

  /** The number a well-formed text stands for. */
  function Meaning(t: Text): nat
    requires WellFormed(t)
  {
    ExpandedIsEight(t);
    Address(Words(Expanded(t)))
  }

  /** Normalisation keeps the meaning: the result is a full text of the same 128-bit number. */
  lemma NormalizeKeepsMeaning(t: Text)
    requires WellFormed(t)
    ensures var groups := CanonicalAll(Expanded(t));
            && WellFormed(Full(groups)) && NormalizeIpv6(Render(t)) == Render(Full(groups))
            && Meaning(Full(groups)) == Meaning(t)
  {
    NormalGroups(t);
  }

  lemma {:induction false} AddressInjective(a: seq<nat>, b: seq<nat>)
    requires |a| == |b| && (forall w <- a :: w < 0x1_0000) && (forall w <- b :: w < 0x1_0000)
    requires Address(a) == Address(b)
    ensures a == b
  {
    if a != [] {
      var n := |a| - 1;
      assert a[n] in a && b[n] in b;
      forall w <- a[..n] ensures w in a {}
      forall w <- b[..n] ensures w in b {}
      AddressInjective(a[..n], b[..n]);
      assert a == a[..n] + [a[n]] && b == b[..n] + [b[n]];
    }
  }

  lemma WordsBound(groups: seq<string>)
    requires forall g <- groups :: IsGroup(g)
    ensures forall w <- Words(groups) :: w < 0x1_0000
  {
    forall i | 0 <= i < |groups| ensures Words(groups)[i] < 0x1_0000 {
      assert groups[i] in groups;
      HexBound(groups[i]);
    }
  }

  lemma SameTextSameGroups(a: seq<string>, b: seq<string>)
    requires a != [] && b != [] && (forall g <- a :: IsGroup(g)) && (forall g <- b :: IsGroup(g))
    requires Join(a, ':') == Join(b, ':')
    ensures a == b
  {
    SegmentsOfFull(a);
    SegmentsOfFull(b);
  }

  lemma SameWordsSameGroups(a: seq<string>, b: seq<string>)
    requires |a| == |b|
    requires (forall g <- a :: IsCanonical(g) && IsGroup(g)) && (forall g <- b :: IsCanonical(g) && IsGroup(g))
    requires Words(a) == Words(b)
    ensures a == b
  {
    forall i | 0 <= i < |a| ensures a[i] == b[i] {
      assert a[i] in a && b[i] in b;
      assert Words(a)[i] == Words(b)[i];
      HexInjective(a[i], b[i]);
    }
  }

  /** Two texts normalise to the same text if and only if they stand for the same address. */
  lemma NormalFormIsUnique(t: Text, u: Text)
    requires WellFormed(t) && WellFormed(u)
    ensures NormalizeIpv6(Render(t)) == NormalizeIpv6(Render(u)) <==> Meaning(t) == Meaning(u)
  {
    NormalGroups(t);
    NormalGroups(u);
    var a, b := CanonicalAll(Expanded(t)), CanonicalAll(Expanded(u));
    if Meaning(t) == Meaning(u) {
      WordsBound(Expanded(t));
      WordsBound(Expanded(u));
      AddressInjective(Words(Expanded(t)), Words(Expanded(u)));
      SameWordsSameGroups(a, b);
    } else if Join(a, ':') == Join(b, ':') {
      SameTextSameGroups(a, b);
    }
  }

  // ---- Masks -------------------------------------------------------------------------

  function Power2(n: nat): (p: nat)
    ensures p >= 1
  {
    if n == 0 then 1 else 2 * Power2(n - 1)
  }

  lemma {:induction false} AndLow(a: nat, k: nat)
    ensures And(a, Power2(k) - 1) == a % Power2(k)
  {
    if k > 0 {
      AndLow(a / 2, k - 1);
      var p := Power2(k - 1);
      assert (2 * p - 1) / 2 == p - 1 && (k > 1 || p == 1);
      HalveRemainder(a, p);
      if a == 0 { assert 0 % (2 * p) == 0; }
    }
  }

  lemma HalveRemainder(a: nat, p: nat)
    requires p >= 1
    ensures a % (2 * p) == a % 2 + 2 * ((a / 2) % p)
  {
    var h := a / 2;
    var q, r := h / p, h % p;
    assert h == p * q + r;
    assert a == (2 * p) * q + (a % 2 + 2 * r);
    RemainderIs(a, 2 * p, q, a % 2 + 2 * r);
  }

  lemma {:induction false} AtLeastOnce(d: nat, x: int)
    requires x >= 1
    ensures d * x >= d
    decreases x
  {
    if x > 1 {
      AtLeastOnce(d, x - 1);
      assert d * x == d * (x - 1) + d;
    }
  }

  lemma RemainderIs(a: nat, d: nat, q: nat, r: nat)
    requires d >= 1 && a == d * q + r && r < d
    ensures a % d == r && a / d == q
  {
    var q', r' := a / d, a % d;
    assert d * q + r == d * q' + r';
    if q > q' {
      assert d * (q - q') == d * q - d * q';
      AtLeastOnce(d, q - q');
    } else if q < q' {
      assert d * (q' - q) == d * q' - d * q;
      AtLeastOnce(d, q' - q);
    }
  }

  lemma AndEven(a: nat, n: nat, m: nat)
    requires n == 2 * m
    ensures And(a, n) == 2 * And(a / 2, m)
  {
  }

  /** Masking with a mask shifted by three is shifting, masking and shifting back. */
  lemma AndEight(a: nat, n: nat, m: nat)
    requires n == 8 * m
    ensures And(a, n) == 8 * And(a / 8, m)
  {
    AndEven(a, n, 4 * m);
    AndEven(a / 2, 4 * m, 2 * m);
    AndEven(a / 4, 2 * m, m);
    assert a / 2 / 2 == a / 4 && a / 4 / 2 == a / 8;
  }

  lemma Powers()
    ensures Power2(6) == 64 && Power2(7) == 128 && Power2(8) == 256 && Power2(9) == 512 && Power2(10) == 1024
  {
    assert Power2(3) == 8;
    assert Power2(6) == 64;
  }

  lemma AndByte(a: nat)
    ensures And(a, 0xff) == a % 256
  {
    Powers();
    AndLow(a, 8);
  }

  /** The mask of the top seven of sixteen bits. */
  lemma TopSeven(a: nat)
    requires a < 0x1_0000
    ensures And(a, 0xfe00) == 0xfc00 <==> 0xfc00 <= a < 0xfe00
  {
    Powers();
    AndEight(a, 0xfe00, 0x1fc0);
    AndEight(a / 8, 0x1fc0, 0x3f8);
    AndEight(a / 64, 0x3f8, 127);
    assert a / 8 / 8 == a / 64 && a / 64 / 8 == a / 512;
    AndLow(a / 512, 7);
    SameBits(And(a, 0xfe00), a, 512, 128, 126);
  }

  /** The mask of the top ten of sixteen bits. */
  lemma TopTen(a: nat)
    requires a < 0x1_0000
    ensures And(a, 0xffc0) == 0xfe80 <==> 0xfe80 <= a < 0xfec0
  {
    Powers();
    AndEight(a, 0xffc0, 0x1ff8);
    AndEight(a / 8, 0x1ff8, 1023);
    assert a / 8 / 8 == a / 64;
    AndLow(a / 64, 10);
    SameBits(And(a, 0xffc0), a, 64, 1024, 1018);
  }

  lemma SameBits(masked: nat, a: nat, low: nat, top: nat, bits: nat)
    requires a < 0x1_0000 && ((low == 512 && top == 128) || (low == 64 && top == 1024))
    requires masked == low * ((a / low) % top)
    ensures masked == low * bits <==> low * bits <= a < low * (bits + 1)
  {
  }

  // ---- Dotted texts ------------------------------------------------------------------

  lemma {:induction false} DecimalDigits(n: nat)
    ensures Decimal(n) != [] && forall c <- Decimal(n) :: '0' <= c <= '9'
  {
    if n >= 10 { DecimalDigits(n / 10); }
  }

  /** 0.0.0.0/8, 10.0.0.0/8, 127.0.0.0/8, 172.16.0.0/12, 192.168.0.0/16 and 169.254.0.0/16. */
  predicate PrivateV4(n: int) {
    || n <= 0x00ff_ffff
    || 0x0a00_0000 <= n <= 0x0aff_ffff
    || 0x7f00_0000 <= n <= 0x7fff_ffff
    || 0xac10_0000 <= n <= 0xac1f_ffff
    || 0xc0a8_0000 <= n <= 0xc0a8_ffff
    || 0xa9fe_0000 <= n <= 0xa9fe_ffff
  }

  lemma RangesAre(a: nat, b: nat, rest: nat)
    requires a < 256 && b < 256 && rest < 0x1_0000
    ensures PrivateV4(a * 0x100_0000 + b * 0x1_0000 + rest) <==> InPrivateRange(a, b)
  {
  }

  /** A text of four numerals is private if one exceeds an octet, or if its number is in one of the ranges. */
  lemma NumeralsPrivateIff(parts: seq<string>)
    requires |parts| == 4 && forall p <- parts :: IsNumeral(p)
    ensures IsPrivateIpv4(Join(parts, '.'))
       <==> (exists p <- parts :: Value(p) > 255) || PrivateV4(Quad(parts))
  {
    forall p <- parts ensures Number(p) == Some(Value(p)) && Free(p, '.') { ValueOfDigits(p); }
    SplitJoin(parts, '.');
    assert forall i | 0 <= i < 4 :: parts[i] in parts;
    if forall p <- parts :: Value(p) <= 255 { QuadRanges(parts); }
  }

  predicate IsNumeral(s: string) { s != [] && forall c <- s :: '0' <= c <= '9' }

  /** The number of which these are the four octets. */
  function Quad(parts: seq<string>): int
    requires |parts| == 4
  {
    Value(parts[0]) * 0x100_0000 + Value(parts[1]) * 0x1_0000 + Value(parts[2]) * 0x100 + Value(parts[3])
  }

  lemma QuadRanges(parts: seq<string>)
    requires |parts| == 4 && forall i | 0 <= i < 4 :: 0 <= Value(parts[i]) <= 255
    ensures PrivateV4(Quad(parts)) <==> InPrivateRange(Value(parts[0]), Value(parts[1]))
  {
    RangesAre(Value(parts[0]), Value(parts[1]), Value(parts[2]) * 0x100 + Value(parts[3]));
  }

  lemma {:induction false} ValueOfDigits(s: string)
    requires forall c <- s :: '0' <= c <= '9'
    ensures Value(s) >= 0
  {
    if s != [] {
      var t := s[..|s| - 1];
      assert s == t + [s[|s| - 1]] && s[|s| - 1] in s;
      forall c <- t ensures '0' <= c <= '9' { assert c in s; }
      ValueOfDigits(t);
    }
  }

  /** A dotted text of four octets is private exactly when its number is in one of the ranges. */
  lemma DottedIsPrivateIff(a: nat, b: nat, c: nat, d: nat)
    requires a < 256 && b < 256 && c < 256 && d < 256
    ensures IsPrivateIpv4(Join([Decimal(a), Decimal(b), Decimal(c), Decimal(d)], '.'))
       <==> PrivateV4(a * 0x100_0000 + b * 0x1_0000 + c * 0x100 + d)
  {
    NumeralOf(a);
    NumeralOf(b);
    NumeralOf(c);
    NumeralOf(d);
    FourOctets(Decimal(a), Decimal(b), Decimal(c), Decimal(d), a, b, c, d);
  }

  lemma FourOctets(w: string, x: string, y: string, z: string, a: nat, b: nat, c: nat, d: nat)
    requires IsNumeral(w) && Value(w) == a < 256 && IsNumeral(x) && Value(x) == b < 256
    requires IsNumeral(y) && Value(y) == c < 256 && IsNumeral(z) && Value(z) == d < 256
    ensures IsPrivateIpv4(Join([w, x, y, z], '.')) <==> PrivateV4(a * 0x100_0000 + b * 0x1_0000 + c * 0x100 + d)
  {
    var parts := [w, x, y, z];
    assert forall p <- parts :: p == w || p == x || p == y || p == z;
    NumeralsPrivateIff(parts);
  }

  lemma NumeralOf(n: nat)
    ensures IsNumeral(Decimal(n)) && Value(Decimal(n)) == n
  {
    DecimalDigits(n);
    ValueOfDecimal(n);
  }

  // ---- Numeric ranges ----------------------------------------------------------------

  const TOP: nat := 0x1_0000_0000_0000_0000_0000_0000_0000

  /** ::, ::1, fc00::/7, fe80::/10, and mapped addresses whose IPv4 part is in a private range. */
  predicate PrivateAddress(n: nat) {
    || n <= 1
    || 0xfc00 * TOP <= n < 0xfe00 * TOP
    || 0xfe80 * TOP <= n < 0xfec0 * TOP
    || (n / 0x1_0000_0000 == 0xffff && PrivateV4(n % 0x1_0000_0000))
  }

  lemma {:induction false} AddressSnoc(words: seq<nat>, w: nat)
    ensures Address(words + [w]) == Address(words) * 0x1_0000 + w
  {
    assert (words + [w])[..|words|] == words;
  }

  /** An address split after its first group, and before its last two. */
  lemma AddressParts(w: seq<nat>)
    requires |w| == 8 && forall x <- w :: x < 0x1_0000
    ensures w[0] * TOP <= Address(w) < (w[0] + 1) * TOP
    ensures Address(w) == Address(w[..6]) * 0x1_0000_0000 + w[6] * 0x1_0000 + w[7]
  {
    assert forall i | 0 <= i < 8 :: w[i] in w;
    AddressSnoc([], w[0]);
    AddressSnoc(w[..1], w[1]);
    AddressSnoc(w[..2], w[2]);
    AddressSnoc(w[..3], w[3]);
    AddressSnoc(w[..4], w[4]);
    AddressSnoc(w[..5], w[5]);
    AddressSnoc(w[..6], w[6]);
    AddressSnoc(w[..7], w[7]);
    assert w[..1] == [] + [w[0]] && w[..2] == w[..1] + [w[1]] && w[..3] == w[..2] + [w[2]] && w[..4] == w[..3] + [w[3]];
    assert w[..5] == w[..4] + [w[4]] && w[..6] == w[..5] + [w[5]] && w[..7] == w[..6] + [w[6]] && w == w[..7] + [w[7]];
  }

  lemma {:induction false} AddressOfZeros(w: seq<nat>)
    requires forall i | 0 <= i < |w| :: w[i] == 0
    ensures Address(w) == 0
  {
    if w != [] { AddressOfZeros(w[..|w| - 1]); }
  }

  // ---- Recognising texts -------------------------------------------------------------

  const ZERO := "0000"

  lemma JoinCons(parts: seq<string>, c: char)
    requires |parts| >= 2
    ensures Join(parts, c) == parts[0] + [c] + Join(parts[1..], c)
  {
  }

  lemma {:induction false} JoinAppend(a: seq<string>, b: seq<string>, c: char)
    requires a != [] && b != []
    ensures Join(a + b, c) == Join(a, c) + [c] + Join(b, c)
  {
    if |a| == 1 {
      assert (a + b)[1..] == b;
    } else {
      assert (a + b)[1..] == a[1..] + b;
      JoinAppend(a[1..], b, c);
    }
  }

  lemma {:induction false} CanonicalLength(groups: seq<string>)
    requires groups != [] && forall g <- groups :: |g| == 4
    ensures |Join(groups, ':')| == 5 * |groups| - 1
  {
    assert groups[0] in groups;
    if |groups| > 1 {
      forall g <- groups[1..] ensures |g| == 4 { assert g in groups; }
      CanonicalLength(groups[1..]);
    }
  }

  lemma KnownNumerals()
    ensures IsCanonical("0000") && IsGroup("0000") && Hex("0000") == 0
    ensures IsCanonical("0001") && IsGroup("0001") && Hex("0001") == 1
    ensures IsCanonical("ffff") && IsGroup("ffff") && Hex("ffff") == 0xffff
  {
    Numeral("0000", '0', '0', '0', '0');
    Numeral("0001", '0', '0', '0', '1');
    Numeral("ffff", 'f', 'f', 'f', 'f');
  }

  lemma Numeral(s: string, a: char, b: char, c: char, d: char)
    requires s == [a, b, c, d] && IsHex(a) && IsHex(b) && IsHex(c) && IsHex(d)
    ensures AllHex(s) && Hex(s) == Digit(a) * 0x1000 + Digit(b) * 0x100 + Digit(c) * 0x10 + Digit(d)
  {
    assert s[..3] == [a, b, c] && [a, b, c][..2] == [a, b] && [a, b][..1] == [a] && [a][..0] == [];
    assert Hex([a]) == Digit(a);
    assert Hex([a, b]) == Digit(a) * 0x10 + Digit(b);
    assert Hex([a, b, c]) == Digit(a) * 0x100 + Digit(b) * 0x10 + Digit(c);
  }

  ghost predicate CanonicalGroups8(groups: seq<string>) {
    |groups| == 8 && forall g <- groups :: IsCanonical(g) && IsGroup(g)
  }

  /** A text of canonical groups is a given one exactly when the numbers are the same. */
  lemma SameAsKnown(groups: seq<string>, known: seq<string>)
    requires |groups| == |known| && groups != []
    requires (forall g <- groups :: IsCanonical(g) && IsGroup(g)) && (forall g <- known :: IsCanonical(g) && IsGroup(g))
    ensures Join(groups, ':') == Join(known, ':') <==> Address(Words(groups)) == Address(Words(known))
  {
    if Join(groups, ':') == Join(known, ':') {
      SameTextSameGroups(groups, known);
    } else if Address(Words(groups)) == Address(Words(known)) {
      WordsBound(groups);
      WordsBound(known);
      AddressInjective(Words(groups), Words(known));
      SameWordsSameGroups(groups, known);
    }
  }

  function Zeros4(n: nat): seq<string> { seq(n, _ => ZERO) }

  lemma KnownGroups(n: nat, last: string)
    requires IsCanonical(last) && IsGroup(last)
    ensures forall g <- Zeros4(n) + [last] :: IsCanonical(g) && IsGroup(g)
    ensures Address(Words(Zeros4(n) + [last])) == Hex(last)
  {
    KnownNumerals();
    var groups := Zeros4(n) + [last];
    assert Words(groups) == Words(Zeros4(n)) + [Hex(last)];
    AddressSnoc(Words(Zeros4(n)), Hex(last));
    AddressOfZeros(Words(Zeros4(n)));
  }

  lemma {:induction false} ZerosJoin(n: nat, last: string)
    ensures Join(Zeros4(n) + [last], ':') == Zeroed(n, last)
  {
    var groups := Zeros4(n) + [last];
    if n > 0 {
      assert groups[1..] == Zeros4(n - 1) + [last] && groups[0] == ZERO;
      ZerosJoin(n - 1, last);
    }
  }

  /** The first group, and the mapped prefix, as they are read off the normalised text. */
  lemma ReadsOff(groups: seq<string>)
    requires CanonicalGroups8(groups)
    ensures var text := Join(groups, ':');
            && |text| == 39 && text[..4] == groups[0] && AllHex(text[..4])
            && text[..30] == Join(groups[..6], ':') + ":" && Split(text[30..], ':') == groups[6..]
  {
    var text := Join(groups, ':');
    assert forall i | 0 <= i < 8 :: groups[i] in groups;
    CanonicalLength(groups);
    JoinCons(groups, ':');
    assert text[..4] == groups[0];
    var a, b := groups[..6], groups[6..];
    assert groups == a + b;
    JoinAppend(a, b, ':');
    forall g <- a ensures IsGroup(g) && |g| == 4 { assert g in groups; }
    forall g <- b ensures IsGroup(g) { assert g in groups; }
    CanonicalLength(a);
    assert text[..30] == Join(a, ':') + [':'] && text[30..] == Join(b, ':');
    forall g <- b ensures Free(g, ':') { GroupIsFree(g); }
    SplitJoin(b, ':');
  }

  lemma MappedIff(groups: seq<string>)
    requires CanonicalGroups8(groups)
    ensures (forall g <- groups[..6] :: IsGroup(g))
    ensures MAPPED <= Join(groups, ':') <==> Address(Words(groups[..6])) == 0xffff
  {
    ReadsOff(groups);
    ZerosJoin(5, "ffff");
    KnownNumerals();
    KnownGroups(5, "ffff");
    forall g <- groups[..6] ensures IsCanonical(g) && IsGroup(g) { assert g in groups; }
    SameAsKnown(groups[..6], Zeros4(5) + ["ffff"]);
    SamePrefix(Join(groups, ':'), Join(groups[..6], ':'), Join(Zeros4(5) + ["ffff"], ':'));
  }

  lemma SamePrefix(text: string, head: string, known: string)
    requires |text| >= 30 && text[..30] == head + ":" && |known + ":"| == 30
    ensures known + ":" <= text <==> head == known
  {
    if known + ":" <= text {
      assert text[..30] == known + ":";
      assert head == (head + ":")[..29] && known == (known + ":")[..29];
    }
  }

  lemma MappedPart(k: nat, hi: nat, lo: nat, n: nat)
    requires hi < 0x1_0000 && lo < 0x1_0000 && n == k * 0x1_0000_0000 + hi * 0x1_0000 + lo
    ensures n / 0x1_0000_0000 == k && n % 0x1_0000_0000 == hi * 0x1_0000 + lo
  {
    RemainderIs(n, 0x1_0000_0000, k, hi * 0x1_0000 + lo);
  }

  lemma DottedBytes(hi: nat, lo: nat)
    ensures Dotted(hi, lo)
         == Join([Decimal(hi / 256 % 256), Decimal(hi % 256), Decimal(lo / 256 % 256), Decimal(lo % 256)], '.')
  {
    AndByte(hi / 256);
    AndByte(hi);
    AndByte(lo / 256);
    AndByte(lo);
  }

  lemma HighByte(x: nat)
    requires x < 0x1_0000
    ensures x / 256 % 256 == x / 256
  {
  }

  lemma DottedMapped(hi: nat, lo: nat)
    requires hi < 0x1_0000 && lo < 0x1_0000
    ensures IsPrivateIpv4(Dotted(hi, lo)) <==> PrivateV4(hi * 0x1_0000 + lo)
  {
    DottedBytes(hi, lo);
    DottedIsPrivateIff(hi / 256 % 256, hi % 256, lo / 256 % 256, lo % 256);
    HighByte(hi);
    HighByte(lo);
  }

  /** The texts of :: and ::1. */
  lemma LowestTwo(groups: seq<string>)
    requires CanonicalGroups8(groups)
    ensures var text := Join(groups, ':');
            && (text == LOOPBACK <==> Address(Words(groups)) == 1)
            && (text == UNSPECIFIED <==> Address(Words(groups)) == 0)
  {
    KnownNumerals();
    ZerosJoin(7, "0001");
    ZerosJoin(7, "0000");
    KnownGroups(7, "0001");
    KnownGroups(7, "0000");
    SameAsKnown(groups, Zeros4(7) + ["0001"]);
    SameAsKnown(groups, Zeros4(7) + ["0000"]);
  }

  lemma FirstGroup(first: nat, n: nat)
    requires first < 0x1_0000 && first * TOP <= n < (first + 1) * TOP
    ensures And(first, 0xfe00) == 0xfc00 <==> 0xfc00 * TOP <= n < 0xfe00 * TOP
    ensures And(first, 0xffc0) == 0xfe80 <==> 0xfe80 * TOP <= n < 0xfec0 * TOP
  {
    TopSeven(first);
    TopTen(first);
  }

  /** What the code reads off a canonical text, in numbers. */
  lemma CodeReads(groups: seq<string>)
    requires CanonicalGroups8(groups)
    ensures var text, n, w := Join(groups, ':'), Address(Words(groups)), Words(groups);
            && |text| == 39 && AllHex(text[..4]) && Hex(text[..4]) == w[0]
            && w[0] * TOP <= n < (w[0] + 1) * TOP && w[0] < 0x1_0000
            && (MAPPED <= text <==> n / 0x1_0000_0000 == 0xffff)
  {
    var w := Words(groups);
    ReadsOff(groups);
    WordsBound(groups);
    assert forall i | 0 <= i < 8 :: w[i] in w;
    AddressParts(w);
    MappedIff(groups);
    assert Words(groups[..6]) == w[..6];
    MappedPart(Address(w[..6]), w[6], w[7], Address(w));
  }

  lemma TailReads(groups: seq<string>)
    requires CanonicalGroups8(groups)
    ensures var text, n := Join(groups, ':'), Address(Words(groups));
            && |text| == 39
            && var tail := Split(text[30..], ':');
               && |tail| == 2 && AllHex(tail[0]) && AllHex(tail[1])
               && (IsPrivateIpv4(Dotted(Hex(tail[0]), Hex(tail[1])))
                   <==> PrivateV4(n % 0x1_0000_0000))
  {
    ReadsOff(groups);
    WordsBound(groups);
    assert forall i | 0 <= i < 8 :: groups[i] in groups;
    TailNumbers(Words(groups));
    assert groups[6..] == [groups[6], groups[7]];
  }

  lemma TailNumbers(w: seq<nat>)
    requires |w| == 8 && forall x <- w :: x < 0x1_0000
    ensures var n := Address(w);
            IsPrivateIpv4(Dotted(w[6], w[7])) <==> PrivateV4(n % 0x1_0000_0000)
  {
    assert w[6] in w && w[7] in w;
    AddressParts(w);
    MappedPart(Address(w[..6]), w[6], w[7], Address(w));
    DottedMapped(w[6], w[7]);
  }

  /** On a canonical text the code decides the numeric ranges. */
  lemma CanonicalIsPrivateIff(groups: seq<string>, ip: string)
    requires CanonicalGroups8(groups) && NormalizeIpv6(ip) == Join(groups, ':')
    ensures IsPrivateIpv6(ip) <==> PrivateAddress(Address(Words(groups)))
  {
    LowestTwo(groups);
    CodeReads(groups);
    TailReads(groups);
    FirstGroup(Words(groups)[0], Address(Words(groups)));
  }

  /**
   * For every zone-free hexadecimal text the classification agrees with the numbers: private
   * exactly on ::, ::1, fc00::/7 (section 3.1 of RFC 4193), fe80::/10 (section 2.5.6 of
   * RFC 4291) and mapped addresses whose IPv4 part is private.
   */
  lemma PrivateIpv6Iff(t: Text)
    requires WellFormed(t)
    ensures IsPrivateIpv6(Render(t)) <==> PrivateAddress(Meaning(t))
  {
    NormalGroups(t);
    CanonicalIsPrivateIff(CanonicalAll(Expanded(t)), Render(t));
  }
}
