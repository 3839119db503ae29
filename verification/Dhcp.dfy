/**
 * Decoding what a DHCP server discloses (src/probes/dhcp_inform.rs): the option walk, the
 * classless routes of RFC 3442, and the prefix an advertised mask establishes.
 */
module Dhcp {
  import opened Bytes
  import opened Outcomes

  type Address = a: seq<Byte> | |a| == 4 witness [0, 0, 0, 0]

  /** `Ipv4Net`. */
  datatype Net = Net(address: Address, width: nat)

  datatype Route = Route(prefix: Net, nextHop: Address, option: Byte, raw: seq<Byte>)

  // ----- prefixes, octet by octet

  /** How many bits of octet `i` a prefix of this width fixes. */
  function Keep(i: nat, width: nat): (k: nat)
    ensures k <= 8
  {
    if width >= 8 * i + 8 then 8 else if width <= 8 * i then 0 else width - 8 * i
  }

  /** A number with its low `m` bits cleared. */
  function Clear(v: nat, m: nat): (r: nat)
    ensures r <= v
  {
    if m == 0 then v else 2 * Clear(v / 2, m - 1)
  }

  /** The octet with all but its first `k` bits cleared. */
  function Cleared(octet: Byte, k: nat): Byte
    requires k <= 8
  {
    Clear(octet, 8 - k)
  }

  /** `trunc`. */
  function Trunc(a: Address, width: nat): Address {
    [Cleared(a[0], Keep(0, width)), Cleared(a[1], Keep(1, width)), Cleared(a[2], Keep(2, width)), Cleared(a[3], Keep(3, width))]
  }

  predicate Truncated(net: Net) {
    net.width <= 32 && Trunc(net.address, net.width) == net.address
  }

  lemma {:induction false} ClearTwice(v: nat, m: nat)
    ensures Clear(Clear(v, m), m) == Clear(v, m)
  {
    if m > 0 {
      ClearTwice(v / 2, m - 1);
    }
  }

  lemma {:induction false} ClearAll(v: nat, m: nat)
    requires v < Pow2(m)
    ensures Clear(v, m) == 0
  {
    if m > 0 {
      ClearAll(v / 2, m - 1);
    }
  }

  lemma TruncTwice(a: Address, width: nat)
    ensures Trunc(Trunc(a, width), width) == Trunc(a, width)
  {
    ClearTwice(a[0], 8 - Keep(0, width));
    ClearTwice(a[1], 8 - Keep(1, width));
    ClearTwice(a[2], 8 - Keep(2, width));
    ClearTwice(a[3], 8 - Keep(3, width));
  }

  // ----- classless routes

  /** `div_ceil(8)`: the octets an entry of this width carries. */
  function Significant(width: nat): nat {
    (width + 7) / 8
  }

  /** A whole entry: its width, the significant octets, and a gateway. */
  predicate IsEntry(e: seq<Byte>) {
    e != [] && e[0] <= 32 && |e| == 5 + Significant(e[0])
  }

  /** The size of the entry at the front, if a whole one stands there. */
  function EntrySize(v: seq<Byte>): (r: Option<nat>)
    ensures r.Some? ==> 5 <= r.value <= |v| && IsEntry(v[..r.value])
  {
    if v == [] || v[0] > 32 || 5 + Significant(v[0]) > |v| then None else Some(5 + Significant(v[0]))
  }

  function Padded(octets: seq<Byte>): Address
    requires |octets| <= 4
  {
    octets + seq(4 - |octets|, _ => 0)
  }

  function RouteOf(e: seq<Byte>, option: Byte): Route
    requires IsEntry(e)
  {
    var n := Significant(e[0]);
    Route(Net(Trunc(Padded(e[1..1 + n]), e[0]), e[0]), e[1 + n..], option, e)
  }

  function Routes(v: seq<Byte>, option: Byte): Option<seq<Route>>
    decreases |v|
  {
    if v == [] then Some([])
    else
      match EntrySize(v)
      case None => None
      case Some(n) => Prepended([RouteOf(v[..n], option)], Routes(v[n..], option))
  }

  function Prepended<T>(front: seq<T>, rest: Option<seq<T>>): Option<seq<T>> {
    if rest.None? then None else Some(front + rest.value)
  }

  lemma PrependedTwice<T>(a: seq<T>, b: seq<T>, rest: Option<seq<T>>)
    ensures Prepended(a, Prepended(b, rest)) == Prepended(a + b, rest)
  {
    if rest.Some? {
      assert a + (b + rest.value) == a + b + rest.value;
    }
  }

  lemma PrependedNil<T>(rest: Option<seq<T>>)
    ensures Prepended([], rest) == rest
  {
    if rest.Some? {
      assert [] + rest.value == rest.value;
    }
  }

  /** `parse_classless_routes`. */
  method ParseClasslessRoutes(value: seq<Byte>, option: Byte) returns (r: Option<seq<Route>>)
    ensures r == Routes(value, option)
  {
    var routes: seq<Route> := [];
    var cursor := 0;
    assert value[0..] == value;
    PrependedNil(Routes(value, option));
    while cursor < |value|
      invariant cursor <= |value|
      invariant Prepended(routes, Routes(value[cursor..], option)) == Routes(value, option)
    {
      var width := value[cursor];
      if width > 32 {
        return None;
      }
      var significant := Significant(width);
      var end := cursor + 1 + significant + 4;
      if end > |value| {
        return None;
      }
      var destination := Padded(value[cursor + 1..cursor + 1 + significant]);
      var gateway := value[cursor + 1 + significant..end];
      var route := Route(Net(Trunc(destination, width), width), gateway, option, value[cursor..end]);
      RouteInPlace(value, cursor, end, option);
      RoutesInPlace(value, cursor, end, option);
      PrependedTwice(routes, [route], Routes(value[end..], option));
      routes := routes + [route];
      cursor := end;
    }
    assert value[cursor..] == [] && routes + [] == routes;
    return Some(routes);
  }

  lemma RouteInPlace(value: seq<Byte>, cursor: nat, end: nat, option: Byte)
    requires cursor < |value| && value[cursor] <= 32 && end == cursor + 5 + Significant(value[cursor]) <= |value|
    ensures var n := Significant(value[cursor]);
            && value[cursor..][..end - cursor] == value[cursor..end] && IsEntry(value[cursor..end])
            && RouteOf(value[cursor..end], option) ==
               Route(Net(Trunc(Padded(value[cursor + 1..cursor + 1 + n]), value[cursor]), value[cursor]),
                     value[cursor + 1 + n..end], option, value[cursor..end])
  {
    var n := Significant(value[cursor]);
    SliceOfSlice(value, cursor, end, 1, 1 + n);
    SliceOfSlice(value, cursor, end, 1 + n, 5 + n);
  }

  lemma RoutesInPlace(value: seq<Byte>, cursor: nat, end: nat, option: Byte)
    requires cursor < |value| && value[cursor] <= 32 && end == cursor + 5 + Significant(value[cursor]) <= |value|
    requires IsEntry(value[cursor..end]) && value[cursor..][..end - cursor] == value[cursor..end]
    ensures Routes(value[cursor..], option) == Prepended([RouteOf(value[cursor..end], option)], Routes(value[end..], option))
  {
    assert value[cursor..][end - cursor..] == value[end..];
  }

  lemma SliceOfSlice(s: seq<Byte>, a: nat, b: nat, c: nat, d: nat)
    requires a <= b <= |s| && c <= d <= b - a
    ensures s[a..b][c..d] == s[a + c..a + d]
  {
    forall k | 0 <= k < d - c ensures s[a..b][c..d][k] == s[a + c..a + d][k] {
      assert s[a..b][c + k] == s[a + c + k];
    }
  }

  // ----- all or nothing, and lossless

  function Flat(parts: seq<seq<Byte>>): seq<Byte> {
    if parts == [] then [] else parts[0] + Flat(parts[1..])
  }

  lemma FlatCons(head: seq<Byte>, rest: seq<seq<Byte>>)
    ensures Flat([head] + rest) == head + Flat(rest)
  {
    assert ([head] + rest)[1..] == rest;
  }

  predicate AllEntries(parts: seq<seq<Byte>>) {
    forall i :: 0 <= i < |parts| ==> IsEntry(parts[i])
  }

  function Raws(routes: seq<Route>): (r: seq<seq<Byte>>)
    ensures |r| == |routes| && forall i :: 0 <= i < |r| ==> r[i] == routes[i].raw
  {
    seq(|routes|, i requires 0 <= i < |routes| => routes[i].raw)
  }

  function RoutesOf(parts: seq<seq<Byte>>, option: Byte): (r: seq<Route>)
    requires AllEntries(parts)
    ensures |r| == |parts| && forall i :: 0 <= i < |r| ==> r[i] == RouteOf(parts[i], option)
  {
    seq(|parts|, i requires 0 <= i < |parts| => RouteOf(parts[i], option))
  }

  lemma EntryStands(e: seq<Byte>, rest: seq<Byte>)
    requires IsEntry(e)
    ensures EntrySize(e + rest) == Some(|e|) && (e + rest)[..|e|] == e && (e + rest)[|e|..] == rest
  {
  }

  lemma RoutesCons(e: seq<Byte>, rest: seq<Byte>, option: Byte)
    requires IsEntry(e)
    ensures Routes(e + rest, option) == Prepended([RouteOf(e, option)], Routes(rest, option))
  {
    EntryStands(e, rest);
  }

  lemma RoutesOfCons(parts: seq<seq<Byte>>, option: Byte)
    requires AllEntries(parts) && parts != []
    ensures RoutesOf(parts, option) == [RouteOf(parts[0], option)] + RoutesOf(parts[1..], option)
  {
  }

  /** Every concatenation of whole entries parses, to one route per entry. */
  lemma {:induction false} EntriesParse(parts: seq<seq<Byte>>, option: Byte)
    requires AllEntries(parts)
    ensures Routes(Flat(parts), option) == Some(RoutesOf(parts, option))
  {
    if parts != [] {
      EntriesParse(parts[1..], option);
      RoutesCons(parts[0], Flat(parts[1..]), option);
      RoutesOfCons(parts, option);
    }
  }

  lemma RouteIsTruncated(e: seq<Byte>, option: Byte)
    requires IsEntry(e)
    ensures Truncated(RouteOf(e, option).prefix)
  {
    TruncTwice(Padded(e[1..1 + Significant(e[0])]), e[0]);
  }

  /** Nothing else parses: what does is cut into whole entries. */
  lemma {:induction false} Entries(v: seq<Byte>, option: Byte) returns (parts: seq<seq<Byte>>)
    requires Routes(v, option).Some?
    ensures AllEntries(parts) && Flat(parts) == v
    decreases |v|
  {
    if v == [] {
      parts := [];
    } else {
      var n := EntrySize(v).value;
      var rest := Entries(v[n..], option);
      parts := [v[..n]] + rest;
      FlatCons(v[..n], rest);
      assert v == v[..n] + v[n..];
    }
  }

  /** Nothing is lost: the raw entries concatenate to the option, and each route is read from its own. */
  lemma ParsedIsLossless(v: seq<Byte>, option: Byte)
    requires Routes(v, option).Some?
    ensures var routes := Routes(v, option).value;
            && Flat(Raws(routes)) == v && AllEntries(Raws(routes))
            && routes == RoutesOf(Raws(routes), option)
            && forall i :: 0 <= i < |routes| ==> Truncated(routes[i].prefix)
  {
    var parts := Entries(v, option);
    EntriesParse(parts, option);
    var routes := Routes(v, option).value;
    assert routes == RoutesOf(parts, option);
    assert Raws(routes) == parts;
    forall i | 0 <= i < |routes| ensures Truncated(routes[i].prefix) {
      RouteIsTruncated(parts[i], option);
    }
  }

  /** An option is refused exactly when it is not a concatenation of whole entries. */
  lemma AllOrNothing(v: seq<Byte>, option: Byte)
    ensures Routes(v, option).Some? <==> exists parts :: AllEntries(parts) && Flat(parts) == v
  {
    if Routes(v, option).Some? {
      ParsedIsLossless(v, option);
    }
    if parts :| AllEntries(parts) && Flat(parts) == v {
      EntriesParse(parts, option);
    }
  }

  /** The encoding of RFC 3442: the width, the significant octets, the gateway. */
  function Encoded(net: Net, gateway: Address): (e: seq<Byte>)
    requires net.width <= 32
    ensures IsEntry(e)
  {
    [net.width] + net.address[..Significant(net.width)] + gateway
  }

  lemma InsignificantIsZero(a: Address, width: nat)
    requires width <= 32 && Trunc(a, width) == a
    ensures Padded(a[..Significant(width)]) == a
  {
    forall i | Significant(width) <= i < 4 ensures a[i] == 0 {
      assert Pow2(8) == 256;
      ClearAll(a[i], 8);
      assert a[i] == Trunc(a, width)[i];
    }
  }

  lemma EncodedReads(net: Net, gateway: Address, option: Byte)
    requires Truncated(net)
    ensures RouteOf(Encoded(net, gateway), option) == Route(net, gateway, option, Encoded(net, gateway))
  {
    var e, n := Encoded(net, gateway), Significant(net.width);
    assert e[1..1 + n] == net.address[..n];
    assert e[1 + n..] == gateway;
    InsignificantIsZero(net.address, net.width);
  }

  datatype Hop = Hop(net: Net, gateway: Address)

  predicate AllTruncated(hops: seq<Hop>) {
    forall i :: 0 <= i < |hops| ==> hops[i].net.width <= 32 && Truncated(hops[i].net)
  }

  function EncodedAll(hops: seq<Hop>): (r: seq<seq<Byte>>)
    requires AllTruncated(hops)
    ensures |r| == |hops| && forall i :: 0 <= i < |r| ==> r[i] == Encoded(hops[i].net, hops[i].gateway)
  {
    seq(|hops|, i requires 0 <= i < |hops| => Encoded(hops[i].net, hops[i].gateway))
  }

  /** Any list of truncated prefixes and gateways, encoded, parses back to that list. */
  lemma RouteRoundTrip(hops: seq<Hop>, option: Byte)
    requires AllTruncated(hops)
    ensures var r := Routes(Flat(EncodedAll(hops)), option);
            && r.Some? && |r.value| == |hops|
            && forall i :: 0 <= i < |hops| ==>
                 r.value[i] == Route(hops[i].net, hops[i].gateway, option, Encoded(hops[i].net, hops[i].gateway))
  {
    EntriesParse(EncodedAll(hops), option);
    forall i | 0 <= i < |hops|
      ensures RouteOf(EncodedAll(hops)[i], option) == Route(hops[i].net, hops[i].gateway, option, Encoded(hops[i].net, hops[i].gateway))
    {
      EncodedReads(hops[i].net, hops[i].gateway, option);
    }
  }

  // ----- the attached prefix

  /** The low `n` bits of a number, most significant first. */
  function BitsOf(v: nat, n: nat): (r: seq<bool>)
    ensures |r| == n
  {
    if n == 0 then [] else BitsOf(v / 2, n - 1) + [v % 2 == 1]
  }

  function OctetBits(b: Byte): (r: seq<bool>)
    ensures |r| == 8
  {
    BitsOf(b, 8)
  }

  /** A 32-bit word, most significant bit first. */
  function Bits(a: Address): (r: seq<bool>)
    ensures |r| == 32
  {
    OctetBits(a[0]) + OctetBits(a[1]) + OctetBits(a[2]) + OctetBits(a[3])
  }

  function LeadingOnes(bits: seq<bool>): nat {
    if bits != [] && bits[0] then 1 + LeadingOnes(bits[1..]) else 0
  }

  function TrailingZeros(bits: seq<bool>): nat {
    if bits != [] && !bits[|bits| - 1] then 1 + TrailingZeros(bits[..|bits| - 1]) else 0
  }

  /** `attached_prefix`. */
  function AttachedPrefix(mask: Option<Address>, address: Address): Option<Net> {
    if mask.None? then None
    else
      var bits := Bits(mask.value);
      if LeadingOnes(bits) + TrailingZeros(bits) != 32 then None
      else Some(Net(Trunc(address, LeadingOnes(bits)), LeadingOnes(bits)))
  }

  /** Ones, then zeros. */
  predicate Contiguous(bits: seq<bool>, ones: nat) {
    ones <= |bits| && forall i :: 0 <= i < |bits| ==> (bits[i] <==> i < ones)
  }

  lemma {:induction false} LeadingRun(bits: seq<bool>)
    ensures LeadingOnes(bits) <= |bits|
    ensures forall i :: 0 <= i < LeadingOnes(bits) ==> bits[i]
    ensures LeadingOnes(bits) < |bits| ==> !bits[LeadingOnes(bits)]
  {
    if bits != [] && bits[0] {
      LeadingRun(bits[1..]);
    }
  }

  lemma {:induction false} TrailingRun(bits: seq<bool>)
    ensures TrailingZeros(bits) <= |bits|
    ensures forall i :: |bits| - TrailingZeros(bits) <= i < |bits| ==> !bits[i]
    ensures TrailingZeros(bits) < |bits| ==> bits[|bits| - TrailingZeros(bits) - 1]
  {
    if bits != [] && !bits[|bits| - 1] {
      TrailingRun(bits[..|bits| - 1]);
    }
  }

  /** The two counts cover the word exactly when it is ones followed by zeros. */
  lemma CountsMeanContiguous(bits: seq<bool>, ones: nat)
    ensures (LeadingOnes(bits) + TrailingZeros(bits) == |bits| && LeadingOnes(bits) == ones) <==> Contiguous(bits, ones)
  {
    LeadingRun(bits);
    TrailingRun(bits);
    if Contiguous(bits, ones) {
      var l, t := LeadingOnes(bits), TrailingZeros(bits);
      assert l < |bits| ==> (bits[l] <==> l < ones);
      assert ones < |bits| ==> !bits[ones];
      assert t > 0 ==> (bits[|bits| - t] <==> |bits| - t < ones);
      assert t < |bits| ==> (bits[|bits| - t - 1] <==> |bits| - t - 1 < ones);
    }
  }

  /** The netmask of a width, octet by octet. */
  /** An octet with its first `k` bits set. */
  function MaskOctet(k: nat): Byte
    requires k <= 8
  {
    Pow2Grows(8 - k, 8);
    assert Pow2(8) == 256;
    256 - Pow2(8 - k)
  }

  function Netmask(width: nat): Address {
    [MaskOctet(Keep(0, width)), MaskOctet(Keep(1, width)), MaskOctet(Keep(2, width)), MaskOctet(Keep(3, width))]
  }

  function BitsValue(bits: seq<bool>): nat {
    if bits == [] then 0 else 2 * BitsValue(bits[..|bits| - 1]) + if bits[|bits| - 1] then 1 else 0
  }

  lemma {:induction false} BitsRoundTrip(v: nat, n: nat)
    requires v < Pow2(n)
    ensures BitsValue(BitsOf(v, n)) == v
  {
    if n > 0 {
      BitsRoundTrip(v / 2, n - 1);
      assert BitsOf(v, n)[..n - 1] == BitsOf(v / 2, n - 1);
    }
  }

  /** Ones followed by zeros, as a number. */
  lemma {:induction false} MaskBits(n: nat, k: nat)
    requires k <= n
    ensures Pow2(n - k) <= Pow2(n) && Contiguous(BitsOf(Pow2(n) - Pow2(n - k), n), k)
  {
    Pow2Grows(n - k, n);
    if n > 0 {
      var v := Pow2(n) - Pow2(n - k);
      if k == n {
        MaskBits(n - 1, k - 1);
        assert v / 2 == Pow2(n - 1) - Pow2(0) && v % 2 == 1;
      } else {
        MaskBits(n - 1, k);
        assert v / 2 == Pow2(n - 1) - Pow2(n - 1 - k) && v % 2 == 0;
      }
    }
  }

  lemma SameRun(r: seq<bool>, s: seq<bool>, k: nat)
    requires |r| == |s| && Contiguous(r, k) && Contiguous(s, k)
    ensures r == s
  {
  }

  lemma MaskOctetBits(k: nat)
    requires k <= 8
    ensures Contiguous(OctetBits(MaskOctet(k)), k)
  {
    assert Pow2(8) == 256;
    MaskBits(8, k);
  }

  lemma OnesAreMask(b: Byte, k: nat)
    requires k <= 8 && Contiguous(OctetBits(b), k) && Contiguous(OctetBits(MaskOctet(k)), k)
    ensures b == MaskOctet(k)
  {
    assert Pow2(8) == 256;
    SameRun(OctetBits(b), OctetBits(MaskOctet(k)), k);
    BitsRoundTrip(b, 8);
    BitsRoundTrip(MaskOctet(k), 8);
  }

  lemma OctetOnes(b: Byte, k: nat)
    requires k <= 8
    ensures Contiguous(OctetBits(b), k) <==> b == MaskOctet(k)
  {
    MaskOctetBits(k);
    if Contiguous(OctetBits(b), k) {
      OnesAreMask(b, k);
    }
  }

  lemma BitsAt(a: Address, i: nat, j: nat)
    requires i < 4 && j < 8
    ensures Bits(a)[8 * i + j] == OctetBits(a[i])[j]
  {
    InQuarters(OctetBits(a[0]), OctetBits(a[1]), OctetBits(a[2]), OctetBits(a[3]), i, j);
  }

  lemma InQuarters(a: seq<bool>, b: seq<bool>, c: seq<bool>, d: seq<bool>, i: nat, j: nat)
    requires |a| == |b| == |c| == |d| == 8 && i < 4 && j < 8
    ensures (a + b + c + d)[8 * i + j] == (if i == 0 then a else if i == 1 then b else if i == 2 then c else d)[j]
  {
  }

  lemma {:induction false} ClearBits(v: nat, n: nat, m: nat)
    requires m <= n
    ensures forall j :: 0 <= j < n ==> (BitsOf(Clear(v, m), n)[j] <==> j < n - m && BitsOf(v, n)[j])
  {
    if m > 0 {
      ClearBits(v / 2, n - 1, m - 1);
      assert Clear(v, m) / 2 == Clear(v / 2, m - 1) && Clear(v, m) % 2 == 0;
      assert BitsOf(Clear(v, m), n) == BitsOf(Clear(v / 2, m - 1), n - 1) + [false];
      assert BitsOf(v, n) == BitsOf(v / 2, n - 1) + [v % 2 == 1];
    }
  }

  /** Truncating keeps the bits the width covers and clears every other. */
  lemma TruncKeepsThePrefix(a: Address, width: nat)
    requires width <= 32
    ensures forall n :: 0 <= n < 32 ==> (Bits(Trunc(a, width))[n] <==> n < width && Bits(a)[n])
  {
    forall n | 0 <= n < 32 ensures Bits(Trunc(a, width))[n] <==> n < width && Bits(a)[n] {
      var i, j := n / 8, n % 8;
      BitsAt(a, i, j);
      BitsAt(Trunc(a, width), i, j);
      OctetCleared(a[i], Keep(i, width), j);
      assert Trunc(a, width)[i] == Cleared(a[i], Keep(i, width));
    }
  }

  lemma OctetCleared(octet: Byte, k: nat, j: nat)
    requires k <= 8 && j < 8
    ensures OctetBits(Cleared(octet, k))[j] <==> j < k && OctetBits(octet)[j]
  {
    ClearBits(octet, 8, 8 - k);
  }

  lemma ContiguousByOctet(a: Address, width: nat)
    requires width <= 32
    ensures Contiguous(Bits(a), width) <==> forall i :: 0 <= i < 4 ==> Contiguous(OctetBits(a[i]), Keep(i, width))
  {
    if Contiguous(Bits(a), width) {
      forall i, j | 0 <= i < 4 && 0 <= j < 8 ensures OctetBits(a[i])[j] <==> j < Keep(i, width) {
        BitsAt(a, i, j);
      }
    }
    if forall i :: 0 <= i < 4 ==> Contiguous(OctetBits(a[i]), Keep(i, width)) {
      forall n | 0 <= n < 32 ensures Bits(a)[n] <==> n < width {
        BitsAt(a, n / 8, n % 8);
        assert Contiguous(OctetBits(a[n / 8]), Keep(n / 8, width));
      }
    }
  }

  /**
   * A prefix is established exactly when the advertised mask is a netmask, it is the one of
   * that netmask's width, and it is truncated.
   */
  lemma AttachedExactlyByNetmask(mask: Address, address: Address, width: nat)
    requires width <= 32
    ensures AttachedPrefix(Some(mask), address) == Some(Net(Trunc(address, width), width)) <==> mask == Netmask(width)
    ensures AttachedPrefix(Some(mask), address).None? <==> forall w: nat :: w <= 32 ==> mask != Netmask(w)
    ensures AttachedPrefix(Some(mask), address).Some? ==> Truncated(AttachedPrefix(Some(mask), address).value)
  {
    var bits := Bits(mask);
    forall w: nat | w <= 32
      ensures (LeadingOnes(bits) + TrailingZeros(bits) == 32 && LeadingOnes(bits) == w) <==> mask == Netmask(w)
    {
      NetmaskMeansCounts(mask, w);
    }
    LeadingRun(bits);
    assert LeadingOnes(bits) + TrailingZeros(bits) == 32 ==> mask == Netmask(LeadingOnes(bits));
    TruncTwice(address, LeadingOnes(bits));
  }

  lemma NetmaskMeansCounts(mask: Address, w: nat)
    requires w <= 32
    ensures (LeadingOnes(Bits(mask)) + TrailingZeros(Bits(mask)) == 32 && LeadingOnes(Bits(mask)) == w) <==> mask == Netmask(w)
  {
    CountsMeanContiguous(Bits(mask), w);
    ContiguousByOctet(mask, w);
    forall i | 0 <= i < 4 ensures Contiguous(OctetBits(mask[i]), Keep(i, w)) <==> mask[i] == Netmask(w)[i] {
      OctetOnes(mask[i], Keep(i, w));
    }
  }
}
