/**
 * Correlating ARP replies with a sweep's requests (src/probes/arp.rs).
 *
 * The link is the list of frames a read delivered. Sixteen-bit fields are compared as their
 * two bytes.
 */
module Arp {
  import opened Bytes
  import opened Outcomes

  const TYPE_ARP: seq<Byte> := [0x08, 0x06]
  const TYPE_VLAN: seq<Byte> := [0x81, 0x00]
  const HARDWARE_ETHERNET: seq<Byte> := [0, 1]
  const PROTOCOL_IPV4: seq<Byte> := [0x08, 0x00]
  const OPERATION_REQUEST: seq<Byte> := [0, 1]
  const OPERATION_REPLY: seq<Byte> := [0, 2]

  type Mac = m: seq<Byte> | |m| == 6 witness [0, 0, 0, 0, 0, 0]
  type Address = a: seq<Byte> | |a| == 4 witness [0, 0, 0, 0]
  type Frame = seq<Byte>

  datatype Query = Query(senderMac: Mac, senderIp: Address, targetIp: Address)

  datatype Reply = Reply(address: Address, mac: Mac, vlan: Option<nat>, raw: Frame)

  /** The 28 bytes of an ARP message over Ethernet and IPv4. */
  function Message(operation: seq<Byte>, mac: seq<Byte>, ip: seq<Byte>, targetMac: seq<Byte>, targetIp: seq<Byte>): seq<Byte> {
    HARDWARE_ETHERNET + PROTOCOL_IPV4 + [6, 4] + operation + mac + ip + targetMac + targetIp
  }

  function Zeros(n: nat): seq<Byte> {
    seq(n, _ => 0)
  }

  /** `request_frame`: broadcast, and padded to Ethernet's minimum of 60 bytes. */
  function RequestFrame(q: Query): Frame {
    [0xff, 0xff, 0xff, 0xff, 0xff, 0xff] + q.senderMac + TYPE_ARP +
    Message(OPERATION_REQUEST, q.senderMac, q.senderIp, Zeros(6), q.targetIp) + Zeros(18)
  }

  /** `is_candidate_reply`. */
  predicate IsCandidate(frame: Frame, mac: Mac) {
    && |frame| >= 22 && frame[0..6] == mac
    && var tagged := frame[12..14] == TYPE_VLAN;
       && (tagged ==> |frame| >= 24)
       && var offset := if tagged then 16 else 12;
          && frame[offset..offset + 2] == TYPE_ARP
          && offset + 10 <= |frame| && frame[offset + 8..offset + 10] == OPERATION_REPLY
  }

  /** A hardware address one station can own. */
  predicate Unicast(mac: Mac) {
    mac[0] % 2 == 0 && mac != [0, 0, 0, 0, 0, 0]
  }

  /** `parse_arp_reply`. */
  function ParseReply(frame: Frame, q: Query): Option<Reply> {
    if |frame| < 14 || frame[0..6] != q.senderMac then None
    else if frame[12..14] == TYPE_VLAN then
      if |frame| < 20 || frame[16..18] != TYPE_ARP then None
      else ParseMessage(frame, frame[18..], Some(BigValue(frame[14..16]) % 0x1000), q)
    else if frame[12..14] != TYPE_ARP then None
    else ParseMessage(frame, frame[14..], None, q)
  }

  function ParseMessage(frame: Frame, arp: seq<Byte>, vlan: Option<nat>, q: Query): Option<Reply> {
    if |arp| < 28 || arp[0..2] != HARDWARE_ETHERNET || arp[2..4] != PROTOCOL_IPV4 then None
    else if arp[4] != 6 || arp[5] != 4 || arp[6..8] != OPERATION_REPLY then None
    else if arp[14..18] != q.targetIp || arp[24..28] != q.senderIp || arp[18..24] != q.senderMac then None
    else if !Unicast(arp[8..14]) then None
    else Some(Reply(arp[14..18], arp[8..14], vlan, frame))
  }

  // ----- what parses, exactly

  /** A reply as it stands on the link: maybe tagged, maybe followed by padding. */
  function ReplyFrame(q: Query, source: Mac, tag: Option<seq<Byte>>, station: Mac, trailer: seq<Byte>): Frame {
    q.senderMac + source + (if tag.Some? then TYPE_VLAN + tag.value else []) + TYPE_ARP +
    ReplyMessage(q, station) + trailer
  }

  function ReplyMessage(q: Query, station: Mac): (r: seq<Byte>)
    ensures |r| == 28
  {
    Message(OPERATION_REPLY, station, q.targetIp, q.senderMac, q.senderIp)
  }

  predicate IsTag(tag: Option<seq<Byte>>) {
    tag.Some? ==> |tag.value| == 2
  }

  function VlanOf(tag: Option<seq<Byte>>): Option<nat> {
    if tag.Some? then Some(BigValue(tag.value) % 0x1000) else None
  }

  lemma MessageReads(frame: Frame, q: Query, station: Mac, trailer: seq<Byte>, vlan: Option<nat>)
    ensures ParseMessage(frame, ReplyMessage(q, station) + trailer, vlan, q) ==
            if station[0] % 2 == 0 && station != [0, 0, 0, 0, 0, 0] then Some(Reply(q.targetIp, station, vlan, frame)) else None
  {
    var arp := ReplyMessage(q, station) + trailer;
    assert arp[0..2] == HARDWARE_ETHERNET && arp[2..4] == PROTOCOL_IPV4 && arp[6..8] == OPERATION_REPLY;
    assert arp[8..14] == station && arp[14..18] == q.targetIp;
    assert arp[18..24] == q.senderMac && arp[24..28] == q.senderIp;
  }

  lemma MessageIsReply(frame: Frame, arp: seq<Byte>, vlan: Option<nat>, q: Query)
    requires ParseMessage(frame, arp, vlan, q).Some?
    ensures var r := ParseMessage(frame, arp, vlan, q).value;
            && r == Reply(q.targetIp, r.mac, vlan, frame) && Unicast(r.mac)
            && arp == ReplyMessage(q, r.mac) + arp[28..]
  {
    var station := arp[8..14];
    assert arp == arp[0..2] + arp[2..4] + arp[4..6] + arp[6..8] + station + arp[14..18] + arp[18..24] + arp[24..28] + arp[28..];
    assert arp[4..6] == [6, 4];
  }

  lemma Sections(a: seq<Byte>, b: seq<Byte>, c: seq<Byte>, d: seq<Byte>)
    requires |a| == |b| == 6 && |c| == 2
    ensures var f := a + b + c + d;
            f[0..6] == a && f[6..12] == b && f[12..14] == c && f[14..] == d
  {
  }

  /**
   * A reply to the query, tagged or not, is accepted for what it says exactly when the station
   * it names is one: no group address, and not the zero address.
   */
  lemma ReplyIsAccepted(q: Query, source: Mac, tag: Option<seq<Byte>>, station: Mac, trailer: seq<Byte>)
    requires IsTag(tag)
    ensures var frame := ReplyFrame(q, source, tag, station, trailer);
            ParseReply(frame, q) ==
            if station[0] % 2 == 0 && station != [0, 0, 0, 0, 0, 0]
            then Some(Reply(q.targetIp, station, VlanOf(tag), frame)) else None
  {
    var frame := ReplyFrame(q, source, tag, station, trailer);
    var arp := ReplyMessage(q, station) + trailer;
    MessageReads(frame, q, station, trailer, VlanOf(tag));
    if tag.Some? {
      var rest := tag.value + TYPE_ARP + arp;
      assert frame == q.senderMac + source + TYPE_VLAN + rest;
      TaggedSections(frame, q.senderMac, source, tag.value, arp);
    } else {
      assert frame == q.senderMac + source + TYPE_ARP + arp;
      Sections(q.senderMac, source, TYPE_ARP, arp);
    }
  }

  lemma TaggedSections(frame: Frame, mac: Mac, source: Mac, tag: seq<Byte>, arp: seq<Byte>)
    requires |tag| == 2 && frame == mac + source + TYPE_VLAN + (tag + TYPE_ARP + arp)
    ensures |frame| >= 18 && frame[0..6] == mac && frame[12..14] == TYPE_VLAN
    ensures frame[14..16] == tag && frame[16..18] == TYPE_ARP && frame[18..] == arp
  {
    var rest := tag + TYPE_ARP + arp;
    Sections(mac, source, TYPE_VLAN, rest);
    assert frame[14..16] == rest[0..2];
    assert frame[16..18] == rest[2..4];
    assert frame[18..] == rest[4..];
  }

  function TagOf(frame: Frame): Option<seq<Byte>>
    requires |frame| >= 16
  {
    if frame[12..14] == TYPE_VLAN then Some(frame[14..16]) else None
  }

  /** Nothing else is: what parses is, byte for byte, a reply to that query. */
  lemma AcceptedIsReply(frame: Frame, q: Query)
    requires ParseReply(frame, q).Some?
    ensures |frame| >= 42
    ensures var r := ParseReply(frame, q).value; var n := if TagOf(frame).Some? then 46 else 42;
            && r == Reply(q.targetIp, r.mac, VlanOf(TagOf(frame)), frame) && Unicast(r.mac) && n <= |frame|
            && frame == ReplyFrame(q, frame[6..12], TagOf(frame), r.mac, frame[n..])
  {
    if frame[12..14] == TYPE_VLAN {
      var arp := frame[18..];
      MessageIsReply(frame, arp, Some(BigValue(frame[14..16]) % 0x1000), q);
      assert arp[28..] == frame[46..];
      assert frame == frame[0..6] + frame[6..12] + (frame[12..14] + frame[14..16]) + frame[16..18] + arp;
    } else {
      var arp := frame[14..];
      MessageIsReply(frame, arp, None, q);
      assert arp[28..] == frame[42..];
      assert frame == frame[0..6] + frame[6..12] + [] + frame[12..14] + arp;
    }
  }

  lemma CorrelatedIsCandidate(frame: Frame, q: Query)
    requires ParseReply(frame, q).Some?
    ensures IsCandidate(frame, q.senderMac)
  {
    if frame[12..14] == TYPE_VLAN {
      assert frame[18..][6..8] == frame[24..26];
    } else {
      assert frame[14..][6..8] == frame[20..22];
    }
  }

  /** A frame answers for one address only. */
  lemma OneAddressPerFrame(frame: Frame, p: Query, q: Query)
    requires ParseReply(frame, p).Some? && ParseReply(frame, q).Some?
    ensures p == q
  {
    AcceptedIsReply(frame, p);
    AcceptedIsReply(frame, q);
    if frame[12..14] == TYPE_VLAN {
      SameQuery(frame, frame[18..], ParseReply(frame, p).value.vlan, p, q);
    } else {
      SameQuery(frame, frame[14..], None, p, q);
    }
  }

  lemma SameQuery(frame: Frame, arp: seq<Byte>, vlan: Option<nat>, p: Query, q: Query)
    requires ParseMessage(frame, arp, vlan, p).Some? && ParseMessage(frame, arp, vlan, q).Some?
    ensures p == q
  {
  }

  /** A candidate is exactly a frame to this station whose type, behind at most one tag, is ARP and whose operation is a reply. */
  lemma CandidateExactly(to: Mac, source: Mac, tag: Option<seq<Byte>>, kind: seq<Byte>, head: seq<Byte>,
                         operation: seq<Byte>, rest: seq<Byte>, mac: Mac)
    requires IsTag(tag) && |kind| == 2 && |head| == 6 && |operation| == 2 && (tag.None? ==> kind != TYPE_VLAN)
    ensures var frame := to + source + (if tag.Some? then TYPE_VLAN + tag.value else []) + kind + (head + operation + rest);
            IsCandidate(frame, mac) <==> to == mac && kind == TYPE_ARP && operation == OPERATION_REPLY
  {
    var body := head + operation + rest;
    var frame := to + source + (if tag.Some? then TYPE_VLAN + tag.value else []) + kind + body;
    assert body[6..8] == operation;
    if tag.Some? {
      var inner := tag.value + kind + body;
      assert frame == to + source + TYPE_VLAN + inner;
      Sections(to, source, TYPE_VLAN, inner);
      assert frame[16..18] == inner[2..4] == kind;
      assert frame[24..26] == inner[10..12] == body[6..8];
    } else {
      assert frame == to + source + kind + body;
      Sections(to, source, kind, body);
      assert frame[20..22] == body[6..8];
    }
  }

  /** `is_our_request`. */
  predicate IsOurRequest(frame: Frame, mac: Mac) {
    |frame| >= 42 && frame[6..12] == mac && frame[12..14] == TYPE_ARP && frame[20..22] == OPERATION_REQUEST
  }

  /** A request is recognised as its sender's and nobody else's, and asks one question only. */
  lemma RequestIsOurs(p: Query, q: Query, mac: Mac)
    ensures IsOurRequest(RequestFrame(q), mac) <==> mac == q.senderMac
    ensures RequestFrame(p) == RequestFrame(q) ==> p == q
  {
    RequestFields(p);
    RequestFields(q);
  }

  lemma RequestFields(q: Query)
    ensures var f := RequestFrame(q);
            && |f| == 60 && f[6..12] == q.senderMac && f[12..14] == TYPE_ARP && f[20..22] == OPERATION_REQUEST
            && f[28..32] == q.senderIp && f[38..42] == q.targetIp
  {
    var f := RequestFrame(q);
    var m := Message(OPERATION_REQUEST, q.senderMac, q.senderIp, Zeros(6), q.targetIp);
    assert m[6..8] == OPERATION_REQUEST && m[14..18] == q.senderIp && m[24..28] == q.targetIp;
    Sections([0xff, 0xff, 0xff, 0xff, 0xff, 0xff], q.senderMac, TYPE_ARP, m + Zeros(18));
    assert f == [0xff, 0xff, 0xff, 0xff, 0xff, 0xff] + q.senderMac + TYPE_ARP + (m + Zeros(18));
    assert f[20..22] == m[6..8] && f[28..32] == m[14..18] && f[38..42] == m[24..28];
  }

  /** What this station sends is never read as an answer to it. */
  lemma RequestIsNoCandidate(q: Query, mac: Mac)
    ensures |RequestFrame(q)| == 60 && !IsCandidate(RequestFrame(q), mac)
  {
    var f := RequestFrame(q);
    assert f[12..14] == TYPE_ARP;
    assert f[20..22] == OPERATION_REQUEST;
  }

  // ----- the counting loop

  datatype Tally = Tally(candidates: nat, correlated: nat, replies: seq<Reply>)

  /** A station already recorded for that address. */
  predicate Seen(replies: seq<Reply>, r: Reply) {
    exists i :: 0 <= i < |replies| && replies[i].address == r.address && replies[i].mac == r.mac
  }

  function Noted(t: Tally, answer: Option<Reply>): Tally {
    if answer.None? then t
    else t.(correlated := t.correlated + 1,
            replies := if Seen(t.replies, answer.value) then t.replies else t.replies + [answer.value])
  }

  function Checked(t: Tally, frame: Frame, sent: seq<Query>): Tally {
    if sent == [] then t
    else Noted(Checked(t, frame, sent[..|sent| - 1]), ParseReply(frame, sent[|sent| - 1]))
  }

  function Counted(t: Tally, frame: Frame, mac: Mac): Tally {
    if IsCandidate(frame, mac) then t.(candidates := t.candidates + 1) else t
  }

  function Swept(frames: seq<Frame>, sent: seq<Query>, mac: Mac): Tally {
    if frames == [] then Tally(0, 0, [])
    else
      var frame := frames[|frames| - 1];
      Checked(Counted(Swept(frames[..|frames| - 1], sent, mac), frame, mac), frame, sent)
  }

  function Rejected(t: Tally): nat {
    if t.candidates >= t.correlated then t.candidates - t.correlated else 0
  }

  /** The reading loop of `sweep_liveness`, and its `saturating_sub`. */
  method Sweep(frames: seq<Frame>, sent: seq<Query>, mac: Mac) returns (tally: Tally, rejected: nat)
    ensures tally == Swept(frames, sent, mac) && rejected == Rejected(tally)
  {
    var candidates, correlated, replies: seq<Reply> := 0, 0, [];
    for i := 0 to |frames|
      invariant Tally(candidates, correlated, replies) == Swept(frames[..i], sent, mac)
    {
      var frame := frames[i];
      ghost var before := Swept(frames[..i], sent, mac);
      assert frames[..i + 1][..i] == frames[..i];
      if IsCandidate(frame, mac) {
        candidates := candidates + 1;
      }
      ghost var counted := Counted(before, frame, mac);
      for j := 0 to |sent|
        invariant Tally(candidates, correlated, replies) == Checked(counted, frame, sent[..j])
      {
        assert sent[..j + 1][..j] == sent[..j];
        var answer := ParseReply(frame, sent[j]);
        if answer.Some? {
          correlated := correlated + 1;
          if !Seen(replies, answer.value) {
            replies := replies + [answer.value];
          }
        }
      }
      assert sent[..|sent|] == sent;
    }
    assert frames[..|frames|] == frames;
    tally := Tally(candidates, correlated, replies);
    rejected := if candidates >= correlated then candidates - correlated else 0;
  }

  // ----- what the counts mean

  /** The queries of one sweep: one sender, one per address asked. */
  predicate OneSender(sent: seq<Query>, mac: Mac) {
    forall i :: 0 <= i < |sent| ==> sent[i].senderMac == mac
  }

  predicate DistinctTargets(sent: seq<Query>) {
    forall i, j :: 0 <= i < j < |sent| ==> sent[i] != sent[j]
  }

  predicate Answers(frame: Frame, sent: seq<Query>) {
    exists i :: 0 <= i < |sent| && ParseReply(frame, sent[i]).Some?
  }

  /** Candidates that answer nothing that was asked. */
  function Strays(frames: seq<Frame>, sent: seq<Query>, mac: Mac): nat {
    if frames == [] then 0
    else
      var frame := frames[|frames| - 1];
      Strays(frames[..|frames| - 1], sent, mac) + if IsCandidate(frame, mac) && !Answers(frame, sent) then 1 else 0
  }

  /** How many queries a frame correlates with. */
  function Matches(frame: Frame, sent: seq<Query>): nat {
    if sent == [] then 0
    else Matches(frame, sent[..|sent| - 1]) + if ParseReply(frame, sent[|sent| - 1]).Some? then 1 else 0
  }

  lemma {:induction false} CheckedCounts(t: Tally, frame: Frame, sent: seq<Query>)
    ensures Checked(t, frame, sent).candidates == t.candidates
    ensures Checked(t, frame, sent).correlated == t.correlated + Matches(frame, sent)
  {
    if sent != [] {
      CheckedCounts(t, frame, sent[..|sent| - 1]);
    }
  }

  lemma {:induction false} MatchesOnce(frame: Frame, sent: seq<Query>)
    requires DistinctTargets(sent)
    ensures Matches(frame, sent) == if Answers(frame, sent) then 1 else 0
  {
    if sent != [] {
      var n := |sent| - 1;
      MatchesOnce(frame, sent[..n]);
      if Answers(frame, sent[..n]) {
        var i :| 0 <= i < n && ParseReply(frame, sent[..n][i]).Some?;
        assert ParseReply(frame, sent[i]).Some?;
        if ParseReply(frame, sent[n]).Some? {
          OneAddressPerFrame(frame, sent[i], sent[n]);
        }
      } else {
        assert forall i :: 0 <= i < n ==> sent[..n][i] == sent[i];
      }
    }
  }

  /** Nothing correlated goes uncounted as a candidate, so the subtraction never saturates. */
  lemma {:induction false} CountsAddUp(frames: seq<Frame>, sent: seq<Query>, mac: Mac)
    requires OneSender(sent, mac) && DistinctTargets(sent)
    ensures var t := Swept(frames, sent, mac); t.candidates == t.correlated + Strays(frames, sent, mac)
  {
    if frames != [] {
      var frame := frames[|frames| - 1];
      var t := Swept(frames[..|frames| - 1], sent, mac);
      CountsAddUp(frames[..|frames| - 1], sent, mac);
      CheckedCounts(Counted(t, frame, mac), frame, sent);
      MatchesOnce(frame, sent);
      if Answers(frame, sent) {
        var i :| 0 <= i < |sent| && ParseReply(frame, sent[i]).Some?;
        CorrelatedIsCandidate(frame, sent[i]);
      }
    }
  }

  /** A candidate too short to hold a message. */
  function StrayFrame(mac: Mac): Frame {
    mac + Zeros(6) + TYPE_ARP + Zeros(6) + OPERATION_REPLY
  }

  lemma StrayIsStray(mac: Mac, sent: seq<Query>)
    ensures IsCandidate(StrayFrame(mac), mac) && !Answers(StrayFrame(mac), sent) && Matches(StrayFrame(mac), sent) == 0
  {
    var f := StrayFrame(mac);
    assert f[0..6] == mac && f[12..14] == TYPE_ARP && f[20..22] == OPERATION_REPLY;
    assert forall q: Query :: ParseReply(f, q).None?;
    NoMatches(f, sent);
  }

  lemma {:induction false} NoMatches(frame: Frame, sent: seq<Query>)
    requires forall q: Query :: ParseReply(frame, q).None?
    ensures Matches(frame, sent) == 0
  {
    if sent != [] {
      NoMatches(frame, sent[..|sent| - 1]);
    }
  }

  lemma {:induction false} MatchesAtLeast(frame: Frame, sent: seq<Query>, i: nat)
    requires i < |sent| && ParseReply(frame, sent[i]).Some?
    ensures Matches(frame, sent) >= 1
  {
    if i < |sent| - 1 {
      MatchesAtLeast(frame, sent[..|sent| - 1], i);
    }
  }

  lemma {:induction false} MatchesTwice(frame: Frame, sent: seq<Query>, i: nat, j: nat)
    requires i < j < |sent| && sent[i] == sent[j] && ParseReply(frame, sent[i]).Some?
    ensures Matches(frame, sent) >= 2
  {
    if j < |sent| - 1 {
      MatchesTwice(frame, sent[..|sent| - 1], i, j);
    } else {
      MatchesAtLeast(frame, sent[..j], i);
    }
  }

  /** An address asked twice: one answer hides one stray reply. */
  lemma DuplicateHidesAStray(sent: seq<Query>, mac: Mac, i: nat, j: nat) returns (frames: seq<Frame>)
    requires OneSender(sent, mac) && i < j < |sent| && sent[i] == sent[j]
    ensures Rejected(Swept(frames, sent, mac)) != Strays(frames, sent, mac)
  {
    var station: Mac := [0, 0, 0, 0, 0, 1];
    var answer, stray := ReplyFrame(sent[i], station, None, station, []), StrayFrame(mac);
    ReplyIsAccepted(sent[i], station, None, station, []);
    MatchesTwice(answer, sent, i, j);
    StrayIsStray(mac, sent);
    frames := [stray, answer];
    var none: seq<Frame> := [];
    assert frames[..1] == [stray] && [stray][..0] == none;
    var zero := Tally(0, 0, []);
    assert Swept(none, sent, mac) == zero && Strays(none, sent, mac) == 0;
    CheckedCounts(Counted(zero, stray, mac), stray, sent);
    var one := Swept([stray], sent, mac);
    assert one == Checked(Counted(zero, stray, mac), stray, sent);
    CheckedCounts(Counted(one, answer, mac), answer, sent);
    assert Strays([stray], sent, mac) == 1;
  }

  /**
   * `rejected` is the number of candidates that answer no sent query, for every list of
   * frames - exactly when no address was asked twice.
   */
  lemma RejectedIsExact(sent: seq<Query>, mac: Mac)
    requires OneSender(sent, mac)
    ensures (forall frames :: Rejected(Swept(frames, sent, mac)) == Strays(frames, sent, mac)) <==> DistinctTargets(sent)
  {
    if DistinctTargets(sent) {
      forall frames ensures Rejected(Swept(frames, sent, mac)) == Strays(frames, sent, mac) {
        CountsAddUp(frames, sent, mac);
      }
    } else {
      var i, j :| 0 <= i < j < |sent| && sent[i] == sent[j];
      var frames := DuplicateHidesAStray(sent, mac, i, j);
    }
  }

  // ----- what is recorded

  /** Some frame answered some sent query with this station for this address. */
  predicate Answered(frames: seq<Frame>, sent: seq<Query>, address: Address, station: Mac) {
    exists f, q :: f in frames && q in sent && Says(f, q, address, station)
  }

  predicate Says(frame: Frame, q: Query, address: Address, station: Mac) {
    var r := ParseReply(frame, q);
    r.Some? && r.value.address == address && r.value.mac == station
  }

  predicate Listed(replies: seq<Reply>, address: Address, station: Mac) {
    exists i :: 0 <= i < |replies| && replies[i].address == address && replies[i].mac == station
  }

  predicate Deduplicated(replies: seq<Reply>) {
    forall i, j :: 0 <= i < j < |replies| ==> replies[i].address != replies[j].address || replies[i].mac != replies[j].mac
  }

  lemma NotedRecords(t: Tally, answer: Option<Reply>, address: Address, station: Mac)
    ensures Listed(Noted(t, answer).replies, address, station) <==>
            Listed(t.replies, address, station) || (answer.Some? && answer.value.address == address && answer.value.mac == station)
    ensures Deduplicated(t.replies) ==> Deduplicated(Noted(t, answer).replies)
  {
    if answer.Some? && !Seen(t.replies, answer.value) {
      var more := t.replies + [answer.value];
      assert more[|t.replies|] == answer.value;
      assert forall i :: 0 <= i < |t.replies| ==> more[i] == t.replies[i];
    }
  }

  predicate SaidBy(frame: Frame, sent: seq<Query>, address: Address, station: Mac) {
    exists q :: q in sent && Says(frame, q, address, station)
  }

  lemma {:induction false} CheckedRecords(t: Tally, frame: Frame, sent: seq<Query>, address: Address, station: Mac)
    ensures Listed(Checked(t, frame, sent).replies, address, station) <==>
            Listed(t.replies, address, station) || SaidBy(frame, sent, address, station)
    ensures Deduplicated(t.replies) ==> Deduplicated(Checked(t, frame, sent).replies)
  {
    if sent != [] {
      var init, last := sent[..|sent| - 1], sent[|sent| - 1];
      CheckedRecords(t, frame, init, address, station);
      NotedRecords(Checked(t, frame, init), ParseReply(frame, last), address, station);
      assert sent == init + [last];
      assert SaidBy(frame, sent, address, station) <==> SaidBy(frame, init, address, station) || Says(frame, last, address, station);
    }
  }

  /** The replies are, without repetition, exactly what frames answered about sent queries. */
  lemma {:induction false} RepliesAreExact(frames: seq<Frame>, sent: seq<Query>, mac: Mac, address: Address, station: Mac)
    ensures Listed(Swept(frames, sent, mac).replies, address, station) <==> Answered(frames, sent, address, station)
    ensures Deduplicated(Swept(frames, sent, mac).replies)
  {
    if frames != [] {
      var init, last := frames[..|frames| - 1], frames[|frames| - 1];
      RepliesAreExact(init, sent, mac, address, station);
      CheckedRecords(Counted(Swept(init, sent, mac), last, mac), last, sent, address, station);
      assert frames == init + [last];
      assert Answered(frames, sent, address, station) <==>
             Answered(init, sent, address, station) || SaidBy(last, sent, address, station);
    }
  }

  /** Every recorded reply names an address a request was transmitted for. */
  lemma RecordedWasAsked(frames: seq<Frame>, sent: seq<Query>, mac: Mac, r: Reply)
    requires r in Swept(frames, sent, mac).replies
    ensures exists q :: q in sent && q.targetIp == r.address
  {
    RepliesAreExact(frames, sent, mac, r.address, r.mac);
    assert Listed(Swept(frames, sent, mac).replies, r.address, r.mac);
    var f, q :| f in frames && q in sent && Says(f, q, r.address, r.mac);
    AcceptedIsReply(f, q);
  }

  // ----- unconfirmed and contested

  function Asked(sent: seq<Query>): (r: seq<Address>)
    ensures |r| == |sent| && forall i :: 0 <= i < |r| ==> r[i] == sent[i].targetIp
  {
    seq(|sent|, i requires 0 <= i < |sent| => sent[i].targetIp)
  }

  predicate Confirmed(replies: seq<Reply>, address: Address) {
    exists i :: 0 <= i < |replies| && replies[i].address == address
  }

  /** `unconfirmed`. */
  function Unconfirmed(asked: seq<Address>, replies: seq<Reply>): seq<Address> {
    if asked == [] then []
    else if Confirmed(replies, asked[0]) then Unconfirmed(asked[1..], replies)
    else [asked[0]] + Unconfirmed(asked[1..], replies)
  }

  lemma {:induction false} UnconfirmedHas(asked: seq<Address>, replies: seq<Reply>, address: Address)
    ensures address in Unconfirmed(asked, replies) <==> address in asked && !Confirmed(replies, address)
  {
    if asked != [] {
      UnconfirmedHas(asked[1..], replies, address);
    }
  }

  /** Unconfirmed are exactly the addresses asked for which no frame was an answer. */
  lemma UnconfirmedIsSilent(frames: seq<Frame>, sent: seq<Query>, mac: Mac, address: Address)
    ensures address in Unconfirmed(Asked(sent), Swept(frames, sent, mac).replies) <==>
            address in Asked(sent) && forall f, q :: f in frames && q in sent && q.targetIp == address ==> ParseReply(f, q).None?
  {
    var replies := Swept(frames, sent, mac).replies;
    UnconfirmedHas(Asked(sent), replies, address);
    if Confirmed(replies, address) {
      var i :| 0 <= i < |replies| && replies[i].address == address;
      RepliesAreExact(frames, sent, mac, address, replies[i].mac);
      assert Listed(replies, address, replies[i].mac);
      var f, q :| f in frames && q in sent && Says(f, q, address, replies[i].mac);
      AcceptedIsReply(f, q);
      assert q.targetIp == address;
    }
    forall f, q | f in frames && q in sent && q.targetIp == address && ParseReply(f, q).Some?
      ensures Confirmed(replies, address)
    {
      var r := ParseReply(f, q).value;
      AcceptedIsReply(f, q);
      assert Says(f, q, address, r.mac);
      RepliesAreExact(frames, sent, mac, address, r.mac);
      assert Listed(replies, address, r.mac);
    }
  }

  datatype Group = Group(address: Address, macs: seq<Mac>)

  /** The stations that answered for an address, in the order they were recorded. */
  function MacsOf(replies: seq<Reply>, address: Address): seq<Mac> {
    if replies == [] then []
    else
      var r := replies[|replies| - 1];
      MacsOf(replies[..|replies| - 1], address) + if r.address == address then [r.mac] else []
  }

  /** One group per address that answered, with all its stations. */
  ghost predicate GroupsOf(groups: seq<Group>, replies: seq<Reply>) {
    && (forall i, j :: 0 <= i < j < |groups| ==> groups[i].address != groups[j].address)
    && (forall i :: 0 <= i < |groups| ==> groups[i].macs == MacsOf(replies, groups[i].address) && groups[i].macs != [])
    && forall a: Address :: MacsOf(replies, a) != [] ==> HasGroup(groups, a)
  }

  predicate HasGroup(groups: seq<Group>, address: Address) {
    exists i :: 0 <= i < |groups| && groups[i].address == address
  }

  lemma MacsOfNext(replies: seq<Reply>, i: nat)
    requires i < |replies|
    ensures forall a: Address :: MacsOf(replies[..i + 1], a) ==
                                 MacsOf(replies[..i], a) + if replies[i].address == a then [replies[i].mac] else []
  {
    assert replies[..i + 1][..i] == replies[..i];
  }

  /** `grouped.iter_mut().find(...)`. */
  method FindGroup(groups: seq<Group>, address: Address) returns (k: nat)
    ensures k <= |groups|
    ensures k < |groups| ==> groups[k].address == address
    ensures k == |groups| ==> !HasGroup(groups, address)
  {
    k := 0;
    while k < |groups| && groups[k].address != address
      invariant k <= |groups| && forall i :: 0 <= i < k ==> groups[i].address != address
    {
      k := k + 1;
    }
  }

  lemma GroupJoined(groups: seq<Group>, replies: seq<Reply>, r: Reply, k: nat, next: seq<Reply>)
    requires GroupsOf(groups, replies) && k < |groups| && groups[k].address == r.address
    requires forall a: Address :: MacsOf(next, a) == MacsOf(replies, a) + if r.address == a then [r.mac] else []
    ensures GroupsOf(groups[k := Group(r.address, groups[k].macs + [r.mac])], next)
  {
    var after := groups[k := Group(r.address, groups[k].macs + [r.mac])];
    forall i | 0 <= i < |after| ensures after[i].macs == MacsOf(next, after[i].address) && after[i].macs != [] {
      assert groups[i].macs == MacsOf(replies, groups[i].address) && groups[i].macs != [];
    }
    forall a: Address | MacsOf(next, a) != [] ensures HasGroup(after, a) {
      if a == r.address {
        assert after[k].address == a;
      } else {
        var i :| 0 <= i < |groups| && groups[i].address == a;
        assert after[i].address == a;
      }
    }
  }

  lemma GroupAdded(groups: seq<Group>, replies: seq<Reply>, r: Reply, next: seq<Reply>)
    requires GroupsOf(groups, replies) && !HasGroup(groups, r.address)
    requires forall a: Address :: MacsOf(next, a) == MacsOf(replies, a) + if r.address == a then [r.mac] else []
    ensures GroupsOf(groups + [Group(r.address, [r.mac])], next)
  {
    var after := groups + [Group(r.address, [r.mac])];
    assert MacsOf(replies, r.address) == [];
    forall i | 0 <= i < |after| ensures after[i].macs == MacsOf(next, after[i].address) && after[i].macs != [] {
      if i < |groups| {
        assert groups[i].macs == MacsOf(replies, groups[i].address) && groups[i].macs != [];
      }
    }
    forall a: Address | MacsOf(next, a) != [] ensures HasGroup(after, a) {
      if a == r.address {
        assert after[|groups|].address == a;
      } else {
        var i :| 0 <= i < |groups| && groups[i].address == a;
        assert after[i].address == a;
      }
    }
  }

  /** Keeps the groups with more than one station. */
  predicate Retained(kept: seq<Group>, groups: seq<Group>) {
    && (forall i :: 0 <= i < |kept| ==> kept[i] in groups && |kept[i].macs| > 1)
    && (forall i :: 0 <= i < |groups| && |groups[i].macs| > 1 ==> groups[i] in kept)
    && forall i, j :: 0 <= i < j < |kept| ==> kept[i].address != kept[j].address
  }

  method Retain(groups: seq<Group>) returns (kept: seq<Group>)
    requires forall i, j :: 0 <= i < j < |groups| ==> groups[i].address != groups[j].address
    ensures Retained(kept, groups)
  {
    kept := [];
    for i := 0 to |groups|
      invariant forall j :: 0 <= j < |kept| ==> kept[j] in groups[..i] && |kept[j].macs| > 1
      invariant forall j :: 0 <= j < i && |groups[j].macs| > 1 ==> groups[j] in kept
      invariant forall j, k :: 0 <= j < k < |kept| ==> kept[j].address != kept[k].address
    {
      if |groups[i].macs| > 1 {
        kept := kept + [groups[i]];
      }
    }
  }

  /** Exactly the addresses with more than one answer, once each, with all their stations in order. */
  ghost predicate ListsContested(kept: seq<Group>, replies: seq<Reply>) {
    && (forall i :: 0 <= i < |kept| ==> kept[i].macs == MacsOf(replies, kept[i].address) && |kept[i].macs| > 1)
    && (forall a: Address :: |MacsOf(replies, a)| > 1 ==> HasGroup(kept, a))
    && forall i, j :: 0 <= i < j < |kept| ==> kept[i].address != kept[j].address
  }

  lemma RetainedIsContested(kept: seq<Group>, groups: seq<Group>, replies: seq<Reply>)
    requires GroupsOf(groups, replies) && Retained(kept, groups)
    ensures ListsContested(kept, replies)
  {
    forall a: Address | |MacsOf(replies, a)| > 1 ensures HasGroup(kept, a) {
      var i :| 0 <= i < |groups| && groups[i].address == a;
      assert groups[i] in kept;
      var j :| 0 <= j < |kept| && kept[j] == groups[i];
      assert kept[j].address == a;
    }
  }

  /** `contested`. */
  method Contested(replies: seq<Reply>) returns (kept: seq<Group>)
    ensures ListsContested(kept, replies)
  {
    var groups: seq<Group> := [];
    for i := 0 to |replies|
      invariant GroupsOf(groups, replies[..i])
    {
      var r := replies[i];
      MacsOfNext(replies, i);
      var k := FindGroup(groups, r.address);
      if k < |groups| {
        GroupJoined(groups, replies[..i], r, k, replies[..i + 1]);
        groups := groups[k := Group(r.address, groups[k].macs + [r.mac])];
      } else {
        GroupAdded(groups, replies[..i], r, replies[..i + 1]);
        groups := groups + [Group(r.address, [r.mac])];
      }
    }
    assert replies[..|replies|] == replies;
    kept := Retain(groups);
    RetainedIsContested(kept, groups, replies);
  }

  predicate Distinct(macs: seq<Mac>) {
    forall i, j :: 0 <= i < j < |macs| ==> macs[i] != macs[j]
  }

  lemma {:induction false} MacsOfHas(replies: seq<Reply>, address: Address, station: Mac)
    ensures station in MacsOf(replies, address) <==> Listed(replies, address, station)
  {
    if replies != [] {
      var init := replies[..|replies| - 1];
      MacsOfHas(init, address, station);
      assert forall i :: 0 <= i < |init| ==> init[i] == replies[i];
      if Listed(init, address, station) {
        var i :| 0 <= i < |init| && init[i].address == address && init[i].mac == station;
        assert replies[i].address == address && replies[i].mac == station;
      }
    }
  }

  lemma {:induction false} MacsOfDistinct(replies: seq<Reply>, address: Address)
    requires Deduplicated(replies)
    ensures Distinct(MacsOf(replies, address))
  {
    if replies != [] {
      var init, r := replies[..|replies| - 1], replies[|replies| - 1];
      MacsOfDistinct(init, address);
      MacsOfHas(init, address, r.mac);
    }
  }

  /**
   * What a sweep contests: an address is listed exactly when two different stations answered
   * for it, and its list holds exactly the stations that did, each once.
   */
  lemma ContestedIsExact(frames: seq<Frame>, sent: seq<Query>, mac: Mac, kept: seq<Group>, address: Address)
    requires ListsContested(kept, Swept(frames, sent, mac).replies)
    ensures HasGroup(kept, address) <==>
            exists a: Mac, b: Mac :: a != b && Answered(frames, sent, address, a) && Answered(frames, sent, address, b)
    ensures forall i :: 0 <= i < |kept| ==>
              && Distinct(kept[i].macs)
              && forall station: Mac :: station in kept[i].macs <==> Answered(frames, sent, kept[i].address, station)
  {
    var replies := Swept(frames, sent, mac).replies;
    forall a: Address, m: Mac ensures m in MacsOf(replies, a) <==> Answered(frames, sent, a, m) {
      MacsOfHas(replies, a, m);
      RepliesAreExact(frames, sent, mac, a, m);
    }
    forall a: Address ensures Distinct(MacsOf(replies, a)) {
      RepliesAreExact(frames, sent, mac, a, [0, 0, 0, 0, 0, 0]);
      MacsOfDistinct(replies, a);
    }
    var macs := MacsOf(replies, address);
    if |macs| > 1 {
      assert macs[0] != macs[1] && macs[0] in macs && macs[1] in macs;
    }
    if a: Mac, b: Mac :| a != b && a in macs && b in macs {
      assert |macs| > 1;
    }
  }
}
