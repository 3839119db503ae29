/**
 * The mailbox protocol over the relay's queue (src/federation/relay.rs:184-347): connections
 * prove an identity, and every mailbox is derived from proven identities.
 */
module RelayProtocol {
  import opened Bytes
  import opened Hex
  import opened Outcomes
  import opened Relay

  /** "idnx-relay-mailbox-v1", "->" and "idnx-relay-challenge-v1\n". */
  const MAILBOX_TAG: Text := [105, 100, 110, 120, 45, 114, 101, 108, 97, 121, 45, 109, 97, 105, 108, 98, 111, 120, 45, 118, 49]
  const ARROW: Text := [45, 62]
  const CHALLENGE_TAG: Text := [105, 100, 110, 120, 45, 114, 101, 108, 97, 121, 45, 99, 104, 97, 108, 108, 101, 110, 103, 101, 45, 118, 49, 10]

  /** `mailbox`: where `from` leaves envelopes for `to`, given the digest. */
  function Mailbox(digest: seq<Byte> -> seq<Byte>, from: PeerId, to: PeerId): Text {
    Encoded(digest(MAILBOX_TAG + from.ToHex() + ARROW + to.ToHex()))
  }

  function Challenge(nonce: seq<Byte>): seq<Byte> {
    CHALLENGE_TAG + nonce
  }

  ghost predicate Injective(digest: seq<Byte> -> seq<Byte>) {
    forall a, b :: digest(a) == digest(b) ==> a == b
  }

  /** The curve, the signature check and the naming of mailboxes. */
  datatype Env = Env(onCurve: seq<Byte> -> bool,
                     verify: (PeerId, seq<Byte>, seq<Byte>) -> bool,
                     mailbox: (PeerId, PeerId) -> Text)

  /** A mailbox belongs to one ordered pair of peers. */
  ghost predicate Apart(env: Env) {
    forall a: PeerId, b: PeerId, c: PeerId, d: PeerId ::
      a.Valid(env.onCurve) && b.Valid(env.onCurve) && c.Valid(env.onCurve) && d.Valid(env.onCurve) ==>
      env.mailbox(a, b) == env.mailbox(c, d) ==> a == c && b == d
  }

  lemma MailboxInjective(digest: seq<Byte> -> seq<Byte>, a: PeerId, b: PeerId, c: PeerId, d: PeerId)
    requires Injective(digest)
    requires |a.key| == |b.key| == |c.key| == |d.key| == 32
    requires Mailbox(digest, a, b) == Mailbox(digest, c, d)
    ensures a == c && b == d
  {
    var x, y := MAILBOX_TAG + a.ToHex() + ARROW + b.ToHex(), MAILBOX_TAG + c.ToHex() + ARROW + d.ToHex();
    EncodedInjective(digest(x), digest(y));
    var n := |MAILBOX_TAG|;
    assert a.ToHex() == x[n..n + 64] == y[n..n + 64] == c.ToHex();
    assert b.ToHex() == x[n + 64 + |ARROW|..] == y[n + 64 + |ARROW|..] == d.ToHex();
    ToHexInjective(a, c);
    ToHexInjective(b, d);
  }

  /** Names derived through a digest without collisions keep every pair of peers apart. */
  lemma DerivedMailboxesAreApart(env: Env, digest: seq<Byte> -> seq<Byte>)
    requires Injective(digest)
    requires forall a, b :: env.mailbox(a, b) == Mailbox(digest, a, b)
    ensures Apart(env)
  {
    forall a: PeerId, b: PeerId, c: PeerId, d: PeerId |
      a.Valid(env.onCurve) && b.Valid(env.onCurve) && c.Valid(env.onCurve) && d.Valid(env.onCurve) &&
      env.mailbox(a, b) == env.mailbox(c, d)
      ensures a == c && b == d
    {
      MailboxInjective(digest, a, b, c, d);
    }
  }

  datatype Request =
    | Authenticate(peer: Text, signature: Text)
    | Deposit(to: Text, envelope: Text)
    | Collect(from: Text)

  datatype Response = Authenticated | Accepted | Envelopes(envelopes: seq<Text>) | Refused(error: RelayError)

  /** One connection: its challenge, and the identity it has proved. */
  datatype Conn = Conn(nonce: seq<Byte>, identity: Option<PeerId>)

  /** Whether a request proves an identity against this connection's own challenge. */
  function Proves(env: Env, conn: Conn, peer: Text, signature: Text): Option<PeerId> {
    match (PeerFromHex(peer, env.onCurve), Decoded(signature))
    case (Some(id), Some(bytes)) =>
      if |bytes| == 64 && env.verify(id, Challenge(conn.nonce), bytes) then Some(id) else None
    case _ => None
  }

  function Hexed(q: seq<seq<Byte>>): (r: seq<Text>)
    ensures |r| == |q| && forall i :: 0 <= i < |q| ==> r[i] == Encoded(q[i])
  {
    seq(|q|, i requires 0 <= i < |q| => Encoded(q[i]))
  }

  /** `handle`: what a request may do to its connection and to the queue, and what is answered. */
  ghost predicate Handles(env: Env, conn: Conn, request: Request, boxes: Boxes, now: nat, stamp: nat,
                          after: Conn, left: Boxes, response: Response)
  {
    match request
    case Authenticate(peer, signature) =>
      var id := Proves(env, conn, peer, signature);
      && left == boxes
      && (if id.Some? then after == conn.(identity := id) && response == Authenticated
          else after == conn && response == Refused(Unauthenticated))
    case Deposit(to, envelope) =>
      && after == conn
      && (match (conn.identity, PeerFromHex(to, env.onCurve), Decoded(envelope))
          case (Some(author), Some(peer), Some(bytes)) =>
            exists result :: Deposits(boxes, env.mailbox(author, peer), bytes, now, stamp, left, result) &&
                             response == (if result.Ok? then Accepted else Refused(result.error))
          case _ => left == boxes && response == Refused(Unauthenticated))
    case Collect(from) =>
      && after == conn
      && match (conn.identity, PeerFromHex(from, env.onCurve))
         case (Some(to), Some(peer)) =>
           && left == Expired(boxes, now) - {env.mailbox(peer, to)}
           && response == Envelopes(Hexed(Payloads(At(Expired(boxes, now), env.mailbox(peer, to)))))
         case _ => left == boxes && response == Refused(Unauthenticated)
  }

  class RelayClient {
    const nonce: seq<Byte>
    var identity: Option<PeerId>

    ghost function Contents(): Conn
      reads this
    {
      Conn(nonce, identity)
    }

    constructor (nonce: seq<Byte>)
      ensures Contents() == Conn(nonce, None)
    {
      this.nonce := nonce;
      identity := None;
    }

    method Handle(env: Env, request: Request, queue: RelayQueue, now: nat, stamp: nat) returns (response: Response)
      requires queue.Valid() && queue.clock <= now <= stamp
      modifies this, queue
      ensures queue.Valid() && queue.clock <= stamp
      ensures Handles(env, old(Contents()), request, old(queue.mailboxes), now, stamp,
                      Contents(), queue.mailboxes, response)
    {
      match request {
        case Authenticate(peer, signature) =>
          var id := Proves(env, Conn(nonce, identity), peer, signature);
          if id.None? {
            return Refused(Unauthenticated);
          }
          identity := id;
          return Authenticated;
        case Deposit(to, envelope) =>
          var peer, bytes := PeerFromHex(to, env.onCurve), Decoded(envelope);
          if identity.None? || peer.None? || bytes.None? {
            return Refused(Unauthenticated);
          }
          var result := queue.DepositEnvelope(env.mailbox(identity.value, peer.value), bytes.value, now, stamp);
          return if result.Ok? then Accepted else Refused(result.error);
        case Collect(from) =>
          var peer := PeerFromHex(from, env.onCurve);
          if identity.None? || peer.None? {
            return Refused(Unauthenticated);
          }
          var envelopes := queue.CollectFrom(env.mailbox(peer.value, identity.value), now);
          return Envelopes(Hexed(envelopes));
      }
    }
  }

  // ----- many connections

  /** An accepted deposit: who the depositing connection had proved to be, for whom, and the text sent. */
  datatype Entry = Entry(author: PeerId, to: PeerId, text: Text)

  /** One envelope given out: the deposit it came from, the text given, and to whom for whom. */
  datatype Handing = Handing(entry: nat, text: Text, to: PeerId, from: PeerId)

  /** The relay's queue with its log (each deposit tagged by its number), and every connection. */
  datatype System = System(history: History<nat>, conns: map<nat, Conn>, accepted: seq<Entry>, handed: seq<Handing>)

  datatype Event =
    | Connect(conn: nat, nonce: seq<Byte>)
    | Ask(conn: nat, request: Request, now: nat, stamp: nat)

  const START := System(History(map[], 0, map[]), map[], [], [])

  /** What a collect hands out of the mailbox `q`, paired with the deposits it came from. */
  function HandedOut(q: seq<Held>, log: seq<Tagged<nat>>, to: PeerId, from: PeerId): (r: seq<Handing>)
    ensures |q| <= |log| ==> |r| == |q|
  {
    if |q| > |log| then [] else
    seq(|q|, i requires 0 <= i < |q| => Handing(log[|log| - |q| + i].tag, Encoded(q[i].bytes), to, from))
  }

  function DepositOp(s: System, env: Env, author: PeerId, to: PeerId, bytes: seq<Byte>, now: nat, stamp: nat): Op<nat> {
    Relay.Deposit(env.mailbox(author, to), bytes, |s.accepted|, now, stamp)
  }

  /** The queue handles a deposit; if it is accepted, the deposit is numbered and logged. */
  ghost predicate Deposited(s: System, env: Env, author: PeerId, to: PeerId, text: Text, bytes: seq<Byte>,
                            now: nat, stamp: nat, result: Result<(), RelayError>, t: System)
  {
    && DepositLogged(s.history, DepositOp(s, env, author, to, bytes, now, stamp), t.history, result)
    && t == System(t.history.(clock := stamp), s.conns,
                   if result.Ok? then s.accepted + [Entry(author, to, text)] else s.accepted, s.handed)
  }

  /** The queue empties a mailbox, and what was in it is handed out. */
  function Collected(s: System, env: Env, to: PeerId, from: PeerId, now: nat): System {
    var m := env.mailbox(from, to);
    s.(history := History(Expired(s.history.boxes, now) - {m}, now, s.history.log - {m}),
       handed := s.handed + HandedOut(At(Expired(s.history.boxes, now), m), LogAt(s.history, m), to, from))
  }

  /** One request on one connection. Requests that are refused unauthenticated change nothing. */
  ghost predicate Asked(s: System, env: Env, c: nat, request: Request, now: nat, stamp: nat, t: System)
    requires c in s.conns
  {
    var conn := s.conns[c];
    match request
    case Authenticate(peer, signature) =>
      var id := Proves(env, conn, peer, signature);
      t == s.(conns := s.conns[c := if id.Some? then conn.(identity := id) else conn])
    case Deposit(to, text) =>
      (match (conn.identity, PeerFromHex(to, env.onCurve), Decoded(text))
       case (Some(author), Some(peer), Some(bytes)) =>
         exists result :: Deposited(s, env, author, peer, text, bytes, now, stamp, result, t)
       case _ => t == s)
    case Collect(from) =>
      (match (conn.identity, PeerFromHex(from, env.onCurve))
       case (Some(to), Some(peer)) => t == Collected(s, env, to, peer, now)
       case _ => t == s)
  }

  ghost predicate Next(s: System, env: Env, event: Event, t: System) {
    match event
    case Connect(c, nonce) => c !in s.conns && t == s.(conns := s.conns[c := Conn(nonce, None)])
    case Ask(c, request, now, stamp) =>
      c in s.conns && s.history.clock <= now <= stamp && Asked(s, env, c, request, now, stamp, t)
  }

  /** What a connection's `handle` does to itself and the queue is a step of the system. */
  lemma HandleIsAStep(s: System, env: Env, c: nat, request: Request, now: nat, stamp: nat,
                      after: Conn, left: Boxes, response: Response) returns (t: System)
    requires c in s.conns && s.history.clock <= now <= stamp
    requires Handles(env, s.conns[c], request, s.history.boxes, now, stamp, after, left, response)
    ensures Next(s, env, Ask(c, request, now, stamp), t)
    ensures t.history.boxes == left && t.conns == s.conns[c := after]
    ensures Answers(s, env, c, request, now, response, t)
  {
    t := s;
    match request
    case Authenticate(_, _) => t := s.(conns := s.conns[c := after]);
    case Deposit(to, text) =>
      if s.conns[c].identity.Some? && PeerFromHex(to, env.onCurve).Some? && Decoded(text).Some? {
        t := DepositIsAStep(s, env, c, to, text, now, stamp, after, left, response);
      }
    case Collect(from) =>
      if s.conns[c].identity.Some? && PeerFromHex(from, env.onCurve).Some? {
        t := Collected(s, env, s.conns[c].identity.value, PeerFromHex(from, env.onCurve).value, now);
      }
  }

  lemma DepositIsAStep(s: System, env: Env, c: nat, to: Text, text: Text, now: nat, stamp: nat,
                       after: Conn, left: Boxes, response: Response) returns (t: System)
    requires c in s.conns && s.conns[c].identity.Some? && PeerFromHex(to, env.onCurve).Some? && Decoded(text).Some?
    requires Handles(env, s.conns[c], Request.Deposit(to, text), s.history.boxes, now, stamp, after, left, response)
    ensures Asked(s, env, c, Request.Deposit(to, text), now, stamp, t)
    ensures t.history.boxes == left && t.conns == s.conns && after == s.conns[c]
    ensures Answers(s, env, c, Request.Deposit(to, text), now, response, t)
  {
    var author, peer, bytes := s.conns[c].identity.value, PeerFromHex(to, env.onCurve).value, Decoded(text).value;
    var result :| Deposits(s.history.boxes, env.mailbox(author, peer), bytes, now, stamp, left, result) &&
                  response == (if result.Ok? then Accepted else Refused(result.error));
    t := DepositedSystem(s, env, author, peer, text, bytes, stamp, left, result.Ok?);
    assert Deposited(s, env, author, peer, text, bytes, now, stamp, result, t);
  }

  /** An answer tells what was logged: a deposit exactly when accepted, a handing per envelope returned. */
  ghost predicate Answers(s: System, env: Env, c: nat, request: Request, now: nat, response: Response, t: System)
    requires c in s.conns
  {
    && t.accepted == (if response == Accepted && request.Deposit? && s.conns[c].identity.Some? && PeerFromHex(request.to, env.onCurve).Some?
                      then s.accepted + [Entry(s.conns[c].identity.value, PeerFromHex(request.to, env.onCurve).value, request.envelope)]
                      else s.accepted)
    && (!response.Envelopes? ==> t.handed == s.handed)
    && (response.Envelopes? ==>
          request.Collect? && s.conns[c].identity.Some? && PeerFromHex(request.from, env.onCurve).Some? &&
          var to, from := s.conns[c].identity.value, PeerFromHex(request.from, env.onCurve).value;
          var m := env.mailbox(from, to);
          var q := At(Expired(s.history.boxes, now), m);
          response.envelopes == Hexed(Payloads(q)) && t.handed == s.handed + HandedOut(q, LogAt(s.history, m), to, from))
  }

  /** While the queue holds, every envelope returned is one handing, with the same text. */
  lemma ReturnedAreHanded(h: History<nat>, m: Text, now: nat, to: PeerId, from: PeerId)
    requires Holds(h) && h.clock <= now
    ensures var q := At(Expired(h.boxes, now), m);
            var out := HandedOut(q, LogAt(h, m), to, from);
            && |out| == |Hexed(Payloads(q))|
            && forall i :: 0 <= i < |out| ==> out[i].text == Hexed(Payloads(q))[i]
  {
    WaitingIsLogged(h, m, now);
  }

  function DepositedSystem(s: System, env: Env, author: PeerId, to: PeerId, text: Text, bytes: seq<Byte>,
                           stamp: nat, left: Boxes, ok: bool): System
  {
    var m := env.mailbox(author, to);
    System(History(left, stamp, if ok then s.history.log[m := LogAt(s.history, m) + [Tagged(Held(bytes, stamp), |s.accepted|)]]
                                else s.history.log),
           s.conns, if ok then s.accepted + [Entry(author, to, text)] else s.accepted, s.handed)
  }

  ghost predicate IsRun(run: seq<System>, env: Env, events: seq<Event>) {
    && |run| == |events| + 1 && run[0] == START
    && forall i :: 0 <= i < |events| ==> Stepped(run, env, events, i)
  }

  ghost predicate Stepped(run: seq<System>, env: Env, events: seq<Event>, i: nat)
    requires i < |events| < |run|
  {
    Next(run[i], env, events[i], run[i + 1])
  }

  // ----- what every step keeps

  ghost predicate Proved(conn: Conn, env: Env) {
    conn.identity.Some? ==>
      && conn.identity.value.Valid(env.onCurve)
      && exists signature :: env.verify(conn.identity.value, Challenge(conn.nonce), signature)
  }

  ghost predicate ConnsProved(conns: map<nat, Conn>, env: Env) {
    forall c :: c in conns ==> Proved(conns[c], env)
  }

  predicate EntriesValid(accepted: seq<Entry>, env: Env) {
    forall i :: 0 <= i < |accepted| ==> accepted[i].author.Valid(env.onCurve) && accepted[i].to.Valid(env.onCurve)
  }

  type Log = map<Text, seq<Tagged<nat>>>

  /** A logged envelope is the deposit its tag names, in that deposit's mailbox. */
  predicate IsDeposit(accepted: seq<Entry>, env: Env, m: Text, e: Tagged<nat>) {
    && e.tag < |accepted|
    && env.mailbox(accepted[e.tag].author, accepted[e.tag].to) == m
    && Decoded(accepted[e.tag].text) == Some(e.held.bytes)
  }

  predicate AreDeposits(accepted: seq<Entry>, env: Env, m: Text, q: seq<Tagged<nat>>) {
    && (forall i :: 0 <= i < |q| ==> IsDeposit(accepted, env, m, q[i]))
    && (forall i, j :: 0 <= i < j < |q| ==> q[i].tag < q[j].tag)
  }

  predicate LogIsDeposits(log: Log, accepted: seq<Entry>, env: Env) {
    forall m :: m in log ==> AreDeposits(accepted, env, m, log[m])
  }

  /** What was handed to `to` for `from` was deposited by `from` for `to`, and is its text up to case. */
  predicate Rightful(h: Handing, accepted: seq<Entry>) {
    && h.entry < |accepted|
    && accepted[h.entry].author == h.from && accepted[h.entry].to == h.to
    && h.text == Lower(accepted[h.entry].text)
  }

  predicate AllRightful(handed: seq<Handing>, accepted: seq<Entry>) {
    forall i :: 0 <= i < |handed| ==> Rightful(handed[i], accepted)
  }

  predicate HandedOnce(handed: seq<Handing>) {
    forall i, j :: 0 <= i < j < |handed| ==> handed[i].entry != handed[j].entry
  }

  predicate TagIn(q: seq<Tagged<nat>>, tag: nat) {
    exists i :: 0 <= i < |q| && q[i].tag == tag
  }

  /** Nothing handed out is still logged as waiting. */
  predicate HandedIsGone(handed: seq<Handing>, log: Log) {
    forall i, m :: 0 <= i < |handed| && m in log ==> !TagIn(log[m], handed[i].entry)
  }

  predicate Books(log: Log, accepted: seq<Entry>, handed: seq<Handing>, env: Env) {
    && EntriesValid(accepted, env) && LogIsDeposits(log, accepted, env)
    && AllRightful(handed, accepted) && HandedOnce(handed) && HandedIsGone(handed, log)
  }

  // ----- the books over a deposit and a collect

  lemma LoggedDeposits(log: Log, accepted: seq<Entry>, env: Env, entry: Entry, held: Held)
    requires LogIsDeposits(log, accepted, env) && Decoded(entry.text) == Some(held.bytes)
    ensures var m := env.mailbox(entry.author, entry.to);
            LogIsDeposits(log[m := (if m in log then log[m] else []) + [Tagged(held, |accepted|)]], accepted + [entry], env)
  {
    var m, more := env.mailbox(entry.author, entry.to), accepted + [entry];
    forall k | k in log ensures AreDeposits(more, env, k, log[k]) {
      assert forall i :: 0 <= i < |log[k]| ==> IsDeposit(accepted, env, k, log[k][i]);
    }
    assert IsDeposit(more, env, m, Tagged(held, |accepted|));
    var past := if m in log then log[m] else [];
    assert AreDeposits(accepted, env, m, past);
    assert AreDeposits(more, env, m, past + [Tagged(held, |accepted|)]);
  }

  lemma LoggedLeavesHandedGone(log: Log, accepted: seq<Entry>, handed: seq<Handing>, m: Text, held: Held)
    requires AllRightful(handed, accepted) && HandedIsGone(handed, log)
    ensures HandedIsGone(handed, log[m := (if m in log then log[m] else []) + [Tagged(held, |accepted|)]])
  {
    var past := if m in log then log[m] else [];
    forall i | 0 <= i < |handed| ensures !TagIn(past + [Tagged(held, |accepted|)], handed[i].entry) {
      assert Rightful(handed[i], accepted);
      if m in log {
        assert !TagIn(log[m], handed[i].entry);
      }
    }
  }

  lemma BooksAfterDeposit(log: Log, accepted: seq<Entry>, handed: seq<Handing>, env: Env, entry: Entry, held: Held)
    requires Books(log, accepted, handed, env)
    requires entry.author.Valid(env.onCurve) && entry.to.Valid(env.onCurve) && Decoded(entry.text) == Some(held.bytes)
    ensures var m := env.mailbox(entry.author, entry.to);
            Books(log[m := (if m in log then log[m] else []) + [Tagged(held, |accepted|)]], accepted + [entry], handed, env)
  {
    LoggedDeposits(log, accepted, env, entry, held);
    LoggedLeavesHandedGone(log, accepted, handed, env.mailbox(entry.author, entry.to), held);
    forall i | 0 <= i < |handed| ensures Rightful(handed[i], accepted + [entry]) {
      assert Rightful(handed[i], accepted);
    }
  }

  lemma OneIsRightful(accepted: seq<Entry>, env: Env, to: PeerId, from: PeerId, e: Tagged<nat>)
    requires Apart(env) && EntriesValid(accepted, env) && to.Valid(env.onCurve) && from.Valid(env.onCurve)
    requires IsDeposit(accepted, env, env.mailbox(from, to), e)
    ensures Rightful(Handing(e.tag, Encoded(e.held.bytes), to, from), accepted)
  {
    EncodeDecode(accepted[e.tag].text);
  }

  /** What a collect hands out is rightful: mailbox, bytes and order all come from the log. */
  lemma HandedOutIsRightful(q: seq<Held>, log: seq<Tagged<nat>>, accepted: seq<Entry>, to: PeerId, from: PeerId)
    requires IsSuffix(q, Untagged(log))
    requires forall i :: 0 <= i < |log| ==> Rightful(Handing(log[i].tag, Encoded(log[i].held.bytes), to, from), accepted)
    ensures AllRightful(HandedOut(q, log, to, from), accepted)
  {
    var out := HandedOut(q, log, to, from);
    forall i | 0 <= i < |out| ensures Rightful(out[i], accepted) {
      var e := log[|log| - |q| + i];
      assert q[i] == Untagged(log)[|log| - |q| + i] == e.held;
    }
  }

  lemma HandedOutOnce(q: seq<Held>, log: seq<Tagged<nat>>, to: PeerId, from: PeerId)
    requires |q| <= |log| && forall i, j :: 0 <= i < j < |log| ==> log[i].tag < log[j].tag
    ensures HandedOnce(HandedOut(q, log, to, from))
    ensures forall h :: h in HandedOut(q, log, to, from) ==> TagIn(log, h.entry)
  {
    var out := HandedOut(q, log, to, from);
    forall h | h in out ensures TagIn(log, h.entry) {
      var i :| 0 <= i < |out| && out[i] == h;
      assert log[|log| - |q| + i].tag == h.entry;
    }
  }

  lemma JoinedOnce(handed: seq<Handing>, out: seq<Handing>, log: Log, m: Text)
    requires HandedOnce(handed) && HandedOnce(out) && HandedIsGone(handed, log)
    requires forall h :: h in out ==> m in log && TagIn(log[m], h.entry)
    ensures HandedOnce(handed + out)
  {
    forall i, j | 0 <= i < j < |handed + out| ensures (handed + out)[i].entry != (handed + out)[j].entry {
      if i < |handed| <= j {
        assert out[j - |handed|] in out;
        assert !TagIn(log[m], handed[i].entry);
      }
    }
  }

  lemma OneMailboxPerTag(log: Log, accepted: seq<Entry>, env: Env, m: Text, k: Text, tag: nat)
    requires LogIsDeposits(log, accepted, env) && m in log && k in log && k != m
    requires TagIn(log[m], tag)
    ensures !TagIn(log[k], tag)
  {
    var i :| 0 <= i < |log[m]| && log[m][i].tag == tag;
    assert IsDeposit(accepted, env, m, log[m][i]);
    forall j | 0 <= j < |log[k]| ensures log[k][j].tag != tag {
      assert IsDeposit(accepted, env, k, log[k][j]);
    }
  }

  lemma JoinedIsGone(handed: seq<Handing>, out: seq<Handing>, log: Log, accepted: seq<Entry>, env: Env, m: Text)
    requires HandedIsGone(handed, log) && LogIsDeposits(log, accepted, env)
    requires forall h :: h in out ==> m in log && TagIn(log[m], h.entry)
    ensures HandedIsGone(handed + out, log - {m})
  {
    forall i, k | 0 <= i < |handed + out| && k in log - {m} ensures !TagIn(log[k], (handed + out)[i].entry) {
      if i < |handed| {
        assert !TagIn(log[k], handed[i].entry);
      } else {
        assert out[i - |handed|] in out;
        OneMailboxPerTag(log, accepted, env, m, k, out[i - |handed|].entry);
      }
    }
  }

  lemma BooksAfterCollect(log: Log, accepted: seq<Entry>, handed: seq<Handing>, env: Env, q: seq<Held>, to: PeerId, from: PeerId)
    requires Books(log, accepted, handed, env) && Apart(env)
    requires to.Valid(env.onCurve) && from.Valid(env.onCurve)
    requires env.mailbox(from, to) in log && IsSuffix(q, Untagged(log[env.mailbox(from, to)]))
    ensures var m := env.mailbox(from, to);
            Books(log - {m}, accepted, handed + HandedOut(q, log[m], to, from), env)
  {
    var m := env.mailbox(from, to);
    assert AreDeposits(accepted, env, m, log[m]);
    forall i | 0 <= i < |log[m]|
      ensures Rightful(Handing(log[m][i].tag, Encoded(log[m][i].held.bytes), to, from), accepted)
    {
      OneIsRightful(accepted, env, to, from, log[m][i]);
    }
    HandedOutIsRightful(q, log[m], accepted, to, from);
    HandedOutOnce(q, log[m], to, from);
    var out := HandedOut(q, log[m], to, from);
    JoinedOnce(handed, out, log, m);
    JoinedIsGone(handed, out, log, accepted, env, m);
    assert LogIsDeposits(log - {m}, accepted, env);
  }

  lemma BooksAfterAnyCollect(log: Log, accepted: seq<Entry>, handed: seq<Handing>, env: Env, q: seq<Held>, to: PeerId, from: PeerId)
    requires Books(log, accepted, handed, env) && Apart(env)
    requires to.Valid(env.onCurve) && from.Valid(env.onCurve)
    requires var m := env.mailbox(from, to); IsSuffix(q, Untagged(if m in log then log[m] else []))
    ensures var m := env.mailbox(from, to);
            Books(log - {m}, accepted, handed + HandedOut(q, if m in log then log[m] else [], to, from), env)
  {
    var m := env.mailbox(from, to);
    if m in log {
      BooksAfterCollect(log, accepted, handed, env, q, to, from);
    } else {
      assert handed + HandedOut(q, [], to, from) == handed;
      assert log - {m} == log;
    }
  }

  // ----- each kind of step

  ghost predicate Sound(s: System, env: Env) {
    Books(s.history.log, s.accepted, s.handed, env)
  }

  lemma HoldsStep(s: System, env: Env, event: Event, t: System)
    requires Holds(s.history) && Next(s, env, event, t)
    ensures Holds(t.history)
  {
    if event.Ask? {
      var conn := s.conns[event.conn];
      match event.request
      case Authenticate(_, _) =>
      case Deposit(to, text) =>
        if t != s {
          var author, peer, bytes := conn.identity.value, PeerFromHex(to, env.onCurve).value, Decoded(text).value;
          var result :| Deposited(s, env, author, peer, text, bytes, event.now, event.stamp, result, t);
          DepositKeepsHolds(s.history, DepositOp(s, env, author, peer, bytes, event.now, event.stamp), t.history);
        }
      case Collect(from) =>
        if t != s {
          CollectKeepsHolds(s.history, env.mailbox(PeerFromHex(from, env.onCurve).value, conn.identity.value), event.now);
        }
    }
  }

  lemma ConnsStep(s: System, env: Env, event: Event, t: System)
    requires ConnsProved(s.conns, env) && Next(s, env, event, t)
    ensures ConnsProved(t.conns, env)
  {
    if event.Ask? && event.request.Authenticate? {
      var conn := s.conns[event.conn];
      var id := Proves(env, conn, event.request.peer, event.request.signature);
      if id.Some? {
        assert env.verify(id.value, Challenge(conn.nonce), Decoded(event.request.signature).value);
        assert Proved(conn.(identity := id), env);
      }
      assert Proved(t.conns[event.conn], env);
    }
  }

  lemma DepositSound(s: System, env: Env, author: PeerId, to: PeerId, text: Text, bytes: seq<Byte>,
                     now: nat, stamp: nat, result: Result<(), RelayError>, t: System)
    requires Sound(s, env) && author.Valid(env.onCurve) && to.Valid(env.onCurve) && Decoded(text) == Some(bytes)
    requires Deposited(s, env, author, to, text, bytes, now, stamp, result, t)
    ensures Sound(t, env)
  {
    if result.Ok? {
      BooksAfterDeposit(s.history.log, s.accepted, s.handed, env, Entry(author, to, text), Held(bytes, stamp));
    }
  }

  lemma CollectSound(s: System, env: Env, to: PeerId, from: PeerId, now: nat)
    requires Sound(s, env) && Holds(s.history) && s.history.clock <= now && Apart(env)
    requires to.Valid(env.onCurve) && from.Valid(env.onCurve)
    ensures Sound(Collected(s, env, to, from, now), env)
  {
    var m := env.mailbox(from, to);
    WaitingIsLogged(s.history, m, now);
    BooksAfterAnyCollect(s.history.log, s.accepted, s.handed, env, At(Expired(s.history.boxes, now), m), to, from);
  }

  lemma WaitingIsLogged(h: History<nat>, m: Text, now: nat)
    requires Holds(h) && h.clock <= now
    ensures IsSuffix(At(Expired(h.boxes, now), m), Untagged(LogAt(h, m)))
  {
    ExpiryKeepsHolds(h, now);
  }

  lemma SoundStep(s: System, env: Env, event: Event, t: System)
    requires Sound(s, env) && Holds(s.history) && ConnsProved(s.conns, env) && Apart(env) && Next(s, env, event, t)
    ensures Sound(t, env)
  {
    if event.Ask? && t != s {
      match event.request
      case Authenticate(_, _) =>
      case Deposit(to, text) => DepositAskedSound(s, env, event.conn, to, text, event.now, event.stamp, t);
      case Collect(from) => CollectAskedSound(s, env, event.conn, from, event.now, event.stamp, t);
    }
  }

  lemma DepositAskedSound(s: System, env: Env, c: nat, to: Text, text: Text, now: nat, stamp: nat, t: System)
    requires Sound(s, env) && ConnsProved(s.conns, env) && c in s.conns
    requires Asked(s, env, c, Request.Deposit(to, text), now, stamp, t) && t != s
    ensures Sound(t, env)
  {
    assert Proved(s.conns[c], env);
    var author, peer, bytes := s.conns[c].identity.value, PeerFromHex(to, env.onCurve).value, Decoded(text).value;
    var result :| Deposited(s, env, author, peer, text, bytes, now, stamp, result, t);
    DepositSound(s, env, author, peer, text, bytes, now, stamp, result, t);
  }

  lemma CollectAskedSound(s: System, env: Env, c: nat, from: Text, now: nat, stamp: nat, t: System)
    requires Sound(s, env) && Holds(s.history) && s.history.clock <= now && ConnsProved(s.conns, env) && Apart(env)
    requires c in s.conns && Asked(s, env, c, Request.Collect(from), now, stamp, t) && t != s
    ensures Sound(t, env)
  {
    assert Proved(s.conns[c], env);
    CollectSound(s, env, s.conns[c].identity.value, PeerFromHex(from, env.onCurve).value, now);
  }

  lemma {:induction false} RunHoldsAndProves(run: seq<System>, env: Env, events: seq<Event>, i: nat)
    requires IsRun(run, env, events) && i < |run|
    ensures Holds(run[i].history) && ConnsProved(run[i].conns, env)
  {
    if i == 0 {
      assert BoxesBytes(map[]) == 0;
    } else {
      RunHoldsAndProves(run, env, events, i - 1);
      var s, t := RunStep(run, env, events, i - 1);
      HoldsStep(s, env, events[i - 1], t);
      ConnsStep(s, env, events[i - 1], t);
    }
  }

  lemma {:induction false} RunSound(run: seq<System>, env: Env, events: seq<Event>, i: nat)
    requires IsRun(run, env, events) && Apart(env) && i < |run|
    ensures Sound(run[i], env)
  {
    if i > 0 {
      RunSound(run, env, events, i - 1);
      RunHoldsAndProves(run, env, events, i - 1);
      var s, t := RunStep(run, env, events, i - 1);
      SoundStep(s, env, events[i - 1], t);
    }
  }

  lemma RunStep(run: seq<System>, env: Env, events: seq<Event>, n: nat) returns (s: System, t: System)
    requires IsRun(run, env, events) && n < |events|
    ensures s == run[n] && t == run[n + 1] && Next(s, env, events[n], t)
  {
    assert Stepped(run, env, events, n);
    s, t := run[n], run[n + 1];
  }

  /**
   * Over every run of many connections: each envelope handed to a connection that proved to
   * be B, for "from A", was deposited by a connection that had proved to be A, addressed to B;
   * it is the deposited hex up to letter case; and no deposit is handed out twice.
   */
  lemma HandedRightfullyAndOnce(run: seq<System>, env: Env, events: seq<Event>, digest: seq<Byte> -> seq<Byte>, i: nat)
    requires IsRun(run, env, events) && i < |run|
    requires Injective(digest) && forall a, b :: env.mailbox(a, b) == Mailbox(digest, a, b)
    ensures HandedOnce(run[i].handed) && AllRightful(run[i].handed, run[i].accepted) && ConnsProved(run[i].conns, env)
  {
    DerivedMailboxesAreApart(env, digest);
    RunSound(run, env, events, i);
    RunHoldsAndProves(run, env, events, i);
  }

  // ----- what is deposited is delivered

  /**
   * A peer that signs this connection's challenge is authenticated, under whatever it was
   * before; any other 64 bytes are refused and prove nothing.
   */
  lemma SignatureAuthenticatesExactly(env: Env, conn: Conn, id: PeerId, signature: seq<Byte>, boxes: Boxes, now: nat, stamp: nat,
                                      after: Conn, left: Boxes, response: Response)
    requires id.Valid(env.onCurve) && |signature| == 64
    requires Handles(env, conn, Authenticate(id.ToHex(), Encoded(signature)), boxes, now, stamp, after, left, response)
    ensures left == boxes
    ensures var signed := env.verify(id, CHALLENGE_TAG + conn.nonce, signature);
            && response == (if signed then Authenticated else Refused(Unauthenticated))
            && after == Conn(conn.nonce, if signed then Some(id) else conn.identity)
  {
    DecodeEncode(signature);
    DecodeEncode(id.key);
  }

  /** What a request asks of the queue, on a connection that may ask it. */
  function Asks(s: System, env: Env, c: nat, request: Request, now: nat, stamp: nat): Option<Op<nat>>
    requires c in s.conns
  {
    match (s.conns[c].identity, request)
    case (Some(me), Deposit(to, text)) =>
      (match (PeerFromHex(to, env.onCurve), Decoded(text))
       case (Some(peer), Some(bytes)) => Some(DepositOp(s, env, me, peer, bytes, now, stamp))
       case _ => None)
    case (Some(me), Collect(from)) =>
      (match PeerFromHex(from, env.onCurve)
       case Some(peer) => Some(Relay.Collect(env.mailbox(peer, me), now))
       case None => None)
    case _ => None
  }

  /** A request is a step of the queue, or leaves it alone. */
  lemma RequestIsAnOp(s: System, env: Env, c: nat, request: Request, now: nat, stamp: nat, t: System)
    requires c in s.conns && s.history.clock <= now <= stamp && Asked(s, env, c, request, now, stamp, t)
    ensures match Asks(s, env, c, request, now, stamp)
            case Some(op) => Step(s.history, op, t.history)
            case None => t.history == s.history
  {
    var op := Asks(s, env, c, request, now, stamp);
    if op.Some? && request.Deposit? {
      var author, peer, bytes := s.conns[c].identity.value, PeerFromHex(request.to, env.onCurve).value, Decoded(request.envelope).value;
      var result :| Deposited(s, env, author, peer, request.envelope, bytes, now, stamp, result, t);
      assert DepositLogged(s.history, op.value, t.history, result);
    }
  }

  /** An event after which an envelope that waits in mailbox `m` still does. */
  ghost predicate LetsWait(s: System, env: Env, event: Event, m: Text, held: Held) {
    event.Connect? || event.conn !in s.conns ||
    var op := Asks(s, env, event.conn, event.request, event.now, event.stamp);
    op.Some? ==> Spares(s.history.boxes, op.value, m) && !IsExpired(held, event.now)
  }

  ghost predicate WaitsIn(s: System, m: Text, e: Tagged<nat>) {
    Waits(s.history.boxes, LogAt(s.history, m), m, e)
  }

  lemma WaitsOn(s: System, env: Env, event: Event, t: System, m: Text, e: Tagged<nat>)
    requires Holds(s.history) && Next(s, env, event, t) && WaitsIn(s, m, e) && LetsWait(s, env, event, m, e.held)
    ensures WaitsIn(t, m, e)
  {
    if event.Ask? {
      RequestIsAnOp(s, env, event.conn, event.request, event.now, event.stamp, t);
      var op := Asks(s, env, event.conn, event.request, event.now, event.stamp);
      if op.Some? {
        StillWaits(s.history, op.value, t.history, m, e);
      }
    }
  }

  /** From the i-th event up to the j-th, nothing takes it away. */
  ghost predicate Undisturbed(run: seq<System>, env: Env, events: seq<Event>, i: nat, j: nat, m: Text, held: Held)
    requires i <= j <= |events| < |run|
  {
    forall n :: i <= n < j ==> LetsWait(run[n], env, events[n], m, held)
  }

  lemma {:induction false} WaitsThrough(run: seq<System>, env: Env, events: seq<Event>, i: nat, j: nat, m: Text, e: Tagged<nat>)
    requires IsRun(run, env, events) && i <= j <= |events| && WaitsIn(run[i], m, e)
    requires Undisturbed(run, env, events, i, j, m, e.held)
    ensures WaitsIn(run[j], m, e)
  {
    if i < j {
      WaitsThrough(run, env, events, i, j - 1, m, e);
      WaitsAStep(run, env, events, j - 1, m, e);
    }
  }

  lemma WaitsAStep(run: seq<System>, env: Env, events: seq<Event>, n: nat, m: Text, e: Tagged<nat>)
    requires IsRun(run, env, events) && n < |events| && WaitsIn(run[n], m, e) && LetsWait(run[n], env, events[n], m, e.held)
    ensures WaitsIn(run[n + 1], m, e)
  {
    RunHoldsAndProves(run, env, events, n);
    var s, t := RunStep(run, env, events, n);
    WaitsOn(s, env, events[n], t, m, e);
  }

  /** What waits when its mailbox is collected is handed out, if its time is not over. */
  lemma CollectHands(s: System, env: Env, to: PeerId, from: PeerId, now: nat, e: Tagged<nat>)
    requires Holds(s.history) && s.history.clock <= now && WaitsIn(s, env.mailbox(from, to), e) && !IsExpired(e.held, now)
    ensures Handing(e.tag, Encoded(e.held.bytes), to, from) in Collected(s, env, to, from, now).handed
  {
    var m := env.mailbox(from, to);
    var log := LogAt(s.history, m);
    WaitingIsOrdered(s.history, m);
    ExpiryLetsWait(s.history.boxes, log, m, e, now);
    WaitingIsLogged(s.history, m, now);
    WaitingIsHanded(Expired(s.history.boxes, now), m, log, to, from, e);
  }

  lemma WaitingIsHanded(boxes: Boxes, m: Text, log: seq<Tagged<nat>>, to: PeerId, from: PeerId, e: Tagged<nat>)
    requires IsSuffix(At(boxes, m), Untagged(log)) && Waits(boxes, log, m, e)
    ensures Handing(e.tag, Encoded(e.held.bytes), to, from) in HandedOut(At(boxes, m), log, to, from)
  {
    var p :| 0 <= p < |log| && |log| - |At(boxes, m)| <= p && log[p] == e;
    HandedAt(At(boxes, m), log, to, from, p);
  }

  lemma HandedAt(q: seq<Held>, log: seq<Tagged<nat>>, to: PeerId, from: PeerId, p: nat)
    requires IsSuffix(q, Untagged(log)) && |log| - |q| <= p < |log|
    ensures Handing(log[p].tag, Encoded(log[p].held.bytes), to, from) in HandedOut(q, log, to, from)
  {
    WaitingAt(q, log, p);
    assert HandedOut(q, log, to, from)[p - (|log| - |q|)] == Handing(log[p].tag, Encoded(log[p].held.bytes), to, from);
  }

  /** An authenticated connection's deposit, addressed to a peer, of an envelope within its bound. */
  ghost predicate Sends(s: System, env: Env, event: Event, author: PeerId, to: PeerId, text: Text, held: Held) {
    && event.Ask? && event.conn in s.conns && s.conns[event.conn].identity == Some(author)
    && event.request.Deposit? && PeerFromHex(event.request.to, env.onCurve) == Some(to)
    && event.request.envelope == text && Decoded(text) == Some(held.bytes) && |held.bytes| <= 1024 * 1024
    && event.stamp == held.deposited
    && var boxes := Expired(s.history.boxes, event.now);
       env.mailbox(author, to) in boxes || |boxes| < 4096
  }

  /** Its addressee's collect, within a day. */
  ghost predicate Fetches(s: System, env: Env, event: Event, author: PeerId, to: PeerId, held: Held) {
    && event.Ask? && event.conn in s.conns && s.conns[event.conn].identity == Some(to)
    && event.request.Collect? && PeerFromHex(event.request.from, env.onCurve) == Some(author)
    && event.now < held.deposited + 24 * 60 * 60
  }

  lemma SentWaits(s: System, env: Env, event: Event, t: System, author: PeerId, to: PeerId, text: Text, held: Held)
    requires Holds(s.history) && Next(s, env, event, t) && Sends(s, env, event, author, to, text, held)
    ensures t.accepted == s.accepted + [Entry(author, to, text)]
    ensures WaitsIn(t, env.mailbox(author, to), Tagged(held, |s.accepted|))
  {
    var bytes := held.bytes;
    var op := DepositOp(s, env, author, to, bytes, event.now, event.stamp);
    var result :| Deposited(s, env, author, to, text, bytes, event.now, event.stamp, result, t);
    DepositIsAcceptedExactly(s.history.boxes, op.box, bytes, event.now, event.stamp, t.history.boxes, result);
    AcceptedWaits(s.history, op, t.history, result);
  }

  lemma FetchHands(s: System, env: Env, event: Event, t: System, author: PeerId, to: PeerId, e: Tagged<nat>)
    requires Holds(s.history) && Next(s, env, event, t) && Fetches(s, env, event, author, to, e.held)
    requires WaitsIn(s, env.mailbox(author, to), e)
    ensures Handing(e.tag, Encoded(e.held.bytes), to, author) in t.handed
  {
    CollectHands(s, env, to, author, event.now, e);
  }

  /**
   * A deposit by an authenticated peer, within the bounds, is accepted, and if nothing in
   * between collects it, crowds it out or outlasts its day, its addressee's next collect hands
   * it over: the deposited hex in lower case, under its number, from its author. (By
   * `HandedRightfullyAndOnce` never again, and to nobody else.)
   */
  lemma DepositedIsDelivered(run: seq<System>, env: Env, events: seq<Event>, i: nat, j: nat, author: PeerId, to: PeerId, text: Text,
                             held: Held)
    requires IsRun(run, env, events) && i < j < |events|
    requires Sends(run[i], env, events[i], author, to, text, held) && Fetches(run[j], env, events[j], author, to, held)
    requires Undisturbed(run, env, events, i + 1, j, env.mailbox(author, to), held)
    ensures run[i + 1].accepted == run[i].accepted + [Entry(author, to, text)]
    ensures Handing(|run[i].accepted|, Lower(text), to, author) in run[j + 1].handed
  {
    SentAt(run, env, events, i, author, to, text, held);
    WaitingIsDelivered(run, env, events, i + 1, j, author, to, Tagged(held, |run[i].accepted|));
  }

  lemma WaitingIsDelivered(run: seq<System>, env: Env, events: seq<Event>, i: nat, j: nat, author: PeerId, to: PeerId, e: Tagged<nat>)
    requires IsRun(run, env, events) && i <= j < |events| && Fetches(run[j], env, events[j], author, to, e.held)
    requires WaitsIn(run[i], env.mailbox(author, to), e)
    requires Undisturbed(run, env, events, i, j, env.mailbox(author, to), e.held)
    ensures Handing(e.tag, Encoded(e.held.bytes), to, author) in run[j + 1].handed
  {
    WaitsThrough(run, env, events, i, j, env.mailbox(author, to), e);
    FetchedAt(run, env, events, j, author, to, e);
  }

  lemma SentAt(run: seq<System>, env: Env, events: seq<Event>, i: nat, author: PeerId, to: PeerId, text: Text, held: Held)
    requires IsRun(run, env, events) && i < |events| && Sends(run[i], env, events[i], author, to, text, held)
    ensures run[i + 1].accepted == run[i].accepted + [Entry(author, to, text)] && Encoded(held.bytes) == Lower(text)
    ensures WaitsIn(run[i + 1], env.mailbox(author, to), Tagged(held, |run[i].accepted|))
  {
    EncodeDecode(text);
    RunHoldsAndProves(run, env, events, i);
    var s, t := RunStep(run, env, events, i);
    SentWaits(s, env, events[i], t, author, to, text, held);
  }

  lemma FetchedAt(run: seq<System>, env: Env, events: seq<Event>, j: nat, author: PeerId, to: PeerId, e: Tagged<nat>)
    requires IsRun(run, env, events) && j < |events| && Fetches(run[j], env, events[j], author, to, e.held)
    requires WaitsIn(run[j], env.mailbox(author, to), e)
    ensures Handing(e.tag, Encoded(e.held.bytes), to, author) in run[j + 1].handed
  {
    RunHoldsAndProves(run, env, events, j);
    var s, t := RunStep(run, env, events, j);
    FetchHands(s, env, events[j], t, author, to, e);
  }
}
