/** Validating a DHCP reply and walking its options (src/probes/dhcp_inform.rs:164-252). */
module DhcpReply {
  import opened Bytes
  import opened Outcomes
  import opened Dhcp

  const BOOTREPLY: Byte := 2
  const HEADER: nat := 236
  const MAGIC_COOKIE: seq<Byte> := [99, 130, 83, 99]
  const SUBNET_MASK: Byte := 1
  const ROUTER: Byte := 3
  const MESSAGE_TYPE: Byte := 53
  const CLASSLESS_ROUTE: Byte := 121
  const MS_CLASSLESS_ROUTE: Byte := 249
  const PAD: Byte := 0
  const END: Byte := 255
  const DHCPACK: Byte := 5

  datatype Opt = Opt(code: Byte, value: seq<Byte>)

  /** What the options say. */
  datatype Said = Said(mask: Option<Address>, routers: seq<Address>, routes: seq<Route>, kind: Option<Byte>)

  datatype Disclosure = Disclosure(server: Address, mask: Option<Address>, routers: seq<Address>, routes: seq<Route>, raw: seq<Byte>)

  // ----- the walk

  /** The options before the end marker; nothing if one claims more than arrived. */
  function Walk(b: seq<Byte>): Option<seq<Opt>>
    decreases |b|
  {
    if b == [] || b[0] == END then Some([])
    else if b[0] == PAD then Walk(b[1..])
    else if |b| < 2 || 2 + b[1] > |b| then None
    else Prepended([Opt(b[0], b[2..2 + b[1]])], Walk(b[2 + b[1]..]))
  }

  /** The addresses of a router option, whole ones only, the unspecified one left out. */
  function RoutersIn(value: seq<Byte>): seq<Address> {
    if |value| < 4 then []
    else (if value[..4] == [0, 0, 0, 0] then [] else [value[..4]]) + RoutersIn(value[4..])
  }

  predicate IsRouteOption(code: Byte) {
    code == CLASSLESS_ROUTE || code == MS_CLASSLESS_ROUTE
  }

  function Applied(s: Said, o: Opt): Option<Said> {
    if o.code == MESSAGE_TYPE && |o.value| == 1 then Some(s.(kind := Some(o.value[0])))
    else if o.code == SUBNET_MASK && |o.value| == 4 then Some(s.(mask := Some(o.value)))
    else if o.code == ROUTER then Some(s.(routers := s.routers + RoutersIn(o.value)))
    else if IsRouteOption(o.code) then
      match Routes(o.value, o.code)
      case None => None
      case Some(more) => Some(s.(routes := s.routes + more))
    else Some(s)
  }

  const SILENT := Said(None, [], [], None)

  function Heard(opts: seq<Opt>): Option<Said> {
    if opts == [] then Some(SILENT)
    else
      match Heard(opts[..|opts| - 1])
      case None => None
      case Some(s) => Applied(s, opts[|opts| - 1])
  }

  /** What the options of a datagram say, if they can be read to their end. */
  function Spoken(b: seq<Byte>): Option<Said> {
    match Walk(b)
    case None => None
    case Some(opts) => Heard(opts)
  }

  lemma HeardNext(done: seq<Opt>, o: Opt, s: Said)
    requires Heard(done) == Some(s)
    ensures Heard(done + [o]) == Applied(s, o)
  {
    assert (done + [o])[..|done|] == done;
  }

  /** One option that cannot be read spoils the whole message. */
  lemma {:induction false} RefusedStays(done: seq<Opt>, rest: seq<Opt>)
    requires Heard(done).None?
    ensures Heard(done + rest).None?
  {
    if rest == [] {
      assert done + rest == done;
    } else {
      RefusedStays(done, rest[..|rest| - 1]);
      assert (done + rest)[..|done + rest| - 1] == done + rest[..|rest| - 1];
    }
  }

  lemma OneRouter(value: seq<Byte>, i: nat)
    requires i + 4 <= |value|
    ensures var address: Address := value[i..i + 4];
            RoutersIn(value[i..]) == (if address == [0, 0, 0, 0] then [] else [address]) + RoutersIn(value[i + 4..])
  {
    assert value[i..][..4] == value[i..i + 4] && value[i..][4..] == value[i + 4..];
  }

  method ReadRouters(value: seq<Byte>) returns (routers: seq<Address>)
    ensures routers == RoutersIn(value)
  {
    routers := [];
    var i := 0;
    assert value[0..] == value;
    while i + 4 <= |value|
      invariant i <= |value| && routers + RoutersIn(value[i..]) == RoutersIn(value)
    {
      var address: Address := value[i..i + 4];
      OneRouter(value, i);
      if address != [0, 0, 0, 0] {
        routers := routers + [address];
      }
      i := i + 4;
    }
  }

  method Apply(s: Said, o: Opt) returns (r: Option<Said>)
    ensures r == Applied(s, o)
  {
    if o.code == MESSAGE_TYPE && |o.value| == 1 {
      return Some(s.(kind := Some(o.value[0])));
    } else if o.code == SUBNET_MASK && |o.value| == 4 {
      return Some(s.(mask := Some(o.value)));
    } else if o.code == ROUTER {
      var routers := ReadRouters(o.value);
      return Some(s.(routers := s.routers + routers));
    } else if IsRouteOption(o.code) {
      var more := ParseClasslessRoutes(o.value, o.code);
      if more.None? {
        return None;
      }
      return Some(s.(routes := s.routes + more.value));
    }
    return Some(s);
  }

  lemma WalkStep(options: seq<Byte>, cursor: nat, end: nat)
    requires cursor + 1 < |options| && options[cursor] != END && options[cursor] != PAD
    requires end == cursor + 2 + options[cursor + 1] <= |options|
    ensures Walk(options[cursor..]) == Prepended([Opt(options[cursor], options[cursor + 2..end])], Walk(options[end..]))
  {
    var rest := options[cursor..];
    assert rest[0] == options[cursor] && rest[1] == options[cursor + 1];
    assert rest[2..2 + rest[1]] == options[cursor + 2..end];
    assert rest[2 + rest[1]..] == options[end..];
  }

  lemma WalkCut(options: seq<Byte>, cursor: nat)
    requires cursor < |options| && options[cursor] != END && options[cursor] != PAD
    requires cursor + 1 == |options| || cursor + 2 + options[cursor + 1] > |options|
    ensures Walk(options[cursor..]).None?
  {
  }

  /** What the rest of the walk will make of the message, from what was heard so far. */
  ghost predicate Midway(options: seq<Byte>, cursor: nat, done: seq<Opt>, said: Said) {
    && cursor <= |options| && Heard(done) == Some(said)
    && Prepended(done, Walk(options[cursor..])) == Walk(options)
  }

  lemma MidwayStep(options: seq<Byte>, cursor: nat, done: seq<Opt>, said: Said, end: nat, o: Opt, next: Option<Said>)
    requires Midway(options, cursor, done, said) && end <= |options| && next == Applied(said, o)
    requires Walk(options[cursor..]) == Prepended([o], Walk(options[end..]))
    ensures if next.None? then Spoken(options).None? else Midway(options, end, done + [o], next.value)
  {
    HeardNext(done, o, said);
    PrependedTwice(done, [o], Walk(options[end..]));
    if next.None? && Walk(options[end..]).Some? {
      RefusedStays(done + [o], Walk(options[end..]).value);
    }
  }

  /** The loop of `parse_reply`: one pass that reads and interprets. */
  method ReadOptions(options: seq<Byte>) returns (r: Option<Said>)
    ensures r == Spoken(options)
  {
    var said := SILENT;
    var cursor := 0;
    ghost var done: seq<Opt> := [];
    assert options[0..] == options;
    PrependedNil(Walk(options));
    while cursor < |options| && options[cursor] != END
      invariant Midway(options, cursor, done, said)
    {
      var code := options[cursor];
      if code == PAD {
        assert options[cursor..][1..] == options[cursor + 1..];
        cursor := cursor + 1;
        continue;
      }
      if cursor + 1 >= |options| {
        WalkCut(options, cursor);
        return None;
      }
      var end := cursor + 2 + options[cursor + 1];
      if end > |options| {
        WalkCut(options, cursor);
        return None;
      }
      var o := Opt(code, options[cursor + 2..end]);
      WalkStep(options, cursor, end);
      var next := Apply(said, o);
      MidwayStep(options, cursor, done, said, end, o, next);
      if next.None? {
        return None;
      }
      said := next.value;
      done := done + [o];
      cursor := end;
    }
    assert done + [] == done;
    return Some(said);
  }

  /** Whether a datagram is a reply to this exchange at all. */
  predicate IsReply(datagram: seq<Byte>, transaction: nat, mac: seq<Byte>) {
    && |datagram| >= HEADER + 4 && datagram[0] == BOOTREPLY && BigValue(datagram[4..8]) == transaction
    && datagram[28..34] == mac && datagram[HEADER..HEADER + 4] == MAGIC_COOKIE
  }

  /** `parse_reply`. */
  method ParseReply(datagram: seq<Byte>, transaction: nat, mac: seq<Byte>, server: Address) returns (r: Option<Disclosure>)
    ensures r.Some? <==>
            && IsReply(datagram, transaction, mac) && Spoken(datagram[HEADER + 4..]).Some?
            && Spoken(datagram[HEADER + 4..]).value.kind == Some(DHCPACK)
    ensures r.Some? ==>
            var s := Spoken(datagram[HEADER + 4..]).value;
            r.value == Disclosure(server, s.mask, s.routers, s.routes, datagram)
  {
    if |datagram| < HEADER + 4 || datagram[0] != BOOTREPLY || BigValue(datagram[4..8]) != transaction {
      return None;
    }
    if datagram[28..34] != mac || datagram[HEADER..HEADER + 4] != MAGIC_COOKIE {
      return None;
    }
    var said := ReadOptions(datagram[HEADER + 4..]);
    if said.None? || said.value.kind != Some(DHCPACK) {
      return None;
    }
    return Some(Disclosure(server, said.value.mask, said.value.routers, said.value.routes, datagram));
  }

  // ----- the sender's side

  /** What a server writes: pads, and options with their length. */
  datatype Item = Pad | Real(opt: Opt) {
    predicate Valid() {
      Real? ==> opt.code != PAD && opt.code != END && |opt.value| < 256
    }

    function Bytes(): seq<Byte>
      requires Valid()
    {
      if Pad? then [PAD] else [opt.code, |opt.value|] + opt.value
    }
  }

  predicate AllValid(items: seq<Item>) {
    items == [] || (items[0].Valid() && AllValid(items[1..]))
  }

  function Written(items: seq<Item>): seq<Byte>
    requires AllValid(items)
  {
    if items == [] then [] else items[0].Bytes() + Written(items[1..])
  }

  function Opts(items: seq<Item>): seq<Opt> {
    if items == [] then []
    else if items[0].Pad? then Opts(items[1..])
    else [items[0].opt] + Opts(items[1..])
  }

  lemma OneItem(item: Item, rest: seq<Byte>)
    requires item.Valid()
    ensures Walk(item.Bytes() + rest) == if item.Pad? then Walk(rest) else Prepended([item.opt], Walk(rest))
  {
    var b := item.Bytes() + rest;
    if item.Pad? {
      assert b[1..] == rest;
    } else {
      assert b[2..2 + b[1]] == item.opt.value && b[2 + b[1]..] == rest;
    }
  }

  /** The options written are the options walked, and then whatever follows is walked. */
  lemma {:induction false} WrittenIsWalked(items: seq<Item>, rest: seq<Byte>)
    requires AllValid(items)
    ensures Walk(Written(items) + rest) == Prepended(Opts(items), Walk(rest))
  {
    if items == [] {
      assert Written(items) + rest == rest;
      PrependedNil(Walk(rest));
    } else {
      var more := Written(items[1..]) + rest;
      assert Written(items) + rest == items[0].Bytes() + more;
      OneItem(items[0], more);
      WrittenIsWalked(items[1..], rest);
      if items[0].Real? {
        PrependedTwice([items[0].opt], Opts(items[1..]), Walk(rest));
      }
    }
  }

  /**
   * A message's options read back as written, up to the end marker and whatever junk follows
   * it, or up to the end of the datagram.
   */
  lemma OptionRoundTrip(items: seq<Item>, junk: seq<Byte>)
    requires AllValid(items)
    ensures Walk(Written(items) + ([END] + junk)) == Some(Opts(items))
    ensures Walk(Written(items)) == Some(Opts(items))
  {
    WrittenIsWalked(items, [END] + junk);
    WrittenIsWalked(items, []);
    assert Written(items) + [] == Written(items);
    assert Opts(items) + [] == Opts(items);
  }

  /** A datagram cut anywhere inside an option discloses nothing, whatever came before. */
  lemma CutMessageIsRefused(items: seq<Item>, last: Opt, cut: nat)
    requires AllValid(items) && Real(last).Valid() && 0 < cut < |Real(last).Bytes()|
    ensures Spoken(Written(items) + Real(last).Bytes()[..cut]).None?
  {
    var part := Real(last).Bytes()[..cut];
    assert part[0] == last.code && (cut > 1 ==> part[1] == |last.value|);
    assert Walk(part).None?;
    WrittenIsWalked(items, part);
  }

  function Both<T>(a: Option<seq<T>>, b: Option<seq<T>>): Option<seq<T>> {
    if a.Some? && b.Some? then Some(a.value + b.value) else None
  }

  lemma BothAssoc<T>(a: Option<seq<T>>, b: Option<seq<T>>, c: Option<seq<T>>)
    ensures Both(a, Both(b, c)) == Both(Both(a, b), c)
  {
    if a.Some? && b.Some? && c.Some? {
      assert a.value + (b.value + c.value) == a.value + b.value + c.value;
    }
  }

  lemma BothNil<T>(a: Option<seq<T>>)
    ensures Both(a, Some([])) == a == Both(Some([]), a)
  {
    if a.Some? {
      assert a.value + [] == a.value == [] + a.value;
    }
  }

  function RoutesIn(o: Opt): Option<seq<Route>> {
    if IsRouteOption(o.code) then Routes(o.value, o.code) else Some([])
  }

  /** The routes of every route option of a message, in order; nothing if one is malformed. */
  function AllRoutes(opts: seq<Opt>): Option<seq<Route>> {
    if opts == [] then Some([]) else Both(RoutesIn(opts[0]), AllRoutes(opts[1..]))
  }

  lemma {:induction false} AllRoutesSnoc(opts: seq<Opt>, o: Opt)
    ensures AllRoutes(opts + [o]) == Both(AllRoutes(opts), RoutesIn(o))
  {
    BothNil(RoutesIn(o));
    if opts == [] {
      assert opts + [o] == [o] && [o][1..] == [];
    } else {
      AllRoutesSnoc(opts[1..], o);
      assert (opts + [o])[1..] == opts[1..] + [o];
      BothAssoc(RoutesIn(opts[0]), AllRoutes(opts[1..]), RoutesIn(o));
    }
  }

  /** A message is refused exactly when some route option is, and reports every route of every one, in order. */
  lemma {:induction false} HeardRoutes(opts: seq<Opt>)
    ensures Heard(opts).Some? <==> AllRoutes(opts).Some?
    ensures Heard(opts).Some? ==> Heard(opts).value.routes == AllRoutes(opts).value
  {
    if opts != [] {
      var init, o := opts[..|opts| - 1], opts[|opts| - 1];
      HeardRoutes(init);
      AllRoutesSnoc(init, o);
      BothNil(AllRoutes(init));
      assert opts == init + [o];
    }
  }

  // ----- everything else a message says

  predicate Bears(o: Opt, code: Byte, length: nat) {
    o.code == code && |o.value| == length
  }

  /** What the last option of this code and length says; nothing if there is none. */
  ghost predicate SaysLast(opts: seq<Opt>, code: Byte, length: nat, said: Option<seq<Byte>>) {
    match said
    case None => forall i :: 0 <= i < |opts| ==> !Bears(opts[i], code, length)
    case Some(value) =>
      exists i :: 0 <= i < |opts| && Bears(opts[i], code, length) && opts[i].value == value &&
        forall j :: i < j < |opts| ==> !Bears(opts[j], code, length)
  }

  lemma SaysLastNext(opts: seq<Opt>, o: Opt, code: Byte, length: nat, said: Option<seq<Byte>>)
    requires SaysLast(opts, code, length, said)
    ensures SaysLast(opts + [o], code, length, if Bears(o, code, length) then Some(o.value) else said)
  {
    var more := opts + [o];
    assert more[|opts|] == o;
    if said.Some? && !Bears(o, code, length) {
      var i :| 0 <= i < |opts| && Bears(opts[i], code, length) && opts[i].value == said.value &&
        forall j :: i < j < |opts| ==> !Bears(opts[j], code, length);
      assert more[i] == opts[i];
    }
  }

  /** The routers of every router option, in order. */
  function AllRouters(opts: seq<Opt>): seq<Address> {
    if opts == [] then []
    else
      var o := opts[|opts| - 1];
      AllRouters(opts[..|opts| - 1]) + if o.code == 3 then RoutersIn(o.value) else []
  }

  function KindOf(s: Said): Option<seq<Byte>> {
    if s.kind.Some? then Some([s.kind.value]) else None
  }

  ghost predicate Says(opts: seq<Opt>, s: Said) {
    && SaysLast(opts, 1, 4, s.mask) && SaysLast(opts, 53, 1, KindOf(s)) && s.routers == AllRouters(opts)
  }

  lemma SaysNext(opts: seq<Opt>, o: Opt, s: Said, t: Said)
    requires Says(opts, s) && Applied(s, o) == Some(t)
    ensures Says(opts + [o], t)
  {
    SaysLastNext(opts, o, 1, 4, s.mask);
    SaysLastNext(opts, o, 53, 1, KindOf(s));
    assert Bears(o, 53, 1) ==> o.value == [o.value[0]];
    RoutersNext(opts, o);
    assert s.routers + [] == s.routers;
  }

  lemma RoutersNext(opts: seq<Opt>, o: Opt)
    ensures AllRouters(opts + [o]) == AllRouters(opts) + if o.code == 3 then RoutersIn(o.value) else []
  {
    assert (opts + [o])[..|opts|] == opts;
  }

  /**
   * A message's mask is its last four-byte option 1, its type its last one-byte option 53, and
   * its routers those of every option 3 in order: a later one of the first two replaces an
   * earlier, one of another length is passed over, and routers add up.
   */
  lemma {:induction false} HeardSays(opts: seq<Opt>)
    ensures Heard(opts).Some? ==> Says(opts, Heard(opts).value)
  {
    if opts != [] && Heard(opts).Some? {
      var init, o := opts[..|opts| - 1], opts[|opts| - 1];
      HeardSays(init);
      SaysNext(init, o, Heard(init).value, Heard(opts).value);
      assert opts == init + [o];
    }
  }

  function Specified(addresses: seq<seq<Byte>>): seq<seq<Byte>> {
    if addresses == [] then []
    else (if addresses[0] == [0, 0, 0, 0] then [] else [addresses[0]]) + Specified(addresses[1..])
  }

  /** Addresses written one after another are read back, but for unspecified ones and a part of one at the end. */
  lemma {:induction false} RoutersRoundTrip(addresses: seq<seq<Byte>>, rest: seq<Byte>)
    requires |rest| < 4 && forall i :: 0 <= i < |addresses| ==> |addresses[i]| == 4
    ensures RoutersIn(Flat(addresses) + rest) == Specified(addresses)
  {
    if addresses == [] {
      assert Flat(addresses) + rest == rest;
    } else {
      var more := Flat(addresses[1..]) + rest;
      RoutersRoundTrip(addresses[1..], rest);
      assert Flat(addresses) + rest == addresses[0] + more;
      assert (addresses[0] + more)[..4] == addresses[0] && (addresses[0] + more)[4..] == more;
    }
  }

  /**
   * A datagram of full length is a reply to this exchange exactly when its operation is 2 and
   * its transaction, hardware address and cookie are the exchange's; its options follow the cookie.
   */
  lemma ReplyIsExact(op: Byte, a: seq<Byte>, xid: seq<Byte>, b: seq<Byte>, chaddr: seq<Byte>, c: seq<Byte>, cookie: seq<Byte>,
                     options: seq<Byte>, transaction: nat, mac: seq<Byte>)
    requires |a| == 3 && |xid| == 4 && |b| == 20 && |chaddr| == 6 && |c| == 202 && |cookie| == 4
    ensures var datagram := [op] + a + xid + b + chaddr + c + cookie + options;
            && (IsReply(datagram, transaction, mac) <==>
                op == 2 && BigValue(xid) == transaction && chaddr == mac && cookie == [99, 130, 83, 99])
            && datagram[240..] == options
  {
    var datagram := [op] + a + xid + b + chaddr + c + cookie + options;
    assert datagram[0] == op && datagram[4..8] == xid && datagram[28..34] == chaddr;
    assert datagram[236..240] == cookie && datagram[240..] == options;
  }

  /** Anything shorter is none. */
  lemma ShortIsNoReply(datagram: seq<Byte>, transaction: nat, mac: seq<Byte>)
    requires |datagram| < 240
    ensures !IsReply(datagram, transaction, mac)
  {
  }
}
