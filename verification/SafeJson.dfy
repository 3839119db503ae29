/**
 * Escaping JSON for a script block (src/output/safe.rs:29-51), against a full reader of JSON
 * texts (sections 2 to 7 of RFC 8259).
 *
 * Text is a sequence of code points. A string denotes its UTF-16 code units, which is what
 * `\uXXXX` escapes name; a number denotes its literal.
 */
module SafeJson {
  import opened Outcomes

  /** A Unicode scalar value, as Rust's `char`. */
  type Ch = c: int | 0 <= c < 0x11_0000 && !(0xD800 <= c < 0xE000)

  type Json = seq<Ch>

  const QUOTE: Ch := 0x22
  const BACKSLASH: Ch := 0x5C

  // ----- the transformation

  predicate Special(c: Ch) {
    c == 0x3C || c == 0x3E || c == 0x26 || c == 0x2028 || c == 0x2029
  }

  /** What is pushed for one character. */
  function Piece(c: Ch): Json {
    if c == 0x3C then [BACKSLASH, 0x75, 0x30, 0x30, 0x33, 0x63]
    else if c == 0x3E then [BACKSLASH, 0x75, 0x30, 0x30, 0x33, 0x65]
    else if c == 0x26 then [BACKSLASH, 0x75, 0x30, 0x30, 0x32, 0x36]
    else if c == 0x2028 then [BACKSLASH, 0x75, 0x32, 0x30, 0x32, 0x38]
    else if c == 0x2029 then [BACKSLASH, 0x75, 0x32, 0x30, 0x32, 0x39]
    else [c]
  }

  function Embed(s: Json): Json {
    if s == [] then [] else Piece(s[0]) + Embed(s[1..])
  }

  /** The same, as the loop builds it: from the last character. */
  function Pushed(s: Json): Json {
    if s == [] then [] else Pushed(s[..|s| - 1]) + Piece(s[|s| - 1])
  }

  /** `embeddable_json`. */
  method EmbeddableJson(json: Json) returns (out: Json)
    ensures out == Embed(json)
  {
    out := [];
    for i := 0 to |json|
      invariant out == Pushed(json[..i])
    {
      out := out + Piece(json[i]);
      assert json[..i + 1][..i] == json[..i];
    }
    assert json[..|json|] == json;
    EmbedIsPushed(json);
  }

  lemma {:induction false} PushedConcat(a: Json, b: Json)
    ensures Pushed(a + b) == Pushed(a) + Pushed(b)
  {
    if b == [] {
      assert a + b == a;
    } else {
      var init := b[..|b| - 1];
      PushedConcat(a, init);
      assert (a + b)[..|a + b| - 1] == a + init;
      Assoc(Pushed(a), Pushed(init), Piece(b[|b| - 1]));
    }
  }

  lemma Assoc(a: Json, b: Json, c: Json)
    ensures a + b + c == a + (b + c)
  {
  }

  lemma PushedCons(c: Ch, rest: Json, s: Json)
    requires s == [c] + rest
    ensures Pushed(s) == Piece(c) + Pushed(rest)
  {
    PushedConcat([c], rest);
    PushedOne(c);
  }

  lemma PushedOne(c: Ch)
    ensures Pushed([c]) == Piece(c)
  {
    assert [c][..0] == [];
    assert Pushed([]) == [];
  }

  lemma {:induction false} EmbedIsPushed(s: Json)
    ensures Embed(s) == Pushed(s)
  {
    if s != [] {
      EmbedIsPushed(s[1..]);
      PushedCons(s[0], s[1..], s);
    }
  }

  lemma EmbedConcat(a: Json, b: Json)
    ensures Embed(a + b) == Embed(a) + Embed(b)
  {
    EmbedIsPushed(a);
    EmbedIsPushed(b);
    EmbedIsPushed(a + b);
    PushedConcat(a, b);
  }

  lemma EmbedOne(c: Ch)
    ensures Embed([c]) == Piece(c)
  {
    EmbedIsPushed([c]);
    PushedOne(c);
  }

  /** The first character's piece comes first. */
  lemma EmbedFront(s: Json)
    requires s != []
    ensures Embed(s) == Piece(s[0]) + Embed(s[1..]) && Embed(s)[0] == Piece(s[0])[0]
  {
    HeadFirst(Piece(s[0]), Embed(s[1..]));
  }

  lemma HeadFirst(a: Json, b: Json)
    requires a != []
    ensures (a + b)[0] == a[0]
  {
  }

  predicate Plain(s: Json) {
    forall i :: 0 <= i < |s| ==> !Special(s[i])
  }

  lemma {:induction false} EmbedPlain(s: Json)
    requires Plain(s)
    ensures Embed(s) == s
  {
    if s != [] {
      EmbedPlain(s[1..]);
      assert s == [s[0]] + s[1..];
    }
  }

  /** None of the five characters is left, and a text without them is returned as it is. */
  lemma {:induction false} EmbedIsInert(s: Json)
    ensures Plain(Embed(s))
    ensures Embed(s) == s <==> Plain(s)
    ensures Embed(Embed(s)) == Embed(s)
  {
    PlainResult(s);
    EmbedPlain(Embed(s));
    if Plain(s) {
      EmbedPlain(s);
    }
  }

  lemma {:induction false} PlainResult(s: Json)
    ensures Plain(Embed(s))
  {
    if s != [] {
      PlainResult(s[1..]);
    }
  }

  // ----- tokens

  datatype Token =
    | OpenObject | CloseObject | OpenArray | CloseArray | Colon | Comma
    | TrueToken | FalseToken | NullToken
    | StringToken(units: seq<nat>)
    | NumberToken(literal: Json)

  predicate IsSpace(c: Ch) {
    c == 0x20 || c == 0x09 || c == 0x0A || c == 0x0D
  }

  predicate IsDigit(c: Ch) {
    0x30 <= c <= 0x39
  }

  function HexValue(c: Ch): Option<nat> {
    if IsDigit(c) then Some(c - 0x30)
    else if 0x61 <= c <= 0x66 then Some(c - 0x57)
    else if 0x41 <= c <= 0x46 then Some(c - 0x37)
    else None
  }

  /** The four digits after `\u`. */
  function Unit(s: Json): Option<nat> {
    if |s| < 4 then None
    else
      match (HexValue(s[0]), HexValue(s[1]), HexValue(s[2]), HexValue(s[3]))
      case (Some(a), Some(b), Some(c), Some(d)) => Some(4096 * a + 256 * b + 16 * c + d)
      case _ => None
  }

  /** What the two-character escapes other than `\u` denote. */
  function ShortEscape(c: Ch): Option<nat> {
    if c == QUOTE || c == BACKSLASH || c == 0x2F then Some(c)
    else if c == 0x62 then Some(8)
    else if c == 0x66 then Some(12)
    else if c == 0x6E then Some(10)
    else if c == 0x72 then Some(13)
    else if c == 0x74 then Some(9)
    else None
  }

  /** The UTF-16 code units of a character. */
  function Units(c: Ch): seq<nat> {
    if c < 0x1_0000 then [c]
    else [0xD800 + (c - 0x1_0000) / 0x400, 0xDC00 + (c - 0x1_0000) % 0x400]
  }

  /** One character or escape of a string's body: its code units and how much it takes. */
  function Step(s: Json): (r: Option<(seq<nat>, nat)>)
    requires s != []
    ensures r.Some? ==> 1 <= r.value.1 <= |s|
  {
    if s[0] == QUOTE || s[0] < 0x20 then None
    else if s[0] != BACKSLASH then Some((Units(s[0]), 1))
    else if |s| < 2 then None
    else if s[1] == 0x75 then
      (match Unit(s[2..])
       case Some(u) => Some(([u], 6))
       case None => None)
    else
      match ShortEscape(s[1])
      case Some(u) => Some(([u], 2))
      case None => None
  }

  /** A string after its opening quotation mark: what it denotes and what follows it. */
  function ReadString(s: Json): (r: Option<(seq<nat>, Json)>)
    ensures r.Some? ==> |r.value.1| < |s|
  {
    if s == [] then None
    else if s[0] == QUOTE then Some(([], s[1..]))
    else
      match Step(s)
      case None => None
      case Some((units, taken)) =>
        match ReadString(s[taken..])
        case None => None
        case Some((more, rest)) => Some((units + more, rest))
  }

  predicate InNumber(c: Ch) {
    IsDigit(c) || c == 0x2D || c == 0x2B || c == 0x2E || c == 0x65 || c == 0x45
  }

  function NumberSpan(s: Json): (n: nat)
    ensures n <= |s|
  {
    if s != [] && InNumber(s[0]) then 1 + NumberSpan(s[1..]) else 0
  }

  function DigitSpan(s: Json): (n: nat)
    ensures n <= |s|
  {
    if s != [] && IsDigit(s[0]) then 1 + DigitSpan(s[1..]) else 0
  }

  predicate IsExponent(s: Json) {
    s == [] ||
    ((s[0] == 0x65 || s[0] == 0x45) &&
     var digits := if |s| > 1 && (s[1] == 0x2B || s[1] == 0x2D) then s[2..] else s[1..];
     DigitSpan(digits) == |digits| > 0)
  }

  predicate IsFraction(s: Json) {
    if s != [] && s[0] == 0x2E then DigitSpan(s[1..]) > 0 && IsExponent(s[1 + DigitSpan(s[1..])..])
    else IsExponent(s)
  }

  /** `[ minus ] int [ frac ] [ exp ]`, with no leading zero. */
  predicate IsNumber(s: Json) {
    var body := if s != [] && s[0] == 0x2D then s[1..] else s;
    var whole := DigitSpan(body);
    whole > 0 && (body[0] == 0x30 ==> whole == 1) && IsFraction(body[whole..])
  }

  predicate StartsWith(s: Json, word: Json) {
    |word| <= |s| && s[..|word|] == word
  }

  const TRUE_WORD: Json := [0x74, 0x72, 0x75, 0x65]
  const FALSE_WORD: Json := [0x66, 0x61, 0x6C, 0x73, 0x65]
  const NULL_WORD: Json := [0x6E, 0x75, 0x6C, 0x6C]

  function Mark(c: Ch): Option<Token> {
    if c == 0x7B then Some(OpenObject)
    else if c == 0x7D then Some(CloseObject)
    else if c == 0x5B then Some(OpenArray)
    else if c == 0x5D then Some(CloseArray)
    else if c == 0x3A then Some(Colon)
    else if c == 0x2C then Some(Comma)
    else None
  }

  /** The token at the front of a text that starts with neither space nor quotation mark. */
  function ReadMark(s: Json): (r: Option<(Token, nat)>)
    requires s != []
    ensures r.Some? ==> 1 <= r.value.1 <= |s|
  {
    if Mark(s[0]).Some? then Some((Mark(s[0]).value, 1))
    else if StartsWith(s, TRUE_WORD) then Some((TrueToken, 4))
    else if StartsWith(s, FALSE_WORD) then Some((FalseToken, 5))
    else if StartsWith(s, NULL_WORD) then Some((NullToken, 4))
    else
      var n := NumberSpan(s);
      if n > 0 && IsNumber(s[..n]) then Some((NumberToken(s[..n]), n)) else None
  }

  function Tokens(s: Json): Option<seq<Token>>
    decreases |s|
  {
    if s == [] then Some([])
    else if IsSpace(s[0]) then Tokens(s[1..])
    else if s[0] == QUOTE then
      (match ReadString(s[1..])
       case None => None
       case Some((units, rest)) => Then(StringToken(units), Tokens(rest)))
    else
      match ReadMark(s)
      case None => None
      case Some((token, taken)) => Then(token, Tokens(s[taken..]))
  }

  function Then(token: Token, rest: Option<seq<Token>>): Option<seq<Token>> {
    if rest.None? then None else Some([token] + rest.value)
  }

  // ----- values

  datatype Value =
    | Null
    | Bool(b: bool)
    | Number(literal: Json)
    | String(units: seq<nat>)
    | Array(items: seq<Value>)
    | Object(members: seq<(seq<nat>, Value)>)

  function ReadValue(t: seq<Token>): (r: Option<(Value, seq<Token>)>)
    ensures r.Some? ==> |r.value.1| < |t|
    decreases |t|, 0
  {
    if t == [] then None
    else
      match t[0]
      case NullToken => Some((Null, t[1..]))
      case TrueToken => Some((Bool(true), t[1..]))
      case FalseToken => Some((Bool(false), t[1..]))
      case StringToken(units) => Some((String(units), t[1..]))
      case NumberToken(literal) => Some((Number(literal), t[1..]))
      case OpenArray =>
        if |t| > 1 && t[1].CloseArray? then Some((Array([]), t[2..]))
        else
          (match ReadItems(t[1..])
           case None => None
           case Some((items, rest)) => Some((Array(items), rest)))
      case OpenObject =>
        if |t| > 1 && t[1].CloseObject? then Some((Object([]), t[2..]))
        else
          (match ReadMembers(t[1..])
           case None => None
           case Some((members, rest)) => Some((Object(members), rest)))
      case _ => None
  }

  /** One or more values, separated by commas, and the closing bracket. */
  function ReadItems(t: seq<Token>): (r: Option<(seq<Value>, seq<Token>)>)
    ensures r.Some? ==> |r.value.1| < |t|
    decreases |t|, 1
  {
    match ReadValue(t)
    case None => None
    case Some((v, rest)) =>
      if rest == [] then None
      else if rest[0].CloseArray? then Some(([v], rest[1..]))
      else if !rest[0].Comma? then None
      else
        match ReadItems(rest[1..])
        case None => None
        case Some((more, last)) => Some(([v] + more, last))
  }

  /** One or more name and value pairs, separated by commas, and the closing brace. */
  function ReadMembers(t: seq<Token>): (r: Option<(seq<(seq<nat>, Value)>, seq<Token>)>)
    ensures r.Some? ==> |r.value.1| < |t|
    decreases |t|, 1
  {
    if |t| < 3 || !t[0].StringToken? || !t[1].Colon? then None
    else
      match ReadValue(t[2..])
      case None => None
      case Some((v, rest)) =>
        if rest == [] then None
        else if rest[0].CloseObject? then Some(([(t[0].units, v)], rest[1..]))
        else if !rest[0].Comma? then None
        else
          match ReadMembers(rest[1..])
          case None => None
          case Some((more, last)) => Some(([(t[0].units, v)] + more, last))
  }

  /** The value a JSON text denotes; nothing if it is not one. */
  function Denotes(s: Json): Option<Value> {
    match Tokens(s)
    case None => None
    case Some(tokens) =>
      match ReadValue(tokens)
      case None => None
      case Some((v, rest)) => if rest == [] then Some(v) else None
  }

  // ----- meaning is preserved

  lemma EmbedTake(s: Json, n: nat)
    requires n <= |s| && Plain(s[..n])
    ensures Embed(s) == s[..n] + Embed(s[n..])
  {
    assert s == s[..n] + s[n..];
    EmbedConcat(s[..n], s[n..]);
    EmbedPlain(s[..n]);
  }

  lemma EscapedUnit(c: Ch, rest: Json)
    requires Special(c)
    ensures Step(Piece(c) + rest) == Some(([c], 6)) && (Piece(c) + rest)[6..] == rest
  {
    var s := Piece(c) + rest;
    assert s[0] == BACKSLASH && s[1] == 0x75;
    assert s[2..][0] == Piece(c)[2] && s[2..][1] == Piece(c)[3] && s[2..][2] == Piece(c)[4] && s[2..][3] == Piece(c)[5];
    assert Unit(s[2..]) == Some(c);
  }

  /** What is read at the front of a string reads the same after escaping. */
  lemma StepEmbeds(s: Json)
    requires s != [] && s[0] != QUOTE && Step(s).Some?
    ensures Embed(s) != [] && Embed(s)[0] != QUOTE
    ensures var (units, taken) := Step(s).value;
            Step(Embed(s)).Some? && var (more, width) := Step(Embed(s)).value;
            more == units && Embed(s)[width..] == Embed(s[taken..])
  {
    var (units, taken) := Step(s).value;
    EmbedFront(s);
    if Special(s[0]) {
      EscapedUnit(s[0], Embed(s[1..]));
    } else {
      PlainStep(s);
      EmbedTake(s, taken);
      StepIsLocal(s, Embed(s));
    }
  }

  lemma PlainStep(s: Json)
    requires s != [] && Step(s).Some? && !Special(s[0])
    ensures Plain(s[..Step(s).value.1])
  {
    if s[0] == BACKSLASH && s[1] == 0x75 {
      assert s[2..][0] == s[2] && s[2..][1] == s[3] && s[2..][2] == s[4] && s[2..][3] == s[5];
    }
  }

  lemma StepIsLocal(s: Json, t: Json)
    requires s != [] && Step(s).Some? && Step(s).value.1 <= |t| && s[..Step(s).value.1] == t[..Step(s).value.1]
    ensures t != [] && Step(t) == Step(s)
  {
    var n := Step(s).value.1;
    assert forall i :: 0 <= i < n ==> s[i] == s[..n][i] == t[i];
    if n == 6 {
      assert forall i :: 0 <= i < 4 ==> s[2..][i] == s[2 + i] == t[2 + i] == t[2..][i];
    }
  }

  /** Nowhere does one of the five characters directly follow a backslash. */
  predicate NoStray(s: Json) {
    forall i :: 0 <= i < |s| - 1 && s[i] == BACKSLASH ==> !Special(s[i + 1])
  }

  /** The text starts with `k` hex digits. */
  predicate HexPrefix(s: Json, k: nat) {
    k == 0 || (s != [] && HexValue(s[0]).Some? && HexPrefix(s[1..], k - 1))
  }

  lemma UnitIsFourDigits(s: Json)
    ensures Unit(s).Some? <==> HexPrefix(s, 4)
  {
    if |s| >= 4 {
      assert s[1..][0] == s[1] && s[1..][1..][0] == s[2] && s[1..][1..][1..][0] == s[3];
      assert HexPrefix(s, 4) <==> HexValue(s[0]).Some? && HexPrefix(s[1..], 3);
      assert HexPrefix(s[1..], 3) <==> HexValue(s[1]).Some? && HexPrefix(s[1..][1..], 2);
      var last := s[1..][1..][1..];
      assert HexPrefix(s[1..][1..], 2) <==> HexValue(s[2]).Some? && HexPrefix(last, 1);
      assert HexPrefix(last[1..], 0);
      assert HexPrefix(last, 1) <==> HexValue(s[3]).Some?;
    } else {
      ShortPrefix(s, 4);
    }
  }

  lemma {:induction false} ShortPrefix(s: Json, k: nat)
    requires |s| < k
    ensures !HexPrefix(s, k)
  {
    if s != [] {
      ShortPrefix(s[1..], k - 1);
    }
  }

  lemma {:induction false} HexPrefixEmbeds(s: Json, k: nat)
    ensures HexPrefix(Embed(s), k) <==> HexPrefix(s, k)
  {
    if k > 0 && s != [] {
      EmbedFront(s);
      if HexValue(s[0]).Some? {
        HexPrefixEmbeds(s[1..], k - 1);
        assert Embed(s)[1..] == Embed(s[1..]);
      }
    }
  }

  lemma UnitStaysUnread(s: Json)
    requires Unit(s).None?
    ensures Unit(Embed(s)).None?
  {
    UnitIsFourDigits(s);
    UnitIsFourDigits(Embed(s));
    HexPrefixEmbeds(s, 4);
  }

  lemma StepStaysUnread(s: Json)
    requires s != [] && s[0] != QUOTE && Step(s).None? && NoStray(s)
    ensures Embed(s) != [] && Embed(s)[0] != QUOTE && Step(Embed(s)).None?
  {
    EmbedTake(s, 1);
    if s[0] == BACKSLASH && |s| >= 2 {
      EmbedTake(s, 2) by {
        assert !Special(s[1]);
      }
      assert Embed(s)[2..] == Embed(s[2..]);
      if s[1] == 0x75 {
        UnitStaysUnread(s[2..]);
      }
    }
  }

  lemma {:induction false} RestIsSuffix(s: Json)
    requires ReadString(s).Some?
    ensures var rest := ReadString(s).value.1; rest == s[|s| - |rest|..]
    decreases |s|
  {
    if s[0] != QUOTE {
      RestIsSuffix(s[Step(s).value.1..]);
    }
  }

  lemma NoStraySuffix(s: Json, n: nat)
    requires NoStray(s) && n <= |s|
    ensures NoStray(s[n..])
  {
    forall i | 0 <= i < |s[n..]| - 1 && s[n..][i] == BACKSLASH ensures !Special(s[n..][i + 1]) {
      assert s[n + i] == BACKSLASH;
    }
  }

  lemma {:induction false} StringEmbeds(s: Json)
    requires ReadString(s).Some?
    ensures ReadString(Embed(s)) == Some((ReadString(s).value.0, Embed(ReadString(s).value.1)))
    decreases |s|
  {
    if s[0] == QUOTE {
      EmbedTake(s, 1);
      assert Embed(s)[1..] == Embed(s[1..]);
    } else {
      var (units, taken) := Step(s).value;
      StepEmbeds(s);
      StringEmbeds(s[taken..]);
    }
  }

  lemma {:induction false} StringStaysUnread(s: Json)
    requires ReadString(s).None? && NoStray(s)
    ensures ReadString(Embed(s)).None?
    decreases |s|
  {
    if s != [] {
      if Step(s).None? {
        StepStaysUnread(s);
      } else {
        var taken := Step(s).value.1;
        StepEmbeds(s);
        NoStraySuffix(s, taken);
        StringStaysUnread(s[taken..]);
      }
    }
  }

  lemma {:induction false} NumberSpanPlain(s: Json)
    ensures Plain(s[..NumberSpan(s)])
  {
    if s != [] && InNumber(s[0]) {
      NumberSpanPlain(s[1..]);
      var n := NumberSpan(s);
      assert forall i :: 1 <= i < n ==> s[..n][i] == s[1..][..n - 1][i - 1];
    }
  }

  lemma {:induction false} NumberSpanEmbeds(s: Json)
    ensures NumberSpan(Embed(s)) == NumberSpan(s)
  {
    if s != [] {
      if InNumber(s[0]) {
        NumberSpanEmbeds(s[1..]);
        EmbedTake(s, 1);
        assert Embed(s)[1..] == Embed(s[1..]);
      } else {
        EmbedFront(s);
      }
    }
  }

  lemma WordEmbeds(s: Json, word: Json)
    requires Plain(word) && (forall i :: 0 <= i < |word| ==> word[i] != BACKSLASH)
    ensures StartsWith(Embed(s), word) <==> StartsWith(s, word)
    decreases |word|
  {
    if word != [] && s != [] {
      EmbedFront(s);
      if s[0] == word[0] {
        EmbedTake(s, 1);
        assert Embed(s)[1..] == Embed(s[1..]);
        WordEmbeds(s[1..], word[1..]);
        WordCons(s, word);
        WordCons(Embed(s), word);
      } else {
        assert !StartsWith(s, word);
        assert Embed(s)[0] != word[0];
        assert !StartsWith(Embed(s), word);
      }
    }
  }

  lemma WordCons(s: Json, word: Json)
    requires s != [] && word != [] && s[0] == word[0]
    ensures StartsWith(s, word) <==> StartsWith(s[1..], word[1..])
  {
    if StartsWith(s[1..], word[1..]) {
      assert s[..|word|] == [s[0]] + s[1..][..|word| - 1] == word;
    }
    if StartsWith(s, word) {
      assert s[1..][..|word| - 1] == s[..|word|][1..] == word[1..];
    }
  }

  lemma MarkEmbeds(s: Json)
    requires s != [] && ReadMark(s).Some?
    ensures var (token, taken) := ReadMark(s).value;
            Plain(s[..taken]) && Embed(s) != [] && Embed(s)[0] == s[0] && ReadMark(Embed(s)) == Some((token, taken))
  {
    var (token, taken) := ReadMark(s).value;
    WordEmbeds(s, TRUE_WORD);
    WordEmbeds(s, FALSE_WORD);
    WordEmbeds(s, NULL_WORD);
    NumberSpanEmbeds(s);
    NumberSpanPlain(s);
    EmbedTake(s, taken);
    assert s[..taken][0] == s[0];
  }

  lemma BackslashIsNoMark(t: Json)
    requires t != [] && t[0] == BACKSLASH
    ensures ReadMark(t).None?
  {
    assert forall word: Json :: StartsWith(t, word) && word != [] ==> word[0] == t[0];
  }

  lemma SameMark(s: Json, t: Json)
    requires s != [] && t != [] && s[0] == t[0]
    requires StartsWith(s, TRUE_WORD) == StartsWith(t, TRUE_WORD) && StartsWith(s, FALSE_WORD) == StartsWith(t, FALSE_WORD)
    requires StartsWith(s, NULL_WORD) == StartsWith(t, NULL_WORD)
    requires NumberSpan(s) == NumberSpan(t) && s[..NumberSpan(s)] == t[..NumberSpan(s)]
    ensures ReadMark(s) == ReadMark(t)
  {
  }

  lemma MarkStaysUnread(s: Json)
    requires s != [] && ReadMark(s).None?
    ensures Embed(s) != [] && Embed(s)[0] == Piece(s[0])[0] && ReadMark(Embed(s)).None?
  {
    EmbedFront(s);
    if Special(s[0]) {
      BackslashIsNoMark(Embed(s));
    } else {
      WordEmbeds(s, TRUE_WORD);
      WordEmbeds(s, FALSE_WORD);
      WordEmbeds(s, NULL_WORD);
      NumberSpanEmbeds(s);
      NumberSpanPlain(s);
      EmbedTake(s, NumberSpan(s));
      SameMark(s, Embed(s));
    }
  }

  lemma {:induction false} TokensEmbed(s: Json)
    requires Tokens(s).Some? || NoStray(s)
    ensures Tokens(Embed(s)) == Tokens(s)
    decreases |s|
  {
    if s != [] {
      if IsSpace(s[0]) {
        SuffixEmbeds(s, 1);
        TokensEmbed(s[1..]);
      } else if s[0] == QUOTE {
        SuffixEmbeds(s, 1);
        if ReadString(s[1..]).Some? {
          StringEmbeds(s[1..]);
          RestIsSuffix(s[1..]);
          var rest := ReadString(s[1..]).value.1;
          assert rest == s[|s| - |rest|..];
          if NoStray(s) {
            NoStraySuffix(s, |s| - |rest|);
          }
          TokensEmbed(rest);
        } else {
          StringStaysUnread(s[1..]);
        }
      } else if ReadMark(s).Some? {
        var taken := ReadMark(s).value.1;
        MarkEmbeds(s);
        SuffixEmbeds(s, taken);
        TokensEmbed(s[taken..]);
      } else {
        MarkStaysUnread(s);
      }
    }
  }

  lemma SuffixEmbeds(s: Json, n: nat)
    requires 1 <= n <= |s| && Plain(s[..n])
    ensures |Embed(s)| >= n && Embed(s)[0] == s[0] && Embed(s)[n..] == Embed(s[n..])
    ensures NoStray(s) ==> NoStray(s[n..])
  {
    EmbedTake(s, n);
    if NoStray(s) {
      NoStraySuffix(s, n);
    }
  }

  /**
   * A valid JSON text stays valid and denotes the same value, wherever the escaped characters
   * stand - including right after an escaped backslash.
   */
  lemma EmbeddingPreservesMeaning(s: Json)
    requires Denotes(s).Some?
    ensures Denotes(Embed(s)) == Denotes(s)
  {
    TokensEmbed(s);
  }

  /** A text that is not JSON stays so, unless one of the five characters directly follows a backslash. */
  lemma EmbeddingPreservesInvalidity(s: Json)
    requires NoStray(s)
    ensures Denotes(Embed(s)) == Denotes(s)
  {
    TokensEmbed(s);
  }

  /** That exception is real: a text with the stray escape `\<` is not JSON, and becomes JSON. */
  lemma EmbeddingCanRepairInvalidText(s: Json)
    requires s == [QUOTE, BACKSLASH, 0x3C, QUOTE]
    ensures Denotes(s) == None && Denotes(Embed(s)).Some?
  {
    assert Step(s[1..]).None?;
    EmbedTake(s, 2);
    EmbedOne(QUOTE);
    var tail: Json := [0x75, 0x30, 0x30, 0x33, 0x63, QUOTE];
    assert s[2..][1..] == [QUOTE];
    var body := [BACKSLASH, BACKSLASH] + tail;
    assert Embed(s) == [QUOTE] + body;
    LettersRead([0x75, 0x30, 0x30, 0x33, 0x63]);
    assert body[2..] == tail == [0x75, 0x30, 0x30, 0x33, 0x63] + [QUOTE];
    assert ReadString(tail) == Some((ReadString(tail).value.0, []));
    assert Step(body) == Some(([BACKSLASH], 2));
    assert ReadString(body).Some? && ReadString(body).value.1 == [];
    assert Embed(s)[1..] == body;
    var units := ReadString(body).value.0;
    assert Tokens([]) == Some([]);
    assert [StringToken(units)] + [] == [StringToken(units)];
    assert Tokens(Embed(s)) == Some([StringToken(units)]);
  }

  lemma {:induction false} LettersRead(s: Json)
    requires forall i :: 0 <= i < |s| ==> 0x20 <= s[i] && s[i] != QUOTE && s[i] != BACKSLASH
    ensures ReadString(s + [QUOTE]).Some? && ReadString(s + [QUOTE]).value.1 == []
  {
    if s != [] {
      LettersRead(s[1..]);
      assert (s + [QUOTE])[1..] == s[1..] + [QUOTE];
    }
  }

  // ----- a device's own text, written and embedded

  /** What a JSON writer puts for one character of a string. */
  function Escaped(c: Ch): Json {
    if c == QUOTE || c == BACKSLASH then [BACKSLASH, c]
    else if c == 8 then [BACKSLASH, 0x62]
    else if c == 9 then [BACKSLASH, 0x74]
    else if c == 10 then [BACKSLASH, 0x6E]
    else if c == 12 then [BACKSLASH, 0x66]
    else if c == 13 then [BACKSLASH, 0x72]
    else if c < 0x20 then [BACKSLASH, 0x75, 0x30, 0x30, 0x30 + c / 16, if c % 16 < 10 then 0x30 + c % 16 else 0x57 + c % 16]
    else [c]
  }

  function Body(s: Json): Json {
    if s == [] then [QUOTE] else Escaped(s[0]) + Body(s[1..])
  }

  function Quoted(s: Json): Json {
    [QUOTE] + Body(s)
  }

  /** The UTF-16 code units of a text. */
  function AllUnits(s: Json): seq<nat> {
    if s == [] then [] else Units(s[0]) + AllUnits(s[1..])
  }

  lemma ControlReads(c: Ch, rest: Json)
    requires c < 0x20 && Escaped(c)[1] == 0x75
    ensures Step(Escaped(c) + rest) == Some(([c], 6)) && (Escaped(c) + rest)[6..] == rest
  {
    var s := Escaped(c) + rest;
    assert s[0] == BACKSLASH && s[1] == 0x75;
    assert s[2..][0] == 0x30 && s[2..][1] == 0x30 && s[2..][2] == Escaped(c)[4] && s[2..][3] == Escaped(c)[5];
    assert c == 16 * (c / 16) + c % 16;
    assert Unit(s[2..]) == Some(c);
  }

  lemma EscapedReads(c: Ch, rest: Json)
    ensures var s := Escaped(c) + rest;
            s[0] != QUOTE && Step(s) == Some((Units(c), |Escaped(c)|)) && s[|Escaped(c)|..] == rest
  {
    if c < 0x20 && Escaped(c)[1] == 0x75 {
      ControlReads(c, rest);
    } else {
      ShortReads(c, rest);
    }
  }

  lemma ShortReads(c: Ch, rest: Json)
    requires |Escaped(c)| <= 2
    ensures var s := Escaped(c) + rest;
            s[0] != QUOTE && Step(s) == Some((Units(c), |Escaped(c)|)) && s[|Escaped(c)|..] == rest
  {
    var s := Escaped(c) + rest;
    assert s[0] == Escaped(c)[0] && (|Escaped(c)| == 2 ==> s[1] == Escaped(c)[1]);
  }

  lemma {:induction false} BodyReads(s: Json)
    ensures ReadString(Body(s)) == Some((AllUnits(s), []))
  {
    if s != [] {
      BodyReads(s[1..]);
      EscapedReads(s[0], Body(s[1..]));
    }
  }

  /**
   * Whatever a device calls itself - `</script>`, quotes, control characters - the JSON string
   * written for it and then embedded has none of the five characters and still denotes exactly
   * that text.
   */
  lemma EveryNameSurvives(s: Json)
    ensures Denotes(Quoted(s)) == Some(String(AllUnits(s)))
    ensures Denotes(Embed(Quoted(s))) == Some(String(AllUnits(s))) && Plain(Embed(Quoted(s)))
  {
    BodyReads(s);
    var q := Quoted(s);
    assert q[1..] == Body(s);
    assert Tokens([]) == Some([]);
    assert [StringToken(AllUnits(s))] + [] == [StringToken(AllUnits(s))];
    assert Tokens(q) == Some([StringToken(AllUnits(s))]);
    EmbeddingPreservesMeaning(q);
    EmbedIsInert(q);
  }
}
