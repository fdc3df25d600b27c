/** `_has_messages`: whether an object has `messages` among its own keys, read off the first bytes of a file. */
module HeadScanner {
  import opened Wire

  type Byte = b: int | 0 <= b < 256

  const QUOTE: Byte := 0x22
  const BACKSLASH: Byte := 0x5C
  const COMMA: Byte := 0x2C
  const COLON: Byte := 0x3A
  const OPEN_BRACE: Byte := 0x7B
  const CLOSE_BRACE: Byte := 0x7D
  const OPEN_BRACKET: Byte := 0x5B
  const CLOSE_BRACKET: Byte := 0x5D
  const MESSAGES: seq<Byte> := [0x6D, 0x65, 0x73, 0x73, 0x61, 0x67, 0x65, 0x73]

  predicate IsSpace(b: Byte) { b == 0x20 || b == 0x09 || b == 0x0D || b == 0x0A }

  // ---- The scan ----

  function Shift(r: Option<nat>, n: nat): Option<nat> {
    match r case None => None case Some(k) => Some(k + n)
  }

  /** Where the string that starts at the front of `s` ends: the index of its closing quote. */
  function StringEnd(s: seq<Byte>): (r: Option<nat>)
    ensures r.Some? ==> r.value < |s|
  {
    if s == [] then None
    else if s[0] == QUOTE then Some(0)
    else if s[0] != BACKSLASH then Shift(StringEnd(s[1..]), 1)
    else if |s| == 1 then None
    else Shift(StringEnd(s[2..]), 2)
  }

  /** The scan of what follows the opening brace. None when the bytes end before it is settled. */
  function Scan(s: seq<Byte>, depth: nat, expectKey: bool): Option<bool>
    decreases |s|
  {
    if s == [] then None
    else if s[0] == QUOTE then
      match StringEnd(s[1..])
      case None => None
      case Some(k) =>
        if depth == 1 && expectKey then
          if s[1..k + 1] == MESSAGES then Some(true) else Scan(s[k + 2..], depth, false)
        else Scan(s[k + 2..], depth, expectKey)
    else if s[0] == OPEN_BRACE || s[0] == OPEN_BRACKET then Scan(s[1..], depth + 1, expectKey)
    else if s[0] == CLOSE_BRACE || s[0] == CLOSE_BRACKET then
      if depth <= 1 then Some(false) else Scan(s[1..], depth - 1, expectKey)
    else Scan(s[1..], depth, expectKey || (s[0] == COMMA && depth == 1))
  }

  function SkipSpace(s: seq<Byte>): seq<Byte> {
    if s != [] && IsSpace(s[0]) then SkipSpace(s[1..]) else s
  }

  function Answer(s: seq<Byte>): Option<bool> {
    var t := SkipSpace(s);
    if t == [] then None else if t[0] != OPEN_BRACE then Some(false) else Scan(t[1..], 1, true)
  }

  /** The scan from index `i`, in terms of the index it moves on to. At a quote: */
  lemma {:induction false} ScanAtQuote(raw: seq<Byte>, i: nat, depth: nat, expectKey: bool)
    requires i < |raw| && raw[i] == QUOTE
    ensures StringEnd(raw[i + 1..]).None? ==> Scan(raw[i..], depth, expectKey) == None
    ensures StringEnd(raw[i + 1..]).Some? ==>
      var j := i + 1 + StringEnd(raw[i + 1..]).value;
      Scan(raw[i..], depth, expectKey)
      == if depth == 1 && expectKey then
           if raw[i + 1..j] == MESSAGES then Some(true) else Scan(raw[j + 1..], depth, false)
         else Scan(raw[j + 1..], depth, expectKey)
  {
    var s := raw[i..];
    assert s[1..] == raw[i + 1..];
    if StringEnd(raw[i + 1..]).Some? {
      var k := StringEnd(raw[i + 1..]).value;
      assert s[1..k + 1] == raw[i + 1..i + 1 + k];
      assert s[k + 2..] == raw[i + k + 2..];
    }
  }

  /** The bytes outside strings that change the depth, or announce a key. */
  function DepthAfter(b: Byte, depth: nat): int {
    if b == OPEN_BRACE || b == OPEN_BRACKET then depth + 1
    else if b == CLOSE_BRACE || b == CLOSE_BRACKET then depth - 1
    else depth
  }

  /** At any other byte. */
  lemma {:induction false} ScanAtOther(raw: seq<Byte>, i: nat, depth: nat, expectKey: bool)
    requires i < |raw| && raw[i] != QUOTE && depth >= 1
    ensures DepthAfter(raw[i], depth) == 0 ==> Scan(raw[i..], depth, expectKey) == Some(false)
    ensures DepthAfter(raw[i], depth) > 0 ==>
      Scan(raw[i..], depth, expectKey)
      == Scan(raw[i + 1..], DepthAfter(raw[i], depth), expectKey || (raw[i] == COMMA && depth == 1))
  {
    assert raw[i..][1..] == raw[i + 1..];
  }

  /** One string of the scan: it settles the answer, or the scan goes on behind it. */
  method PassString(raw: seq<Byte>, i: nat, depth: nat, expectKey: bool, ghost goal: Option<bool>)
    returns (settled: Option<Option<bool>>, next: nat, expects: bool)
    requires i < |raw| && raw[i] == QUOTE && Scan(raw[i..], depth, expectKey) == goal
    ensures settled.Some? ==> settled.value == goal
    ensures settled.None? ==> i < next <= |raw| && Scan(raw[next..], depth, expects) == goal
  {
    ScanAtQuote(raw, i, depth, expectKey);
    settled, next, expects := None, i + 1, expectKey;
    var j := FindQuote(raw, i + 1);
    if j >= |raw| {
      settled := Some(None);
    } else {
      next := j + 1;
      if depth == 1 && expectKey {
        expects := false;
        if raw[i + 1..j] == MESSAGES {
          settled := Some(Some(true));
        }
      }
    }
  }

  /** The index-and-depth loop. */
  method ScanFrom(raw: seq<Byte>, from: nat) returns (r: Option<bool>)
    requires from <= |raw|
    ensures r == Scan(raw[from..], 1, true)
  {
    ghost var goal := Scan(raw[from..], 1, true);
    var n := |raw|;
    var i, depth, expectKey := from, 1, true;
    while i < n
      invariant from <= i <= n && depth >= 1
      invariant Scan(raw[i..], depth, expectKey) == goal
    {
      var c := raw[i];
      if c == QUOTE {
        var settled;
        settled, i, expectKey := PassString(raw, i, depth, expectKey, goal);
        if settled.Some? {
          return settled.value;
        }
        continue;
      }
      ScanAtOther(raw, i, depth, expectKey);
      if c == OPEN_BRACE || c == OPEN_BRACKET {
        depth := depth + 1;
      } else if c == CLOSE_BRACE || c == CLOSE_BRACKET {
        depth := depth - 1;
        if depth == 0 {
          return Some(false);
        }
      } else if c == COMMA && depth == 1 {
        expectKey := true;
      }
      i := i + 1;
    }
    return None;
  }

  method HasMessages(raw: seq<Byte>, start: nat) returns (r: Option<bool>)
    ensures r == if start < |raw| then Answer(raw[start..]) else None
  {
    var at := start;
    while at < |raw| && IsSpace(raw[at])
      invariant start <= at
      invariant start < |raw| ==> at <= |raw| && SkipSpace(raw[at..]) == SkipSpace(raw[start..])
    {
      assert raw[at..][1..] == raw[at + 1..];
      at := at + 1;
    }
    if at >= |raw| {
      return None;
    }
    if raw[at] != OPEN_BRACE {
      return Some(false);
    }
    assert raw[at..][1..] == raw[at + 1..];
    r := ScanFrom(raw, at + 1);
  }

  /** The inner loop: a backslash escapes the next byte. */
  method FindQuote(raw: seq<Byte>, from: nat) returns (j: nat)
    requires from <= |raw|
    ensures from <= j
    ensures j < |raw| ==> StringEnd(raw[from..]) == Some(j - from)
    ensures j >= |raw| ==> StringEnd(raw[from..]) == None
  {
    j := from;
    while j < |raw| && raw[j] != QUOTE
      invariant from <= j
      invariant j <= |raw| ==> StringEnd(raw[from..]) == Shift(StringEnd(raw[j..]), j - from)
      invariant j > |raw| ==> StringEnd(raw[from..]) == None
    {
      StringEndStep(raw, j);
      j := j + if raw[j] == BACKSLASH then 2 else 1;
    }
  }

  lemma {:induction false} StringEndStep(raw: seq<Byte>, j: nat)
    requires j < |raw| && raw[j] != QUOTE
    ensures var skip := if raw[j] == BACKSLASH then 2 else 1;
            StringEnd(raw[j..]) == if j + skip <= |raw| then Shift(StringEnd(raw[j + skip..]), skip) else None
  {
    if raw[j] == BACKSLASH {
      assert j + 2 <= |raw| ==> raw[j..][2..] == raw[j + 2..];
    } else {
      assert raw[j..][1..] == raw[j + 1..];
    }
  }

  // ---- A settled answer stands ----

  lemma {:induction false} StringEndExtends(s: seq<Byte>, t: seq<Byte>)
    requires StringEnd(s).Some?
    ensures StringEnd(s + t) == StringEnd(s)
  {
    if s[0] != QUOTE {
      var skip := if s[0] == BACKSLASH then 2 else 1;
      assert (s + t)[skip..] == s[skip..] + t;
      StringEndExtends(s[skip..], t);
    }
  }

  lemma {:induction false} ScanExtends(s: seq<Byte>, t: seq<Byte>, depth: nat, expectKey: bool)
    requires Scan(s, depth, expectKey).Some?
    ensures Scan(s + t, depth, expectKey) == Scan(s, depth, expectKey)
    decreases |s|
  {
    assert (s + t)[1..] == s[1..] + t;
    if s[0] == QUOTE {
      StringEndExtends(s[1..], t);
      var k := StringEnd(s[1..]).value;
      assert (s + t)[1..k + 1] == s[1..k + 1];
      assert (s + t)[k + 2..] == s[k + 2..] + t;
      if !(depth == 1 && expectKey && s[1..k + 1] == MESSAGES) {
        ScanExtends(s[k + 2..], t, depth, expectKey && depth != 1);
      }
    } else if s[0] == OPEN_BRACE || s[0] == OPEN_BRACKET {
      ScanExtends(s[1..], t, depth + 1, expectKey);
    } else if s[0] == CLOSE_BRACE || s[0] == CLOSE_BRACKET {
      if depth > 1 {
        ScanExtends(s[1..], t, depth - 1, expectKey);
      }
    } else {
      ScanExtends(s[1..], t, depth, expectKey || (s[0] == COMMA && depth == 1));
    }
  }

  lemma {:induction false} SkipSpaceExtends(s: seq<Byte>, t: seq<Byte>)
    requires SkipSpace(s) != []
    ensures SkipSpace(s + t) == SkipSpace(s) + t
  {
    if IsSpace(s[0]) {
      assert (s + t)[1..] == s[1..] + t;
      SkipSpaceExtends(s[1..], t);
    }
  }

  /** A definite answer from a head slice is the answer for the whole file. */
  lemma {:induction false} SettledAnswerStands(s: seq<Byte>, t: seq<Byte>)
    requires Answer(s).Some?
    ensures Answer(s + t) == Answer(s)
  {
    SkipSpaceExtends(s, t);
    var u := SkipSpace(s);
    assert (u + t)[1..] == u[1..] + t;
    if u[0] == OPEN_BRACE {
      ScanExtends(u[1..], t, 1, true);
    }
  }

  // ---- JSON text, section 2 to 7 of RFC 8259 ----

  /** One item of a string: an unescaped byte, a two-character escape, or a \uXXXX escape. */
  datatype Piece = Plain(b: Byte) | Escape(b: Byte) | Unicode(h0: Byte, h1: Byte, h2: Byte, h3: Byte)

  type Space = s: seq<Byte> | forall i :: 0 <= i < |s| ==> IsSpace(s[i])

  /** A value as it is spelled, with the insignificant white space around its tokens. */
  datatype Value =
    | Literal(bytes: seq<Byte>)
    | Quoted(pieces: seq<Piece>)
    | List(pad: Space, items: Items)
    | Record(pad: Space, members: Members)

  datatype Items = NoItem | Item(before: Space, value: Value, after: Space, rest: Items)

  datatype Members =
    | NoMember
    | Member(before: Space, key: seq<Piece>, afterKey: Space, beforeValue: Space, value: Value, after: Space,
             rest: Members)

  function HexDigit(b: Byte): Option<nat> {
    if 0x30 <= b <= 0x39 then Some(b - 0x30)
    else if 0x41 <= b <= 0x46 then Some(b - 0x41 + 10)
    else if 0x61 <= b <= 0x66 then Some(b - 0x61 + 10)
    else None
  }

  /** The character a two-character escape stands for. */
  function Escaped(b: Byte): Option<nat> {
    if b == QUOTE || b == BACKSLASH || b == 0x2F then Some(b)
    else if b == 0x62 then Some(0x08)
    else if b == 0x66 then Some(0x0C)
    else if b == 0x6E then Some(0x0A)
    else if b == 0x72 then Some(0x0D)
    else if b == 0x74 then Some(0x09)
    else None
  }

  predicate LegalPiece(p: Piece) {
    match p
    case Plain(b) => b >= 0x20 && b != QUOTE && b != BACKSLASH
    case Escape(b) => Escaped(b).Some?
    case Unicode(a, b, c, d) => HexDigit(a).Some? && HexDigit(b).Some? && HexDigit(c).Some? && HexDigit(d).Some?
  }

  predicate LegalString(s: seq<Piece>) { forall i :: 0 <= i < |s| ==> LegalPiece(s[i]) }

  /** Numbers, `true`, `false` and `null` are made of these bytes. */
  predicate LiteralByte(b: Byte) {
    0x30 <= b <= 0x39 || 0x41 <= b <= 0x5A || 0x61 <= b <= 0x7A || b == 0x2B || b == 0x2D || b == 0x2E
  }

  predicate Legal(v: Value) {
    match v
    case Literal(bytes) => forall i :: 0 <= i < |bytes| ==> LiteralByte(bytes[i])
    case Quoted(pieces) => LegalString(pieces)
    case List(_, items) => LegalItems(items)
    case Record(_, members) => LegalMembers(members)
  }

  predicate LegalItems(items: Items) {
    items.Item? ==> Legal(items.value) && LegalItems(items.rest)
  }

  predicate LegalMembers(ms: Members) {
    ms.Member? ==> LegalString(ms.key) && Legal(ms.value) && LegalMembers(ms.rest)
  }

  function SpellPiece(p: Piece): seq<Byte> {
    match p
    case Plain(b) => [b]
    case Escape(b) => [BACKSLASH, b]
    case Unicode(a, b, c, d) => [BACKSLASH, 0x75, a, b, c, d]
  }

  function Spell(s: seq<Piece>): seq<Byte> {
    if s == [] then [] else SpellPiece(s[0]) + Spell(s[1..])
  }

  function Print(v: Value): seq<Byte> {
    match v
    case Literal(bytes) => bytes
    case Quoted(pieces) => [QUOTE] + Spell(pieces) + [QUOTE]
    case List(pad, items) => [OPEN_BRACKET] + pad + PrintItems(items) + [CLOSE_BRACKET]
    case Record(pad, members) => [OPEN_BRACE] + pad + PrintMembers(members) + [CLOSE_BRACE]
  }

  function PrintItems(items: Items): seq<Byte> {
    match items
    case NoItem => []
    case Item(before, v, after, rest) =>
      before + Print(v) + after + (if rest.NoItem? then [] else [COMMA] + PrintItems(rest))
  }

  function PrintMembers(ms: Members): seq<Byte> {
    match ms
    case NoMember => []
    case Member(before, key, afterKey, beforeValue, v, after, rest) =>
      before + ([QUOTE] + Spell(key) + [QUOTE]) + afterKey + [COLON] + beforeValue + Print(v) + after
      + (if rest.NoMember? then [] else [COMMA] + PrintMembers(rest))
  }

  // ---- What a full parse says ----

  function DecodePiece(p: Piece): nat
    requires LegalPiece(p)
  {
    match p
    case Plain(b) => b
    case Escape(b) => Escaped(b).value
    case Unicode(a, b, c, d) =>
      ((HexDigit(a).value * 16 + HexDigit(b).value) * 16 + HexDigit(c).value) * 16 + HexDigit(d).value
  }

  /** What the escapes of section 7 of RFC 8259 stand for. */
  lemma {:induction false} EscapesAre()
    ensures DecodePiece(Escape(0x22)) == 0x22 && DecodePiece(Escape(0x5C)) == 0x5C && DecodePiece(Escape(0x2F)) == 0x2F
    ensures DecodePiece(Escape(0x62)) == 0x08 && DecodePiece(Escape(0x66)) == 0x0C && DecodePiece(Escape(0x6E)) == 0x0A
    ensures DecodePiece(Escape(0x72)) == 0x0D && DecodePiece(Escape(0x74)) == 0x09
    ensures DecodePiece(Unicode(0x30, 0x39, 0x41, 0x66)) == 0x09AF
  {
  }

  /** The text a spelled string stands for, one unit per byte or escape. */
  function Decode(s: seq<Piece>): seq<nat>
    requires LegalString(s)
  {
    if s == [] then [] else [DecodePiece(s[0])] + Decode(s[1..])
  }

  /** `"messages" in body`: some top-level key reads `messages`. */
  predicate HasKey(ms: Members)
    requires LegalMembers(ms)
  {
    ms.Member? && (Decode(ms.key) == MESSAGES || HasKey(ms.rest))
  }

  /** Some top-level key is spelled `messages`, byte for byte. */
  predicate HasSpelling(ms: Members) {
    ms.Member? && (Spell(ms.key) == MESSAGES || HasSpelling(ms.rest))
  }

  lemma {:induction false} UnescapedReadsAsSpelled(s: seq<Piece>)
    requires LegalString(s) && BACKSLASH !in Spell(s)
    ensures Decode(s) == Spell(s)
  {
    if s != [] {
      assert Spell(s) == SpellPiece(s[0]) + Spell(s[1..]);
      assert Spell(s)[0] == SpellPiece(s[0])[0] && Spell(s)[0] in Spell(s);
      assert s[0].Plain?;
      assert forall b :: b in Spell(s[1..]) ==> b in Spell(s);
      UnescapedReadsAsSpelled(s[1..]);
    }
  }

  lemma {:induction false} SpellingIsKey(ms: Members)
    requires LegalMembers(ms) && HasSpelling(ms)
    ensures HasKey(ms)
  {
    if Spell(ms.key) == MESSAGES {
      assert BACKSLASH !in MESSAGES;
      UnescapedReadsAsSpelled(ms.key);
    } else {
      SpellingIsKey(ms.rest);
    }
  }

  // ---- The scan walks over a whole value ----

  /** A byte the scan passes over without changing its state. */
  predicate Quiet(b: Byte, depth: nat) {
    && b != QUOTE && b != OPEN_BRACE && b != CLOSE_BRACE && b != OPEN_BRACKET && b != CLOSE_BRACKET
    && (b == COMMA ==> depth != 1)
  }

  lemma {:induction false} ScanQuiet(s: seq<Byte>, rest: seq<Byte>, depth: nat, expectKey: bool)
    requires forall i :: 0 <= i < |s| ==> Quiet(s[i], depth)
    ensures Scan(s + rest, depth, expectKey) == Scan(rest, depth, expectKey)
    decreases |s|
  {
    if s == [] {
      assert s + rest == rest;
    } else {
      assert (s + rest)[1..] == s[1..] + rest;
      ScanQuiet(s[1..], rest, depth, expectKey);
    }
  }

  lemma {:induction false} StringEndSpelled(s: seq<Piece>, rest: seq<Byte>)
    requires LegalString(s)
    ensures StringEnd(Spell(s) + [QUOTE] + rest) == Some(|Spell(s)|)
  {
    var tail := [QUOTE] + rest;
    if s == [] {
      assert Spell(s) + [QUOTE] + rest == tail;
    } else {
      StringEndSpelled(s[1..], rest);
      var t := Spell(s[1..]) + [QUOTE] + rest;
      assert Spell(s) + [QUOTE] + rest == SpellPiece(s[0]) + t;
      StringEndPast(s[0], t);
    }
  }

  /** The search for the closing quote passes over one piece of a string. */
  lemma {:induction false} StringEndPast(p: Piece, t: seq<Byte>)
    requires LegalPiece(p)
    ensures StringEnd(SpellPiece(p) + t) == Shift(StringEnd(t), |SpellPiece(p)|)
  {
    var all := SpellPiece(p) + t;
    match p
    case Plain(b) => OnePlain(b, t);
    case Escape(b) => assert all[2..] == t;
    case Unicode(a, b, c, d) =>
      assert all[2..] == [a, b, c, d] + t;
      FourPlain(a, b, c, d, t);
  }

  lemma {:induction false} FourPlain(a: Byte, b: Byte, c: Byte, d: Byte, t: seq<Byte>)
    requires HexDigit(a).Some? && HexDigit(b).Some? && HexDigit(c).Some? && HexDigit(d).Some?
    ensures StringEnd([a, b, c, d] + t) == Shift(StringEnd(t), 4)
  {
    assert [a, b, c, d] + t == [a] + ([b] + ([c] + ([d] + t)));
    OnePlain(a, [b] + ([c] + ([d] + t)));
    OnePlain(b, [c] + ([d] + t));
    OnePlain(c, [d] + t);
    OnePlain(d, t);
  }

  lemma {:induction false} OnePlain(a: Byte, t: seq<Byte>)
    requires a != QUOTE && a != BACKSLASH
    ensures StringEnd([a] + t) == Shift(StringEnd(t), 1)
  {
    assert ([a] + t)[1..] == t;
  }

  /** At the opening quote of a spelled string. */
  lemma {:induction false} ScanString(s: seq<Piece>, rest: seq<Byte>, depth: nat, expectKey: bool)
    requires LegalString(s)
    ensures Scan([QUOTE] + Spell(s) + [QUOTE] + rest, depth, expectKey)
         == if depth == 1 && expectKey then
              if Spell(s) == MESSAGES then Some(true) else Scan(rest, depth, false)
            else Scan(rest, depth, expectKey)
  {
    var all := [QUOTE] + Spell(s) + [QUOTE] + rest;
    assert all[1..] == Spell(s) + [QUOTE] + rest;
    StringEndSpelled(s, rest);
    var k := |Spell(s)|;
    assert all[1..k + 1] == Spell(s);
    assert all[k + 2..] == rest;
  }

  /** A whole value is passed over: nested keys, commas and brackets leave no trace. */
  lemma {:induction false} ScanValue(v: Value, rest: seq<Byte>, depth: nat, expectKey: bool)
    requires Legal(v) && depth >= 1 && (depth == 1 ==> !expectKey)
    ensures Scan(Print(v) + rest, depth, expectKey) == Scan(rest, depth, expectKey)
    decreases v
  {
    match v
    case Literal(bytes) =>
      ScanQuiet(bytes, rest, depth, expectKey);
    case Quoted(pieces) =>
      assert Print(v) + rest == [QUOTE] + Spell(pieces) + [QUOTE] + rest;
      ScanString(pieces, rest, depth, expectKey);
    case List(pad, items) =>
      var close := [CLOSE_BRACKET] + rest;
      Opened(OPEN_BRACKET, pad, PrintItems(items), CLOSE_BRACKET, rest, depth, expectKey);
      ScanItems(items, close, depth + 1, expectKey);
      Closed(CLOSE_BRACKET, rest, depth, expectKey);
    case Record(pad, members) =>
      var close := [CLOSE_BRACE] + rest;
      Opened(OPEN_BRACE, pad, PrintMembers(members), CLOSE_BRACE, rest, depth, expectKey);
      ScanNested(members, close, depth + 1, expectKey);
      Closed(CLOSE_BRACE, rest, depth, expectKey);
  }

  lemma {:induction false} Opened(open: Byte, pad: Space, inner: seq<Byte>, close: Byte, rest: seq<Byte>, depth: nat,
                                  expectKey: bool)
    requires open == OPEN_BRACE || open == OPEN_BRACKET
    ensures Scan([open] + pad + inner + [close] + rest, depth, expectKey)
         == Scan(inner + ([close] + rest), depth + 1, expectKey)
  {
    var all := [open] + pad + inner + [close] + rest;
    assert all[1..] == pad + (inner + ([close] + rest));
    ScanQuiet(pad, inner + ([close] + rest), depth + 1, expectKey);
  }

  lemma {:induction false} Closed(close: Byte, rest: seq<Byte>, depth: nat, expectKey: bool)
    requires (close == CLOSE_BRACE || close == CLOSE_BRACKET) && depth >= 1
    ensures Scan([close] + rest, depth + 1, expectKey) == Scan(rest, depth, expectKey)
  {
    assert ([close] + rest)[1..] == rest;
  }

  /** What follows an item or a member, once its value is done. */
  function Continued(more: seq<Byte>, last: bool, rest: seq<Byte>): seq<Byte> {
    if last then rest else [COMMA] + (more + rest)
  }

  lemma {:induction false} ItemSpelled(items: Items, rest: seq<Byte>)
    requires items.Item?
    ensures PrintItems(items) + rest
         == items.before + (Print(items.value)
                            + (items.after + Continued(PrintItems(items.rest), items.rest.NoItem?, rest)))
  {
    if !items.rest.NoItem? {
      assert [COMMA] + PrintItems(items.rest) + rest == [COMMA] + (PrintItems(items.rest) + rest);
    }
  }

  lemma {:induction false} ScanComma(more: seq<Byte>, rest: seq<Byte>, depth: nat, expectKey: bool)
    requires depth >= 2
    ensures Scan(Continued(more, false, rest), depth, expectKey) == Scan(more + rest, depth, expectKey)
  {
    ScanQuiet([COMMA], more + rest, depth, expectKey);
  }

  lemma {:induction false} ScanItems(items: Items, rest: seq<Byte>, depth: nat, expectKey: bool)
    requires LegalItems(items) && depth >= 2
    ensures Scan(PrintItems(items) + rest, depth, expectKey) == Scan(rest, depth, expectKey)
    decreases items
  {
    if items.NoItem? {
      assert [] + rest == rest;
    } else {
      var tail := ScanItem(items, rest, depth, expectKey);
      if !items.rest.NoItem? {
        ScanComma(PrintItems(items.rest), rest, depth, expectKey);
        ScanItems(items.rest, rest, depth, expectKey);
      }
    }
  }

  lemma {:induction false} ScanItem(items: Items, rest: seq<Byte>, depth: nat, expectKey: bool)
    returns (tail: seq<Byte>)
    requires items.Item? && LegalItems(items) && depth >= 2
    ensures tail == Continued(PrintItems(items.rest), items.rest.NoItem?, rest)
    ensures Scan(PrintItems(items) + rest, depth, expectKey) == Scan(tail, depth, expectKey)
    decreases items, 0
  {
    tail := Continued(PrintItems(items.rest), items.rest.NoItem?, rest);
    ItemSpelled(items, rest);
    ScanQuiet(items.before, Print(items.value) + (items.after + tail), depth, expectKey);
    ScanValue(items.value, items.after + tail, depth, expectKey);
    ScanQuiet(items.after, tail, depth, expectKey);
  }

  /** The members of an object below the top level. */
  lemma {:induction false} ScanNested(ms: Members, rest: seq<Byte>, depth: nat, expectKey: bool)
    requires LegalMembers(ms) && depth >= 2
    ensures Scan(PrintMembers(ms) + rest, depth, expectKey) == Scan(rest, depth, expectKey)
    decreases ms
  {
    if ms.NoMember? {
      assert [] + rest == rest;
    } else {
      var tail := ScanMember(ms, rest, depth, expectKey);
      if !ms.rest.NoMember? {
        ScanComma(PrintMembers(ms.rest), rest, depth, expectKey);
        ScanNested(ms.rest, rest, depth, expectKey);
      }
    }
  }

  /** A printed member, associated the way the scan meets it. */
  lemma {:induction false} MemberSpelled(ms: Members, rest: seq<Byte>)
    requires ms.Member?
    ensures PrintMembers(ms) + rest
         == ms.before + ([QUOTE] + Spell(ms.key) + [QUOTE]
                         + ((ms.afterKey + [COLON] + ms.beforeValue)
                            + (Print(ms.value)
                               + (ms.after + Continued(PrintMembers(ms.rest), ms.rest.NoMember?, rest)))))
  {
    var more := if ms.rest.NoMember? then [] else [COMMA] + PrintMembers(ms.rest);
    assert more + rest == Continued(PrintMembers(ms.rest), ms.rest.NoMember?, rest);
    Regroup(ms.before, [QUOTE] + Spell(ms.key) + [QUOTE], ms.afterKey, [COLON], ms.beforeValue, Print(ms.value),
            ms.after, more, rest);
  }

  lemma {:induction false} Regroup(a: seq<Byte>, b: seq<Byte>, c: seq<Byte>, d: seq<Byte>, e: seq<Byte>, f: seq<Byte>,
                                   g: seq<Byte>, h: seq<Byte>, rest: seq<Byte>)
    ensures (a + b + c + d + e + f + g + h) + rest == a + (b + ((c + d + e) + (f + (g + (h + rest)))))
  {
    var tail := f + (g + (h + rest));
    assert (f + g + h) + rest == tail;
    var head := a + b + c + d + e;
    assert (head + f + g + h) + rest == head + tail;
    assert head + tail == a + (b + ((c + d + e) + tail));
  }

  /** One member: its key may settle the question; otherwise its value is passed over. */
  lemma {:induction false} ScanMember(ms: Members, rest: seq<Byte>, depth: nat, expectKey: bool)
    returns (tail: seq<Byte>)
    requires ms.Member? && LegalMembers(ms) && depth >= 1 && (depth == 1 ==> expectKey)
    ensures tail == Continued(PrintMembers(ms.rest), ms.rest.NoMember?, rest)
    ensures Scan(PrintMembers(ms) + rest, depth, expectKey)
         == if depth == 1 && Spell(ms.key) == MESSAGES then Some(true)
            else Scan(tail, depth, expectKey && depth != 1)
    decreases ms, 1
  {
    tail := Continued(PrintMembers(ms.rest), ms.rest.NoMember?, rest);
    var fromValue := Print(ms.value) + (ms.after + tail);
    var afterString := (ms.afterKey + [COLON] + ms.beforeValue) + fromValue;
    MemberSpelled(ms, rest);
    ScanQuiet(ms.before, [QUOTE] + Spell(ms.key) + [QUOTE] + afterString, depth, expectKey);
    ScanString(ms.key, afterString, depth, expectKey);
    ScanMemberValue(ms, tail, depth, expectKey && depth != 1);
  }

  lemma {:induction false} ScanMemberValue(ms: Members, tail: seq<Byte>, depth: nat, stillExpects: bool)
    requires ms.Member? && LegalMembers(ms) && depth >= 1 && (depth == 1 ==> !stillExpects)
    ensures Scan((ms.afterKey + [COLON] + ms.beforeValue) + (Print(ms.value) + (ms.after + tail)), depth, stillExpects)
         == Scan(tail, depth, stillExpects)
    decreases ms, 0
  {
    ScanQuiet(ms.afterKey + [COLON] + ms.beforeValue, Print(ms.value) + (ms.after + tail), depth, stillExpects);
    ScanValue(ms.value, ms.after + tail, depth, stillExpects);
    ScanQuiet(ms.after, tail, depth, stillExpects);
  }

  /** The members of the object itself. */
  lemma {:induction false} ScanTop(ms: Members, rest: seq<Byte>)
    requires LegalMembers(ms)
    ensures Scan(PrintMembers(ms) + ([CLOSE_BRACE] + rest), 1, true) == Some(HasSpelling(ms))
    decreases ms, 2
  {
    var close := [CLOSE_BRACE] + rest;
    if ms.NoMember? {
      assert [] + close == close;
    } else {
      var tail := ScanMember(ms, close, 1, true);
      if Spell(ms.key) != MESSAGES && !ms.rest.NoMember? {
        TopComma(PrintMembers(ms.rest), close);
        ScanTop(ms.rest, rest);
      }
    }
  }

  lemma {:induction false} TopComma(more: seq<Byte>, rest: seq<Byte>)
    ensures Scan(Continued(more, false, rest), 1, false) == Scan(more + rest, 1, true)
  {
    assert Continued(more, false, rest)[1..] == more + rest;
  }

  lemma {:induction false} SkipsSpace(pad: Space, t: seq<Byte>)
    requires t != [] && !IsSpace(t[0])
    ensures SkipSpace(pad + t) == t
  {
    if pad == [] {
      assert pad + t == t;
    } else {
      assert (pad + t)[1..] == pad[1..] + t;
      SkipsSpace(pad[1..], t);
    }
  }

  lemma {:induction false} AnswerAtBrace(pad: Space, inner: seq<Byte>)
    ensures Answer(pad + ([OPEN_BRACE] + inner)) == Scan(inner, 1, true)
  {
    SkipsSpace(pad, [OPEN_BRACE] + inner);
    assert ([OPEN_BRACE] + inner)[1..] == inner;
  }

  lemma {:induction false} ObjectSpelled(pad: Space, v: Value, rest: seq<Byte>)
    requires v.Record?
    ensures pad + Print(v) + rest
         == pad + ([OPEN_BRACE] + (v.pad + (PrintMembers(v.members) + ([CLOSE_BRACE] + rest))))
  {
  }

  /** On any object, whatever nesting, strings and escapes occur in it and whatever follows it, the
      answer is whether `messages` is spelled out as one of its own keys. */
  lemma {:induction false} AnswerOnObject(pad: Space, v: Value, rest: seq<Byte>)
    requires v.Record? && Legal(v)
    ensures Answer(pad + Print(v) + rest) == Some(HasSpelling(v.members))
  {
    var inner := PrintMembers(v.members) + ([CLOSE_BRACE] + rest);
    ObjectSpelled(pad, v, rest);
    AnswerAtBrace(pad, v.pad + inner);
    ScanQuiet(v.pad, inner, 1, true);
    ScanTop(v.members, rest);
  }

  /** No object, no key. */
  lemma {:induction false} AnswerOnOther(pad: Space, v: Value, rest: seq<Byte>)
    requires !v.Record? && Legal(v) && Print(v) != []
    ensures Answer(pad + Print(v) + rest) == Some(false)
  {
    var t := Print(v) + rest;
    assert pad + Print(v) + rest == pad + t;
    assert t[0] == Print(v)[0];
    SkipsSpace(pad, t);
  }

  /** The answer is what a full parse would say if and only if a key that reads `messages` is not
      spelled with escapes throughout. */
  lemma {:induction false} AgreesWithParse(pad: Space, v: Value, rest: seq<Byte>)
    requires v.Record? && Legal(v)
    ensures Answer(pad + Print(v) + rest) == Some(HasKey(v.members))
       <==> (HasKey(v.members) ==> HasSpelling(v.members))
  {
    AnswerOnObject(pad, v, rest);
    if HasSpelling(v.members) {
      SpellingIsKey(v.members);
    }
  }

  /** The head slice is as good as the file: any settled answer over the first `n` bytes is the answer
      for the object the whole file holds. */
  lemma {:induction false} HeadIsSound(pad: Space, v: Value, rest: seq<Byte>, n: nat)
    requires v.Record? && Legal(v)
    requires var file := pad + Print(v) + rest; n <= |file| && Answer(file[..n]).Some?
    ensures var file := pad + Print(v) + rest; Answer(file[..n]) == Some(HasSpelling(v.members))
  {
    var file := pad + Print(v) + rest;
    assert file == file[..n] + file[n..];
    SettledAnswerStands(file[..n], file[n..]);
    AnswerOnObject(pad, v, rest);
  }

  /** `messages`, with its first letter as an escape. */
  const ESCAPED_KEY: seq<Piece> := [Unicode(0x30, 0x30, 0x36, 0x64)] + ESCAPED_REST
  const ESCAPED_REST: seq<Piece> := [Plain(0x65), Plain(0x73), Plain(0x73), Plain(0x61), Plain(0x67), Plain(0x65),
                                     Plain(0x73)]

  lemma {:induction false} EscapedKeyReads()
    ensures LegalString(ESCAPED_KEY) && Decode(ESCAPED_KEY) == MESSAGES && Spell(ESCAPED_KEY) != MESSAGES
  {
    assert LegalString(ESCAPED_REST);
    assert ESCAPED_KEY[1..] == ESCAPED_REST;
    DecodeAll(ESCAPED_REST, MESSAGES[1..]);
    assert DecodePiece(ESCAPED_KEY[0]) == 0x6D;
    assert Spell(ESCAPED_KEY)[0] == BACKSLASH;
  }

  /** `{"key":1}`, with the key as it is spelled. */
  function OneKey(key: seq<Piece>): Value { Record([], Member([], key, [], [], Literal([0x31]), [], NoMember)) }

  /** Every spelling of the key that is not the plain one is missed: a full parse finds `messages`, and the scan
      definitely answers no. */
  lemma {:induction false} OtherSpellingIsMissed(key: seq<Piece>)
    requires LegalString(key) && Decode(key) == MESSAGES && Spell(key) != MESSAGES
    ensures Legal(OneKey(key)) && HasKey(OneKey(key).members) && Answer(Print(OneKey(key))) == Some(false)
  {
    var v := OneKey(key);
    assert Legal(v.members.value);
    assert LegalMembers(v.members);
    AnswerOnObject([], v, []);
    assert [] + Print(v) + [] == Print(v);
    assert !HasSpelling(v.members);
  }

  /** Such a spelling is `{"\u006dessages":1}`. */
  lemma {:induction false} EscapedKeyIsMissed()
    ensures var v := OneKey(ESCAPED_KEY);
            Legal(v) && HasKey(v.members) && Answer(Print(v)) == Some(false)
  {
    EscapedKeyReads();
    OtherSpellingIsMissed(ESCAPED_KEY);
  }

  lemma {:induction false} DecodeAll(s: seq<Piece>, text: seq<nat>)
    requires LegalString(s) && |text| == |s| && forall i :: 0 <= i < |s| ==> DecodePiece(s[i]) == text[i]
    ensures Decode(s) == text
  {
    if s != [] {
      DecodeAll(s[1..], text[1..]);
    }
  }

  // ---- On plain bytes ----

  /** Blanks, tabs and line ends ahead of the value are passed over; any other byte but a brace settles it. */
  lemma {:induction false} AheadOfTheValue(b: Byte, s: seq<Byte>)
    ensures b in {0x20, 0x09, 0x0D, 0x0A} ==> Answer([b] + s) == Answer(s)
    ensures b !in {0x20, 0x09, 0x0D, 0x0A, 0x7B} ==> Answer([b] + s) == Some(false)
    ensures Answer([]) == None
  {
    assert ([b] + s)[1..] == s;
  }

  /** `"messages"` */
  const NAME_BYTES: seq<Byte> := [0x22, 0x6D, 0x65, 0x73, 0x73, 0x61, 0x67, 0x65, 0x73, 0x22]
  const NAME_PIECES: seq<Piece> := [Plain(0x6D), Plain(0x65), Plain(0x73), Plain(0x73), Plain(0x61), Plain(0x67),
                                    Plain(0x65), Plain(0x73)]

  lemma {:induction false} SpellPlain(s: seq<Piece>, text: seq<Byte>)
    requires |s| == |text| && forall i :: 0 <= i < |s| ==> s[i] == Plain(text[i])
    ensures Spell(s) == text
  {
    if s != [] {
      SpellPlain(s[1..], text[1..]);
      assert text == [text[0]] + text[1..];
    }
  }

  lemma {:induction false} NameIs()
    ensures LegalString(NAME_PIECES) && [0x22] + Spell(NAME_PIECES) + [0x22] == NAME_BYTES
    ensures Spell(NAME_PIECES) == MESSAGES
  {
    SpellPlain(NAME_PIECES, NAME_BYTES[1..9]);
    assert MESSAGES == NAME_BYTES[1..9];
  }

  /** `{"messages"` settles it, whatever follows; as a value, and one level down, it settles nothing. */
  lemma {:induction false} NameAtTheFront(rest: seq<Byte>)
    ensures Answer([0x7B] + (NAME_BYTES + rest)) == Some(true)
    ensures Answer([0x7B]) == None && Answer([0x7B, 0x7D]) == Some(false)
  {
    NameIs();
    assert [0x7B] + (NAME_BYTES + rest) == [] + ([OPEN_BRACE] + (NAME_BYTES + rest));
    AnswerAtBrace([], NAME_BYTES + rest);
    assert NAME_BYTES + rest == [QUOTE] + Spell(NAME_PIECES) + [QUOTE] + rest;
    ScanString(NAME_PIECES, rest, 1, true);
    assert [0x7B, 0x7D][1..] == [0x7D];
  }

  const OTHER_KEY: seq<Byte> := [0x7B, 0x22, 0x61, 0x22, 0x3A]

  function UnderOtherKey(v: Value): Value { Record([], Member([], [Plain(0x61)], [], [], v, [], NoMember)) }

  lemma {:induction false} Glued(key: seq<Byte>, value: seq<Byte>)
    ensures [OPEN_BRACE] + [] + ([] + ([QUOTE] + key + [QUOTE]) + [] + [COLON] + [] + value + [] + []) + [CLOSE_BRACE]
         == [0x7B, 0x22] + key + [0x22, 0x3A] + value + [0x7D]
  {
  }

  lemma {:induction false} OneMemberSpelled(key: seq<Piece>, v: Value)
    ensures Print(Record([], Member([], key, [], [], v, [], NoMember)))
         == [0x7B, 0x22] + Spell(key) + [0x22, 0x3A] + Print(v) + [0x7D]
  {
    Glued(Spell(key), Print(v));
  }

  lemma {:induction false} OtherKeySpelled(v: Value)
    ensures Spell([Plain(0x61)]) == [0x61]
    ensures Print(UnderOtherKey(v)) == OTHER_KEY + Print(v) + [0x7D]
  {
    SpellPlain([Plain(0x61)], [0x61]);
    OneMemberSpelled([Plain(0x61)], v);
    assert [0x7B, 0x22] + [0x61] + [0x22, 0x3A] == OTHER_KEY;
  }

  lemma {:induction false} OneOtherKey(v: Value)
    requires Legal(v)
    ensures Answer(OTHER_KEY + Print(v) + [0x7D]) == Some(false)
  {
    var whole := UnderOtherKey(v);
    OtherKeySpelled(v);
    assert LegalString([Plain(0x61)]) && Legal(whole);
    AnswerOnObject([], whole, []);
    assert [] + Print(whole) + [] == Print(whole);
    assert |MESSAGES| == 8;
    assert !HasSpelling(whole.members);
  }

  /** `{"a":"messages"}` has no such key. */
  lemma {:induction false} NameAsValue()
    ensures Answer(OTHER_KEY + NAME_BYTES + [0x7D]) == Some(false)
  {
    NameIs();
    OneOtherKey(Quoted(NAME_PIECES));
  }

  /** Nor has `{"a":{"messages":1}}`. */
  lemma {:induction false} NameBelow()
    ensures Answer(OTHER_KEY + ([0x7B] + NAME_BYTES + [0x3A, 0x31, 0x7D]) + [0x7D]) == Some(false)
  {
    NameIs();
    var v := OneKey(NAME_PIECES);
    assert Legal(Literal([0x31]));
    assert Print(v) == [0x7B] + NAME_BYTES + [0x3A, 0x31, 0x7D];
    OneOtherKey(v);
  }
}
