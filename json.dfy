/**
 * JSON values with `JSON.stringify` and `JSON.parse` (RFC 8259), and JavaScript objects as
 * insertion-ordered field lists.
 */
module Json {
  import opened Wrappers
  import Text
  import Hex

  /**
   * A JSON value. A number keeps its decimal text; an object keeps its members in order,
   * duplicates included (as `JSON.parse` reads them).
   */
  datatype Json =
    | JNull
    | JBool(b: bool)
    | JNumber(lexeme: string)
    | JString(s: string)
    | JArray(items: seq<Json>)
    | JObject(fields: seq<(string, Json)>)

  type Fields = seq<(string, Json)>

  // ---------------------------------------------------------------------------------------
  // JavaScript objects

  /** Property read `o[k]`: the value of the member named `k`, if there is one. */
  function Get(fields: Fields, k: string): Option<Json> {
    if fields == [] then None
    else if fields[0].0 == k then Some(fields[0].1)
    else Get(fields[1..], k)
  }

  function Keys(fields: Fields): seq<string> {
    seq(|fields|, i requires 0 <= i < |fields| => fields[i].0)
  }

  /** No two members share a key, as in every JavaScript object. */
  predicate KeysDistinct(fields: Fields) {
    forall i, j | 0 <= i < j < |fields| :: fields[i].0 != fields[j].0
  }

  /**
   * Property write `o[k] = v`: an existing key keeps its position and takes the new value, a
   * new key goes last. Object spread, literal keys and `JSON.parse` all add members this way.
   */
  function Put(fields: Fields, k: string, v: Json): Fields {
    if fields == [] then [(k, v)]
    else if fields[0].0 == k then [(k, v)] + fields[1..]
    else [fields[0]] + Put(fields[1..], k, v)
  }

  lemma {:induction false} KeysCons(f: (string, Json), fields: Fields)
    ensures Keys([f] + fields) == [f.0] + Keys(fields)
  {
    assert ([f] + fields)[1..] == fields;
  }

  /** A property read finds a value exactly when the object has that key. */
  lemma {:induction false} GetIn(fields: Fields, k: string)
    ensures Get(fields, k).Some? <==> k in Keys(fields)
  {
    if fields != [] {
      GetIn(fields[1..], k);
      KeysCons(fields[0], fields[1..]);
      assert [fields[0]] + fields[1..] == fields;
    }
  }

  lemma {:induction false} PutKeys(fields: Fields, k: string, v: Json)
    ensures k in Keys(fields) ==> Keys(Put(fields, k, v)) == Keys(fields)
    ensures k !in Keys(fields) ==> Put(fields, k, v) == fields + [(k, v)]
  {
    if fields != [] {
      PutKeys(fields[1..], k, v);
      KeysCons(fields[0], fields[1..]);
      assert [fields[0]] + fields[1..] == fields;
      if fields[0].0 == k {
        KeysCons((k, v), fields[1..]);
      } else {
        KeysCons(fields[0], Put(fields[1..], k, v));
      }
    }
  }

  /** Reading a key right after writing it gives the written value; other keys are unchanged. */
  lemma {:induction false} GetPut(fields: Fields, k: string, v: Json, k2: string)
    ensures Get(Put(fields, k, v), k2) == if k2 == k then Some(v) else Get(fields, k2)
  {
    if fields != [] && fields[0].0 != k {
      GetPut(fields[1..], k, v, k2);
    }
  }

  /** In an object without repeated keys, reading the key of any member gives that member's value. */
  lemma {:induction false} GetAt(fields: Fields, i: nat)
    requires KeysDistinct(fields) && i < |fields|
    ensures Get(fields, fields[i].0) == Some(fields[i].1)
  {
    if i > 0 {
      GetAt(fields[1..], i - 1);
    }
  }

  lemma {:induction false} PutKeepsDistinct(fields: Fields, k: string, v: Json)
    requires KeysDistinct(fields)
    ensures KeysDistinct(Put(fields, k, v))
  {
    PutKeys(fields, k, v);
    var p := Put(fields, k, v);
    if k in Keys(fields) {
      forall i, j | 0 <= i < j < |p| ensures p[i].0 != p[j].0 {
        assert Keys(p)[i] == Keys(fields)[i];
        assert Keys(p)[j] == Keys(fields)[j];
      }
    } else {
      forall i, j | 0 <= i < j < |p| ensures p[i].0 != p[j].0 {
        if j == |fields| {
          assert Keys(fields)[i] == fields[i].0;
        }
      }
    }
  }

  /** The object a list of members builds when each is added in turn with `Put`. */
  function Build(acc: Fields, members: Fields): Fields
    decreases |members|
  {
    if members == [] then acc else Build(Put(acc, members[0].0, members[0].1), members[1..])
  }

  lemma {:induction false} BuildDistinct(acc: Fields, members: Fields)
    requires KeysDistinct(acc)
    ensures KeysDistinct(Build(acc, members))
    decreases |members|
  {
    if members != [] {
      PutKeepsDistinct(acc, members[0].0, members[0].1);
      BuildDistinct(Put(acc, members[0].0, members[0].1), members[1..]);
    }
  }

  /** Members that already have distinct keys build exactly themselves. */
  lemma {:induction false} BuildIdentity(acc: Fields, members: Fields)
    requires KeysDistinct(acc + members)
    ensures Build(acc, members) == acc + members
    decreases |members|
  {
    if members != [] {
      var (k, v) := members[0];
      assert k !in Keys(acc) by {
        forall i | 0 <= i < |acc| ensures Keys(acc)[i] != k {
          assert (acc + members)[i] == acc[i] && (acc + members)[|acc|] == members[0];
        }
      }
      PutKeys(acc, k, v);
      assert acc + members == (acc + [(k, v)]) + members[1..];
      BuildIdentity(acc + [(k, v)], members[1..]);
    }
  }

  // ---------------------------------------------------------------------------------------
  // JSON.stringify

  /** How `JSON.stringify` writes one character of a string. */
  function EscapeChar(c: char): string {
    if c == '"' then "\\\""
    else if c == '\\' then "\\\\"
    else if c as int == 0x08 then "\\b"
    else if c as int == 0x0C then "\\f"
    else if c == '\n' then "\\n"
    else if c == '\r' then "\\r"
    else if c == '\t' then "\\t"
    else if c as int < 0x20 then "\\u" + Hex.Hex4(c as int)
    else [c]
  }

  function Escape(s: string): string {
    if s == [] then [] else EscapeChar(s[0]) + Escape(s[1..])
  }

  function Quote(s: string): string {
    "\"" + Escape(s) + "\""
  }

  /** `JSON.stringify(j)` with no indentation. */
  function Stringify(j: Json): string
    decreases j, 1
  {
    match j
    case JNull => "null"
    case JBool(b) => if b then "true" else "false"
    case JNumber(lexeme) => lexeme
    case JString(s) => Quote(s)
    case JArray(items) => "[" + StringifyItems(items, j) + "]"
    case JObject(fields) => "{" + StringifyFields(fields, j) + "}"
  }

  function StringifyItems(items: seq<Json>, ghost parent: Json): string
    requires forall i | 0 <= i < |items| :: items[i] < parent
    decreases parent, 0, |items|
  {
    if items == [] then []
    else if |items| == 1 then Stringify(items[0])
    else Stringify(items[0]) + "," + StringifyItems(items[1..], parent)
  }

  function StringifyFields(fields: Fields, ghost parent: Json): string
    requires forall i | 0 <= i < |fields| :: fields[i].1 < parent
    decreases parent, 0, |fields|
  {
    if fields == [] then []
    else
      var member := Quote(fields[0].0) + ":" + Stringify(fields[0].1);
      if |fields| == 1 then member else member + "," + StringifyFields(fields[1..], parent)
  }

  // ---------------------------------------------------------------------------------------
  // The number grammar of section 6 of RFC 8259

  /** The length of the run of decimal digits at the start of `s`. */
  function DigitRun(s: string): (n: nat)
    ensures n <= |s|
    ensures forall i | 0 <= i < n :: Text.IsDigit(s[i])
    ensures n < |s| ==> !Text.IsDigit(s[n])
  {
    if s != [] && Text.IsDigit(s[0]) then 1 + DigitRun(s[1..]) else 0
  }

  /** The length of the fraction part at `s` (0 if there is none), or None if it is malformed. */
  function FractionLength(s: string): (r: Option<nat>)
    ensures r.Some? ==> r.value <= |s|
  {
    if s == [] || s[0] != '.' then Some(0)
    else if DigitRun(s[1..]) == 0 then None
    else Some(1 + DigitRun(s[1..]))
  }

  function ExponentLength(s: string): (r: Option<nat>)
    ensures r.Some? ==> r.value <= |s|
  {
    if s == [] || (s[0] != 'e' && s[0] != 'E') then Some(0)
    else
      var sign := if |s| > 1 && (s[1] == '+' || s[1] == '-') then 1 else 0;
      if DigitRun(s[1 + sign..]) == 0 then None
      else Some(1 + sign + DigitRun(s[1 + sign..]))
  }

  /** The length of the integer part at `s`: `0` alone, or digits not starting with `0`. */
  function IntegerLength(s: string): (r: Option<nat>)
    ensures r.Some? ==> 0 < r.value <= |s|
  {
    if s == [] || !Text.IsDigit(s[0]) then None
    else if s[0] == '0' then Some(1)
    else Some(DigitRun(s))
  }

  function AddLength(n: nat, r: Option<nat>): Option<nat> {
    if r.Some? then Some(n + r.value) else None
  }

  /** The length of the fraction and exponent parts at `s`. */
  function TailLength(s: string): (r: Option<nat>)
    ensures r.Some? ==> r.value <= |s|
  {
    match FractionLength(s)
    case None => None
    case Some(f) => AddLength(f, ExponentLength(s[f..]))
  }

  /** The length of an unsigned number at `s`. */
  function UnsignedLength(s: string): (r: Option<nat>)
    ensures r.Some? ==> 0 < r.value <= |s|
  {
    match IntegerLength(s)
    case None => None
    case Some(w) => AddLength(w, TailLength(s[w..]))
  }

  /** The length of the number lexeme at the start of `s`, or None if none starts there. */
  function NumberLength(s: string): (r: Option<nat>)
    ensures r.Some? ==> 0 < r.value <= |s|
  {
    if s != [] && s[0] == '-' then AddLength(1, UnsignedLength(s[1..])) else UnsignedLength(s)
  }

  /** `s` is one complete JSON number. */
  predicate IsNumberLexeme(s: string) {
    NumberLength(s) == Some(|s|)
  }

  /** A character that can never continue a number lexeme. */
  predicate EndsNumber(c: char) {
    !Text.IsDigit(c) && c != '.' && c != 'e' && c != 'E' && c != '+' && c != '-'
  }

  /** `b` cannot extend a lexeme that ends where `a` ends. */
  predicate Stops(b: string) {
    b == [] || EndsNumber(b[0])
  }

  lemma {:induction false} DigitRunStable(a: string, b: string)
    requires DigitRun(a) < |a| || Stops(b)
    ensures DigitRun(a + b) == DigitRun(a)
  {
    if a == [] {
      assert a + b == b;
    } else {
      assert (a + b)[1..] == a[1..] + b;
      assert (a + b)[0] == a[0];
      if Text.IsDigit(a[0]) {
        DigitRunStable(a[1..], b);
      }
    }
  }

  lemma IntegerStable(a: string, b: string)
    requires IntegerLength(a).Some?
    requires IntegerLength(a).value < |a| || Stops(b)
    ensures IntegerLength(a + b) == IntegerLength(a)
  {
    assert (a + b)[0] == a[0];
    if a[0] != '0' {
      DigitRunStable(a, b);
    }
  }

  lemma FractionStable(a: string, b: string)
    requires FractionLength(a).Some?
    requires FractionLength(a).value < |a| || Stops(b)
    ensures FractionLength(a + b) == FractionLength(a)
  {
    if a == [] {
      assert a + b == b;
    } else {
      assert (a + b)[0] == a[0];
      if a[0] == '.' {
        assert (a + b)[1..] == a[1..] + b;
        DigitRunStable(a[1..], b);
      }
    }
  }

  lemma ExponentStable(a: string, b: string)
    requires ExponentLength(a).Some?
    requires ExponentLength(a).value < |a| || Stops(b)
    ensures ExponentLength(a + b) == ExponentLength(a)
  {
    if a == [] {
      assert a + b == b;
    } else {
      assert (a + b)[0] == a[0];
      if a[0] == 'e' || a[0] == 'E' {
        assert |a| > 1;
        assert (a + b)[1] == a[1];
        var sign := if a[1] == '+' || a[1] == '-' then 1 else 0;
        assert (a + b)[1 + sign..] == a[1 + sign..] + b;
        DigitRunStable(a[1 + sign..], b);
      }
    }
  }

  lemma TailStable(a: string, b: string)
    requires TailLength(a) == Some(|a|) && Stops(b)
    ensures TailLength(a + b) == Some(|a|)
  {
    var f := FractionLength(a).value;
    FractionStable(a, b);
    assert (a + b)[f..] == a[f..] + b;
    ExponentStable(a[f..], b);
  }

  lemma UnsignedStable(a: string, b: string)
    requires UnsignedLength(a) == Some(|a|) && Stops(b)
    ensures UnsignedLength(a + b) == Some(|a|)
  {
    var w := IntegerLength(a).value;
    IntegerStable(a, b);
    assert (a + b)[w..] == a[w..] + b;
    TailStable(a[w..], b);
  }

  /** A complete lexeme followed by a character that cannot continue it is read back exactly. */
  lemma NumberLengthAppend(lex: string, rest: string)
    requires IsNumberLexeme(lex)
    requires Stops(rest)
    ensures NumberLength(lex + rest) == Some(|lex|)
  {
    assert (lex + rest)[0] == lex[0];
    if lex[0] == '-' {
      assert (lex + rest)[1..] == lex[1..] + rest;
      UnsignedStable(lex[1..], rest);
    } else {
      UnsignedStable(lex, rest);
    }
  }

  lemma {:induction false} DigitRunAll(s: string)
    requires forall i | 0 <= i < |s| :: Text.IsDigit(s[i])
    ensures DigitRun(s) == |s|
  {
    if s != [] {
      DigitRunAll(s[1..]);
    }
  }

  /** The integers `toString` produces are number lexemes. */
  lemma NatLexeme(n: nat)
    ensures IsNumberLexeme(Text.NatToString(n))
  {
    var s := Text.NatToString(n);
    Text.NatToStringDigits(n);
    if s[0] != '0' {
      DigitRunAll(s);
    } else {
      assert |s| == 1 by {
        assert n == 0;
      }
    }
    assert s[|s|..] == [];
  }

  // ---------------------------------------------------------------------------------------
  // JSON.parse

  /** The insignificant whitespace of RFC 8259. */
  predicate IsJsonSpace(c: char) {
    c == ' ' || c == '\t' || c == '\n' || c == '\r'
  }

  function SkipSpace(s: string): (r: string)
    ensures |r| <= |s|
    ensures r == [] || !IsJsonSpace(r[0])
  {
    if s != [] && IsJsonSpace(s[0]) then SkipSpace(s[1..]) else s
  }

  predicate IsSurrogate(n: nat) {
    0xD800 <= n <= 0xDFFF
  }

  /** The code unit of four hex digits at the start of `s`. */
  function ParseHex4(s: string): (r: Option<nat>)
    ensures r.Some? ==> r.value < 0x10000 && |s| >= 4
  {
    if |s| >= 4 && forall i | 0 <= i < 4 :: Hex.IsHexDigit(s[i]) then Some(Hex.Hex4Value(s[..4]))
    else None
  }

  /** The character a one-letter escape `\e` stands for. */
  function SimpleEscape(e: char): Option<char> {
    if e == '"' then Some('"') else if e == '\\' then Some('\\') else if e == '/' then Some('/')
    else if e == 'b' then Some(0x08 as char) else if e == 'f' then Some(0x0C as char)
    else if e == 'n' then Some('\n') else if e == 'r' then Some('\r')
    else if e == 't' then Some('\t') else None
  }

  /**
   * An escape sequence at the start of `s` (after its backslash): the character and the
   * length consumed. A lone surrogate is rejected, since a Dafny string cannot hold it.
   */
  function ParseEscape(s: string): (r: Option<(char, nat)>)
    ensures r.Some? ==> 0 < r.value.1 <= |s|
  {
    if s == [] then None
    else if SimpleEscape(s[0]).Some? then Some((SimpleEscape(s[0]).value, 1))
    else if s[0] != 'u' then None
    else
      var hi := ParseHex4(s[1..]);
      if hi.None? then None
      else if !IsSurrogate(hi.value) then Some((hi.value as char, 5))
      else if hi.value >= 0xDC00 || |s| < 7 || s[5] != '\\' || s[6] != 'u' then None
      else
        var lo := ParseHex4(s[7..]);
        if lo.None? || !(0xDC00 <= lo.value <= 0xDFFF) then None
        else Some(((0x10000 + (hi.value - 0xD800) * 0x400 + (lo.value - 0xDC00)) as char, 11))
  }

  /** `c` put in front of the body of a parsed string. */
  function Prepend(c: char, r: Option<(string, string)>): Option<(string, string)> {
    match r
    case None => None
    case Some((body, rest)) => Some(([c] + body, rest))
  }

  /**
   * The body of a string literal after its opening quote: the characters up to the closing
   * quote, and what follows that quote. Raw control characters are rejected.
   */
  function ParseStringBody(s: string): (r: Option<(string, string)>)
    ensures r.Some? ==> |r.value.1| < |s|
    decreases |s|
  {
    if s == [] then None
    else if s[0] == '"' then Some(([], s[1..]))
    else if s[0] as int < 0x20 then None
    else if s[0] != '\\' then Prepend(s[0], ParseStringBody(s[1..]))
    else
      match ParseEscape(s[1..])
      case None => None
      case Some((c, k)) => Prepend(c, ParseStringBody(s[1 + k..]))
  }

  /** One token (literal, string, number, array or object) at the start of `t`. */
  function ParseToken(t: string): (r: Option<(Json, string)>)
    ensures r.Some? ==> |r.value.1| < |t|
    decreases |t|, 0
  {
    if t == [] then None
    else if t[0] == 'n' then (if Text.StartsWith(t, "null") then Some((JNull, t[4..])) else None)
    else if t[0] == 't' then (if Text.StartsWith(t, "true") then Some((JBool(true), t[4..])) else None)
    else if t[0] == 'f' then
      (if Text.StartsWith(t, "false") then Some((JBool(false), t[5..])) else None)
    else if t[0] == '"' then
      match ParseStringBody(t[1..])
      case None => None
      case Some((str, rest)) => Some((JString(str), rest))
    else if t[0] == '[' then ParseArray(t[1..])
    else if t[0] == '{' then ParseObject(t[1..])
    else
      match NumberLength(t)
      case None => None
      case Some(n) => Some((JNumber(t[..n]), t[n..]))
  }

  /** One value at the start of `s`, with the whitespace around it skipped. */
  function ParseValue(s: string): (r: Option<(Json, string)>)
    ensures r.Some? ==> |r.value.1| < |s|
    decreases |s|, 1
  {
    match ParseToken(SkipSpace(s))
    case None => None
    case Some((v, rest)) => Some((v, SkipSpace(rest)))
  }

  /** An array after its `[`. */
  function ParseArray(s: string): (r: Option<(Json, string)>)
    ensures r.Some? ==> |r.value.1| < |s|
    decreases |s|, 3
  {
    var t := SkipSpace(s);
    if t != [] && t[0] == ']' then Some((JArray([]), t[1..]))
    else
      match ParseItems(s)
      case None => None
      case Some((items, rest)) => Some((JArray(items), rest))
  }

  /** One or more array elements and the closing `]`. */
  function ParseItems(s: string): (r: Option<(seq<Json>, string)>)
    ensures r.Some? ==> |r.value.1| < |s|
    decreases |s|, 2
  {
    match ParseValue(s)
    case None => None
    case Some((v, rest)) =>
      if rest != [] && rest[0] == ']' then Some(([v], rest[1..]))
      else if rest != [] && rest[0] == ',' then
        match ParseItems(rest[1..])
        case None => None
        case Some((more, rest')) => Some(([v] + more, rest'))
      else None
  }

  /** An object after its `{`; a repeated key keeps its first position and its last value. */
  function ParseObject(s: string): (r: Option<(Json, string)>)
    ensures r.Some? ==> |r.value.1| < |s|
    decreases |s|, 3
  {
    var t := SkipSpace(s);
    if t != [] && t[0] == '}' then Some((JObject([]), t[1..]))
    else
      match ParseMembers(s)
      case None => None
      case Some((members, rest)) => Some((JObject(Build([], members)), rest))
  }

  /** One `"key": value` member at the start of `s`, and what follows it. */
  function ParseMember(s: string): (r: Option<((string, Json), string)>)
    ensures r.Some? ==> |r.value.1| < |s|
    decreases |s|, 1
  {
    var t := SkipSpace(s);
    if t == [] || t[0] != '"' then None
    else
      match ParseStringBody(t[1..])
      case None => None
      case Some((key, afterKey)) =>
        var c := SkipSpace(afterKey);
        if c == [] || c[0] != ':' then None
        else
          match ParseValue(c[1..])
          case None => None
          case Some((v, rest)) => Some(((key, v), rest))
  }

  /** One or more members and the closing `}`, in the order written. */
  function ParseMembers(s: string): (r: Option<(Fields, string)>)
    ensures r.Some? ==> |r.value.1| < |s|
    decreases |s|, 2
  {
    match ParseMember(s)
    case None => None
    case Some((m, rest)) =>
      if rest != [] && rest[0] == '}' then Some(([m], rest[1..]))
      else if rest != [] && rest[0] == ',' then
        match ParseMembers(rest[1..])
        case None => None
        case Some((more, rest')) => Some(([m] + more, rest'))
      else None
  }

  /** `JSON.parse(s)`: None where it would throw a SyntaxError. */
  function Parse(s: string): Option<Json> {
    match ParseValue(s)
    case Some((v, rest)) => if rest == [] then Some(v) else None
    case None => None
  }

  // ---------------------------------------------------------------------------------------
  // Round trip

  /** A value a JavaScript object can stand for: numbers are lexemes, keys are distinct. */
  predicate Canonical(j: Json)
    decreases j
  {
    match j
    case JNumber(lexeme) => IsNumberLexeme(lexeme)
    case JArray(items) => forall i | 0 <= i < |items| :: Canonical(items[i])
    case JObject(fields) =>
      KeysDistinct(fields) && forall i | 0 <= i < |fields| :: Canonical(fields[i].1)
    case _ => true
  }

  /** What may follow a value inside a document that `JSON.stringify` wrote. */
  predicate Delimited(rest: string) {
    rest == [] || rest[0] == ',' || rest[0] == ']' || rest[0] == '}'
  }

  lemma PlainCharRoundTrip(c: char, more: string)
    requires c != '"' && c != '\\' && c as int >= 0x20
    ensures ParseStringBody([c] + more) == Prepend(c, ParseStringBody(more))
  {
    assert ([c] + more)[1..] == more;
  }

  lemma ShortEscapeRoundTrip(c: char, e: char, more: string)
    requires SimpleEscape(e) == Some(c)
    ensures ParseStringBody(['\\', e] + more) == Prepend(c, ParseStringBody(more))
  {
    var s := ['\\', e] + more;
    assert s[1..] == [e] + more;
    assert ParseEscape(s[1..]) == Some((c, 1));
    assert s[2..] == more;
  }

  lemma ControlEscapeRoundTrip(c: char, more: string)
    requires c as int < 0x20
    ensures ParseStringBody("\\u" + Hex.Hex4(c as int) + more) == Prepend(c, ParseStringBody(more))
  {
    var h := Hex.Hex4(c as int);
    var s := "\\u" + h + more;
    var e := s[1..];
    assert e == "u" + h + more;
    assert e[1..][..4] == h;
    Hex.Hex4RoundTrip(c as int);
    assert ParseHex4(e[1..]) == Some(c as int);
    assert ParseEscape(e) == Some((c, 5));
    assert s[6..] == more;
  }

  lemma EscapeCharRoundTrip(c: char, more: string)
    ensures ParseStringBody(EscapeChar(c) + more) == Prepend(c, ParseStringBody(more))
  {
    if c == '"' {
      ShortEscapeRoundTrip(c, '"', more);
    } else if c == '\\' {
      ShortEscapeRoundTrip(c, '\\', more);
    } else if c as int == 0x08 {
      ShortEscapeRoundTrip(c, 'b', more);
    } else if c as int == 0x0C {
      ShortEscapeRoundTrip(c, 'f', more);
    } else if c == '\n' {
      ShortEscapeRoundTrip(c, 'n', more);
    } else if c == '\r' {
      ShortEscapeRoundTrip(c, 'r', more);
    } else if c == '\t' {
      ShortEscapeRoundTrip(c, 't', more);
    } else if c as int < 0x20 {
      ControlEscapeRoundTrip(c, more);
    } else {
      PlainCharRoundTrip(c, more);
    }
  }

  lemma {:induction false} EscapeRoundTrip(str: string, rest: string)
    ensures ParseStringBody(Escape(str) + "\"" + rest) == Some((str, rest))
  {
    if str == [] {
      assert Escape(str) + "\"" + rest == "\"" + rest;
    } else {
      var more := Escape(str[1..]) + "\"" + rest;
      assert Escape(str) + "\"" + rest == EscapeChar(str[0]) + more;
      EscapeRoundTrip(str[1..], rest);
      EscapeCharRoundTrip(str[0], more);
      assert [str[0]] + str[1..] == str;
    }
  }

  lemma QuoteRoundTrip(str: string, rest: string)
    ensures (Quote(str) + rest)[0] == '"'
    ensures ParseStringBody((Quote(str) + rest)[1..]) == Some((str, rest))
  {
    assert (Quote(str) + rest)[1..] == Escape(str) + "\"" + rest;
    EscapeRoundTrip(str, rest);
  }

  /** `Stringify` never starts with whitespace or a closing bracket. */
  lemma ValueStart(j: Json)
    requires Canonical(j)
    ensures Stringify(j) != []
    ensures !IsJsonSpace(Stringify(j)[0]) && Stringify(j)[0] != ']' && Stringify(j)[0] != '}'
  {
    match j {
      case JNumber(lexeme) =>
        var sign := if lexeme != [] && lexeme[0] == '-' then 1 else 0;
        assert lexeme[sign..][0] == lexeme[sign];
      case _ =>
    }
  }

  lemma ParseTokenNumber(t: string)
    requires t != [] && (t[0] == '-' || Text.IsDigit(t[0]))
    ensures ParseToken(t) ==
      match NumberLength(t)
      case None => None
      case Some(n) => Some((JNumber(t[..n]), t[n..]))
  {
    assert t[0] != 'n' && t[0] != 't' && t[0] != 'f' && t[0] != '"' && t[0] != '[' && t[0] != '{';
  }

  lemma NumberRoundTrip(lexeme: string, rest: string)
    requires IsNumberLexeme(lexeme) && Delimited(rest)
    ensures ParseToken(lexeme + rest) == Some((JNumber(lexeme), rest))
  {
    var s := lexeme + rest;
    NumberLengthAppend(lexeme, rest);
    assert s[..|lexeme|] == lexeme && s[|lexeme|..] == rest;
    assert s[0] == lexeme[0];
    if lexeme[0] != '-' {
      assert Text.IsDigit(lexeme[0]);
    }
    ParseTokenNumber(s);
  }

  lemma LiteralRoundTrip(j: Json, rest: string)
    requires j.JNull? || j.JBool?
    ensures ParseToken(Stringify(j) + rest) == Some((j, rest))
  {
    var s := Stringify(j) + rest;
    var n := |Stringify(j)|;
    assert s[..n] == Stringify(j) && s[n..] == rest;
  }

  lemma ArrayRoundTrip(j: Json, rest: string)
    requires j.JArray? && Canonical(j) && Delimited(rest)
    ensures ParseToken(Stringify(j) + rest) == Some((j, rest))
    decreases j, 0
  {
    var s := Stringify(j) + rest;
    assert s[1..] == StringifyItems(j.items, j) + "]" + rest;
    if j.items == [] {
      assert s[1..] == "]" + rest;
    } else {
      ItemsRoundTrip(j.items, j, rest);
      ValueStart(j.items[0]);
      assert StringifyItems(j.items, j)[0] == Stringify(j.items[0])[0];
      ArrayStep(StringifyItems(j.items, j), j.items, rest);
    }
  }

  lemma ArrayStep(text: string, items: seq<Json>, rest: string)
    requires text != [] && text[0] != ']' && !IsJsonSpace(text[0])
    requires ParseItems(text + "]" + rest) == Some((items, rest))
    ensures ParseToken("[" + text + "]" + rest) == Some((JArray(items), rest))
  {
    var t := "[" + text + "]" + rest;
    assert t[0] == '[' && t[1..] == text + "]" + rest;
    assert t[1..][0] == text[0];
  }

  lemma ObjectRoundTrip(j: Json, rest: string)
    requires j.JObject? && Canonical(j) && Delimited(rest)
    ensures ParseToken(Stringify(j) + rest) == Some((j, rest))
    decreases j, 0, 2
  {
    var body := StringifyFields(j.fields, j) + "}" + rest;
    assert Stringify(j) + rest == "{" + body;
    ParseTokenObject("{" + body);
    assert ("{" + body)[1..] == body;
    ObjectBodyRoundTrip(j, rest);
  }

  lemma ObjectBodyRoundTrip(j: Json, rest: string)
    requires j.JObject? && Canonical(j) && Delimited(rest)
    ensures ParseObject(StringifyFields(j.fields, j) + "}" + rest) == Some((j, rest))
    decreases j, 0, 1
  {
    var body := StringifyFields(j.fields, j) + "}" + rest;
    if j.fields == [] {
      assert body == "}" + rest;
      assert body[0] == '}' && !IsJsonSpace('}');
      assert body[1..] == rest;
    } else {
      FieldsRoundTrip(j.fields, j, rest);
      ObjectBodyStep(j, rest);
    }
  }

  lemma ObjectBodyStep(j: Json, rest: string)
    requires j.JObject? && j.fields != [] && KeysDistinct(j.fields)
    requires ParseMembers(StringifyFields(j.fields, j) + "}" + rest) == Some((j.fields, rest))
    ensures ParseObject(StringifyFields(j.fields, j) + "}" + rest) == Some((j, rest))
  {
    var body := StringifyFields(j.fields, j) + "}" + rest;
    FieldsStart(j.fields, j);
    assert body[0] == '"' && !IsJsonSpace('"') && '"' != '}';
    assert [] + j.fields == j.fields;
    BuildIdentity([], j.fields);
    ObjectStep(body, j.fields, rest);
  }

  lemma FieldsStart(fields: Fields, parent: Json)
    requires fields != [] && forall i | 0 <= i < |fields| :: fields[i].1 < parent
    ensures StringifyFields(fields, parent) != [] && StringifyFields(fields, parent)[0] == '"'
  {
  }

  lemma ParseTokenObject(t: string)
    requires t != [] && t[0] == '{'
    ensures ParseToken(t) == ParseObject(t[1..])
  {
    assert t[0] != 'n' && t[0] != 't' && t[0] != 'f' && t[0] != '"' && t[0] != '[';
  }

  lemma ObjectStep(s: string, members: Fields, rest: string)
    requires s != [] && s[0] != '}' && !IsJsonSpace(s[0])
    requires ParseMembers(s) == Some((members, rest))
    ensures ParseObject(s) == Some((JObject(Build([], members)), rest))
  {
  }

  /** `JSON.parse` reads back exactly the value `JSON.stringify` wrote, and stops after it. */
  lemma {:induction false} ValueRoundTrip(j: Json, rest: string)
    requires Canonical(j) && Delimited(rest)
    ensures ParseValue(Stringify(j) + rest) == Some((j, rest))
    decreases j, 1
  {
    ValueStart(j);
    var s := Stringify(j) + rest;
    assert s[0] == Stringify(j)[0];
    match j {
      case JNull => LiteralRoundTrip(j, rest);
      case JBool(_) => LiteralRoundTrip(j, rest);
      case JNumber(lexeme) => NumberRoundTrip(lexeme, rest);
      case JString(str) => QuoteRoundTrip(str, rest);
      case JArray(_) => ArrayRoundTrip(j, rest);
      case JObject(_) => ObjectRoundTrip(j, rest);
    }
  }

  lemma {:induction false} ItemsRoundTrip(items: seq<Json>, parent: Json, rest: string)
    requires items != []
    requires forall i | 0 <= i < |items| :: items[i] < parent && Canonical(items[i])
    requires Delimited(rest)
    ensures ParseItems(StringifyItems(items, parent) + "]" + rest) == Some((items, rest))
    decreases parent, 0, |items|, 1
  {
    if |items| == 1 {
      OneItemRoundTrip(items, parent, rest);
    } else {
      ItemsRoundTrip(items[1..], parent, rest);
      MoreItemsRoundTrip(items, parent, rest);
    }
  }

  lemma OneItemRoundTrip(items: seq<Json>, parent: Json, rest: string)
    requires |items| == 1
    requires items[0] < parent && Canonical(items[0])
    requires Delimited(rest)
    ensures ParseItems(StringifyItems(items, parent) + "]" + rest) == Some((items, rest))
    decreases parent, 0, |items|, 0
  {
    var first := Stringify(items[0]);
    assert StringifyItems(items, parent) + "]" + rest == first + ("]" + rest);
    ValueRoundTrip(items[0], "]" + rest);
    LastItem(first + ("]" + rest), items[0], rest);
    assert items == [items[0]];
  }

  /** The step of the round trip for an array with more than one element. */
  lemma MoreItemsRoundTrip(items: seq<Json>, parent: Json, rest: string)
    requires |items| > 1
    requires forall i | 0 <= i < |items| :: items[i] < parent && Canonical(items[i])
    requires Delimited(rest)
    requires ParseItems(StringifyItems(items[1..], parent) + "]" + rest) == Some((items[1..], rest))
    ensures ParseItems(StringifyItems(items, parent) + "]" + rest) == Some((items, rest))
    decreases parent, 0, |items|, 0
  {
    var tail := StringifyItems(items[1..], parent) + "]" + rest;
    ValueRoundTrip(items[0], "," + tail);
    MoreItemsStep(items, parent, rest);
  }

  lemma MoreItemsStep(items: seq<Json>, parent: Json, rest: string)
    requires |items| > 1 && forall i | 0 <= i < |items| :: items[i] < parent
    requires var tail := StringifyItems(items[1..], parent) + "]" + rest;
             && ParseValue(Stringify(items[0]) + ("," + tail)) == Some((items[0], "," + tail))
             && ParseItems(tail) == Some((items[1..], rest))
    ensures ParseItems(StringifyItems(items, parent) + "]" + rest) == Some((items, rest))
  {
    var tail := StringifyItems(items[1..], parent) + "]" + rest;
    ItemsCons(items, parent, rest);
    NextItem(Stringify(items[0]) + ("," + tail), items[0], tail, items[1..], rest);
    assert [items[0]] + items[1..] == items;
  }

  lemma LastItem(s: string, v: Json, rest: string)
    requires ParseValue(s) == Some((v, "]" + rest))
    ensures ParseItems(s) == Some(([v], rest))
  {
    assert ("]" + rest)[1..] == rest;
  }

  lemma NextItem(s: string, v: Json, tail: string, more: seq<Json>, rest: string)
    requires ParseValue(s) == Some((v, "," + tail))
    requires ParseItems(tail) == Some((more, rest))
    ensures ParseItems(s) == Some(([v] + more, rest))
  {
    assert ("," + tail)[0] == ',' && ',' != ']';
    assert ("," + tail)[1..] == tail;
  }

  lemma LastMember(s: string, m: (string, Json), rest: string)
    requires ParseMember(s) == Some((m, "}" + rest))
    ensures ParseMembers(s) == Some(([m], rest))
  {
    assert ("}" + rest)[1..] == rest;
  }

  lemma NextMember(s: string, m: (string, Json), tail: string, more: Fields, rest: string)
    requires ParseMember(s) == Some((m, "," + tail))
    requires ParseMembers(tail) == Some((more, rest))
    ensures ParseMembers(s) == Some(([m] + more, rest))
  {
    assert ("," + tail)[0] == ',' && ',' != '}';
    assert ("," + tail)[1..] == tail;
  }

  lemma MemberRoundTrip(key: string, v: Json, after: string)
    requires Canonical(v) && Delimited(after)
    ensures ParseMember(Quote(key) + (":" + Stringify(v) + after)) == Some(((key, v), after))
    decreases v, 2
  {
    ValueRoundTrip(v, after);
    MemberCompose(key, Stringify(v), v, after);
  }

  lemma MemberCompose(key: string, text: string, v: Json, after: string)
    requires ParseValue(text + after) == Some((v, after))
    ensures ParseMember(Quote(key) + (":" + text + after)) == Some(((key, v), after))
  {
    var c := ":" + text + after;
    QuoteRoundTrip(key, c);
    assert c[1..] == text + after;
    MemberStep(Quote(key) + c, key, c, v, after);
  }

  lemma MemberStep(t: string, key: string, c: string, v: Json, after: string)
    requires t != [] && t[0] == '"'
    requires ParseStringBody(t[1..]) == Some((key, c))
    requires c != [] && c[0] == ':'
    requires ParseValue(c[1..]) == Some((v, after))
    ensures ParseMember(t) == Some(((key, v), after))
  {
    assert !IsJsonSpace('"') && !IsJsonSpace(':');
    assert SkipSpace(t) == t;
    assert SkipSpace(c) == c;
  }

  lemma {:induction false} FieldsRoundTrip(fields: Fields, parent: Json, rest: string)
    requires fields != []
    requires forall i | 0 <= i < |fields| :: fields[i].1 < parent && Canonical(fields[i].1)
    requires Delimited(rest)
    ensures ParseMembers(StringifyFields(fields, parent) + "}" + rest) == Some((fields, rest))
    decreases parent, 0, 0, |fields|, 1
  {
    if |fields| == 1 {
      OneFieldRoundTrip(fields, parent, rest);
    } else {
      FieldsRoundTrip(fields[1..], parent, rest);
      MoreFieldsRoundTrip(fields, parent, rest);
    }
  }

  lemma OneFieldRoundTrip(fields: Fields, parent: Json, rest: string)
    requires |fields| == 1
    requires fields[0].1 < parent && Canonical(fields[0].1)
    requires Delimited(rest)
    ensures ParseMembers(StringifyFields(fields, parent) + "}" + rest) == Some((fields, rest))
    decreases parent, 0, 0, |fields|, 0
  {
    var key := fields[0].0;
    var v := fields[0].1;
    var after := "}" + rest;
    var m := Quote(key) + (":" + Stringify(v) + after);
    assert StringifyFields(fields, parent) + "}" + rest == m;
    MemberRoundTrip(key, v, after);
    LastMember(m, (key, v), rest);
    assert fields == [(key, v)];
  }

  /** The step of the round trip for an object with more than one member. */
  lemma MoreFieldsRoundTrip(fields: Fields, parent: Json, rest: string)
    requires |fields| > 1
    requires forall i | 0 <= i < |fields| :: fields[i].1 < parent && Canonical(fields[i].1)
    requires Delimited(rest)
    requires ParseMembers(StringifyFields(fields[1..], parent) + "}" + rest) == Some((fields[1..], rest))
    ensures ParseMembers(StringifyFields(fields, parent) + "}" + rest) == Some((fields, rest))
    decreases parent, 0, 0, |fields|, 0
  {
    var key := fields[0].0;
    var v := fields[0].1;
    var tail := StringifyFields(fields[1..], parent) + "}" + rest;
    MemberRoundTrip(key, v, "," + tail);
    MoreFieldsStep(fields, parent, rest);
  }

  lemma MoreFieldsStep(fields: Fields, parent: Json, rest: string)
    requires |fields| > 1 && forall i | 0 <= i < |fields| :: fields[i].1 < parent
    requires var tail := StringifyFields(fields[1..], parent) + "}" + rest;
             && ParseMember(Quote(fields[0].0) + (":" + Stringify(fields[0].1) + ("," + tail))) == Some((fields[0], "," + tail))
             && ParseMembers(tail) == Some((fields[1..], rest))
    ensures ParseMembers(StringifyFields(fields, parent) + "}" + rest) == Some((fields, rest))
  {
    var tail := StringifyFields(fields[1..], parent) + "}" + rest;
    var m := Quote(fields[0].0) + (":" + Stringify(fields[0].1) + ("," + tail));
    FieldsCons(fields, parent, rest);
    NextMember(m, fields[0], tail, fields[1..], rest);
    assert [fields[0]] + fields[1..] == fields;
  }

  lemma ItemsCons(items: seq<Json>, parent: Json, rest: string)
    requires |items| > 1 && forall i | 0 <= i < |items| :: items[i] < parent
    ensures StringifyItems(items, parent) + "]" + rest
            == Stringify(items[0]) + ("," + (StringifyItems(items[1..], parent) + "]" + rest))
  {
    var first := Stringify(items[0]);
    var more := StringifyItems(items[1..], parent);
    assert StringifyItems(items, parent) == first + "," + more;
    assert first + "," + more + "]" + rest == first + ("," + (more + "]" + rest));
  }

  lemma FieldsCons(fields: Fields, parent: Json, rest: string)
    requires |fields| > 1 && forall i | 0 <= i < |fields| :: fields[i].1 < parent
    ensures var more := StringifyFields(fields[1..], parent);
            StringifyFields(fields, parent) + "}" + rest
            == Quote(fields[0].0) + (":" + Stringify(fields[0].1) + ("," + (more + "}" + rest)))
  {
    var q := Quote(fields[0].0);
    var sv := Stringify(fields[0].1);
    var more := StringifyFields(fields[1..], parent);
    assert StringifyFields(fields, parent) == q + ":" + sv + "," + more;
    Regroup(q, sv, more, rest);
  }

  lemma Regroup(q: string, sv: string, more: string, rest: string)
    ensures q + ":" + sv + "," + more + "}" + rest == q + (":" + sv + ("," + (more + "}" + rest)))
  {
  }

  /** `JSON.parse(JSON.stringify(j))` gives `j` back. */
  lemma ParseStringify(j: Json)
    requires Canonical(j)
    ensures Parse(Stringify(j)) == Some(j)
  {
    ValueRoundTrip(j, []);
    assert Stringify(j) + [] == Stringify(j);
  }

  /** Different JavaScript values never print the same. */
  lemma StringifyInjective(a: Json, b: Json)
    requires Canonical(a) && Canonical(b)
    requires Stringify(a) == Stringify(b)
    ensures a == b
  {
    ParseStringify(a);
    ParseStringify(b);
  }
}
