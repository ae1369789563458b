/**
 * JSON text as the broker messages carry it: `JSON.stringify` on the producing
 * side and `JSON.parse` followed by an unchecked cast on the consuming side.
 *
 * Numbers are integers (every number the pipeline writes is a millisecond
 * count); strings are sequences of Unicode scalar values.
 */
module Json {
  import opened Wrappers

  datatype Json =
    | JNull
    | JBool(b: bool)
    | JNum(n: int)
    | JStr(s: string)
    | JArr(items: seq<Json>)
    | JObj(members: seq<Member>)

  datatype Member = Member(key: string, value: Json)

  // ---------------------------------------------------------------------
  // Reading a parsed value the way the consumers do: `obj.field` and `if (x)`.
  // ---------------------------------------------------------------------

  /** `v[key]` on a parsed value: the last member named `key` of an object
      (JSON.parse keeps the last duplicate), `undefined` (None) otherwise. */
  function Get(v: Json, key: string): (r: Option<Json>)
    ensures r.Some? ==> v.JObj? && exists i :: 0 <= i < |v.members| && v.members[i] == Member(key, r.value)
    ensures r.None? && v.JObj? ==> forall i :: 0 <= i < |v.members| ==> v.members[i].key != key
  {
    if v.JObj? then Lookup(v.members, key) else None
  }

  function Lookup(ms: seq<Member>, key: string): (r: Option<Json>)
    ensures r.Some? ==> exists i :: 0 <= i < |ms| && ms[i] == Member(key, r.value)
    ensures r.None? ==> forall i :: 0 <= i < |ms| ==> ms[i].key != key
  {
    if ms == [] then None
    else if ms[|ms| - 1].key == key then Some(ms[|ms| - 1].value)
    else Lookup(ms[..|ms| - 1], key)
  }

  /** JavaScript truthiness of a field value (`undefined` is None). */
  predicate Truthy(v: Option<Json>)
  {
    match v
    case None => false
    case Some(JNull) => false
    case Some(JBool(b)) => b
    case Some(JNum(n)) => n != 0
    case Some(JStr(s)) => s != ""
    case Some(JArr(_)) => true
    case Some(JObj(_)) => true
  }

  // ---------------------------------------------------------------------
  // Numeric coercion: what `Date.now() - v` does to a parsed value `v`.
  // ---------------------------------------------------------------------

  /** WhiteSpace and LineTerminator, the characters `Number(text)` trims. */
  predicate IsJsSpace(c: char)
  {
    || c == '\t' || c == '\n' || c == 11 as char || c == 12 as char || c == '\r' || c == ' '
    || c == 0xA0 as char || c == 0x1680 as char || (0x2000 as char <= c <= 0x200A as char)
    || c == 0x2028 as char || c == 0x2029 as char || c == 0x202F as char || c == 0x205F as char
    || c == 0x3000 as char || c == 0xFEFF as char
  }

  function TrimJs(s: string): (r: string)
    ensures |r| <= |s|
    ensures r != [] ==> !IsJsSpace(r[0]) && !IsJsSpace(r[|r| - 1])
    decreases |s|
  {
    if s == [] then []
    else if IsJsSpace(s[0]) then TrimJs(s[1..])
    else if IsJsSpace(s[|s| - 1]) then TrimJs(s[..|s| - 1])
    else s
  }

  /** The value of a digit or letter as a digit of base 36; 36 for anything else. */
  function DigitOf(c: char): (d: nat)
    ensures d <= 36
  {
    if '0' <= c <= '9' then c as int - 48
    else if 'a' <= c <= 'z' then c as int - 87
    else if 'A' <= c <= 'Z' then c as int - 55
    else 36
  }

  predicate AllDigits(ds: string, base: nat)
  {
    forall i :: 0 <= i < |ds| ==> DigitOf(ds[i]) < base
  }

  function RadixValue(ds: string, base: nat): nat
    requires AllDigits(ds, base)
  {
    if ds == [] then 0 else RadixValue(ds[..|ds| - 1], base) * base + DigitOf(ds[|ds| - 1])
  }

  /** StringToNumber on integer text: blank is 0; `0x`, `0o` and `0b`
      literals; otherwise an optional sign and decimal digits.  None is NaN,
      `Infinity`, or a numeric literal with a fraction or an exponent. */
  function StringToNumber(s: string): (r: Option<int>)
  {
    var t := TrimJs(s);
    if t == [] then Some(0)
    else if |t| > 2 && t[0] == '0' && (t[1] == 'x' || t[1] == 'X') then
      if AllDigits(t[2..], 16) then Some(RadixValue(t[2..], 16)) else None
    else if |t| > 2 && t[0] == '0' && (t[1] == 'o' || t[1] == 'O') then
      if AllDigits(t[2..], 8) then Some(RadixValue(t[2..], 8)) else None
    else if |t| > 2 && t[0] == '0' && (t[1] == 'b' || t[1] == 'B') then
      if AllDigits(t[2..], 2) then Some(RadixValue(t[2..], 2)) else None
    else
      var negative := t[0] == '-';
      var body := if t[0] == '-' || t[0] == '+' then t[1..] else t;
      if body != [] && AllDigits(body, 10) then
        var n: int := RadixValue(body, 10);
        Some(if negative then -n else n)
      else None
  }

  /** `ToNumber` on a parsed value: `null` is 0, a boolean 0 or 1, a string
      is read as numeric text, and an array goes through its `toString`
      (`[]` is "", `[x]` is the text of x, two or more elements contain a
      comma); an object's text "[object Object]" is NaN. */
  function ToNumber(v: Json): (r: Option<int>)
    ensures v.JNum? ==> r == Some(v.n)
    ensures v.JObj? ==> r.None?
  {
    match v
    case JNull => Some(0)
    case JBool(b) => Some(if b then 1 else 0)
    case JNum(n) => Some(n)
    case JStr(s) => StringToNumber(s)
    case JArr(items) =>
      if |items| == 0 then Some(0)
      else if |items| == 1 then (if items[0].JBool? then None else ToNumber(items[0]))
      else None
    case JObj(_) => None
  }

  lemma {:induction false} DecimalValue(ds: string)
    requires forall i :: 0 <= i < |ds| ==> IsDigit(ds[i])
    ensures AllDigits(ds, 10) && RadixValue(ds, 10) == DigitsValue(ds)
    decreases |ds|
  {
    if ds != [] {
      DecimalValue(ds[..|ds| - 1]);
    }
  }

  /** The text of an integer, as a string value, coerces back to it:
      `Date.now() - "5"` is `Date.now() - 5`. */
  lemma IntTextToNumber(n: int)
    ensures StringToNumber(IntText(n)) == Some(n)
  {
    var m: nat := if n < 0 then -n else n;
    var ds := NatText(m);
    NatTextDigits(m);
    DecimalValue(ds);
    var t := IntText(n);
    assert IsDigit(ds[0]) && IsDigit(ds[|ds| - 1]);
    if n < 0 {
      assert t == "-" + ds && t[1..] == ds;
      NoTrim(t);
    } else {
      assert t == ds;
      NoTrim(t);
      assert !(|t| > 2 && t[0] == '0');
    }
  }

  lemma NoTrim(t: string)
    requires t != [] && (t[0] == '-' || IsDigit(t[0])) && IsDigit(t[|t| - 1])
    ensures TrimJs(t) == t
  {
  }

  /** An object literal built from optional fields: `JSON.stringify` drops a
      member whose value is `undefined`. */
  function ObjectOf(fields: seq<(string, Option<Json>)>): (r: Json)
    ensures r.JObj? && |r.members| <= |fields|
  {
    if fields == [] then JObj([])
    else
      var rest := ObjectOf(fields[1..]).members;
      match fields[0].1
      case None => JObj(rest)
      case Some(v) => JObj([Member(fields[0].0, v)] + rest)
  }

  // ---------------------------------------------------------------------
  // JSON.stringify
  // ---------------------------------------------------------------------

  function Stringify(j: Json): string
  {
    match j
    case JNull => "null"
    case JBool(b) => if b then "true" else "false"
    case JNum(n) => IntText(n)
    case JStr(s) => Quote(s)
    case JArr(items) => "[" + Items(items) + "]"
    case JObj(ms) => "{" + Members(ms) + "}"
  }

  function Items(xs: seq<Json>): string
  {
    if xs == [] then ""
    else Stringify(xs[0]) + (if |xs| == 1 then "" else "," + Items(xs[1..]))
  }

  function Members(ms: seq<Member>): string
  {
    if ms == [] then ""
    else Quote(ms[0].key) + ":" + Stringify(ms[0].value)
         + (if |ms| == 1 then "" else "," + Members(ms[1..]))
  }

  function Quote(s: string): string
  {
    "\"" + Escape(s) + "\""
  }

  function Escape(s: string): string
  {
    if s == [] then "" else EscapeChar(s[0]) + Escape(s[1..])
  }

  /** The escapes JSON.stringify writes: the two-character forms where JSON
      has one, `\u00xx` (lower-case hex) for the other control characters. */
  function EscapeChar(c: char): string
  {
    if c == '"' then "\\\""
    else if c == '\\' then "\\\\"
    else if c == 8 as char then "\\b"
    else if c == 12 as char then "\\f"
    else if c == '\n' then "\\n"
    else if c == '\r' then "\\r"
    else if c == '\t' then "\\t"
    else if c < 32 as char then "\\u00" + [HexDigit(c as int / 16), HexDigit(c as int % 16)]
    else [c]
  }

  function HexDigit(d: int): char
    requires 0 <= d < 16
  {
    if d < 10 then (48 + d) as char else (87 + d) as char
  }

  function IntText(n: int): string
  {
    if n < 0 then "-" + NatText(-n) else NatText(n)
  }

  function NatText(n: nat): (r: string)
    ensures r != []
  {
    if n < 10 then [DigitChar(n)] else NatText(n / 10) + [DigitChar(n % 10)]
  }

  function DigitChar(d: int): char
    requires 0 <= d < 10
  {
    (48 + d) as char
  }

  // ---------------------------------------------------------------------
  // JSON.parse
  // ---------------------------------------------------------------------

  predicate IsWs(c: char)
  {
    c == ' ' || c == '\t' || c == '\n' || c == '\r'
  }

  predicate IsDigit(c: char)
  {
    '0' <= c <= '9'
  }

  function SkipWs(s: string): (r: string)
    ensures |r| <= |s|
    ensures r == [] || !IsWs(r[0])
  {
    if s != [] && IsWs(s[0]) then SkipWs(s[1..]) else s
  }

  /** JSON.parse: one value, surrounded by optional white space, and nothing else. */
  function Parse(text: string): (r: Option<Json>)
  {
    match ParseValue(text)
    case None => None
    case Some((v, rest)) => if SkipWs(rest) == [] then Some(v) else None
  }

  /** Parse one value after optional leading white space; returns it with what follows. */
  function ParseValue(s: string): (r: Option<(Json, string)>)
    ensures r.Some? ==> |r.value.1| < |s|
    decreases |s|, 0
  {
    var t := SkipWs(s);
    if t == [] then None
    else if t[0] == 'n' then
      if |t| >= 4 && t[..4] == "null" then Some((JNull, t[4..])) else None
    else if t[0] == 't' then
      if |t| >= 4 && t[..4] == "true" then Some((JBool(true), t[4..])) else None
    else if t[0] == 'f' then
      if |t| >= 5 && t[..5] == "false" then Some((JBool(false), t[5..])) else None
    else if t[0] == '"' then
      match ParseStringBody(t[1..])
      case None => None
      case Some((str, rest)) => Some((JStr(str), rest))
    else if t[0] == '-' || IsDigit(t[0]) then
      ParseInt(t)
    else if t[0] == '[' then
      ParseArray(t[1..])
    else if t[0] == '{' then
      ParseObject(t[1..])
    else None
  }

  /** After `[`. */
  function ParseArray(s: string): (r: Option<(Json, string)>)
    ensures r.Some? ==> |r.value.1| < |s|
    decreases |s|, 2
  {
    var t := SkipWs(s);
    if t != [] && t[0] == ']' then Some((JArr([]), t[1..]))
    else
      match ParseElements(t)
      case None => None
      case Some((xs, rest)) => Some((JArr(xs), rest))
  }

  /** One or more elements separated by `,`, then the closing `]`. */
  function ParseElements(s: string): (r: Option<(seq<Json>, string)>)
    ensures r.Some? ==> |r.value.1| < |s|
    decreases |s|, 1
  {
    match ParseValue(s)
    case None => None
    case Some((v, rest)) =>
      var u := SkipWs(rest);
      if u == [] then None
      else if u[0] == ']' then Some(([v], u[1..]))
      else if u[0] == ',' then
        match ParseElements(u[1..])
        case None => None
        case Some((vs, rest')) => Some(([v] + vs, rest'))
      else None
  }

  /** After `{`. */
  function ParseObject(s: string): (r: Option<(Json, string)>)
    ensures r.Some? ==> |r.value.1| < |s|
    decreases |s|, 2
  {
    var t := SkipWs(s);
    if t != [] && t[0] == '}' then Some((JObj([]), t[1..]))
    else
      match ParseMembers(t)
      case None => None
      case Some((ms, rest)) => Some((JObj(ms), rest))
  }

  /** One or more `"key": value` pairs separated by `,`, then the closing `}`. */
  function ParseMembers(s: string): (r: Option<(seq<Member>, string)>)
    ensures r.Some? ==> |r.value.1| < |s|
    decreases |s|, 1
  {
    var t := SkipWs(s);
    if t == [] || t[0] != '"' then None
    else
      match ParseStringBody(t[1..])
      case None => None
      case Some((key, r1)) =>
        var u := SkipWs(r1);
        if u == [] || u[0] != ':' then None
        else
          match ParseValue(u[1..])
          case None => None
          case Some((v, r2)) =>
            var w := SkipWs(r2);
            if w == [] then None
            else if w[0] == '}' then Some(([Member(key, v)], w[1..]))
            else if w[0] == ',' then
              match ParseMembers(w[1..])
              case None => None
              case Some((ms, rest)) => Some(([Member(key, v)] + ms, rest))
            else None
  }

  /** The characters of a string literal after its opening quote, up to and
      including the closing quote. */
  function ParseStringBody(s: string): (r: Option<(string, string)>)
    ensures r.Some? ==> |r.value.1| < |s|
  {
    if s == [] then None
    else if s[0] == '"' then Some(("", s[1..]))
    else if s[0] == '\\' then
      match Unescape(s[1..])
      case None => None
      case Some((c, rest)) =>
        match ParseStringBody(rest)
        case None => None
        case Some((str, rest')) => Some(([c] + str, rest'))
    else if s[0] < 32 as char then None
    else
      match ParseStringBody(s[1..])
      case None => None
      case Some((str, rest)) => Some(([s[0]] + str, rest))
  }

  /** The character an escape stands for (what follows the backslash). */
  function Unescape(s: string): (r: Option<(char, string)>)
    ensures r.Some? ==> |r.value.1| < |s|
  {
    if s == [] then None
    else if s[0] == '"' then Some(('"', s[1..]))
    else if s[0] == '\\' then Some(('\\', s[1..]))
    else if s[0] == '/' then Some(('/', s[1..]))
    else if s[0] == 'b' then Some((8 as char, s[1..]))
    else if s[0] == 'f' then Some((12 as char, s[1..]))
    else if s[0] == 'n' then Some(('\n', s[1..]))
    else if s[0] == 'r' then Some(('\r', s[1..]))
    else if s[0] == 't' then Some(('\t', s[1..]))
    else if s[0] == 'u' && |s| >= 5
            && IsHex(s[1]) && IsHex(s[2]) && IsHex(s[3]) && IsHex(s[4]) then
      var code := HexValue(s[1]) * 4096 + HexValue(s[2]) * 256 + HexValue(s[3]) * 16 + HexValue(s[4]);
      if 0xDC00 <= code < 0xE000 then None
      else if 0xD800 <= code < 0xDC00 then
        // a high surrogate must be followed by an escaped low one; the pair is
        // one character above the Basic Multilingual Plane
        if |s| >= 11 && s[5] == '\\' && s[6] == 'u'
           && IsHex(s[7]) && IsHex(s[8]) && IsHex(s[9]) && IsHex(s[10]) then
          var low := HexValue(s[7]) * 4096 + HexValue(s[8]) * 256 + HexValue(s[9]) * 16 + HexValue(s[10]);
          if 0xDC00 <= low < 0xE000 then Some((((code - 0xD800) * 0x400 + (low - 0xDC00) + 0x1_0000) as char, s[11..]))
          else None
        else None
      else Some((code as char, s[5..]))
    else None
  }

  /** A surrogate pair escape reads back as the one character it encodes. */
  lemma SurrogatePairUnescape()
    ensures Unescape("ud83d\\ude00") == Some(('\U{1F600}', ""))
  {
  }

  predicate IsHex(c: char)
  {
    IsDigit(c) || 'a' <= c <= 'f' || 'A' <= c <= 'F'
  }

  function HexValue(c: char): (d: int)
    requires IsHex(c)
    ensures 0 <= d < 16
  {
    if IsDigit(c) then c as int - 48
    else if 'a' <= c <= 'f' then c as int - 87
    else c as int - 55
  }

  /** An integer: optional `-`, then `0` or a digit string without a leading zero.
      A fraction or exponent part is not accepted. */
  function ParseInt(s: string): (r: Option<(Json, string)>)
    ensures r.Some? ==> |r.value.1| < |s|
  {
    if s != [] && s[0] == '-' then
      match ParseNat(s[1..])
      case None => None
      case Some((m, rest)) => Some((JNum(0 - m as int), rest))
    else
      match ParseNat(s)
      case None => None
      case Some((m, rest)) => Some((JNum(m), rest))
  }

  /** The digits of an integer: `0` or a digit string without a leading zero. */
  function ParseNat(t: string): (r: Option<(nat, string)>)
    ensures r.Some? ==> |r.value.1| < |t|
  {
    var k := DigitRun(t);
    if k == 0 || (t[0] == '0' && k > 1) then None
    else if k < |t| && (t[k] == '.' || t[k] == 'e' || t[k] == 'E') then None
    else Some((DigitsValue(t[..k]), t[k..]))
  }

  /** Length of the run of decimal digits at the start of `s`. */
  function DigitRun(s: string): (k: nat)
    ensures k <= |s|
    ensures forall i :: 0 <= i < k ==> IsDigit(s[i])
    ensures k < |s| ==> !IsDigit(s[k])
  {
    if s != [] && IsDigit(s[0]) then 1 + DigitRun(s[1..]) else 0
  }

  function DigitsValue(ds: string): nat
    requires forall i :: 0 <= i < |ds| ==> IsDigit(ds[i])
  {
    if ds == [] then 0
    else
      assert IsDigit(ds[|ds| - 1]);
      DigitsValue(ds[..|ds| - 1]) * 10 + (ds[|ds| - 1] as int - 48)
  }

  // ---------------------------------------------------------------------
  // Round trip: JSON.parse(JSON.stringify(v)) gives back v.
  // ---------------------------------------------------------------------

  /** What may follow a value inside a JSON text. */
  predicate Delimits(rest: string)
  {
    rest == [] || rest[0] == ',' || rest[0] == ']' || rest[0] == '}'
  }

  lemma {:induction false} NatTextDigits(n: nat)
    ensures forall i :: 0 <= i < |NatText(n)| ==> IsDigit(NatText(n)[i])
    ensures NatText(n)[0] == '0' ==> |NatText(n)| == 1
    ensures DigitsValue(NatText(n)) == n
  {
    if n >= 10 {
      NatTextDigits(n / 10);
      var t := NatText(n);
      assert t == NatText(n / 10) + [DigitChar(n % 10)];
      assert t[..|t| - 1] == NatText(n / 10);
      assert t[0] == NatText(n / 10)[0];
    }
  }

  lemma {:induction false} DigitRunStops(ds: string, rest: string)
    requires forall i :: 0 <= i < |ds| ==> IsDigit(ds[i])
    requires rest == [] || !IsDigit(rest[0])
    ensures DigitRun(ds + rest) == |ds|
  {
    if ds != [] {
      assert (ds + rest)[1..] == ds[1..] + rest;
      DigitRunStops(ds[1..], rest);
    }
  }

  /** ParseNat on a digit string in JSON's canonical form. */
  lemma ParseCanonicalNat(ds: string, rest: string)
    requires ds != [] && forall i :: 0 <= i < |ds| ==> IsDigit(ds[i])
    requires ds[0] == '0' ==> |ds| == 1
    requires Delimits(rest)
    ensures ParseNat(ds + rest) == Some((DigitsValue(ds), rest))
  {
    var t := ds + rest;
    DigitRunStops(ds, rest);
    assert t[..|ds|] == ds;
    assert t[|ds|..] == rest;
    assert t[0] == ds[0];
  }

  lemma Tail1(a: string, b: string)
    requires |a| == 1
    ensures (a + b)[1..] == b
  {
  }

  lemma IntRoundTrip(n: int, rest: string)
    requires Delimits(rest)
    ensures ParseInt(IntText(n) + rest) == Some((JNum(n), rest))
  {
    if n < 0 {
      NegativeRoundTrip(-n, rest);
    } else {
      NatTextDigits(n);
      ParseCanonicalNat(NatText(n), rest);
      assert (NatText(n) + rest)[0] == NatText(n)[0];
    }
  }

  lemma NegativeRoundTrip(m: nat, rest: string)
    requires Delimits(rest)
    ensures ParseInt("-" + NatText(m) + rest) == Some((JNum(0 - m), rest))
  {
    var ds := NatText(m);
    NatTextDigits(m);
    ParseCanonicalNat(ds, rest);
    Assoc("-", ds, rest);
    Tail1("-", ds + rest);
  }

  lemma HexRoundTrip(d: int)
    requires 0 <= d < 16
    ensures IsHex(HexDigit(d)) && HexValue(HexDigit(d)) == d
  {
  }

  /** One escaped character followed by `tail` reads back as that character. */
  lemma EscapeCharRoundTrip(c: char, tail: string)
    requires c == '"' || c == '\\' || c < 32 as char
    ensures EscapeChar(c)[0] == '\\'
    ensures Unescape((EscapeChar(c) + tail)[1..]) == Some((c, tail))
  {
    var u := (EscapeChar(c) + tail)[1..];
    if c == '"' || c == '\\' || c == 8 as char || c == 12 as char
       || c == '\n' || c == '\r' || c == '\t' {
      assert u == [EscapeChar(c)[1]] + tail;
      assert u[1..] == tail;
    } else {
      var h1, h2 := HexDigit(c as int / 16), HexDigit(c as int % 16);
      HexRoundTrip(c as int / 16);
      HexRoundTrip(c as int % 16);
      assert u == ['u', '0', '0', h1, h2] + tail;
      assert u[5..] == tail;
    }
  }

  lemma {:induction false} StringRoundTrip(s: string, rest: string)
    ensures ParseStringBody(Escape(s) + "\"" + rest) == Some((s, rest))
  {
    if s == [] {
      assert Escape(s) + "\"" + rest == "\"" + rest;
    } else {
      var c := s[0];
      var tail := Escape(s[1..]) + "\"" + rest;
      var t := EscapeChar(c) + tail;
      assert Escape(s) + "\"" + rest == t;
      StringRoundTrip(s[1..], rest);
      if c == '"' || c == '\\' || c < 32 as char {
        EscapeCharRoundTrip(c, tail);
      } else {
        assert t == [c] + tail;
        assert t[1..] == tail;
      }
      assert s == [c] + s[1..];
    }
  }

  lemma NoWsStart(t: string)
    requires t != [] && !IsWs(t[0])
    ensures SkipWs(t) == t
  {
  }

  lemma StringifyStart(j: Json)
    ensures Stringify(j) != []
    ensures var c := Stringify(j)[0];
            !IsWs(c) && c != ']' && c != '}' && c != ',' && c != ':'
            && (j.JNum? ==> c == '-' || IsDigit(c))
  {
    match j
    case JNum(n) =>
      if n >= 0 { NatTextDigits(n); } else { NatTextDigits(-n); }
    case _ =>
  }

  // One unfolding of each parsing function, in the shape the round trip meets it.

  lemma ParseValueString(t: string, str: string, rest: string)
    requires t != [] && t[0] == '"' && ParseStringBody(t[1..]) == Some((str, rest))
    ensures ParseValue(t) == Some((JStr(str), rest))
  {
    NoWsStart(t);
  }

  lemma ParseValueInt(t: string)
    requires t != [] && (t[0] == '-' || IsDigit(t[0]))
    ensures ParseValue(t) == ParseInt(t)
  {
    NoWsStart(t);
  }

  lemma ParseValueArray(t: string)
    requires t != [] && t[0] == '['
    ensures ParseValue(t) == ParseArray(t[1..])
  {
    NoWsStart(t);
  }

  lemma ParseValueObject(t: string)
    requires t != [] && t[0] == '{'
    ensures ParseValue(t) == ParseObject(t[1..])
  {
    NoWsStart(t);
  }

  lemma ParseArrayElements(s: string, xs: seq<Json>, rest: string)
    requires s != [] && !IsWs(s[0]) && s[0] != ']'
    requires ParseElements(s) == Some((xs, rest))
    ensures ParseArray(s) == Some((JArr(xs), rest))
  {
    NoWsStart(s);
  }

  lemma ParseObjectMembers(s: string, ms: seq<Member>, rest: string)
    requires s != [] && !IsWs(s[0]) && s[0] != '}'
    requires ParseMembers(s) == Some((ms, rest))
    ensures ParseObject(s) == Some((JObj(ms), rest))
  {
    NoWsStart(s);
  }

  lemma ParseElementsLast(s: string, v: Json, tail: string)
    requires ParseValue(s) == Some((v, tail))
    requires tail != [] && tail[0] == ']'
    ensures ParseElements(s) == Some(([v], tail[1..]))
  {
    NoWsStart(tail);
  }

  lemma ParseElementsNext(s: string, v: Json, tail: string, vs: seq<Json>, rest: string)
    requires ParseValue(s) == Some((v, tail))
    requires tail != [] && tail[0] == ','
    requires ParseElements(tail[1..]) == Some((vs, rest))
    ensures ParseElements(s) == Some(([v] + vs, rest))
  {
    NoWsStart(tail);
  }

  lemma ParseMembersLast(s: string, key: string, r1: string, v: Json, r2: string)
    requires s != [] && s[0] == '"'
    requires ParseStringBody(s[1..]) == Some((key, r1))
    requires r1 != [] && r1[0] == ':'
    requires ParseValue(r1[1..]) == Some((v, r2))
    requires r2 != [] && r2[0] == '}'
    ensures ParseMembers(s) == Some(([Member(key, v)], r2[1..]))
  {
    NoWsStart(s);
    NoWsStart(r1);
    NoWsStart(r2);
  }

  lemma ParseMembersNext(s: string, key: string, r1: string, v: Json, r2: string,
                         ms: seq<Member>, rest: string)
    requires s != [] && s[0] == '"'
    requires ParseStringBody(s[1..]) == Some((key, r1))
    requires r1 != [] && r1[0] == ':'
    requires ParseValue(r1[1..]) == Some((v, r2))
    requires r2 != [] && r2[0] == ','
    requires ParseMembers(r2[1..]) == Some((ms, rest))
    ensures ParseMembers(s) == Some(([Member(key, v)] + ms, rest))
  {
    NoWsStart(s);
    NoWsStart(r1);
    NoWsStart(r2);
  }

  lemma ItemsStart(xs: seq<Json>)
    requires xs != []
    ensures Items(xs) != [] && Items(xs)[0] == Stringify(xs[0])[0]
    ensures !IsWs(Items(xs)[0]) && Items(xs)[0] != ']'
  {
    StringifyStart(xs[0]);
  }

  lemma MembersStart(ms: seq<Member>)
    requires ms != []
    ensures Members(ms) != [] && Members(ms)[0] == '"'
  {
  }

  lemma Assoc(a: string, b: string, c: string)
    ensures a + b + c == a + (b + c)
  {
  }

  /** Members(ms) + "}" + rest, split at the first member. */
  lemma MembersSplit(ms: seq<Member>, rest: string)
    requires ms != []
    ensures var more := if |ms| == 1 then "" else "," + Members(ms[1..]);
            Members(ms) + "}" + rest
            == "\"" + (Escape(ms[0].key) + "\"" + (":" + (Stringify(ms[0].value) + (more + "}" + rest))))
  {
    var more := if |ms| == 1 then "" else "," + Members(ms[1..]);
    var q, e, v := "\"", Escape(ms[0].key), Stringify(ms[0].value);
    var tail := more + "}" + rest;
    assert Members(ms) == q + e + q + ":" + v + more;
    calc {
      q + e + q + ":" + v + more + "}" + rest;
    == { Assoc(q + e + q + ":" + v + more, "}", rest); }
      q + e + q + ":" + v + more + ("}" + rest);
    == { Assoc(q + e + q + ":" + v, more, "}" + rest); Assoc(more, "}", rest); }
      q + e + q + ":" + v + tail;
    == { Assoc(q + e + q + ":", v, tail); }
      q + e + q + ":" + (v + tail);
    == { Assoc(q + e + q, ":", v + tail); }
      q + e + q + (":" + (v + tail));
    == { Assoc(q, e, q); Assoc(q, e + q, ":" + (v + tail)); }
      q + (e + q + (":" + (v + tail)));
    }
  }

  lemma {:induction false} ValueRoundTrip(j: Json, rest: string)
    requires Delimits(rest)
    ensures ParseValue(Stringify(j) + rest) == Some((j, rest))
    decreases j, 2
  {
    var t := Stringify(j) + rest;
    match j
    case JNull =>
      assert t[..4] == "null" && t[4..] == rest;
    case JBool(b) =>
      if b { assert t[..4] == "true" && t[4..] == rest; }
      else { assert t[..5] == "false" && t[5..] == rest; }
    case JNum(n) =>
      StringifyStart(j);
      assert t[0] == Stringify(j)[0];
      ParseValueInt(t);
      IntRoundTrip(n, rest);
    case JStr(s) =>
      assert t == "\"" + (Escape(s) + "\"" + rest);
      StringRoundTrip(s, rest);
      ParseValueString(t, s, rest);
    case JArr(items) =>
      ArrayRoundTrip(j, rest);
    case JObj(ms) =>
      ObjectRoundTrip(j, rest);
  }

  lemma {:induction false} ArrayRoundTrip(j: Json, rest: string)
    requires j.JArr? && Delimits(rest)
    ensures ParseValue(Stringify(j) + rest) == Some((j, rest))
    decreases j, 1
  {
    var t := Stringify(j) + rest;
    var body := Items(j.items) + "]" + rest;
    Assoc("[" + Items(j.items), "]", rest);
    Assoc("[", Items(j.items), "]" + rest);
    Assoc(Items(j.items), "]", rest);
    assert t == "[" + body;
    ParseValueArray(t);
    Tail1("[", body);
    if j.items == [] {
      assert body == "]" + rest;
      Tail1("]", rest);
    } else {
      ItemsStart(j.items);
      assert body[0] == Items(j.items)[0];
      ItemsRoundTrip(j.items, rest);
      ParseArrayElements(body, j.items, rest);
    }
  }

  lemma {:induction false} ObjectRoundTrip(j: Json, rest: string)
    requires j.JObj? && Delimits(rest)
    ensures ParseValue(Stringify(j) + rest) == Some((j, rest))
    decreases j, 1
  {
    var t := Stringify(j) + rest;
    var body := Members(j.members) + "}" + rest;
    Assoc("{" + Members(j.members), "}", rest);
    Assoc("{", Members(j.members), "}" + rest);
    Assoc(Members(j.members), "}", rest);
    assert t == "{" + body;
    ParseValueObject(t);
    Tail1("{", body);
    if j.members == [] {
      assert body == "}" + rest;
      Tail1("}", rest);
    } else {
      MembersStart(j.members);
      assert body[0] == Members(j.members)[0];
      MembersRoundTrip(j.members, rest);
      ParseObjectMembers(body, j.members, rest);
    }
  }

  lemma {:induction false} ItemsRoundTrip(xs: seq<Json>, rest: string)
    requires xs != []
    requires Delimits(rest)
    ensures ParseElements(Items(xs) + "]" + rest) == Some((xs, rest))
    decreases xs, 0
  {
    var v := Stringify(xs[0]);
    var more := if |xs| == 1 then "" else "," + Items(xs[1..]);
    var tail := more + "]" + rest;
    var s := Items(xs) + "]" + rest;
    assert Items(xs) == v + more;
    Assoc(v + more, "]", rest);
    Assoc(v, more, "]" + rest);
    Assoc(more, "]", rest);
    assert s == v + tail;
    ValueRoundTrip(xs[0], tail);
    if |xs| == 1 {
      assert tail == "]" + rest;
      Tail1("]", rest);
      ParseElementsLast(s, xs[0], tail);
      assert [xs[0]] == xs;
    } else {
      var inner := Items(xs[1..]) + "]" + rest;
      Assoc("," + Items(xs[1..]), "]", rest);
      Assoc(",", Items(xs[1..]), "]" + rest);
      Assoc(Items(xs[1..]), "]", rest);
      assert tail == "," + inner;
      Tail1(",", inner);
      ItemsRoundTrip(xs[1..], rest);
      ParseElementsNext(s, xs[0], tail, xs[1..], rest);
      assert [xs[0]] + xs[1..] == xs;
    }
  }

  /** The `"key":value` text of one member, followed by `tail`, reads back in its three steps. */
  lemma {:induction false} MemberRoundTrip(m: Member, tail: string)
    requires tail != [] && (tail[0] == ',' || tail[0] == '}')
    ensures var afterKey := ":" + (Stringify(m.value) + tail);
            var s := "\"" + (Escape(m.key) + "\"" + afterKey);
            && s[0] == '"'
            && ParseStringBody(s[1..]) == Some((m.key, afterKey))
            && ParseValue(afterKey[1..]) == Some((m.value, tail))
    decreases m, 0
  {
    var afterKey := ":" + (Stringify(m.value) + tail);
    Tail1("\"", Escape(m.key) + "\"" + afterKey);
    StringRoundTrip(m.key, afterKey);
    Tail1(":", Stringify(m.value) + tail);
    ValueRoundTrip(m.value, tail);
  }

  /** The text after the first member, when more follow. */
  lemma MoreSplit(others: string, rest: string)
    ensures var tail := "," + others + "}" + rest;
            tail == "," + (others + "}" + rest) && tail[1..] == others + "}" + rest
  {
    var inner := others + "}" + rest;
    Assoc("," + others, "}", rest);
    Assoc(",", others, "}" + rest);
    Assoc(others, "}", rest);
    Tail1(",", inner);
  }

  /** A single member followed by the closing brace. */
  lemma LastMemberRoundTrip(m: Member, rest: string)
    requires Delimits(rest)
    ensures ParseMembers(Members([m]) + "}" + rest) == Some(([m], rest))
    decreases m, 1
  {
    var tail := "}" + rest;
    var afterKey := ":" + (Stringify(m.value) + tail);
    var s := Members([m]) + "}" + rest;
    MembersSplit([m], rest);
    assert "" + "}" + rest == tail;
    assert s == "\"" + (Escape(m.key) + "\"" + afterKey);
    MemberRoundTrip(m, tail);
    Tail1("}", rest);
    ParseMembersLast(s, m.key, afterKey, m.value, tail);
  }

  lemma {:induction false} MembersRoundTrip(ms: seq<Member>, rest: string)
    requires ms != []
    requires Delimits(rest)
    ensures ParseMembers(Members(ms) + "}" + rest) == Some((ms, rest))
    decreases ms, 0
  {
    if |ms| == 1 {
      assert ms == [ms[0]];
      LastMemberRoundTrip(ms[0], rest);
    } else {
      var m := ms[0];
      var tail := "," + Members(ms[1..]) + "}" + rest;
      var afterKey := ":" + (Stringify(m.value) + tail);
      var s := Members(ms) + "}" + rest;
      MembersSplit(ms, rest);
      MemberRoundTrip(m, tail);
      MoreSplit(Members(ms[1..]), rest);
      MembersRoundTrip(ms[1..], rest);
      ParseMembersNext(s, m.key, afterKey, m.value, tail, ms[1..], rest);
      assert [Member(m.key, m.value)] + ms[1..] == ms;
    }
  }

  /** The round trip every broker message relies on. */
  lemma ParseStringify(j: Json)
    ensures Parse(Stringify(j)) == Some(j)
  {
    ValueRoundTrip(j, []);
    assert Stringify(j) + [] == Stringify(j);
  }
}
