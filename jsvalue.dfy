/** JSON values as the relay sees them after `JSON.parse`, together with the
    few JavaScript operations the relay applies to them: property lookup and
    assignment on ordered objects, truthiness, `ToString` (as used by template
    literals, `RegExp.prototype.test` and `Array.prototype.join`) and
    `JSON.stringify`. */
module JsValue {
  import opened Wrappers

  /** A parsed JSON value. Objects keep their members in insertion order, as
      JavaScript objects do; numbers are integers. */
  datatype Json =
    | JNull
    | JBool(b: bool)
    | JNum(n: int)
    | JStr(s: string)
    | JArr(items: seq<Json>)
    | JObj(members: seq<(string, Json)>)

  /** A text frame as received from a socket: either it parses as JSON or it
      does not, in which case only the raw text is known. */
  datatype Frame = Parsed(msg: Json) | Unparsed(text: string)

  /** `JSON.parse`, which is not part of this model: `None` when the text
      does not parse. */
  type Parser = string -> Option<Json>

  // ---------------------------------------------------------------------
  // Ordered dictionaries: JavaScript objects and the relay's tool table
  // ---------------------------------------------------------------------

  /** The keys, in insertion order. */
  function Keys<V>(ms: seq<(string, V)>): (ks: seq<string>)
    ensures |ks| == |ms|
  {
    if ms == [] then [] else [ms[0].0] + Keys(ms[1..])
  }

  /** The values, in insertion order (`Object.values`). */
  function Values<V>(ms: seq<(string, V)>): (vs: seq<V>)
    ensures |vs| == |ms|
  {
    if ms == [] then [] else [ms[0].1] + Values(ms[1..])
  }

  /** Property read `o[k]`: `None` is `undefined`. */
  function Lookup<V>(ms: seq<(string, V)>, k: string): Option<V>
  {
    if ms == [] then None
    else if ms[0].0 == k then Some(ms[0].1)
    else Lookup(ms[1..], k)
  }

  /** Property assignment `o[k] = v`: an existing key keeps its position and
      gets the new value, a new key is appended. */
  function Put<V>(ms: seq<(string, V)>, k: string, v: V): seq<(string, V)>
  {
    if ms == [] then [(k, v)]
    else if ms[0].0 == k then [(k, v)] + ms[1..]
    else [ms[0]] + Put(ms[1..], k, v)
  }

  /** No key occurs twice, as in every JavaScript object. */
  ghost predicate DistinctKeys<V>(ms: seq<(string, V)>) {
    forall i, j :: 0 <= i < j < |ms| ==> ms[i].0 != ms[j].0
  }

  lemma {:induction false} LookupPutSame<V>(ms: seq<(string, V)>, k: string, v: V)
    ensures Lookup(Put(ms, k, v), k) == Some(v)
  {
    if ms != [] && ms[0].0 != k {
      LookupPutSame(ms[1..], k, v);
    }
  }

  lemma {:induction false} LookupPutOther<V>(ms: seq<(string, V)>, k: string, v: V, k': string)
    requires k' != k
    ensures Lookup(Put(ms, k, v), k') == Lookup(ms, k')
  {
    if ms != [] && ms[0].0 != k {
      LookupPutOther(ms[1..], k, v, k');
    }
  }

  lemma {:induction false} LookupIffKey<V>(ms: seq<(string, V)>, k: string)
    ensures Lookup(ms, k).Some? <==> k in Keys(ms)
  {
    if ms != [] {
      LookupIffKey(ms[1..], k);
    }
  }

  /** Assignment keeps the order of the existing keys and appends a new key
      at the end. */
  lemma {:induction false} KeysPut<V>(ms: seq<(string, V)>, k: string, v: V)
    ensures Keys(Put(ms, k, v)) == if k in Keys(ms) then Keys(ms) else Keys(ms) + [k]
  {
    if ms != [] && ms[0].0 != k {
      KeysPut(ms[1..], k, v);
      assert Keys(ms) == [ms[0].0] + Keys(ms[1..]);
    }
  }

  lemma {:induction false} DistinctKeysTail<V>(ms: seq<(string, V)>)
    requires ms != [] && DistinctKeys(ms)
    ensures DistinctKeys(ms[1..]) && ms[0].0 !in Keys(ms[1..])
  {
    if ms[0].0 in Keys(ms[1..]) {
      var j := KeyIndex(ms[1..], ms[0].0);
      assert false;
    }
  }

  lemma {:induction false} KeyIndex<V>(ms: seq<(string, V)>, k: string) returns (j: nat)
    requires k in Keys(ms)
    ensures j < |ms| && ms[j].0 == k
  {
    if ms[0].0 != k {
      j := KeyIndex(ms[1..], k);
      j := j + 1;
    } else {
      j := 0;
    }
  }

  /** Assignment never creates a duplicate key. */
  lemma {:induction false} PutKeepsDistinct<V>(ms: seq<(string, V)>, k: string, v: V)
    requires DistinctKeys(ms)
    ensures DistinctKeys(Put(ms, k, v))
  {
    if ms != [] && ms[0].0 != k {
      DistinctKeysTail(ms);
      PutKeepsDistinct(ms[1..], k, v);
      KeysPut(ms[1..], k, v);
      var p := Put(ms, k, v);
      assert p == [ms[0]] + Put(ms[1..], k, v);
      forall i, j | 0 <= i < j < |p| ensures p[i].0 != p[j].0 {
        if i == 0 {
          assert p[j].0 == Keys(Put(ms[1..], k, v))[j - 1] by { KeysAt(Put(ms[1..], k, v), j - 1); }
        }
      }
    } else if ms != [] {
      DistinctKeysTail(ms);
      var p := Put(ms, k, v);
      forall i, j | 0 <= i < j < |p| ensures p[i].0 != p[j].0 {
        if i == 0 {
          assert p[j] == ms[j];
        }
      }
    }
  }

  lemma {:induction false} KeysAt<V>(ms: seq<(string, V)>, i: nat)
    requires i < |ms|
    ensures Keys(ms)[i] == ms[i].0
  {
    if i > 0 {
      KeysAt(ms[1..], i - 1);
    }
  }

  lemma {:induction false} ValuesAt<V>(ms: seq<(string, V)>, i: nat)
    requires i < |ms|
    ensures Values(ms)[i] == ms[i].1
  {
    if i > 0 {
      ValuesAt(ms[1..], i - 1);
    }
  }

  // ---------------------------------------------------------------------
  // Property access and truthiness on JSON values
  // ---------------------------------------------------------------------

  /** `v?.k` for a parsed value: only objects have named properties that a
      parsed value can carry (arrays and primitives give `undefined` for the
      keys the relay reads). */
  function Prop(v: Json, k: string): Option<Json> {
    if v.JObj? then Lookup(v.members, k) else None
  }

  /** `Prop` lifted to an optional value, for chains such as `m?.item?.type`. */
  function PropOf(o: Option<Json>, k: string): Option<Json> {
    if o.Some? then Prop(o.value, k) else None
  }

  /** `v.type === s` (or `v?.type === s`): strict equality with a string. */
  predicate HasType(v: Json, s: string) {
    Prop(v, "type") == Some(JStr(s))
  }

  /** JavaScript truthiness; `None` is `undefined`. */
  predicate Truthy(o: Option<Json>) {
    match o
    case None => false
    case Some(JNull) => false
    case Some(JBool(b)) => b
    case Some(JNum(n)) => n != 0
    case Some(JStr(s)) => s != ""
    case Some(JArr(_)) => true
    case Some(JObj(_)) => true
  }

  // ---------------------------------------------------------------------
  // JavaScript ToString
  // ---------------------------------------------------------------------

  function DigitChar(d: nat): char
    requires d < 10
  {
    "0123456789"[d]
  }

  function NatToString(n: nat): (s: string)
    ensures |s| > 0 && '0' <= s[0] <= '9'
  {
    if n < 10 then [DigitChar(n)] else NatToString(n / 10) + [DigitChar(n % 10)]
  }

  /** Decimal notation of an integer, as `String(n)` and `JSON.stringify(n)`
      give it for integers below 10^21. */
  function IntToString(n: int): (s: string)
    ensures |s| > 0 && (s[0] == '-' <==> n < 0)
    ensures n >= 0 ==> '0' <= s[0] <= '9'
  {
    if n < 0 then "-" + NatToString(-n) else NatToString(n)
  }

  /** `parts.join(sep)`. */
  function Join(parts: seq<string>, sep: string): string
  {
    if |parts| == 0 then ""
    else if |parts| == 1 then parts[0]
    else parts[0] + sep + Join(parts[1..], sep)
  }

  /** `String(v)` for a parsed value; `None` when it throws a `TypeError`.
      An array joins its elements with "," (a `null` element gives ""). An
      object gives "[object Object]", unless it has its own `toString`
      member: a parsed member is never callable, so `OrdinaryToPrimitive`
      finds no usable method and throws. */
  function ValueToString(v: Json): Option<string>
  {
    match v
    case JNull => Some("null")
    case JBool(b) => Some(if b then "true" else "false")
    case JNum(n) => Some(IntToString(n))
    case JStr(s) => Some(s)
    case JArr(items) =>
      var parts := seq(|items|, i requires 0 <= i < |items| =>
                         if items[i] == JNull then Some("") else ValueToString(items[i]));
      if forall i :: 0 <= i < |parts| ==> parts[i].Some?
      then Some(Join(seq(|parts|, i requires 0 <= i < |parts| && parts[i].Some? => parts[i].value), ","))
      else None
    case JObj(ms) => if "toString" in Keys(ms) then None else Some("[object Object]")
  }

  /** `String(x)` where `x` may be `undefined`. */
  function ToJsString(o: Option<Json>): Option<string>
  {
    match o
    case None => Some("undefined")
    case Some(v) => ValueToString(v)
  }

  // ---------------------------------------------------------------------
  // JSON.stringify
  // ---------------------------------------------------------------------

  function HexDigit(d: nat): char
    requires d < 16
  {
    "0123456789abcdef"[d]
  }

  /** How `JSON.stringify` writes one character inside a string literal. */
  function EscapeChar(c: char): string
  {
    if c == '"' then ['\\', '"']
    else if c == '\\' then ['\\', '\\']
    else if c as int == 0x08 then ['\\', 'b']
    else if c == '\t' then ['\\', 't']
    else if c == '\n' then ['\\', 'n']
    else if c as int == 0x0C then ['\\', 'f']
    else if c == '\r' then ['\\', 'r']
    else if (c as int) < 0x20 then ['\\', 'u', '0', '0', HexDigit(c as int / 16), HexDigit(c as int % 16)]
    else [c]
  }

  function Escape(s: string): string
  {
    if s == [] then [] else EscapeChar(s[0]) + Escape(s[1..])
  }

  /** A string literal in JSON text. */
  function Quote(s: string): string
  {
    ['"'] + Escape(s) + ['"']
  }

  /** `JSON.stringify(v)`, without whitespace. The text is never empty,
      and its first character tells which kind of value it is. */
  function Stringify(v: Json): (r: string)
    ensures |r| > 0
    ensures r[0] == '"' <==> v.JStr?
    ensures r[0] == '[' <==> v.JArr?
    ensures r[0] == '{' <==> v.JObj?
  {
    match v
    case JNull => "null"
    case JBool(b) => if b then "true" else "false"
    case JNum(n) => IntToString(n)
    case JStr(s) => Quote(s)
    case JArr(items) =>
      "[" + Join(seq(|items|, i requires 0 <= i < |items| => Stringify(items[i])), ",") + "]"
    case JObj(ms) =>
      "{" + Join(seq(|ms|, i requires 0 <= i < |ms| => Quote(ms[i].0) + ":" + Stringify(ms[i].1)), ",") + "}"
  }

  // ---------------------------------------------------------------------
  // Reading escaped string literals back
  // ---------------------------------------------------------------------

  function HexValue(c: char): Option<nat>
  {
    if '0' <= c <= '9' then Some(c as int - '0' as int)
    else if 'a' <= c <= 'f' then Some(c as int - 'a' as int + 10)
    else if 'A' <= c <= 'F' then Some(c as int - 'A' as int + 10)
    else None
  }

  function Prepend(c: char, o: Option<string>): Option<string>
  {
    if o.Some? then Some([c] + o.value) else None
  }

  /** Decodes the body of a JSON string literal (the text between the
      quotes): `None` for a bare quote, a raw control character, a
      malformed escape, or a `\u` escape of a surrogate code unit (0xD800
      and above, outside the range of Dafny's `char`). */
  function Unescape(s: string): Option<string>
  {
    if s == [] then Some([])
    else if s[0] == '"' || (s[0] as int) < 0x20 then None
    else if s[0] != '\\' then Prepend(s[0], Unescape(s[1..]))
    else if |s| < 2 then None
    else if s[1] == '"' then Prepend('"', Unescape(s[2..]))
    else if s[1] == '\\' then Prepend('\\', Unescape(s[2..]))
    else if s[1] == '/' then Prepend('/', Unescape(s[2..]))
    else if s[1] == 'b' then Prepend(0x08 as char, Unescape(s[2..]))
    else if s[1] == 't' then Prepend('\t', Unescape(s[2..]))
    else if s[1] == 'n' then Prepend('\n', Unescape(s[2..]))
    else if s[1] == 'f' then Prepend(0x0C as char, Unescape(s[2..]))
    else if s[1] == 'r' then Prepend('\r', Unescape(s[2..]))
    else if s[1] == 'u' && |s| >= 6
            && HexValue(s[2]).Some? && HexValue(s[3]).Some?
            && HexValue(s[4]).Some? && HexValue(s[5]).Some? then
      var code := ((HexValue(s[2]).value * 16 + HexValue(s[3]).value) * 16
                   + HexValue(s[4]).value) * 16 + HexValue(s[5]).value;
      if code < 0xD800 then Prepend(code as char, Unescape(s[6..])) else None
    else None
  }

  lemma HexDigitValue(d: nat)
    requires d < 16
    ensures HexValue(HexDigit(d)) == Some(d)
  {
  }

  lemma {:induction false} UnescapeChar(c: char, rest: string)
    ensures Unescape(EscapeChar(c) + rest) == Prepend(c, Unescape(rest))
  {
    var e := EscapeChar(c) + rest;
    var k := |EscapeChar(c)|;
    assert e[k..] == rest;
    if (c as int) < 0x20 && c != '\t' && c != '\n' && c != '\r' && c as int != 0x08 && c as int != 0x0C {
      var hi, lo := c as int / 16, c as int % 16;
      HexDigitValue(hi);
      HexDigitValue(lo);
      assert e[2] == '0' && e[3] == '0' && e[4] == HexDigit(hi) && e[5] == HexDigit(lo);
      assert hi * 16 + lo == c as int;
    }
  }

  /** Reading back what `JSON.stringify` wrote inside a string literal gives
      the original string. */
  lemma {:induction false} UnescapeEscape(s: string)
    ensures Unescape(Escape(s)) == Some(s)
  {
    if s != [] {
      UnescapeEscape(s[1..]);
      UnescapeChar(s[0], Escape(s[1..]));
      assert [s[0]] + s[1..] == s;
    }
  }
}
