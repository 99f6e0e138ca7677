/** The intent router (backend-node/agents/router.js): the model's reply is
    used when it is a JSON object naming one of the four intents, and a
    keyword match on the utterance decides otherwise. The model itself is
    left out: its reply is a parameter. */
module IntentRouter {
  import opened Wrappers
  import opened JsValue

  /** The intents of the `IntentSchema` enum, in their declared order. */
  const Intents: seq<string> := ["name_change", "bank_account_change", "insurance_product", "unknown"]

  /** `IntentSchema.parse(v).intent`: an object (not an array, not `null`)
      whose `intent` is one of the enum's strings and whose `rationale`, if
      present, is a string; `None` when the schema throws. */
  function ValidateReply(v: Json): (r: Option<string>)
    ensures r.Some? <==> v.JObj? && Prop(v, "intent").Some? && Prop(v, "intent").value.JStr?
                         && Prop(v, "intent").value.s in Intents
                         && (Prop(v, "rationale").None? || Prop(v, "rationale").value.JStr?)
    ensures r.Some? ==> r.value in Intents && Prop(v, "intent") == Some(JStr(r.value))
  {
    if !v.JObj? then None
    else
      match Prop(v, "intent")
      case Some(JStr(intent)) =>
        if intent !in Intents then None
        else
          (match Prop(v, "rationale")
           case None => Some(intent)
           case Some(JStr(_)) => Some(intent)
           case Some(_) => None)
      case _ => None
  }

  // ---------------------------------------------------------------------
  // Lower case and substring search
  // ---------------------------------------------------------------------

  /** The lower case of one character, as `toLowerCase` gives it where the
      result matters for matching ASCII keywords: A-Z, the Kelvin sign
      (U+212A, lower case "k") and the dotted capital I (U+0130, lower case
      "i" followed by U+0307). Every other character is kept; its true
      lower case, if different, contains no ASCII letter either. */
  function LowerChar(c: char): (s: string)
    ensures 1 <= |s| <= 2
  {
    if 'A' <= c <= 'Z' then [(c as int + 32) as char]
    else if c == '\U{212A}' then "k"
    else if c == '\U{0130}' then "i\U{0307}"
    else [c]
  }

  /** `s.toLowerCase()`. */
  function Lower(s: string): string
  {
    if s == [] then [] else LowerChar(s[0]) + Lower(s[1..])
  }

  lemma {:induction false} LowerAppend(a: string, b: string)
    ensures Lower(a + b) == Lower(a) + Lower(b)
  {
    if a != [] {
      assert (a + b)[0] == a[0] && (a + b)[1..] == a[1..] + b;
      LowerAppend(a[1..], b);
    } else {
      assert a + b == b;
    }
  }

  /** Lowering twice is lowering once. */
  lemma {:induction false} LowerIdempotent(s: string)
    ensures Lower(Lower(s)) == Lower(s)
  {
    if s != [] {
      LowerIdempotent(s[1..]);
      var head := LowerChar(s[0]);
      LowerAppend(head, Lower(s[1..]));
      if |head| == 1 {
        assert head[1..] == [];
        assert Lower(head) == LowerChar(head[0]) + Lower([]);
      } else {
        assert head == "i\U{0307}";
        assert head[1..] == "\U{0307}" && head[1..][1..] == [];
        assert Lower(head) == LowerChar('i') + (LowerChar('\U{0307}') + Lower([]));
      }
    }
  }

  /** `c` with ASCII a-z raised to upper case. */
  function UpperChar(c: char): char {
    if 'a' <= c <= 'z' then (c as int - 32) as char else c
  }

  /** `s` with ASCII a-z raised to upper case. */
  function AsciiUpper(s: string): (u: string)
    ensures |u| == |s|
  {
    if s == [] then [] else [UpperChar(s[0])] + AsciiUpper(s[1..])
  }

  /** Raising ASCII letters does not change the lower case. */
  lemma {:induction false} LowerAsciiUpper(s: string)
    ensures Lower(AsciiUpper(s)) == Lower(s)
  {
    if s != [] {
      var u := AsciiUpper(s);
      assert u[0] == UpperChar(s[0]) && u[1..] == AsciiUpper(s[1..]);
      LowerAsciiUpper(s[1..]);
    }
  }

  /** `s.includes(sub)`. */
  predicate Contains(s: string, sub: string)
    decreases |s|
  {
    |sub| <= |s| && (s[..|sub|] == sub || (|s| > 0 && Contains(s[1..], sub)))
  }

  /** `sub` occurs in `s` at some index. */
  ghost predicate OccursAt(s: string, sub: string, i: int) {
    0 <= i && i + |sub| <= |s| && s[i..i + |sub|] == sub
  }

  /** `Contains` is the usual substring relation. */
  lemma {:induction false} ContainsIff(s: string, sub: string)
    ensures Contains(s, sub) <==> exists i :: OccursAt(s, sub, i)
    decreases |s|
  {
    if |sub| <= |s| {
      if s[..|sub|] == sub {
        assert OccursAt(s, sub, 0);
      } else if |s| > 0 {
        ContainsIff(s[1..], sub);
        if Contains(s[1..], sub) {
          var i :| OccursAt(s[1..], sub, i);
          assert s[1..][i..i + |sub|] == s[i + 1..i + 1 + |sub|];
          assert OccursAt(s, sub, i + 1);
        }
        if exists i :: OccursAt(s, sub, i) {
          var i :| OccursAt(s, sub, i);
          assert i != 0;
          assert s[1..][i - 1..i - 1 + |sub|] == s[i..i + |sub|];
          assert OccursAt(s[1..], sub, i - 1);
        }
      }
    }
  }

  /** Every text that contains "rename" contains "name": the "rename" test
      of the fallback never decides anything on its own. */
  lemma RenameContainsName(s: string)
    requires Contains(s, "rename")
    ensures Contains(s, "name")
  {
    ContainsIff(s, "rename");
    var i :| OccursAt(s, "rename", i);
    assert s[i + 2..i + 6] == s[i..i + 6][2..6] == "name";
    assert OccursAt(s, "name", i + 2);
    ContainsIff(s, "name");
  }

  // ---------------------------------------------------------------------
  // Classification
  // ---------------------------------------------------------------------

  predicate NameWords(u: string) {
    Contains(u, "name") || Contains(u, "rename") || Contains(u, "married")
  }

  predicate BankWords(u: string) {
    Contains(u, "bank") || Contains(u, "account") || Contains(u, "iban") || Contains(u, "payment")
  }

  predicate InsuranceWords(u: string) {
    Contains(u, "insurance") || Contains(u, "plan") || Contains(u, "coverage") || Contains(u, "premium")
  }

  /** The keyword fallback on the lowercased utterance: name words first,
      then bank words, then insurance words, and "unknown" when none
      occurs. */
  function KeywordFallback(utterance: string): (r: string)
    ensures r in Intents
    ensures r == "name_change" <==> NameWords(Lower(utterance))
    ensures r == "bank_account_change" <==> !NameWords(Lower(utterance)) && BankWords(Lower(utterance))
    ensures r == "insurance_product" <==>
              !NameWords(Lower(utterance)) && !BankWords(Lower(utterance)) && InsuranceWords(Lower(utterance))
    ensures r == "unknown" <==>
              !NameWords(Lower(utterance)) && !BankWords(Lower(utterance)) && !InsuranceWords(Lower(utterance))
  {
    var u := Lower(utterance);
    if NameWords(u) then "name_change"
    else if BankWords(u) then "bank_account_change"
    else if InsuranceWords(u) then "insurance_product"
    else "unknown"
  }

  /** `classifyIntent`, given the model's reply text: the reply's intent
      when it parses and passes the schema, the keyword fallback otherwise.
      The result is always one of the four intents. */
  function ClassifyIntent(utterance: string, replyText: string, parse: Parser): (r: string)
    ensures r in Intents
    ensures parse(replyText).Some? && ValidateReply(parse(replyText).value).Some?
            ==> r == ValidateReply(parse(replyText).value).value
    ensures parse(replyText).None? || ValidateReply(parse(replyText).value).None?
            ==> r == KeywordFallback(utterance)
  {
    match parse(replyText)
    case None => KeywordFallback(utterance)
    case Some(v) =>
      match ValidateReply(v)
      case None => KeywordFallback(utterance)
      case Some(intent) => intent
  }

  /** The fallback ignores case: an utterance, its lower case and its ASCII
      upper case route alike. */
  lemma FallbackIgnoresCase(utterance: string)
    ensures KeywordFallback(Lower(utterance)) == KeywordFallback(utterance)
    ensures KeywordFallback(AsciiUpper(utterance)) == KeywordFallback(utterance)
  {
    LowerIdempotent(utterance);
    LowerAsciiUpper(utterance);
  }
}
