/** The two retrieval tools the relay attaches (backend-node/ragtools.js):
    `search`, which turns the top search hits into text for the model, and
    `report_grounding`, which looks up the cited sources and sends them to
    the client. The search service is a function parameter. */
module RagTools {
  import opened Wrappers
  import opened JsValue
  import opened RealtimeRelay

  // ---------------------------------------------------------------------
  // Configuration and the search service
  // ---------------------------------------------------------------------

  /** The configuration fields the tools read. */
  datatype RagConfig = RagConfig(
    semanticConfiguration: Option<string>,
    identifierField: string,
    contentField: string,
    embeddingField: string,
    titleField: string,
    useVectorQuery: bool)

  /** `{text, kNearestNeighbors, fields}`. */
  datatype VectorQuery = VectorQuery(text: Option<Json>, kNearestNeighbors: int, fields: string)

  /** The options object handed to `searchClient.search`; `None` is an
      option that is not set. */
  datatype SearchOptions = SearchOptions(
    queryType: string,
    top: int,
    select: seq<string>,
    searchFields: Option<seq<string>>,
    vectorQueries: Option<seq<VectorQuery>>,
    semanticConfigurationName: Option<string>)

  /** A search hit's document: its fields by name. */
  type Document = seq<(string, Json)>

  /** `searchClient.search(text, options)` followed by reading every
      result's document; `None` when the call rejects. */
  type SearchClient = (Option<Json>, SearchOptions) -> Option<seq<Document>>

  /** `doc[field]`. */
  function Field(d: Document, f: string): Option<Json> {
    Lookup(d, f)
  }

  // ---------------------------------------------------------------------
  // search
  // ---------------------------------------------------------------------

  /** The options `searchToolImpl` builds: five hits, the identifier and
      content fields, one vector query over the embedding field exactly when
      vector queries are on, and semantic ranking exactly when a semantic
      configuration is set. */
  function SearchOptionsFor(query: Option<Json>, cfg: RagConfig): (o: SearchOptions)
    ensures o.top == 5
    ensures o.select == [cfg.identifierField, cfg.contentField]
    ensures o.searchFields.None?
    ensures o.vectorQueries.Some? <==> cfg.useVectorQuery
    ensures o.vectorQueries.Some? ==> o.vectorQueries.value == [VectorQuery(query, 50, cfg.embeddingField)]
    ensures o.queryType == "semantic" <==> IsSet(cfg.semanticConfiguration)
    ensures o.queryType == "simple" <==> !IsSet(cfg.semanticConfiguration)
    ensures o.semanticConfigurationName.Some? <==> IsSet(cfg.semanticConfiguration)
    ensures o.semanticConfigurationName.Some? ==> o.semanticConfigurationName == cfg.semanticConfiguration
  {
    var vectorQueries := if cfg.useVectorQuery then [VectorQuery(query, 50, cfg.embeddingField)] else [];
    var base := SearchOptions("", 5, [cfg.identifierField, cfg.contentField], None,
                              if |vectorQueries| > 0 then Some(vectorQueries) else None, None);
    if IsSet(cfg.semanticConfiguration)
    then base.(queryType := "semantic", semanticConfigurationName := cfg.semanticConfiguration)
    else base.(queryType := "simple")
  }

  /** One hit as the model reads it: ` [id]: content` and a separator line.
      `None` when a field's conversion to text throws. */
  function Passage(d: Document, cfg: RagConfig): (p: Option<string>)
    ensures p.Some? <==> ToJsString(Field(d, cfg.identifierField)).Some? && ToJsString(Field(d, cfg.contentField)).Some?
    ensures p.Some? ==>
      var id := ToJsString(Field(d, cfg.identifierField)).value;
      var content := ToJsString(Field(d, cfg.contentField)).value;
      && |p.value| == |id| + |content| + 12
      && p.value[..|id| + 5] == " [" + id + "]: "
      && p.value[|id| + 5..|p.value| - 7] == content
      && p.value[|p.value| - 7..] == "\n-----\n"
  {
    var id := ToJsString(Field(d, cfg.identifierField));
    var content := ToJsString(Field(d, cfg.contentField));
    if id.None? || content.None? then None
    else Some(" [" + id.value + "]: " + content.value + "\n-----\n")
  }

  /** The passages of all hits, in order. */
  function SearchText(docs: seq<Document>, cfg: RagConfig): (t: Option<string>)
    ensures t.Some? ==> (t.value == "" <==> docs == [])
  {
    if docs == [] then Some("")
    else
      var front := SearchText(docs[..|docs| - 1], cfg);
      var last := Passage(docs[|docs| - 1], cfg);
      if front.None? || last.None? then None
      else
        assert |front.value + last.value| >= |last.value| >= 12;
        Some(front.value + last.value)
  }

  /** Joins two partial texts; `None` if either is. */
  function Then(x: Option<string>, y: Option<string>): Option<string> {
    if x.Some? && y.Some? then Some(x.value + y.value) else None
  }

  lemma SearchTextSnoc(docs: seq<Document>, d: Document, cfg: RagConfig)
    ensures SearchText(docs + [d], cfg) == Then(SearchText(docs, cfg), Passage(d, cfg))
  {
    assert (docs + [d])[..|docs|] == docs;
  }

  /** The text of two runs of hits is the text of the first followed by the
      text of the second. */
  lemma {:induction false} SearchTextAppend(a: seq<Document>, b: seq<Document>, cfg: RagConfig)
    ensures SearchText(a + b, cfg) == Then(SearchText(a, cfg), SearchText(b, cfg))
    decreases |b|
  {
    if b == [] {
      assert a + b == a;
      if SearchText(a, cfg).Some? {
        assert SearchText(a, cfg).value + "" == SearchText(a, cfg).value;
      }
    } else {
      var b', d := b[..|b| - 1], b[|b| - 1];
      assert b == b' + [d];
      assert a + b == (a + b') + [d];
      var ta, tb, p := SearchText(a, cfg), SearchText(b', cfg), Passage(d, cfg);
      calc {
        SearchText(a + b, cfg);
        SearchText((a + b') + [d], cfg);
        { SearchTextSnoc(a + b', d, cfg); }
        Then(SearchText(a + b', cfg), p);
        { SearchTextAppend(a, b', cfg); }
        Then(Then(ta, tb), p);
        { ThenAssoc(ta, tb, p); }
        Then(ta, Then(tb, p));
        { SearchTextSnoc(b', d, cfg); }
        Then(ta, SearchText(b, cfg));
      }
    }
  }

  lemma ThenAssoc(x: Option<string>, y: Option<string>, z: Option<string>)
    ensures Then(Then(x, y), z) == Then(x, Then(y, z))
  {
    if x.Some? && y.Some? && z.Some? {
      assert (x.value + y.value) + z.value == x.value + (y.value + z.value);
    }
  }

  /** `searchToolImpl`, as a function: a TO_SERVER result holding the
      passages' text; `None` when `args` is `null`, the search rejects or a
      conversion throws. */
  function SearchTool(client: SearchClient, cfg: RagConfig, args: Json): Option<ToolResult>
  {
    if args == JNull then None
    else
      var query := Prop(args, "query");
      match client(query, SearchOptionsFor(query, cfg))
      case None => None
      case Some(docs) =>
        match SearchText(docs, cfg)
        case None => None
        case Some(text) => Some(ToolResult(JStr(text), TO_SERVER))
  }

  /** `searchToolImpl`: accumulates the passages in a loop. */
  method SearchToolImpl(client: SearchClient, cfg: RagConfig, args: Json) returns (r: Option<ToolResult>)
    ensures r == SearchTool(client, cfg, args)
  {
    if args == JNull {
      return None;
    }
    var query := Prop(args, "query");
    var results := client(query, SearchOptionsFor(query, cfg));
    if results.None? {
      return None;
    }
    var docs := results.value;
    var text := "";
    var i := 0;
    while i < |docs|
      invariant 0 <= i <= |docs|
      invariant SearchText(docs[..i], cfg) == Some(text)
    {
      var p := Passage(docs[i], cfg);
      SearchTextStep(docs, i, cfg);
      if p.None? {
        SearchTextNonePrefix(docs, i + 1, cfg);
        return None;
      }
      text := text + p.value;
      i := i + 1;
    }
    assert docs[..i] == docs;
    r := Some(ToolResult(JStr(text), TO_SERVER));
  }

  lemma SearchTextStep(docs: seq<Document>, i: nat, cfg: RagConfig)
    requires i < |docs|
    ensures SearchText(docs[..i + 1], cfg) == Then(SearchText(docs[..i], cfg), Passage(docs[i], cfg))
  {
    assert docs[..i] + [docs[i]] == docs[..i + 1];
    SearchTextSnoc(docs[..i], docs[i], cfg);
  }

  /** A hit whose text cannot be built spoils the whole text. */
  lemma SearchTextNonePrefix(docs: seq<Document>, j: nat, cfg: RagConfig)
    requires j <= |docs| && SearchText(docs[..j], cfg).None?
    ensures SearchText(docs, cfg).None?
  {
    assert docs[..j] + docs[j..] == docs;
    SearchTextAppend(docs[..j], docs[j..], cfg);
  }

  /** The search tool always reports to the model, and its text is empty
      exactly when the search found nothing. */
  lemma SearchToolDirection(client: SearchClient, cfg: RagConfig, args: Json)
    requires SearchTool(client, cfg, args).Some?
    ensures var r := SearchTool(client, cfg, args).value;
      && r.destination == TO_SERVER && r.text.JStr?
      && var docs := client(Prop(args, "query"), SearchOptionsFor(Prop(args, "query"), cfg)).value;
      && (r.text.s == "" <==> docs == [])
      && ToText(r) == r.text.s
  {
  }

  // ---------------------------------------------------------------------
  // report_grounding: which sources are accepted
  // ---------------------------------------------------------------------

  /** A character of the class `[a-zA-Z0-9_=-]`. */
  predicate SafeChar(c: char) {
    ('a' <= c <= 'z') || ('A' <= c <= 'Z') || ('0' <= c <= '9') || c == '_' || c == '=' || c == '-'
  }

  /** The anchored pattern `^[a-zA-Z0-9_\=\-]+$`, matched one character at
      a time: one safe character, then either the end or another match. */
  predicate MatchesSafePattern(s: string) {
    |s| >= 1 && SafeChar(s[0]) && (|s| == 1 || MatchesSafePattern(s[1..]))
  }

  /** The pattern accepts exactly the non-empty strings of safe characters. */
  lemma {:induction false} SafePatternIff(s: string)
    ensures MatchesSafePattern(s) <==> |s| > 0 && forall i :: 0 <= i < |s| ==> SafeChar(s[i])
  {
    if |s| > 1 {
      SafePatternIff(s[1..]);
      assert forall i :: 1 <= i < |s| ==> s[i] == s[1..][i - 1];
    }
  }

  /** `safe(x)`: `RegExp.prototype.test` first converts `x` to text, so a
      number or `null` (the text "null") can pass. `None` when the
      conversion throws. */
  function Safe(x: Json): Option<bool> {
    match ValueToString(x)
    case None => None
    case Some(s) => Some(MatchesSafePattern(s))
  }

  /** `xs.filter(safe)`. */
  function FilterSafe(xs: seq<Json>): Option<seq<Json>>
  {
    if xs == [] then Some([])
    else
      match Safe(xs[0])
      case None => None
      case Some(keep) =>
        match FilterSafe(xs[1..])
        case None => None
        case Some(rest) => Some(if keep then [xs[0]] + rest else rest)
  }

  /** The number of entries `safe` accepts. */
  function CountSafe(xs: seq<Json>): nat
  {
    if xs == [] then 0 else (if Safe(xs[0]) == Some(true) then 1 else 0) + CountSafe(xs[1..])
  }

  /** The filter throws exactly when some entry's conversion throws; it
      otherwise keeps the safe entries, all of them (duplicates included)
      and only them, in order; the count rules out dropping a repeated
      entry. */
  lemma {:induction false} FilterSafeSpec(xs: seq<Json>)
    ensures FilterSafe(xs).None? <==> exists i :: 0 <= i < |xs| && Safe(xs[i]).None?
    ensures FilterSafe(xs).Some? ==>
      var ys := FilterSafe(xs).value;
      && IsSubsequence(ys, xs)
      && (forall i :: 0 <= i < |ys| ==> Safe(ys[i]) == Some(true))
      && |ys| == CountSafe(xs)
      && (forall i :: 0 <= i < |xs| && Safe(xs[i]) == Some(true) ==> xs[i] in ys)
  {
    if xs != [] {
      FilterSafeSpec(xs[1..]);
      assert forall i :: 1 <= i < |xs| ==> xs[i] == xs[1..][i - 1];
      if FilterSafe(xs).Some? {
        var rest := FilterSafe(xs[1..]).value;
        if Safe(xs[0]) == Some(true) {
          var ys := [xs[0]] + rest;
          assert ys[1..] == rest;
          assert forall i :: 1 <= i < |ys| ==> ys[i] == rest[i - 1];
        } else {
          assert xs == [xs[0]] + xs[1..];
          SubsequenceCons(xs[0], rest, xs[1..]);
        }
      }
    }
  }

  /** A subsequence of `b` is a subsequence of `[x] + b`. */
  lemma {:induction false} SubsequenceCons(x: Json, a: seq<Json>, b: seq<Json>)
    requires IsSubsequence(a, b)
    ensures IsSubsequence(a, [x] + b)
    decreases |b|, 1
  {
    assert ([x] + b)[1..] == b;
    if a != [] && a[0] == x {
      SubsequenceDropHead(a, b);
    }
  }

  /** Dropping the head of a subsequence keeps it a subsequence. */
  lemma {:induction false} SubsequenceDropHead(a: seq<Json>, b: seq<Json>)
    requires a != [] && IsSubsequence(a, b)
    ensures IsSubsequence(a[1..], b)
    decreases |b|, 0
  {
    assert b != [];
    assert b == [b[0]] + b[1..];
    if a[0] == b[0] {
      SubsequenceCons(b[0], a[1..], b[1..]);
    } else {
      SubsequenceDropHead(a, b[1..]);
      SubsequenceCons(b[0], a[1..], b[1..]);
    }
  }

  /** `(args.sources || []).filter(safe)`: `None` when `args` is `null`,
      when a truthy `sources` is not an array, or when the filter throws. */
  function AcceptedSources(args: Json): Option<seq<Json>> {
    if args == JNull then None
    else
      var sources := Prop(args, "sources");
      if !Truthy(sources) then Some([])
      else if !sources.value.JArr? then None
      else FilterSafe(sources.value.items)
  }

  // ---------------------------------------------------------------------
  // report_grounding: the query and the result
  // ---------------------------------------------------------------------

  /** An accepted entry as `join` writes it: `null` as "". */
  function JoinText(x: Json): string {
    if x == JNull then "" else ValueToString(x).GetOr("")
  }

  /** `sources.join(" OR ")`. */
  function JoinSources(sources: seq<Json>): string {
    Join(seq(|sources|, i requires 0 <= i < |sources| => JoinText(sources[i])), " OR ")
  }

  /** The grounding search: the identifier field only, the identifier,
      title and content fields, as many hits as accepted sources, full
      query syntax. */
  function GroundingOptions(cfg: RagConfig, sources: seq<Json>): (o: SearchOptions)
    ensures o.queryType == "full" && o.top == |sources|
    ensures o.searchFields == Some([cfg.identifierField])
    ensures o.select == [cfg.identifierField, cfg.titleField, cfg.contentField]
    ensures o.vectorQueries.None? && o.semanticConfigurationName.None?
  {
    SearchOptions("full", |sources|, [cfg.identifierField, cfg.titleField, cfg.contentField],
                  Some([cfg.identifierField]), None, None)
  }

  /** `{chunk_id, title, chunk}` for one hit; a field the document lacks is
      not written. */
  function GroundingDoc(d: Document, cfg: RagConfig): Json {
    JObj(OptMember("chunk_id", Field(d, cfg.identifierField)) + OptMember("title", Field(d, cfg.titleField))
         + OptMember("chunk", Field(d, cfg.contentField)))
  }

  /** The grounding entries of all hits, in order. */
  function GroundingDocs(docs: seq<Document>, cfg: RagConfig): (r: seq<Json>)
    ensures |r| == |docs|
    ensures forall i :: 0 <= i < |docs| ==> r[i] == GroundingDoc(docs[i], cfg)
  {
    seq(|docs|, i requires 0 <= i < |docs| => GroundingDoc(docs[i], cfg))
  }

  /** `{sources: [...]}`. */
  function SourcesPayload(entries: seq<Json>): Json {
    JObj([("sources", JArr(entries))])
  }

  /** `reportGroundingToolImpl`, as a function. */
  function ReportGroundingTool(client: SearchClient, cfg: RagConfig, args: Json): (r: Option<ToolResult>)
    ensures AcceptedSources(args) == Some([]) ==> r == Some(ToolResult(SourcesPayload([]), TO_CLIENT))
    ensures AcceptedSources(args).None? ==> r.None?
    ensures r.Some? ==> r.value.destination == TO_CLIENT
  {
    match AcceptedSources(args)
    case None => None
    case Some(sources) =>
      if |sources| == 0 then Some(ToolResult(SourcesPayload([]), TO_CLIENT))
      else
        match client(Some(JStr(JoinSources(sources))), GroundingOptions(cfg, sources))
        case None => None
        case Some(docs) => Some(ToolResult(SourcesPayload(GroundingDocs(docs, cfg)), TO_CLIENT))
  }

  /** `reportGroundingToolImpl`: builds the entries with a push loop. */
  method ReportGroundingToolImpl(client: SearchClient, cfg: RagConfig, args: Json) returns (r: Option<ToolResult>)
    ensures r == ReportGroundingTool(client, cfg, args)
  {
    var accepted := AcceptedSources(args);
    if accepted.None? {
      return None;
    }
    var sources := accepted.value;
    if |sources| == 0 {
      return Some(ToolResult(SourcesPayload([]), TO_CLIENT));
    }
    var list := JoinSources(sources);
    var results := client(Some(JStr(list)), GroundingOptions(cfg, sources));
    if results.None? {
      return None;
    }
    var hits := results.value;
    var docs: seq<Json> := [];
    var i := 0;
    while i < |hits|
      invariant 0 <= i <= |hits|
      invariant docs == GroundingDocs(hits[..i], cfg)
    {
      docs := docs + [GroundingDoc(hits[i], cfg)];
      i := i + 1;
    }
    assert hits[..i] == hits;
    r := Some(ToolResult(SourcesPayload(docs), TO_CLIENT));
  }

  /** With no accepted source the answer is an empty list for the client,
      whatever the search service would have returned: it is never asked. */
  lemma NoSourceNoSearch(c1: SearchClient, c2: SearchClient, cfg: RagConfig, args: Json)
    requires AcceptedSources(args) == Some([])
    ensures ReportGroundingTool(c1, cfg, args) == ReportGroundingTool(c2, cfg, args)
  {
  }

  /** With accepted sources, the search is asked once, for the joined
      sources with `GroundingOptions`, and each hit becomes one entry, in
      order. */
  lemma GroundingUsesSearch(client: SearchClient, cfg: RagConfig, args: Json)
    requires AcceptedSources(args).Some? && |AcceptedSources(args).value| > 0
    ensures var sources := AcceptedSources(args).value;
      var hits := client(Some(JStr(JoinSources(sources))), GroundingOptions(cfg, sources));
      ReportGroundingTool(client, cfg, args)
        == if hits.None? then None else Some(ToolResult(SourcesPayload(GroundingDocs(hits.value, cfg)), TO_CLIENT))
  {
  }

  // ---------------------------------------------------------------------
  // The grounding query can be read back
  // ---------------------------------------------------------------------

  /** `s.split(" ")`. */
  function SplitSpaces(s: string): (r: seq<string>)
    ensures |r| >= 1
  {
    if s == [] then [""]
    else if s[0] == ' ' then [""] + SplitSpaces(s[1..])
    else
      var rest := SplitSpaces(s[1..]);
      [[s[0]] + rest[0]] + rest[1..]
  }

  /** The words of `ids.join(" OR ")` when no id contains a space. */
  function OrWords(ids: seq<string>): seq<string>
  {
    if |ids| <= 1 then ids else [ids[0], "OR"] + OrWords(ids[1..])
  }

  lemma {:induction false} SplitNoSpacePrefix(a: string, t: string)
    requires forall i :: 0 <= i < |a| ==> a[i] != ' '
    ensures SplitSpaces(a + t) == [a + SplitSpaces(t)[0]] + SplitSpaces(t)[1..]
  {
    if a != [] {
      assert (a + t)[0] == a[0] && (a + t)[1..] == a[1..] + t;
      assert forall i :: 0 <= i < |a[1..]| ==> a[1..][i] == a[i + 1];
      SplitNoSpacePrefix(a[1..], t);
      var r := SplitSpaces(a[1..] + t);
      var st := SplitSpaces(t);
      assert r == [a[1..] + st[0]] + st[1..];
      assert SplitSpaces(a + t) == [[a[0]] + r[0]] + r[1..];
      assert [a[0]] + (a[1..] + st[0]) == a + st[0];
    } else {
      assert a + t == t;
      var st := SplitSpaces(t);
      assert a + st[0] == st[0];
      assert [st[0]] + st[1..] == st;
    }
  }

  lemma SplitOrSeparator(t: string)
    ensures SplitSpaces(" OR " + t) == ["", "OR"] + SplitSpaces(t)
  {
    assert (" OR " + t)[0] == ' ' && (" OR " + t)[1..] == "OR" + (" " + t);
    SplitNoSpacePrefix("OR", " " + t);
    assert (" " + t)[0] == ' ' && (" " + t)[1..] == t;
    assert SplitSpaces(" " + t) == [""] + SplitSpaces(t);
    assert SplitSpaces("OR" + (" " + t)) == ["OR" + ""] + SplitSpaces(t);
    assert "OR" + "" == "OR";
  }

  /** Accepted ids contain no space, so splitting the grounding query on
      spaces gives back every id, in order, separated by "OR". */
  lemma {:induction false} SplitJoinedIds(ids: seq<string>)
    requires forall i :: 0 <= i < |ids| ==> MatchesSafePattern(ids[i])
    ensures |ids| > 0 ==> SplitSpaces(Join(ids, " OR ")) == OrWords(ids)
  {
    if |ids| > 0 {
      SafeHasNoSpace(ids[0]);
      if |ids| == 1 {
        SplitNoSpacePrefix(ids[0], "");
        assert ids[0] + "" == ids[0];
      } else {
        var rest := Join(ids[1..], " OR ");
        var tail := SplitSpaces(" OR " + rest);
        assert Join(ids, " OR ") == ids[0] + (" OR " + rest);
        SplitOrSeparator(rest);
        assert tail[0] == "" && tail[1..] == ["OR"] + SplitSpaces(rest);
        calc {
          SplitSpaces(Join(ids, " OR "));
          SplitSpaces(ids[0] + (" OR " + rest));
          { SplitNoSpacePrefix(ids[0], " OR " + rest); }
          [ids[0] + tail[0]] + tail[1..];
          { assert ids[0] + "" == ids[0]; }
          [ids[0]] + (["OR"] + SplitSpaces(rest));
          { SplitJoinedIds(ids[1..]); }
          [ids[0], "OR"] + OrWords(ids[1..]);
        }
      }
    }
  }

  /** An accepted id holds no space. */
  lemma SafeHasNoSpace(s: string)
    requires MatchesSafePattern(s)
    ensures forall i :: 0 <= i < |s| ==> s[i] != ' '
  {
    SafePatternIff(s);
    forall i | 0 <= i < |s| ensures s[i] != ' ' {
      assert SafeChar(s[i]);
    }
  }

  /** For accepted string ids the query is that round trip's input. */
  lemma AcceptedStringsReadBack(sources: seq<Json>)
    requires |sources| > 0
    requires forall i :: 0 <= i < |sources| ==> sources[i].JStr? && Safe(sources[i]) == Some(true)
    ensures SplitSpaces(JoinSources(sources))
            == OrWords(seq(|sources|, i requires 0 <= i < |sources| && sources[i].JStr? => sources[i].s))
  {
    var ids := seq(|sources|, i requires 0 <= i < |sources| && sources[i].JStr? => sources[i].s);
    assert seq(|sources|, i requires 0 <= i < |sources| => JoinText(sources[i])) == ids;
    SplitJoinedIds(ids);
  }

  /** `null` passes the filter (as the text "null") but joins as "". */
  lemma NullSourceJoinsEmpty()
    ensures Safe(JNull) == Some(true)
    ensures AcceptedSources(JObj([("sources", JArr([JNull]))])) == Some([JNull])
    ensures JoinSources([JNull]) == ""
  {
    assert "null"[1..] == "ull" && "ull"[1..] == "ll" && "ll"[1..] == "l";
    assert MatchesSafePattern("l");
    assert MatchesSafePattern("ll");
    assert MatchesSafePattern("ull");
    assert MatchesSafePattern("null");
    assert Safe(JNull) == Some(true);
    assert [JNull][0] == JNull && [JNull][1..] == [];
    var xs := [JNull];
    assert xs != [] && xs[0] == JNull && xs[1..] == [];
    assert Safe(xs[0]) == Some(true);
    assert FilterSafe(xs[1..]) == Some([]);
    assert [xs[0]] + [] == [JNull];
    assert FilterSafe(xs) == Some([JNull]);
  }

  // ---------------------------------------------------------------------
  // Registration
  // ---------------------------------------------------------------------

  const SearchSchema: Json := JObj([
    ("type", JStr("function")),
    ("name", JStr("search")),
    ("description", JStr("Search the knowledge base. The KB is in Japanese; translate if needed. Results appear as a source name in square brackets followed by text, ending with '-----' per result.")),
    ("parameters", JObj([
      ("type", JStr("object")),
      ("properties", JObj([("query", JObj([("type", JStr("string")), ("description", JStr("Search query"))]))])),
      ("required", JArr([JStr("query")])),
      ("additionalProperties", JBool(false))]))])

  const GroundingSchema: Json := JObj([
    ("type", JStr("function")),
    ("name", JStr("report_grounding")),
    ("description", JStr("Report which KB sources (citations) were used. Sources appear in square brackets before each KB passage.")),
    ("parameters", JObj([
      ("type", JStr("object")),
      ("properties", JObj([("sources", JObj([
        ("type", JStr("array")),
        ("items", JObj([("type", JStr("string"))])),
        ("description", JStr("List of source names from the last statement actually used; omit unused ones."))]))])),
      ("required", JArr([JStr("sources")])),
      ("additionalProperties", JBool(false))]))])

  function SearchToolOf(client: SearchClient, cfg: RagConfig): Tool {
    Tool(args => SearchTool(client, cfg, args), SearchSchema)
  }

  function GroundingToolOf(client: SearchClient, cfg: RagConfig): Tool {
    Tool(args => ReportGroundingTool(client, cfg, args), GroundingSchema)
  }

  /** `attachRagTools`: attaches `search`, then `report_grounding`, both
      over the same search service; each schema's name is the name it is
      registered under. */
  method AttachRagTools(rtmt: RTMiddleTier, client: SearchClient, cfg: RagConfig)
    requires rtmt.Valid()
    modifies rtmt
    ensures rtmt.tools == Put(Put(old(rtmt.tools), "search", SearchToolOf(client, cfg)),
                              "report_grounding", GroundingToolOf(client, cfg))
    ensures Lookup(rtmt.tools, "search") == Some(SearchToolOf(client, cfg))
    ensures Lookup(rtmt.tools, "report_grounding") == Some(GroundingToolOf(client, cfg))
    ensures forall n :: n != "search" && n != "report_grounding" ==> Lookup(rtmt.tools, n) == Lookup(old(rtmt.tools), n)
    ensures old(rtmt.tools) == [] ==> Keys(rtmt.tools) == ["search", "report_grounding"]
    ensures rtmt.pending == old(rtmt.pending) && rtmt.sentToServer == old(rtmt.sentToServer)
    ensures rtmt.sentToClient == old(rtmt.sentToClient)
    ensures rtmt.Valid()
  {
    ghost var t0 := rtmt.tools;
    rtmt.AttachTool("search", SearchToolOf(client, cfg));
    ghost var t1 := rtmt.tools;
    rtmt.AttachTool("report_grounding", GroundingToolOf(client, cfg));
    assert Lookup(rtmt.tools, "search") == Lookup(t1, "search");
    if t0 == [] {
      assert Keys(t1) == ["search"];
    }
  }

  /** Each schema's `name` is the name its tool is registered under. */
  lemma SchemaNames()
    ensures Prop(SearchSchema, "name") == Some(JStr("search"))
    ensures Prop(GroundingSchema, "name") == Some(JStr("report_grounding"))
  {
    var s := SearchSchema.members;
    assert s[0].0 == "type" && s[1..][0] == ("name", JStr("search"));
    var g := GroundingSchema.members;
    assert g[0].0 == "type" && g[1..][0] == ("name", JStr("report_grounding"));
  }
}
