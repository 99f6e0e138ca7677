/** The middle-tier relay between a browser client and the realtime model
    service (backend-node/rtmt.js): tool results, the outbound rewriter
    (client to model), the scripted-greeting request, and the inbound
    rewriter (model to client) with its table of pending tool calls. The
    rewriters are pure functions here; the relay object that owns the tool
    table, the pending table and the two sockets is the class at the end. */
module RealtimeRelay {
  import opened Wrappers
  import opened JsValue

  // ---------------------------------------------------------------------
  // Tools and their results
  // ---------------------------------------------------------------------

  /** `ToolResultDirection.TO_SERVER` and `TO_CLIENT`. */
  const TO_SERVER: int := 1
  const TO_CLIENT: int := 2

  /** What a tool returns: a payload (`JNull` stands for both `null` and
      `undefined`) and where it goes. */
  datatype ToolResult = ToolResult(text: Json, destination: int)

  /** `ToolResult.toText`: nothing becomes "", a string is itself, anything
      else is its JSON text. */
  function ToText(r: ToolResult): (t: string)
    ensures r.text == JNull ==> t == ""
    ensures r.text.JStr? ==> t == r.text.s
    ensures !r.text.JNull? && !r.text.JStr? ==> t == Stringify(r.text)
    ensures t == "" <==> r.text == JNull || r.text == JStr("")
  {
    match r.text
    case JNull => ""
    case JStr(s) => s
    case _ => Stringify(r.text)
  }

  /** A tool: its handler, applied to the parsed call arguments (`None`
      when the handler rejects), and the schema advertised to the model. */
  datatype Tool = Tool(target: Json -> Option<ToolResult>, schema: Json)

  /** `this.tools`: name to tool, in insertion order. */
  type ToolTable = seq<(string, Tool)>

  /** `this._toolsPending`: call id to the id of the conversation item that
      preceded the call. `None` is `undefined` on either side. */
  type Pending = map<Option<Json>, Option<Json>>

  /** The schemas of the attached tools, in insertion order. */
  function Schemas(tools: ToolTable): (ss: seq<Json>)
    ensures |ss| == |tools|
    ensures forall i :: 0 <= i < |tools| ==> ss[i] == tools[i].1.schema
  {
    seq(|tools|, i requires 0 <= i < |tools| => tools[i].1.schema)
  }

  /** `Object.values(this.tools).map((t) => t.schema)` is `Schemas`. */
  lemma SchemasOfValues(tools: ToolTable)
    ensures |Schemas(tools)| == |Values(tools)|
    ensures forall i :: 0 <= i < |tools| ==> Schemas(tools)[i] == Values(tools)[i].schema
  {
    forall i | 0 <= i < |tools| ensures Schemas(tools)[i] == Values(tools)[i].schema {
      ValuesAt(tools, i);
    }
  }

  /** `x || d` for an optional configuration string. */
  function OrDefault(o: Option<string>, d: string): (r: string)
    ensures o.Some? && o.value != "" ==> r == o.value
    ensures (o.None? || o.value == "") ==> r == d
  {
    if o.Some? && o.value != "" then o.value else d
  }

  /** `if (this.voiceChoice)`: a voice is configured and non-empty. */
  predicate IsSet(o: Option<string>) {
    o.Some? && o.value != ""
  }

  // ---------------------------------------------------------------------
  // Session objects
  // ---------------------------------------------------------------------

  /** What `message.session ?? {}` gives, seen through the property
      assignments that follow it and the final `JSON.stringify`: an object's
      members (a fresh empty object for `null` or a missing session), an
      array (whose named properties `JSON.stringify` does not write), or a
      primitive, on which assignment throws in strict mode. */
  datatype SessionTarget = Members(ms: seq<(string, Json)>) | Invisible | NotAssignable

  function SessionTargetOf(m: Json): SessionTarget {
    match Prop(m, "session")
    case None => Members([])
    case Some(JNull) => Members([])
    case Some(JObj(ms)) => Members(ms)
    case Some(JArr(_)) => Invisible
    case Some(_) => NotAssignable
  }

  /** The session fields the server controls on the way out. */
  const PolicyKeys: set<string> :=
    {"instructions", "tool_choice", "tools", "modalities", "input_audio_transcription", "voice"}

  /** The server's policy written over a client session, field by field in
      the order rtmt.js assigns them. */
  function EnforcePolicy(ms: seq<(string, Json)>, systemMessage: string, voiceChoice: Option<string>,
                         tools: ToolTable): seq<(string, Json)>
  {
    var s1 := Put(ms, "instructions", JStr(systemMessage));
    var s2 := Put(s1, "tool_choice", JStr(if |tools| > 0 then "auto" else "none"));
    var s3 := Put(s2, "tools", JArr(Schemas(tools)));
    var s4 := Put(s3, "modalities", JArr([JStr("text"), JStr("audio")]));
    var s5 := Put(s4, "input_audio_transcription", JObj([("model", JStr("whisper-1"))]));
    if IsSet(voiceChoice) then Put(s5, "voice", JStr(voiceChoice.value)) else s5
  }

  /** The session fields hidden from the client on the way in. */
  const RedactedKeys: set<string> :=
    {"instructions", "tools", "voice", "tool_choice", "max_response_output_tokens"}

  /** The redaction of an upstream session, field by field in the order
      rtmt.js assigns them. Without a configured voice, `session.voice` is
      assigned its own value, which changes nothing that is serialised. */
  function RedactSession(ms: seq<(string, Json)>, voiceChoice: Option<string>): seq<(string, Json)>
  {
    var s1 := Put(ms, "instructions", JStr(""));
    var s2 := Put(s1, "tools", JArr([]));
    var s3 := if IsSet(voiceChoice) then Put(s2, "voice", JStr(voiceChoice.value)) else s2;
    var s4 := Put(s3, "tool_choice", JStr("none"));
    Put(s4, "max_response_output_tokens", JNull)
  }

  /** Keys(a) is a prefix of Keys(b): every existing field keeps its place. */
  ghost predicate KeepsOrder(a: seq<(string, Json)>, b: seq<(string, Json)>) {
    Keys(a) <= Keys(b)
  }

  lemma PutKeepsOrder(ms: seq<(string, Json)>, k: string, v: Json)
    ensures KeepsOrder(ms, Put(ms, k, v))
  {
    KeysPut(ms, k, v);
  }

  // ---------------------------------------------------------------------
  // Outbound: client to model
  // ---------------------------------------------------------------------

  /** What a rewriter produces: a frame to send, or a thrown exception. */
  datatype Outcome = Sent(frame: Frame) | Throws

  /** `_processMessageToServer`: a `session.update` gets the server's
      policy; every other frame, and text that is not JSON, passes through
      as it is. */
  function ProcessMessageToServer(frame: Frame, systemMessage: string, voiceChoice: Option<string>,
                                  tools: ToolTable): (r: Outcome)
    ensures frame.Unparsed? ==> r == Sent(frame)
    ensures frame.Parsed? && !HasType(frame.msg, "session.update") ==> r == Sent(frame)
    ensures frame.Parsed? && HasType(frame.msg, "session.update") && SessionTargetOf(frame.msg).Invisible?
            ==> r == Sent(frame)
    ensures r.Throws? <==> frame.Parsed? && HasType(frame.msg, "session.update")
                            && SessionTargetOf(frame.msg).NotAssignable?
  {
    match frame
    case Unparsed(_) => Sent(frame)
    case Parsed(m) =>
      if !HasType(m, "session.update") then Sent(frame)
      else
        match SessionTargetOf(m)
        case Members(ms) =>
          Sent(Parsed(JObj(Put(m.members, "session", JObj(EnforcePolicy(ms, systemMessage, voiceChoice, tools))))))
        case Invisible => Sent(frame)
        case NotAssignable => Throws
  }

  /** Whatever the client put in a `session.update` (when its session is an
      object, `null` or missing), the frame sent upstream carries the
      server's system message, the attached tools' schemas in insertion
      order, `tool_choice` "auto" exactly when a tool is attached, both
      modalities and whisper-1 transcription; the voice is overwritten only
      when one is configured, every other session field and every other
      message field is unchanged, and existing fields keep their order. */
  lemma {:induction false} SessionUpdateEnforcesPolicy(m: Json, systemMessage: string, voiceChoice: Option<string>,
                                                       tools: ToolTable)
    requires HasType(m, "session.update") && SessionTargetOf(m).Members?
    ensures var r := ProcessMessageToServer(Parsed(m), systemMessage, voiceChoice, tools);
      && r.Sent? && r.frame.Parsed? && r.frame.msg.JObj?
      && var out := r.frame.msg;
      && var ms := SessionTargetOf(m).ms;
      && Prop(out, "session").Some? && Prop(out, "session").value.JObj?
      && var s := Prop(out, "session").value;
      && Prop(s, "instructions") == Some(JStr(systemMessage))
      && Prop(s, "tools") == Some(JArr(Schemas(tools)))
      && (Prop(s, "tool_choice") == Some(JStr("auto")) <==> |tools| > 0)
      && (Prop(s, "tool_choice") == Some(JStr("none")) <==> |tools| == 0)
      && Prop(s, "modalities") == Some(JArr([JStr("text"), JStr("audio")]))
      && Prop(s, "input_audio_transcription") == Some(JObj([("model", JStr("whisper-1"))]))
      && Prop(s, "voice") == (if IsSet(voiceChoice) then Some(JStr(voiceChoice.value)) else Lookup(ms, "voice"))
      && (forall k :: k !in PolicyKeys ==> Prop(s, k) == Lookup(ms, k))
      && KeepsOrder(ms, s.members)
      && (forall k :: k != "session" ==> Prop(out, k) == Prop(m, k))
      && KeepsOrder(m.members, out.members)
  {
    var ms := SessionTargetOf(m).ms;
    var s1 := Put(ms, "instructions", JStr(systemMessage));
    var s2 := Put(s1, "tool_choice", JStr(if |tools| > 0 then "auto" else "none"));
    var s3 := Put(s2, "tools", JArr(Schemas(tools)));
    var s4 := Put(s3, "modalities", JArr([JStr("text"), JStr("audio")]));
    var s5 := Put(s4, "input_audio_transcription", JObj([("model", JStr("whisper-1"))]));
    var s := EnforcePolicy(ms, systemMessage, voiceChoice, tools);
    LookupPutSame(ms, "instructions", JStr(systemMessage));
    LookupPutSame(s1, "tool_choice", JStr(if |tools| > 0 then "auto" else "none"));
    LookupPutSame(s2, "tools", JArr(Schemas(tools)));
    LookupPutSame(s3, "modalities", JArr([JStr("text"), JStr("audio")]));
    LookupPutSame(s4, "input_audio_transcription", JObj([("model", JStr("whisper-1"))]));
    forall k | k in PolicyKeys || k !in PolicyKeys
      ensures k != "instructions" ==> Lookup(s1, k) == Lookup(ms, k)
      ensures k != "tool_choice" ==> Lookup(s2, k) == Lookup(s1, k)
      ensures k != "tools" ==> Lookup(s3, k) == Lookup(s2, k)
      ensures k != "modalities" ==> Lookup(s4, k) == Lookup(s3, k)
      ensures k != "input_audio_transcription" ==> Lookup(s5, k) == Lookup(s4, k)
      ensures k != "voice" ==> Lookup(s, k) == Lookup(s5, k)
    {
      if k != "instructions" { LookupPutOther(ms, "instructions", JStr(systemMessage), k); }
      if k != "tool_choice" { LookupPutOther(s1, "tool_choice", JStr(if |tools| > 0 then "auto" else "none"), k); }
      if k != "tools" { LookupPutOther(s2, "tools", JArr(Schemas(tools)), k); }
      if k != "modalities" { LookupPutOther(s3, "modalities", JArr([JStr("text"), JStr("audio")]), k); }
      if k != "input_audio_transcription" {
        LookupPutOther(s4, "input_audio_transcription", JObj([("model", JStr("whisper-1"))]), k);
      }
      if k != "voice" && IsSet(voiceChoice) { LookupPutOther(s5, "voice", JStr(voiceChoice.value), k); }
    }
    if IsSet(voiceChoice) {
      LookupPutSame(s5, "voice", JStr(voiceChoice.value));
      PutKeepsOrder(s5, "voice", JStr(voiceChoice.value));
    }
    PutKeepsOrder(ms, "instructions", JStr(systemMessage));
    PutKeepsOrder(s1, "tool_choice", JStr(if |tools| > 0 then "auto" else "none"));
    PutKeepsOrder(s2, "tools", JArr(Schemas(tools)));
    PutKeepsOrder(s3, "modalities", JArr([JStr("text"), JStr("audio")]));
    PutKeepsOrder(s4, "input_audio_transcription", JObj([("model", JStr("whisper-1"))]));
    var out := Put(m.members, "session", JObj(s));
    LookupPutSame(m.members, "session", JObj(s));
    forall k | k != "session" ensures Lookup(out, k) == Lookup(m.members, k) {
      LookupPutOther(m.members, "session", JObj(s), k);
    }
    PutKeepsOrder(m.members, "session", JObj(s));
  }

  // ---------------------------------------------------------------------
  // The scripted greeting
  // ---------------------------------------------------------------------

  const GreetingHead: string :=
    "あなたは日本語で対応するコールセンターのアシスタントです。\n以下の指示に従ってください：\n1. 最初に、次の挨拶文を一度だけ日本語で丁寧に話してください：\n   「お待たせいたしました、"
  const GreetingMiddle: string := " 様。\n    本日は "
  const GreetingTail: string :=
    " に関するお問い合わせですね。\n    よろしければ、詳細についてお伺いしてもよろしいでしょうか。」\n2. 挨拶の後は、会話を続けて詳細を聞き取り、適切にサポートしてください。"

  /** The greeting instructions for a customer name and an intent. */
  function Greeting(name: string, intent: string): (g: string)
    ensures |g| == |GreetingHead| + |name| + |GreetingMiddle| + |intent| + |GreetingTail|
    ensures g[..|GreetingHead|] == GreetingHead
    ensures g[|GreetingHead|..|GreetingHead| + |name|] == name
    ensures g[|GreetingHead| + |name|..|GreetingHead| + |name| + |GreetingMiddle|] == GreetingMiddle
    ensures g[|GreetingHead| + |name| + |GreetingMiddle|..|g| - |GreetingTail|] == intent
    ensures g[|g| - |GreetingTail|..] == GreetingTail
  {
    GreetingHead + name + GreetingMiddle + intent + GreetingTail
  }

  /** `{type: "response.create", response: {instructions}}`. */
  function ResponseCreateWith(response: seq<(string, Json)>): Json {
    JObj([("type", JStr("response.create")), ("response", JObj(response))])
  }

  /** `_processGettingMessageInstruction`: a `response.create` whose
      instructions interpolate `user_info.name` and `intent` (as template
      literals convert them) into the greeting; the original frame when
      `user_info` is `null` or missing, or a conversion throws. */
  function GettingInstruction(m: Json): (f: Frame)
    ensures Prop(m, "user_info").None? || Prop(m, "user_info") == Some(JNull) ==> f == Parsed(m)
    ensures Prop(m, "user_info").Some? && Prop(m, "user_info") != Some(JNull) ==>
              var name := ToJsString(Prop(Prop(m, "user_info").value, "name"));
              var intent := ToJsString(Prop(m, "intent"));
              && (name.Some? && intent.Some? ==>
                    f == Parsed(ResponseCreateWith([("instructions", JStr(Greeting(name.value, intent.value)))])))
              && (name.None? || intent.None? ==> f == Parsed(m))
    ensures forall name, intent ::
              Prop(m, "user_info").Some? && Prop(Prop(m, "user_info").value, "name") == Some(JStr(name))
              && Prop(m, "intent") == Some(JStr(intent))
              ==> f == Parsed(ResponseCreateWith([("instructions", JStr(Greeting(name, intent)))]))
    ensures forall intent ::
              Prop(m, "user_info").Some? && Prop(m, "user_info") != Some(JNull)
              && Prop(Prop(m, "user_info").value, "name").None? && Prop(m, "intent") == Some(JStr(intent))
              ==> f == Parsed(ResponseCreateWith([("instructions", JStr(Greeting("undefined", intent)))]))
  {
    var userInfo := Prop(m, "user_info");
    if userInfo.None? || userInfo == Some(JNull) then Parsed(m)
    else
      var name := ToJsString(Prop(userInfo.value, "name"));
      var intent := ToJsString(Prop(m, "intent"));
      if name.None? || intent.None? then Parsed(m)
      else Parsed(ResponseCreateWith([("instructions", JStr(Greeting(name.value, intent.value)))]))
  }

  /** The plain-line instructions: `customer_name: <name>` and
      `intent: <intent>`, each ended by a newline. */
  function PlayInstructions(name: string, intent: string): string {
    "customer_name: " + name + "\n" + "intent: " + intent + "\n"
  }

  /** `_processPlayGettingMessage` (present in rtmt.js, not called): the
      name and intent as plain lines, with the modalities audio and text;
      the original frame when `user_info` is `null` or missing, or a
      conversion throws. */
  function PlayGettingMessage(m: Json): (f: Frame)
    ensures Prop(m, "user_info").None? || Prop(m, "user_info") == Some(JNull) ==> f == Parsed(m)
    ensures Prop(m, "user_info").Some? && Prop(m, "user_info") != Some(JNull) ==>
              var name := ToJsString(Prop(Prop(m, "user_info").value, "name"));
              var intent := ToJsString(Prop(m, "intent"));
              && (name.Some? && intent.Some? ==>
                    && f == Parsed(ResponseCreateWith([("instructions", JStr(PlayInstructions(name.value, intent.value))),
                                                       ("modalities", JArr([JStr("audio"), JStr("text")]))]))
                    && HasType(f.msg, "response.create")
                    && PropOf(Prop(f.msg, "response"), "instructions") == Some(JStr(PlayInstructions(name.value, intent.value)))
                    && PropOf(Prop(f.msg, "response"), "modalities") == Some(JArr([JStr("audio"), JStr("text")])))
              && (name.None? || intent.None? ==> f == Parsed(m))
  {
    var userInfo := Prop(m, "user_info");
    if userInfo.None? || userInfo == Some(JNull) then Parsed(m)
    else
      var name := ToJsString(Prop(userInfo.value, "name"));
      var intent := ToJsString(Prop(m, "intent"));
      if name.None? || intent.None? then Parsed(m)
      else
        var response: seq<(string, Json)> := [("instructions", JStr(PlayInstructions(name.value, intent.value))),
                                              ("modalities", JArr([JStr("audio"), JStr("text")]))];
        assert response[0].0 != "modalities" by { assert response[0].0[0] != "modalities"[0]; }
        assert Lookup(response[1..], "modalities") == Some(JArr([JStr("audio"), JStr("text")]));
        var out := ResponseCreateWith(response);
        assert out.members[0].0 != "response" by { assert out.members[0].0[0] != "response"[0]; }
        assert Lookup(out.members[1..], "response") == Some(JObj(response));
        Parsed(out)
  }

  /** The text up to the first newline (all of it when there is none). */
  function FirstLine(s: string): (l: string)
    ensures '\n' !in l && |l| <= |s|
  {
    if s == [] || s[0] == '\n' then [] else [s[0]] + FirstLine(s[1..])
  }

  /** The text after the first newline ("" when there is none). */
  function AfterFirstLine(s: string): string {
    if s == [] then [] else if s[0] == '\n' then s[1..] else AfterFirstLine(s[1..])
  }

  lemma {:induction false} FirstLineOf(a: string, b: string)
    requires '\n' !in a
    ensures FirstLine(a + "\n" + b) == a && AfterFirstLine(a + "\n" + b) == b
  {
    if a == [] {
      assert a + "\n" + b == "\n" + b;
      assert ("\n" + b)[1..] == b;
    } else {
      assert (a + "\n" + b)[0] == a[0] && (a + "\n" + b)[1..] == a[1..] + "\n" + b;
      FirstLineOf(a[1..], b);
      assert [a[0]] + a[1..] == a;
    }
  }

  /** The plain-line instructions read back: when neither the name nor the
      intent holds a newline, the first line is the name's, the second the
      intent's, and nothing follows. */
  lemma PlayInstructionsReadBack(name: string, intent: string)
    requires '\n' !in name && '\n' !in intent
    ensures var s := PlayInstructions(name, intent);
      && FirstLine(s) == "customer_name: " + name
      && FirstLine(AfterFirstLine(s)) == "intent: " + intent
      && AfterFirstLine(AfterFirstLine(s)) == ""
  {
    var l1, l2 := "customer_name: " + name, "intent: " + intent;
    assert '\n' !in l1 by { assert forall i :: 0 <= i < |l1| ==> l1[i] != '\n' by {
      forall i | 0 <= i < |l1| ensures l1[i] != '\n' { if i >= 15 { assert l1[i] == name[i - 15]; } }
    } }
    assert '\n' !in l2 by { assert forall i :: 0 <= i < |l2| ==> l2[i] != '\n' by {
      forall i | 0 <= i < |l2| ensures l2[i] != '\n' { if i >= 8 { assert l2[i] == intent[i - 8]; } }
    } }
    assert PlayInstructions(name, intent) == l1 + "\n" + (l2 + "\n");
    FirstLineOf(l1, l2 + "\n");
    assert l2 + "\n" == l2 + "\n" + "";
    FirstLineOf(l2, "");
  }

  /** The dispatch of one client frame (rtmt.js, the client "message"
      handler): `JSON.parse` there is unguarded, so text that is not JSON
      throws and nothing is sent; `session.getting` becomes the greeting
      request; everything else goes through `ProcessMessageToServer`.
      `None` means nothing is sent upstream. */
  function ClientDispatch(frame: Frame, systemMessage: string, voiceChoice: Option<string>,
                          tools: ToolTable): (r: Option<Frame>)
    ensures frame.Unparsed? ==> r.None?
    ensures frame.Parsed? && HasType(frame.msg, "session.getting") ==> r == Some(GettingInstruction(frame.msg))
    ensures frame.Parsed? && !HasType(frame.msg, "session.getting") ==>
              var o := ProcessMessageToServer(frame, systemMessage, voiceChoice, tools);
              r == if o.Sent? then Some(o.frame) else None
    ensures frame.Parsed? && !HasType(frame.msg, "session.getting") && !HasType(frame.msg, "session.update")
            ==> r == Some(frame)
  {
    match frame
    case Unparsed(_) => None
    case Parsed(m) =>
      if HasType(m, "session.getting") then Some(GettingInstruction(m))
      else
        match ProcessMessageToServer(frame, systemMessage, voiceChoice, tools)
        case Sent(f) => Some(f)
        case Throws => None
  }

  /** What the client handler sends for a `session.update` whose session
      is an object, `null` or missing: the frame carries the server's system
      message, the attached tools' schemas, `tool_choice` "auto" exactly
      when a tool is attached, both modalities and whisper-1 transcription,
      the configured voice when there is one, and every other message field
      as the client sent it. */
  lemma ClientSessionUpdateSendsPolicy(m: Json, systemMessage: string, voiceChoice: Option<string>, tools: ToolTable)
    requires HasType(m, "session.update") && SessionTargetOf(m).Members?
    ensures var r := ClientDispatch(Parsed(m), systemMessage, voiceChoice, tools);
      && r.Some? && r.value.Parsed?
      && var out := r.value.msg;
      && Prop(out, "session").Some? && Prop(out, "session").value.JObj?
      && var s := Prop(out, "session").value;
      && Prop(s, "instructions") == Some(JStr(systemMessage))
      && Prop(s, "tools") == Some(JArr(Schemas(tools)))
      && (Prop(s, "tool_choice") == Some(JStr("auto")) <==> |tools| > 0)
      && Prop(s, "modalities") == Some(JArr([JStr("text"), JStr("audio")]))
      && Prop(s, "input_audio_transcription") == Some(JObj([("model", JStr("whisper-1"))]))
      && (IsSet(voiceChoice) ==> Prop(s, "voice") == Some(JStr(voiceChoice.value)))
      && (forall k :: k != "session" ==> Prop(out, k) == Prop(m, k))
  {
    SessionUpdateEnforcesPolicy(m, systemMessage, voiceChoice, tools);
  }

  // ---------------------------------------------------------------------
  // Inbound: model to client
  // ---------------------------------------------------------------------

  /** What the inbound rewriter returns for the frame itself: forward it,
      return `null` (suppress), or throw (the handler's promise rejects). */
  datatype Reply = Forward(frame: Frame) | Suppress | Abort

  /** One inbound frame's effect: the reply, the new pending table and the
      messages sent on each socket while it was processed. */
  datatype Step = Step(reply: Reply, pending: Pending, toServer: seq<Json>, toClient: seq<Json>)

  /** `x?.type === "function_call"`. */
  predicate IsFunctionCall(item: Option<Json>) {
    PropOf(item, "type") == Some(JStr("function_call"))
  }

  /** The three event kinds that are hidden when their item is a function call. */
  predicate IsCallPlumbing(m: Json) {
    HasType(m, "response.output_item.added")
    || HasType(m, "response.function_call_arguments.delta")
    || HasType(m, "response.function_call_arguments.done")
  }

  /** A member that `JSON.stringify` writes only when its value is defined. */
  function OptMember(k: string, o: Option<Json>): seq<(string, Json)> {
    if o.Some? then [(k, o.value)] else []
  }

  /** `{type: "conversation.item.create", item: {type: "function_call_output", call_id, output}}`. */
  function FunctionCallOutput(callId: Option<Json>, output: string): Json {
    JObj([("type", JStr("conversation.item.create")),
          ("item", JObj([("type", JStr("function_call_output"))] + OptMember("call_id", callId)
                        + [("output", JStr(output))]))])
  }

  /** `{type: "extension.middle_tier_tool_response", previous_item_id, tool_name, tool_result}`. */
  function ToolResponse(previousId: Option<Json>, toolName: Json, result: string): Json {
    JObj([("type", JStr("extension.middle_tier_tool_response"))] + OptMember("previous_item_id", previousId)
         + [("tool_name", toolName), ("tool_result", JStr(result))])
  }

  /** `{type: "response.create"}`. */
  const ResponseCreate: Json := JObj([("type", JStr("response.create"))])

  /** The text handed to `JSON.parse`: `item.arguments || "{}"`. */
  function ArgumentsText(item: Json): Option<string> {
    var a := Prop(item, "arguments");
    if Truthy(a) then ToJsString(a) else Some("{}")
  }

  /** Names every plain object inherits from `Object.prototype`: looking
      one of them up in `this.tools` finds a value without a `target`, and
      calling it throws. */
  const ObjectPrototypeNames: set<string> :=
    {"constructor", "toString", "toLocaleString", "valueOf", "hasOwnProperty", "isPrototypeOf",
     "propertyIsEnumerable", "__proto__", "__defineGetter__", "__defineSetter__",
     "__lookupGetter__", "__lookupSetter__"}

  /** The tool a function call names, if its name is a string naming an
      attached tool. */
  function ToolFor(tools: ToolTable, item: Json): Option<Tool> {
    var name := Prop(item, "name");
    if name.Some? && name.value.JStr? then Lookup(tools, name.value.s) else None
  }

  /** A completed function call (`response.output_item.done`): run the tool
      and report back. */
  function ToolCallStep(tools: ToolTable, parse: Parser, pending: Pending, item: Json): Step
    requires IsFunctionCall(Some(item))
  {
    var name := Prop(item, "name");
    match ToolFor(tools, item)
    case None =>
      if name.Some? && name.value.JStr? && name.value.s in ObjectPrototypeNames
      then Step(Abort, pending, [], [])
      else Step(Suppress, pending, [], [])
    case Some(tool) =>
      var argText := ArgumentsText(item);
      if argText.None? || parse(argText.value).None? then Step(Abort, pending, [], [])
      else
        match tool.target(parse(argText.value).value)
        case None => Step(Abort, pending, [], [])
        case Some(result) =>
          var callId := Prop(item, "call_id");
          var out := FunctionCallOutput(callId, if result.destination == TO_SERVER then ToText(result) else "");
          var previousId := if callId in pending then pending[callId] else None;
          var notify := if result.destination == TO_CLIENT
                        then [ToolResponse(previousId, name.value, ToText(result))] else [];
          Step(Suppress, pending, [out], notify)
  }

  /** The output list of a `response.done` without its function calls;
      `None` when `o.type` throws on a `null` entry. */
  function WithoutFunctionCalls(items: seq<Json>): Option<seq<Json>>
  {
    if items == [] then Some([])
    else if items[0] == JNull then None
    else
      var rest := WithoutFunctionCalls(items[1..]);
      if rest.None? then None
      else if HasType(items[0], "function_call") then rest
      else Some([items[0]] + rest.value)
  }

  /** `response.done`: clear the pending table and ask for another response
      when calls were pending, then strip function calls from
      `response.output`. */
  function ResponseDoneStep(pending: Pending, m: Json): Step
    requires HasType(m, "response.done")
  {
    var pending' := if |pending| > 0 then map[] else pending;
    var sends := if |pending| > 0 then [ResponseCreate] else [];
    var response := Prop(m, "response");
    var output := PropOf(response, "output");
    if !Truthy(output) then Step(Forward(Parsed(m)), pending', sends, [])
    else if !output.value.JArr? then Step(Abort, pending', sends, [])
    else
      match WithoutFunctionCalls(output.value.items)
      case None => Step(Abort, pending', sends, [])
      case Some(kept) =>
        if |kept| == |output.value.items| then Step(Forward(Parsed(m)), pending', sends, [])
        else
          var response' := JObj(Put(response.value.members, "output", JArr(kept)));
          Step(Forward(Parsed(JObj(Put(m.members, "response", response')))), pending', sends, [])
  }

  /** `_processMessageToClient`, as a function of the pending table. */
  function InboundStep(tools: ToolTable, parse: Parser, voiceChoice: Option<string>, pending: Pending,
                       frame: Frame): Step
  {
    match frame
    case Unparsed(_) => Step(Forward(frame), pending, [], [])
    case Parsed(m) =>
      if HasType(m, "session.created") then
        match SessionTargetOf(m)
        case Members(ms) =>
          Step(Forward(Parsed(JObj(Put(m.members, "session", JObj(RedactSession(ms, voiceChoice)))))), pending, [], [])
        case Invisible => Step(Forward(frame), pending, [], [])
        case NotAssignable => Step(Abort, pending, [], [])
      else if IsCallPlumbing(m) then
        if IsFunctionCall(Prop(m, "item")) then Step(Suppress, pending, [], [])
        else Step(Forward(frame), pending, [], [])
      else if HasType(m, "conversation.item.created") then
        var item := Prop(m, "item");
        if IsFunctionCall(item) then
          var callId := Prop(item.value, "call_id");
          Step(Suppress, if callId in pending then pending else pending[callId := Prop(m, "previous_item_id")], [], [])
        else if PropOf(item, "type") == Some(JStr("function_call_output")) then Step(Suppress, pending, [], [])
        else Step(Forward(frame), pending, [], [])
      else if HasType(m, "response.output_item.done") then
        var item := Prop(m, "item");
        if IsFunctionCall(item) then ToolCallStep(tools, parse, pending, item.value)
        else Step(Forward(frame), pending, [], [])
      else if HasType(m, "response.done") then ResponseDoneStep(pending, m)
      else Step(Forward(frame), pending, [], [])
  }

  // ---------------------------------------------------------------------
  // Properties of the inbound rewriter
  // ---------------------------------------------------------------------

  /** The fields `RedactSession` hides, and everything it leaves alone. */
  lemma {:induction false} RedactSessionFields(ms: seq<(string, Json)>, voiceChoice: Option<string>)
    ensures var s := RedactSession(ms, voiceChoice);
      && Lookup(s, "instructions") == Some(JStr(""))
      && Lookup(s, "tools") == Some(JArr([]))
      && Lookup(s, "tool_choice") == Some(JStr("none"))
      && Lookup(s, "max_response_output_tokens") == Some(JNull)
      && Lookup(s, "voice") == (if IsSet(voiceChoice) then Some(JStr(voiceChoice.value)) else Lookup(ms, "voice"))
      && (forall k :: k !in RedactedKeys ==> Lookup(s, k) == Lookup(ms, k))
      && KeepsOrder(ms, s)
  {
    var s1 := Put(ms, "instructions", JStr(""));
    var s2 := Put(s1, "tools", JArr([]));
    var s3 := if IsSet(voiceChoice) then Put(s2, "voice", JStr(voiceChoice.value)) else s2;
    var s4 := Put(s3, "tool_choice", JStr("none"));
    var s := Put(s4, "max_response_output_tokens", JNull);
    LookupPutSame(ms, "instructions", JStr(""));
    LookupPutSame(s1, "tools", JArr([]));
    LookupPutSame(s3, "tool_choice", JStr("none"));
    LookupPutSame(s4, "max_response_output_tokens", JNull);
    if IsSet(voiceChoice) {
      LookupPutSame(s2, "voice", JStr(voiceChoice.value));
      PutKeepsOrder(s2, "voice", JStr(voiceChoice.value));
    }
    forall k | k in RedactedKeys || k !in RedactedKeys
      ensures k != "instructions" ==> Lookup(s1, k) == Lookup(ms, k)
      ensures k != "tools" ==> Lookup(s2, k) == Lookup(s1, k)
      ensures k != "voice" ==> Lookup(s3, k) == Lookup(s2, k)
      ensures k != "tool_choice" ==> Lookup(s4, k) == Lookup(s3, k)
      ensures k != "max_response_output_tokens" ==> Lookup(s, k) == Lookup(s4, k)
    {
      if k != "instructions" { LookupPutOther(ms, "instructions", JStr(""), k); }
      if k != "tools" { LookupPutOther(s1, "tools", JArr([]), k); }
      if k != "voice" && IsSet(voiceChoice) { LookupPutOther(s2, "voice", JStr(voiceChoice.value), k); }
      if k != "tool_choice" { LookupPutOther(s3, "tool_choice", JStr("none"), k); }
      if k != "max_response_output_tokens" { LookupPutOther(s4, "max_response_output_tokens", JNull, k); }
    }
    PutKeepsOrder(ms, "instructions", JStr(""));
    PutKeepsOrder(s1, "tools", JArr([]));
    PutKeepsOrder(s3, "tool_choice", JStr("none"));
    PutKeepsOrder(s4, "max_response_output_tokens", JNull);
  }

  /** An upstream `session.created` whose session is an object (or missing)
      is forwarded with instructions "", no tools, `tool_choice` "none" and
      no output-token cap; the voice becomes the configured one when there
      is one and is otherwise left as it was; every other field is kept.
      Nothing is sent and the pending table is untouched. A session that is
      an array is forwarded as it is; one that is a primitive makes the
      handler throw. */
  lemma SessionCreatedRedacted(tools: ToolTable, parse: Parser, voiceChoice: Option<string>, pending: Pending,
                               m: Json)
    requires HasType(m, "session.created")
    ensures var st := InboundStep(tools, parse, voiceChoice, pending, Parsed(m));
      && st.pending == pending && st.toServer == [] && st.toClient == []
      && (SessionTargetOf(m).Invisible? ==> st.reply == Forward(Parsed(m)))
      && (SessionTargetOf(m).NotAssignable? ==> st.reply == Abort)
      && (SessionTargetOf(m).Members? ==>
            var ms := SessionTargetOf(m).ms;
            && st.reply.Forward? && st.reply.frame.Parsed?
            && var out := st.reply.frame.msg;
            && HasType(out, "session.created")
            && (forall k :: k != "session" ==> Prop(out, k) == Prop(m, k))
            && Prop(out, "session").Some? && Prop(out, "session").value.JObj?
            && var s := Prop(out, "session").value;
            && Prop(s, "instructions") == Some(JStr(""))
            && Prop(s, "tools") == Some(JArr([]))
            && Prop(s, "tool_choice") == Some(JStr("none"))
            && Prop(s, "max_response_output_tokens") == Some(JNull)
            && Prop(s, "voice") == (if IsSet(voiceChoice) then Some(JStr(voiceChoice.value)) else Lookup(ms, "voice"))
            && (forall k :: k !in RedactedKeys ==> Prop(s, k) == Lookup(ms, k)))
  {
    if SessionTargetOf(m).Members? {
      var ms := SessionTargetOf(m).ms;
      var red := RedactSession(ms, voiceChoice);
      RedactSessionFields(ms, voiceChoice);
      LookupPutSame(m.members, "session", JObj(red));
      forall k | k != "session" ensures Lookup(Put(m.members, "session", JObj(red)), k) == Lookup(m.members, k) {
        LookupPutOther(m.members, "session", JObj(red), k);
      }
    }
  }

  /** `response.output_item.added` and the two argument events are
      suppressed exactly when their item is a function call, and otherwise
      forwarded unchanged; either way nothing is sent and the pending table
      is untouched. */
  lemma CallPlumbingSuppressedIff(tools: ToolTable, parse: Parser, voiceChoice: Option<string>, pending: Pending,
                                  m: Json)
    requires IsCallPlumbing(m)
    ensures var st := InboundStep(tools, parse, voiceChoice, pending, Parsed(m));
      && (st.reply == Suppress <==> IsFunctionCall(Prop(m, "item")))
      && (st.reply != Suppress ==> st.reply == Forward(Parsed(m)))
      && st.pending == pending && st.toServer == [] && st.toClient == []
  {
  }

  /** `conversation.item.created` is suppressed exactly when its item is a
      function call or a function-call output. A function call records its
      call id with the preceding item id, unless that call id is already
      recorded: the first entry wins. Nothing is ever sent. */
  lemma ItemCreatedTracksCall(tools: ToolTable, parse: Parser, voiceChoice: Option<string>, pending: Pending,
                              m: Json)
    requires HasType(m, "conversation.item.created")
    ensures var st := InboundStep(tools, parse, voiceChoice, pending, Parsed(m));
      var item := Prop(m, "item");
      && (st.reply == Suppress <==>
            IsFunctionCall(item) || PropOf(item, "type") == Some(JStr("function_call_output")))
      && (st.reply != Suppress ==> st.reply == Forward(Parsed(m)))
      && st.toServer == [] && st.toClient == []
      && (IsFunctionCall(item) ==>
            var callId := Prop(item.value, "call_id");
            && callId in st.pending
            && st.pending[callId] == (if callId in pending then pending[callId] else Prop(m, "previous_item_id"))
            && (forall c :: c != callId ==> (c in st.pending <==> c in pending))
            && (forall c :: c != callId && c in pending ==> st.pending[c] == pending[c]))
      && (!IsFunctionCall(item) ==> st.pending == pending)
  {
  }

  /** Two `conversation.item.created` events for the same function call:
      the second never overwrites the preceding item id the first stored. */
  lemma RepeatedCallKeepsFirst(tools: ToolTable, parse: Parser, voiceChoice: Option<string>, pending: Pending,
                               m1: Json, m2: Json)
    requires HasType(m1, "conversation.item.created") && HasType(m2, "conversation.item.created")
    requires IsFunctionCall(Prop(m1, "item")) && IsFunctionCall(Prop(m2, "item"))
    requires Prop(Prop(m1, "item").value, "call_id") == Prop(Prop(m2, "item").value, "call_id")
    requires Prop(Prop(m1, "item").value, "call_id") !in pending
    ensures var p1 := InboundStep(tools, parse, voiceChoice, pending, Parsed(m1)).pending;
      var p2 := InboundStep(tools, parse, voiceChoice, p1, Parsed(m2)).pending;
      var callId := Prop(Prop(m1, "item").value, "call_id");
      callId in p2 && p2[callId] == Prop(m1, "previous_item_id")
  {
    ItemCreatedTracksCall(tools, parse, voiceChoice, pending, m1);
    var p1 := InboundStep(tools, parse, voiceChoice, pending, Parsed(m1)).pending;
    ItemCreatedTracksCall(tools, parse, voiceChoice, p1, m2);
  }

  /** A completed function call is never forwarded and never changes the
      pending table. An unknown tool name sends nothing. A known tool whose
      arguments parse and whose handler answers sends exactly one
      `conversation.item.create` upstream with the same call id, carrying
      the result's text when it is meant for the server and "" otherwise,
      and sends the client one `extension.middle_tier_tool_response` (tool
      name, the result's text, the preceding item id recorded for the call)
      exactly when the result is meant for the client. When the arguments
      do not parse or the handler rejects, nothing is sent. */
  lemma ToolCallSends(tools: ToolTable, parse: Parser, voiceChoice: Option<string>, pending: Pending, m: Json)
    requires HasType(m, "response.output_item.done") && IsFunctionCall(Prop(m, "item"))
    ensures var st := InboundStep(tools, parse, voiceChoice, pending, Parsed(m));
      var item := Prop(m, "item").value;
      && !st.reply.Forward? && st.pending == pending
      && (ToolFor(tools, item).None? ==> st.toServer == [] && st.toClient == [])
      && (ToolFor(tools, item).Some? ==>
            var argText := ArgumentsText(item);
            if argText.None? || parse(argText.value).None?
               || ToolFor(tools, item).value.target(parse(argText.value).value).None?
            then st.reply == Abort && st.toServer == [] && st.toClient == []
            else
              var result := ToolFor(tools, item).value.target(parse(argText.value).value).value;
              var callId := Prop(item, "call_id");
              && st.reply == Suppress
              && st.toServer == [FunctionCallOutput(callId, if result.destination == TO_SERVER then ToText(result) else "")]
              && st.toClient == (if result.destination == TO_CLIENT
                                 then [ToolResponse(if callId in pending then pending[callId] else None,
                                                    Prop(item, "name").value, ToText(result))]
                                 else []))
  {
  }

  /** The number of `function_call` entries in a list of output items. */
  function CountFunctionCalls(items: seq<Json>): nat
  {
    if items == [] then 0
    else (if HasType(items[0], "function_call") then 1 else 0) + CountFunctionCalls(items[1..])
  }

  /** `a` is `b` with some entries left out, in the same order. */
  predicate IsSubsequence(a: seq<Json>, b: seq<Json>)
  {
    if a == [] then true
    else if b == [] then false
    else if a[0] == b[0] then IsSubsequence(a[1..], b[1..])
    else IsSubsequence(a, b[1..])
  }

  /** Filtering throws exactly on a `null` entry; otherwise it keeps every
      entry that is not a function call and only those, in order, and the
      list is unchanged exactly when it held no function call. */
  lemma {:induction false} WithoutFunctionCallsSpec(items: seq<Json>)
    ensures WithoutFunctionCalls(items).None? <==> JNull in items
    ensures WithoutFunctionCalls(items).Some? ==>
      var kept := WithoutFunctionCalls(items).value;
      && (forall i :: 0 <= i < |kept| ==> !HasType(kept[i], "function_call"))
      && IsSubsequence(kept, items)
      && |kept| + CountFunctionCalls(items) == |items|
      && (|kept| == |items| <==> kept == items)
      && (|kept| == |items| <==> CountFunctionCalls(items) == 0)
  {
    if items != [] {
      assert items == [items[0]] + items[1..];
      WithoutFunctionCallsSpec(items[1..]);
      if items[0] != JNull && WithoutFunctionCalls(items[1..]).Some? {
        var rest := WithoutFunctionCalls(items[1..]).value;
        if HasType(items[0], "function_call") {
          if rest != [] {
            assert rest[0] != items[0];
          }
        } else {
          var kept := [items[0]] + rest;
          assert kept[1..] == rest;
        }
      }
    }
  }

  /** `response.done` always leaves the pending table empty; it sends one
      `response.create` upstream exactly when calls were pending, and
      nothing otherwise. When `response.output` is a list without `null`
      entries, the forwarded message's output is that list without its
      function calls, in order, and the message is forwarded unchanged when
      there were none. */
  lemma ResponseDoneResumes(tools: ToolTable, parse: Parser, voiceChoice: Option<string>, pending: Pending,
                            m: Json)
    requires HasType(m, "response.done")
    ensures var st := InboundStep(tools, parse, voiceChoice, pending, Parsed(m));
      && st.pending == map[]
      && st.toServer == (if |pending| > 0 then [ResponseCreate] else [])
      && st.toClient == []
      && (!Truthy(PropOf(Prop(m, "response"), "output")) ==> st.reply == Forward(Parsed(m)))
      && (var output := PropOf(Prop(m, "response"), "output");
          Truthy(output) && (!output.value.JArr? || JNull in output.value.items) ==> st.reply == Abort)
      && (var output := PropOf(Prop(m, "response"), "output");
          output.Some? && output.value.JArr? && JNull !in output.value.items ==>
            var items := output.value.items;
            && st.reply.Forward? && st.reply.frame.Parsed?
            && var out := st.reply.frame.msg;
            && HasType(out, "response.done")
            && (CountFunctionCalls(items) == 0 ==> out == m)
            && PropOf(Prop(out, "response"), "output").Some?
            && PropOf(Prop(out, "response"), "output").value.JArr?
            && var kept := PropOf(Prop(out, "response"), "output").value.items;
            && (forall i :: 0 <= i < |kept| ==> !HasType(kept[i], "function_call"))
            && IsSubsequence(kept, items)
            && |kept| + CountFunctionCalls(items) == |items|
            && out.JObj? && (forall k :: k != "response" ==> Prop(out, k) == Prop(m, k))
            && KeepsOrder(m.members, out.members)
            && Prop(out, "response").value.JObj?
            && (forall k :: k != "output" ==> Prop(Prop(out, "response").value, k) == Prop(Prop(m, "response").value, k))
            && KeepsOrder(Prop(m, "response").value.members, Prop(out, "response").value.members))
  {
    var output := PropOf(Prop(m, "response"), "output");
    if output.Some? && output.value.JArr? && JNull !in output.value.items {
      var items := output.value.items;
      WithoutFunctionCallsSpec(items);
      var kept := WithoutFunctionCalls(items).value;
      if |kept| != |items| {
        ResponseDoneRewrite(m, kept);
      }
    } else if Truthy(output) && output.value.JArr? {
      WithoutFunctionCallsSpec(output.value.items);
    }
  }

  /** Replacing `response.output` keeps every other field of the message
      and of its response, each in its place. */
  lemma ResponseDoneRewrite(m: Json, kept: seq<Json>)
    requires m.JObj? && Prop(m, "response").Some? && Prop(m, "response").value.JObj?
    ensures var response := Prop(m, "response").value;
      var response' := JObj(Put(response.members, "output", JArr(kept)));
      var out := JObj(Put(m.members, "response", response'));
      && (forall t :: HasType(out, t) <==> HasType(m, t))
      && Prop(out, "response") == Some(response')
      && Prop(response', "output") == Some(JArr(kept))
      && (forall k :: k != "response" ==> Prop(out, k) == Prop(m, k))
      && KeepsOrder(m.members, out.members)
      && (forall k :: k != "output" ==> Prop(response', k) == Prop(response, k))
      && KeepsOrder(response.members, response'.members)
  {
    var response := Prop(m, "response").value;
    var response' := JObj(Put(response.members, "output", JArr(kept)));
    LookupPutSame(response.members, "output", JArr(kept));
    LookupPutSame(m.members, "response", response');
    forall k | k != "response" ensures Lookup(Put(m.members, "response", response'), k) == Lookup(m.members, k) {
      LookupPutOther(m.members, "response", response', k);
    }
    forall k | k != "output" ensures Lookup(Put(response.members, "output", JArr(kept)), k) == Lookup(response.members, k) {
      LookupPutOther(response.members, "output", JArr(kept), k);
    }
    PutKeepsOrder(m.members, "response", response');
    PutKeepsOrder(response.members, "output", JArr(kept));
  }

  /** The kinds the inbound rewriter handles. */
  predicate IsIntercepted(m: Json) {
    HasType(m, "session.created") || IsCallPlumbing(m) || HasType(m, "conversation.item.created")
    || HasType(m, "response.output_item.done") || HasType(m, "response.done")
  }

  /** Text that is not JSON, every kind outside the handled set, and an
      `output_item.done` whose item is not a function call are forwarded
      exactly as they arrived, with no sends and no change to the table. */
  lemma OtherFramesPassThrough(tools: ToolTable, parse: Parser, voiceChoice: Option<string>, pending: Pending,
                               frame: Frame)
    requires frame.Unparsed? || !IsIntercepted(frame.msg)
             || (HasType(frame.msg, "response.output_item.done") && !IsFunctionCall(Prop(frame.msg, "item")))
    ensures InboundStep(tools, parse, voiceChoice, pending, frame) == Step(Forward(frame), pending, [], [])
  {
    if frame.Parsed? {
      var m := frame.msg;
      if HasType(m, "response.output_item.done") {
        assert !HasType(m, "session.created") && !IsCallPlumbing(m) && !HasType(m, "conversation.item.created");
      }
    }
  }

  // ---------------------------------------------------------------------
  // What the client may see
  // ---------------------------------------------------------------------

  /** A session as seen by the client: if it is an object, the server's
      instructions, tools and tool choice are hidden. */
  ghost predicate SessionHidden(o: Option<Json>) {
    o.Some? && o.value.JObj? ==>
      && Prop(o.value, "instructions") == Some(JStr(""))
      && Prop(o.value, "tools") == Some(JArr([]))
      && Prop(o.value, "tool_choice") == Some(JStr("none"))
  }

  /** An output list as seen by the client holds no function call. */
  ghost predicate NoFunctionCalls(o: Option<Json>) {
    o.Some? && o.value.JArr? ==> forall i :: 0 <= i < |o.value.items| ==> !HasType(o.value.items[i], "function_call")
  }

  /** A frame the client may receive: no function-call plumbing, no
      function-call output item, a redacted session, a response without
      function calls. */
  ghost predicate ClientSafe(f: Frame) {
    f.Parsed? ==>
      var m := f.msg;
      && (IsCallPlumbing(m) || HasType(m, "conversation.item.created") || HasType(m, "response.output_item.done")
          ==> !IsFunctionCall(Prop(m, "item")))
      && (HasType(m, "conversation.item.created") ==> PropOf(Prop(m, "item"), "type") != Some(JStr("function_call_output")))
      && (HasType(m, "session.created") ==> SessionHidden(Prop(m, "session")))
      && (HasType(m, "response.done") ==> NoFunctionCalls(PropOf(Prop(m, "response"), "output")))
  }

  ghost predicate AllClientSafe(fs: seq<Frame>) {
    forall i :: 0 <= i < |fs| ==> ClientSafe(fs[i])
  }

  function AsFrames(js: seq<Json>): (fs: seq<Frame>)
    ensures |fs| == |js| && forall i :: 0 <= i < |js| ==> fs[i] == Parsed(js[i])
  {
    seq(|js|, i requires 0 <= i < |js| => Parsed(js[i]))
  }

  /** The frame the socket handler passes on: a forwarded reply, unless it
      is empty text (falsy). */
  function Delivered(reply: Reply): seq<Frame> {
    if reply.Forward? && reply.frame != Unparsed("") then [reply.frame] else []
  }

  /** What reaches the client from one inbound step. */
  function ClientBound(st: Step): seq<Frame> {
    AsFrames(st.toClient) + Delivered(st.reply)
  }

  lemma SessionCreatedClientSafe(tools: ToolTable, parse: Parser, voiceChoice: Option<string>, pending: Pending,
                                 m: Json)
    requires HasType(m, "session.created")
    ensures AllClientSafe(ClientBound(InboundStep(tools, parse, voiceChoice, pending, Parsed(m))))
  {
    SessionCreatedRedacted(tools, parse, voiceChoice, pending, m);
  }

  lemma ResponseDoneClientSafe(tools: ToolTable, parse: Parser, voiceChoice: Option<string>, pending: Pending,
                               m: Json)
    requires HasType(m, "response.done")
    ensures AllClientSafe(ClientBound(InboundStep(tools, parse, voiceChoice, pending, Parsed(m))))
  {
    ResponseDoneResumes(tools, parse, voiceChoice, pending, m);
    var output := PropOf(Prop(m, "response"), "output");
    if output.Some? && output.value.JArr? {
      WithoutFunctionCallsSpec(output.value.items);
    }
  }

  lemma ToolCallClientSafe(tools: ToolTable, parse: Parser, voiceChoice: Option<string>, pending: Pending,
                           m: Json)
    requires HasType(m, "response.output_item.done") && IsFunctionCall(Prop(m, "item"))
    ensures AllClientSafe(ClientBound(InboundStep(tools, parse, voiceChoice, pending, Parsed(m))))
  {
    ToolCallSends(tools, parse, voiceChoice, pending, m);
    var st := InboundStep(tools, parse, voiceChoice, pending, Parsed(m));
    var item := Prop(m, "item").value;
    if st.toClient != [] {
      assert HasType(st.toClient[0], "extension.middle_tier_tool_response");
    }
  }

  /** Every message one inbound frame makes reach the client is client-safe. */
  lemma InboundStepClientSafe(tools: ToolTable, parse: Parser, voiceChoice: Option<string>,
                              pending: Pending, frame: Frame)
    ensures AllClientSafe(ClientBound(InboundStep(tools, parse, voiceChoice, pending, frame)))
  {
    if frame.Parsed? {
      var m := frame.msg;
      if HasType(m, "session.created") {
        SessionCreatedClientSafe(tools, parse, voiceChoice, pending, m);
      } else if HasType(m, "response.done") {
        ResponseDoneClientSafe(tools, parse, voiceChoice, pending, m);
      } else if HasType(m, "response.output_item.done") && IsFunctionCall(Prop(m, "item")) {
        ToolCallClientSafe(tools, parse, voiceChoice, pending, m);
      }
    }
  }

  // ---------------------------------------------------------------------
  // One session's upstream frames
  // ---------------------------------------------------------------------

  /** The relay's state for one session: the pending table and what has
      been sent on each socket. */
  datatype RelayState = RelayState(pending: Pending, toServer: seq<Frame>, toClient: seq<Frame>)

  /** The server socket's "message" handler: process the frame, then pass
      on the reply. */
  function OnServerFrame(tools: ToolTable, parse: Parser, voiceChoice: Option<string>, rs: RelayState,
                         frame: Frame): RelayState
  {
    var st := InboundStep(tools, parse, voiceChoice, rs.pending, frame);
    RelayState(st.pending, rs.toServer + AsFrames(st.toServer), rs.toClient + ClientBound(st))
  }

  /** Upstream frames handled one after another, each to completion. */
  function RunUpstream(tools: ToolTable, parse: Parser, voiceChoice: Option<string>, rs: RelayState,
                       frames: seq<Frame>): RelayState
    decreases |frames|
  {
    if frames == [] then rs
    else RunUpstream(tools, parse, voiceChoice, OnServerFrame(tools, parse, voiceChoice, rs, frames[0]), frames[1..])
  }

  lemma {:induction false} RunUpstreamSnoc(tools: ToolTable, parse: Parser, voiceChoice: Option<string>,
                                           rs: RelayState, frames: seq<Frame>, last: Frame)
    ensures RunUpstream(tools, parse, voiceChoice, rs, frames + [last])
            == OnServerFrame(tools, parse, voiceChoice, RunUpstream(tools, parse, voiceChoice, rs, frames), last)
    decreases |frames|
  {
    if frames != [] {
      assert (frames + [last])[1..] == frames[1..] + [last];
      RunUpstreamSnoc(tools, parse, voiceChoice, OnServerFrame(tools, parse, voiceChoice, rs, frames[0]),
                      frames[1..], last);
    }
  }

  /** Whatever the model sends, however many frames, no function-call
      plumbing, function-call output, unredacted session or function call
      in a response ever reaches the client; and what was sent on either
      socket is never taken back or reordered. */
  lemma {:induction false} RunUpstreamKeepsClientSafe(tools: ToolTable, parse: Parser, voiceChoice: Option<string>,
                                                      rs: RelayState, frames: seq<Frame>)
    requires AllClientSafe(rs.toClient)
    ensures var out := RunUpstream(tools, parse, voiceChoice, rs, frames);
      AllClientSafe(out.toClient) && rs.toClient <= out.toClient && rs.toServer <= out.toServer
    decreases |frames|
  {
    if frames != [] {
      var next := OnServerFrame(tools, parse, voiceChoice, rs, frames[0]);
      InboundStepClientSafe(tools, parse, voiceChoice, rs.pending, frames[0]);
      var st := InboundStep(tools, parse, voiceChoice, rs.pending, frames[0]);
      assert next.toClient == rs.toClient + ClientBound(st);
      RunUpstreamKeepsClientSafe(tools, parse, voiceChoice, next, frames[1..]);
    }
  }

  /** After a session's frames end with `response.done`, no call is pending. */
  lemma RunEndingInResponseDoneClears(tools: ToolTable, parse: Parser, voiceChoice: Option<string>,
                                      rs: RelayState, frames: seq<Frame>, last: Json)
    requires HasType(last, "response.done")
    ensures RunUpstream(tools, parse, voiceChoice, rs, frames + [Parsed(last)]).pending == map[]
  {
    RunUpstreamSnoc(tools, parse, voiceChoice, rs, frames, Parsed(last));
    ResponseDoneResumes(tools, parse, voiceChoice, RunUpstream(tools, parse, voiceChoice, rs, frames).pending, last);
  }

  lemma AllClientSafeAppend(a: seq<Frame>, b: seq<Frame>)
    requires AllClientSafe(a) && AllClientSafe(b)
    ensures AllClientSafe(a + b)
  {
    forall i | 0 <= i < |a + b| ensures ClientSafe((a + b)[i]) {
      if i >= |a| { assert (a + b)[i] == b[i - |a|]; }
    }
  }

  // ---------------------------------------------------------------------
  // The relay object
  // ---------------------------------------------------------------------

  /** `RTMiddleTier`: the configuration, the attached tools, the pending
      tool calls, and (standing in for the two sockets of one session) the
      frames sent upstream and to the client so far. */
  class RTMiddleTier {
    const endpoint: string
    const deployment: string
    const voiceChoice: Option<string>
    const apiVersion: string
    const systemMessage: string
    /** `JSON.parse` on the tool-call arguments. */
    const parse: Parser
    var tools: ToolTable
    var pending: Pending
    var sentToServer: seq<Frame>
    var sentToClient: seq<Frame>

    /** Tool names are unique, a configured voice is never "", and the
        client has only ever been sent client-safe frames. */
    ghost predicate Valid()
      reads this
    {
      DistinctKeys(tools) && voiceChoice != Some("") && AllClientSafe(sentToClient)
    }

    /** The defaults `voiceChoice || null`, `apiVersion || "2024-10-01-preview"`
        and `systemMessage || "You are a helpful assistant."`; no tools and
        no pending calls. */
    constructor(endpoint: string, deployment: string, voiceChoice: Option<string>, apiVersion: Option<string>,
                systemMessage: Option<string>, parse: Parser)
      ensures this.endpoint == endpoint && this.deployment == deployment && this.parse == parse
      ensures this.voiceChoice == (if IsSet(voiceChoice) then voiceChoice else None)
      ensures this.apiVersion == OrDefault(apiVersion, "2024-10-01-preview")
      ensures this.systemMessage == OrDefault(systemMessage, "You are a helpful assistant.")
      ensures tools == [] && pending == map[] && sentToServer == [] && sentToClient == []
      ensures Valid()
    {
      this.endpoint := endpoint;
      this.deployment := deployment;
      this.voiceChoice := if IsSet(voiceChoice) then voiceChoice else None;
      this.apiVersion := OrDefault(apiVersion, "2024-10-01-preview");
      this.systemMessage := OrDefault(systemMessage, "You are a helpful assistant.");
      this.parse := parse;
      tools := [];
      pending := map[];
      sentToServer := [];
      sentToClient := [];
    }

    /** `attachTool`: the name now maps to this tool; a new name is added
        after the existing ones, a repeated name replaces the tool in its
        place; every other name keeps its tool. */
    method AttachTool(name: string, tool: Tool)
      requires Valid()
      modifies this
      ensures tools == Put(old(tools), name, tool)
      ensures Lookup(tools, name) == Some(tool)
      ensures forall n :: n != name ==> Lookup(tools, n) == Lookup(old(tools), n)
      ensures Keys(tools) == if name in Keys(old(tools)) then Keys(old(tools)) else Keys(old(tools)) + [name]
      ensures pending == old(pending) && sentToServer == old(sentToServer) && sentToClient == old(sentToClient)
      ensures Valid()
    {
      LookupPutSame(tools, name, tool);
      forall n | n != name ensures Lookup(Put(tools, name, tool), n) == Lookup(tools, n) {
        LookupPutOther(tools, name, tool, n);
      }
      KeysPut(tools, name, tool);
      PutKeepsDistinct(tools, name, tool);
      tools := Put(tools, name, tool);
    }

    /** The client socket's "message" handler: send upstream what
        `ClientDispatch` gives, if anything. */
    method OnClientMessage(frame: Frame)
      requires Valid()
      modifies this
      ensures var r := ClientDispatch(frame, systemMessage, voiceChoice, old(tools));
        sentToServer == old(sentToServer) + (if r.Some? then [r.value] else [])
      ensures tools == old(tools) && pending == old(pending) && sentToClient == old(sentToClient)
      ensures Valid()
    {
      match frame
      case Unparsed(_) =>
      case Parsed(m) =>
        if HasType(m, "session.getting") {
          var instructions := GettingInstruction(m);
          sentToServer := sentToServer + [instructions];
        } else {
          var r := ProcessMessageToServer(frame, systemMessage, voiceChoice, tools);
          if r.Sent? {
            sentToServer := sentToServer + [r.frame];
          }
        }
    }

    /** Runs the tool a completed function call names and reports back,
        as `ToolCallStep` describes. */
    method CallTool(item: Json) returns (reply: Reply)
      requires IsFunctionCall(Some(item))
      modifies this
      ensures var st := ToolCallStep(tools, parse, old(pending), item);
        && reply == st.reply
        && sentToServer == old(sentToServer) + AsFrames(st.toServer)
        && sentToClient == old(sentToClient) + AsFrames(st.toClient)
      ensures tools == old(tools) && pending == old(pending)
    {
      var name := Prop(item, "name");
      var tool := ToolFor(tools, item);
      if tool.None? {
        if name.Some? && name.value.JStr? && name.value.s in ObjectPrototypeNames {
          return Abort;
        }
        return Suppress;
      }
      var argText := ArgumentsText(item);
      if argText.None? || parse(argText.value).None? {
        return Abort;
      }
      var result := tool.value.target(parse(argText.value).value);
      if result.None? {
        return Abort;
      }
      var callId := Prop(item, "call_id");
      var output := if result.value.destination == TO_SERVER then ToText(result.value) else "";
      sentToServer := sentToServer + [Parsed(FunctionCallOutput(callId, output))];
      if result.value.destination == TO_CLIENT {
        var previousId := if callId in pending then pending[callId] else None;
        sentToClient := sentToClient + [Parsed(ToolResponse(previousId, name.value, ToText(result.value)))];
      }
      reply := Suppress;
    }

    /** `_processMessageToClient`: updates the pending table and sends on
        both sockets exactly as `InboundStep` describes. */
    method ProcessMessageToClient(frame: Frame) returns (reply: Reply)
      modifies this
      ensures var st := InboundStep(tools, parse, voiceChoice, old(pending), frame);
        && reply == st.reply && pending == st.pending
        && sentToServer == old(sentToServer) + AsFrames(st.toServer)
        && sentToClient == old(sentToClient) + AsFrames(st.toClient)
      ensures tools == old(tools)
    {
      if frame.Unparsed? {
        return Forward(frame);
      }
      var m := frame.msg;
      if HasType(m, "session.created") {
        match SessionTargetOf(m)
        case Members(ms) =>
          reply := Forward(Parsed(JObj(Put(m.members, "session", JObj(RedactSession(ms, voiceChoice))))));
        case Invisible =>
          reply := Forward(frame);
        case NotAssignable =>
          reply := Abort;
      } else if IsCallPlumbing(m) {
        reply := if IsFunctionCall(Prop(m, "item")) then Suppress else Forward(frame);
      } else if HasType(m, "conversation.item.created") {
        var item := Prop(m, "item");
        if IsFunctionCall(item) {
          var callId := Prop(item.value, "call_id");
          if callId !in pending {
            pending := pending[callId := Prop(m, "previous_item_id")];
          }
          reply := Suppress;
        } else if PropOf(item, "type") == Some(JStr("function_call_output")) {
          reply := Suppress;
        } else {
          reply := Forward(frame);
        }
      } else if HasType(m, "response.output_item.done") {
        var item := Prop(m, "item");
        if IsFunctionCall(item) {
          reply := CallTool(item.value);
        } else {
          reply := Forward(frame);
        }
      } else if HasType(m, "response.done") {
        if |pending| > 0 {
          pending := map[];
          sentToServer := sentToServer + [Parsed(ResponseCreate)];
        }
        var response := Prop(m, "response");
        var output := PropOf(response, "output");
        reply := Forward(frame);
        if Truthy(output) {
          if !output.value.JArr? {
            reply := Abort;
          } else {
            var kept := WithoutFunctionCalls(output.value.items);
            if kept.None? {
              reply := Abort;
            } else if |kept.value| != |output.value.items| {
              var response' := JObj(Put(response.value.members, "output", JArr(kept.value)));
              reply := Forward(Parsed(JObj(Put(m.members, "response", response'))));
            }
          }
        }
      } else {
        reply := Forward(frame);
      }
    }

    /** The server socket's "message" handler: process the frame, then send
        the reply to the client when there is one. The client still has
        only ever been sent client-safe frames. */
    method OnServerMessage(frame: Frame)
      requires Valid()
      modifies this
      ensures RelayState(pending, sentToServer, sentToClient)
              == OnServerFrame(tools, parse, voiceChoice, old(RelayState(pending, sentToServer, sentToClient)), frame)
      ensures tools == old(tools)
      ensures Valid()
    {
      ghost var before := sentToClient;
      ghost var st := InboundStep(tools, parse, voiceChoice, pending, frame);
      var reply := ProcessMessageToClient(frame);
      if reply.Forward? && reply.frame != Unparsed("") {
        sentToClient := sentToClient + [reply.frame];
      }
      assert sentToClient == before + ClientBound(st);
      InboundStepClientSafe(tools, parse, voiceChoice, old(pending), frame);
      AllClientSafeAppend(before, ClientBound(st));
    }
  }
}
