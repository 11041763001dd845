// Normalization of ADK content into the canonical content model.
module AdkContent {
  import opened Types
  import opened Content

  // What json.Marshal makes of a call's arguments or a result; None if it
  // fails.
  type Marshalled = Option<string>

  datatype FunctionCall = FunctionCall(id: string, name: string, args: Marshalled)

  datatype FunctionResponse = FunctionResponse(id: string, name: string, response: Marshalled)

  datatype Part = Part(
    call: Option<FunctionCall>, response: Option<FunctionResponse>, toolResponse: bool, text: string, thought: bool)

  // Parts and turns may be nil.
  datatype Turn = Turn(role: string, parts: seq<Option<Part>>)

  datatype FinishReason =
    | Unset | Unspecified | Stop | MaxTokens
    | Safety | Recitation | Language | Blocklist | ProhibitedContent | SPII
    | ImageSafety | ImageProhibitedContent | ImageRecitation
    | OtherReason(text: string)

  datatype LLMResponse = LLMResponse(content: Option<Turn>, errorCode: string, interrupted: bool, finishReason: FinishReason)

  const ROLE_USER := "user"
  const ROLE_MODEL := "model"

  // ---- Parts ----

  // A call that could not be marshalled is kept without its arguments.
  predicate TellsCall(mp: MessagePart, call: FunctionCall) {
    && mp.partType == ToolCall && mp.id == call.id && mp.name == call.name && mp.content == "" && mp.response == ""
    && (if call.args.Some? then mp.arguments == call.args.value else mp.arguments == "")
  }

  predicate TellsResponse(mp: MessagePart, response: FunctionResponse) {
    && mp.partType == ToolCallResponse && mp.id == response.id && mp.name == response.name && mp.content == "" && mp.arguments == ""
    && (if response.response.Some? then mp.response == response.response.value else mp.response == "")
  }

  predicate TellsText(mp: MessagePart, text: string) {
    mp.partType == Text && mp.content == text && mp.id == mp.name == mp.arguments == mp.response == ""
  }

  // Structured variants are matched before text; other kinds and thoughts
  // have no canonical form.
  function MapPart(part: Option<Part>): (mp: Option<MessagePart>)
    ensures part.Some? && part.value.call.Some? ==>
              mp.Some? && TellsCall(mp.value, part.value.call.value)
    ensures part.Some? && part.value.call.None? && part.value.response.Some? ==>
              mp.Some? && TellsResponse(mp.value, part.value.response.value)
    ensures part.Some? && part.value.call.None? && part.value.response.None? && part.value.text != "" && !part.value.thought ==>
              mp.Some? && TellsText(mp.value, part.value.text)
    ensures mp.Some? ==> part.Some? && (part.value.call.Some? || part.value.response.Some? || (part.value.text != "" && !part.value.thought))
  {
    match part
    case None => None
    case Some(p) =>
      if p.call.Some? then
        Some(MessagePart(ToolCall, "", p.call.value.id, p.call.value.name, p.call.value.args.GetOr(""), ""))
      else if p.response.Some? then
        Some(MessagePart(ToolCallResponse, "", p.response.value.id, p.response.value.name, "", p.response.value.response.GetOr("")))
      else if p.text != "" && !p.thought then Some(MessagePart(Text, p.text, "", "", "", ""))
      else None
  }

  // The positions of the parts that have a canonical form, in order.
  function Kept(ps: seq<Option<Part>>): (at: seq<nat>)
    ensures forall i | 0 <= i < |at| :: at[i] < |ps| && MapPart(ps[at[i]]).Some?
    ensures forall i, j | 0 <= i < j < |at| :: at[i] < at[j]
    ensures forall k | 0 <= k < |ps| && MapPart(ps[k]).Some? :: k in at
  {
    if ps == [] then []
    else
      var n := |ps| - 1;
      Kept(ps[..n]) + if MapPart(ps[n]).Some? then [n] else []
  }

  // The mapped parts in order, without those that have no canonical form.
  function MappedParts(ps: seq<Option<Part>>): (out: seq<MessagePart>)
    ensures |out| == |Kept(ps)|
    ensures forall i | 0 <= i < |out| :: MapPart(ps[Kept(ps)[i]]) == Some(out[i])
  {
    if ps == [] then []
    else
      var last := MapPart(ps[|ps| - 1]);
      MappedParts(ps[..|ps| - 1]) + if last.Some? then [last.value] else []
  }

  method MapParts(ps: seq<Option<Part>>) returns (out: seq<MessagePart>)
    ensures out == MappedParts(ps)
  {
    out := [];
    for i := 0 to |ps|
      invariant out == MappedParts(ps[..i])
    {
      assert ps[..i + 1][..i] == ps[..i];
      var mp := MapPart(ps[i]);
      if mp.Some? {
        out := out + [mp.value];
      }
    }
    assert ps[..|ps|] == ps;
  }

  predicate IsCall(part: Option<Part>) {
    part.Some? && part.value.call.Some?
  }

  predicate CallParts(parts: seq<MessagePart>) {
    exists i | 0 <= i < |parts| :: parts[i].partType.ToolCall?
  }

  method HasToolCall(parts: seq<MessagePart>) returns (found: bool)
    ensures found == CallParts(parts)
  {
    for i := 0 to |parts|
      invariant forall j | 0 <= j < i :: !parts[j].partType.ToolCall?
    {
      if parts[i].partType.ToolCall? {
        return true;
      }
    }
    found := false;
  }

  predicate Calls(ps: seq<Option<Part>>) {
    exists i | 0 <= i < |ps| :: IsCall(ps[i])
  }

  method HasResponseToolCall(resp: Option<LLMResponse>) returns (found: bool)
    ensures found == (resp.Some? && resp.value.content.Some? && Calls(resp.value.content.value.parts))
  {
    if resp.None? || resp.value.content.None? {
      return false;
    }
    var ps := resp.value.content.value.parts;
    for i := 0 to |ps|
      invariant forall j | 0 <= j < i :: !IsCall(ps[j])
    {
      if IsCall(ps[i]) {
        return true;
      }
    }
    found := false;
  }

  // The response and its mapped parts carry a tool call alike.
  lemma CallsSurviveMapping(ps: seq<Option<Part>>)
    ensures Calls(ps) <==> CallParts(MappedParts(ps))
  {
    var out, at := MappedParts(ps), Kept(ps);
    if k :| 0 <= k < |ps| && IsCall(ps[k]) {
      var i :| 0 <= i < |at| && at[i] == k;
      assert out[i].partType.ToolCall?;
    }
    if i :| 0 <= i < |out| && out[i].partType.ToolCall? {
      assert IsCall(ps[at[i]]);
    }
  }

  // ---- Turns ----

  predicate CarriesToolResult(part: Option<Part>) {
    part.Some? && (part.value.response.Some? || part.value.toolResponse)
  }

  method SchemaRole(c: Option<Turn>) returns (role: string)
    ensures role == RoleOf(c)
    ensures role == "tool" <==> c.Some? && (c.value.role == "tool" || exists i | 0 <= i < |c.value.parts| :: CarriesToolResult(c.value.parts[i]))
  {
    if c.None? {
      return "user";
    }
    var ps := c.value.parts;
    for i := 0 to |ps|
      invariant forall j | 0 <= j < i :: !CarriesToolResult(ps[j])
    {
      if CarriesToolResult(ps[i]) {
        return "tool";
      }
    }
    role := if c.value.role == "" || c.value.role == ROLE_USER then "user"
            else if c.value.role == ROLE_MODEL then "assistant"
            else c.value.role;
  }

  // The turn carries a tool result.
  predicate ToolTurn(c: Turn) {
    exists i | 0 <= i < |c.parts| :: CarriesToolResult(c.parts[i])
  }

  function RoleOf(c: Option<Turn>): (role: string)
    ensures role != ""
    ensures c.Some? && !ToolTurn(c.value) && c.value.role !in {"", "user", "model"} ==> role == c.value.role
    ensures c.Some? && !ToolTurn(c.value) && c.value.role == "model" ==> role == "assistant"
    ensures c.None? || (!ToolTurn(c.value) && c.value.role in {"", "user"}) ==> role == "user"
    ensures c.Some? && ToolTurn(c.value) ==> role == "tool"
  {
    if c.None? then "user"
    else if ToolTurn(c.value) then "tool"
    else if c.value.role == "" || c.value.role == ROLE_USER then "user"
    else if c.value.role == ROLE_MODEL then "assistant"
    else c.value.role
  }

  function MappedTurn(c: Turn): Message {
    Message(RoleOf(Some(c)), "", MappedParts(c.parts), "")
  }

  // The positions of the turns that are not nil, in order.
  function Present(contents: seq<Option<Turn>>): (at: seq<nat>)
    ensures forall i | 0 <= i < |at| :: at[i] < |contents| && contents[at[i]].Some?
    ensures forall i, j | 0 <= i < j < |at| :: at[i] < at[j]
    ensures forall k | 0 <= k < |contents| && contents[k].Some? :: k in at
  {
    if contents == [] then []
    else
      var n := |contents| - 1;
      Present(contents[..n]) + if contents[n].Some? then [n] else []
  }

  // The turns in order, without the nil ones.
  function MappedTurns(contents: seq<Option<Turn>>): (msgs: seq<Message>)
    ensures |msgs| == |Present(contents)|
    ensures forall i | 0 <= i < |msgs| :: msgs[i] == MappedTurn(contents[Present(contents)[i]].value)
  {
    if contents == [] then []
    else
      var n := |contents| - 1;
      MappedTurns(contents[..n]) + if contents[n].Some? then [MappedTurn(contents[n].value)] else []
  }

  method MapTurns(contents: seq<Option<Turn>>) returns (msgs: seq<Message>)
    ensures msgs == MappedTurns(contents)
  {
    msgs := [];
    for i := 0 to |contents|
      invariant msgs == MappedTurns(contents[..i])
    {
      assert contents[..i + 1][..i] == contents[..i];
      if contents[i].None? {
        continue;
      }
      var role := SchemaRole(contents[i]);
      var parts := MapParts(contents[i].value.parts);
      msgs := msgs + [Message(role, "", parts, "")];
    }
    assert contents[..|contents|] == contents;
  }

  // ---- Agreement with the validator ----

  // json.Marshal only produces valid, non-empty texts.
  predicate MarshalValid(lib: JsonLibrary, part: Option<Part>) {
    part.Some? ==>
      && (part.value.call.Some? && part.value.call.value.args.Some? ==> lib.valid(part.value.call.value.args.value))
      && (part.value.response.Some? && part.value.response.value.response.Some? ==> lib.valid(part.value.response.value.response.value))
  }

  predicate AllMarshalValid(lib: JsonLibrary, ps: seq<Option<Part>>) {
    forall i | 0 <= i < |ps| :: MarshalValid(lib, ps[i])
  }

  predicate CallsNamed(ps: seq<Option<Part>>) {
    forall i | 0 <= i < |ps| && IsCall(ps[i]) :: ps[i].value.call.value.name != ""
  }

  lemma PartValidIffNamed(lib: JsonLibrary, part: Option<Part>)
    requires MarshalValid(lib, part) && MapPart(part).Some?
    ensures ValidPart(lib, MapPart(part).value) <==> (IsCall(part) ==> part.value.call.value.name != "")
  {
  }

  // The parts are valid exactly if every function call has a name.
  lemma PartsValidIffNamed(lib: JsonLibrary, ps: seq<Option<Part>>)
    requires AllMarshalValid(lib, ps)
    ensures ValidParts(lib, MappedParts(ps)) <==> CallsNamed(ps)
  {
    var out, at := MappedParts(ps), Kept(ps);
    forall i | 0 <= i < |out|
      ensures ValidPart(lib, out[i]) <==> (IsCall(ps[at[i]]) ==> ps[at[i]].value.call.value.name != "")
    {
      PartValidIffNamed(lib, ps[at[i]]);
    }
    if ValidParts(lib, out) {
      forall k | 0 <= k < |ps| && IsCall(ps[k]) ensures ps[k].value.call.value.name != "" {
        var i :| 0 <= i < |at| && at[i] == k;
        assert ValidPart(lib, out[i]);
      }
    }
  }

  function InputValue(contents: seq<Option<Turn>>): ContentValue {
    ContentValue(InputMessages, "", None, Some(MappedTurns(contents)), None, "", "")
  }

  // The input messages are of valid shape exactly if every function call of
  // every turn has a name; roles and payloads never fail the validation.
  lemma InputValidIffNamed(lib: JsonLibrary, contents: seq<Option<Turn>>)
    requires forall i | 0 <= i < |contents| && contents[i].Some? :: AllMarshalValid(lib, contents[i].value.parts)
    ensures ValidShape(lib, InputValue(contents)) <==>
            forall i | 0 <= i < |contents| && contents[i].Some? :: CallsNamed(contents[i].value.parts)
  {
    var msgs, at := MappedTurns(contents), Present(contents);
    forall i | 0 <= i < |msgs| ensures ValidMessage(lib, msgs[i]) <==> CallsNamed(contents[at[i]].value.parts) {
      PartsValidIffNamed(lib, contents[at[i]].value.parts);
    }
    if forall i | 0 <= i < |msgs| :: ValidMessage(lib, msgs[i]) {
      forall k | 0 <= k < |contents| && contents[k].Some? ensures CallsNamed(contents[k].value.parts) {
        var i :| 0 <= i < |at| && at[i] == k;
        assert ValidMessage(lib, msgs[i]);
      }
    }
  }

  // ---- Finish reasons ----

  function LowerChar(c: char): char {
    if 'A' <= c <= 'Z' then (c as int - 'A' as int + 'a' as int) as char else c
  }

  // The same text in lower case.
  predicate LowerCase(lower: string, s: string) {
    |lower| == |s| && forall i | 0 <= i < |s| ::
      if 'A' <= s[i] <= 'Z' then lower[i] as int == s[i] as int + 32 else lower[i] == s[i]
  }

  function ToLower(s: string): string {
    seq(|s|, i requires 0 <= i < |s| => LowerChar(s[i]))
  }

  // The response failed, whatever its finish reason.
  predicate Failed(resp: Option<LLMResponse>) {
    resp.None? || resp.value.errorCode != "" || resp.value.interrupted
  }

  const STOPPED := {Unset, Unspecified, Stop}

  const FILTERED := {
    Safety, Recitation, Language, Blocklist, ProhibitedContent, SPII, ImageSafety, ImageProhibitedContent, ImageRecitation}

  function SchemaFinishReason(resp: Option<LLMResponse>, toolCall: bool): (reason: string)
    ensures Failed(resp) ==> reason == "error"
    ensures !Failed(resp) && resp.value.finishReason in STOPPED && toolCall ==> reason == "tool_call"
    ensures !Failed(resp) && resp.value.finishReason in STOPPED && !toolCall ==> reason == "stop"
    ensures !Failed(resp) && resp.value.finishReason == MaxTokens ==> reason == "length"
    ensures !Failed(resp) && resp.value.finishReason in FILTERED ==> reason == "content_filter"
    ensures !Failed(resp) && resp.value.finishReason.OtherReason? ==> LowerCase(reason, resp.value.finishReason.text)
  {
    if resp.None? || resp.value.errorCode != "" || resp.value.interrupted then "error"
    else
      match resp.value.finishReason
      case Unset => if toolCall then "tool_call" else "stop"
      case Unspecified => if toolCall then "tool_call" else "stop"
      case Stop => if toolCall then "tool_call" else "stop"
      case MaxTokens => "length"
      case OtherReason(text) => ToLower(text)
      case _ => "content_filter"
  }

  function OutputParts(resp: Option<LLMResponse>): seq<MessagePart> {
    if resp.Some? && resp.value.content.Some? then MappedParts(resp.value.content.value.parts) else []
  }

  // There is always exactly one output message.
  method OutputValue(resp: Option<LLMResponse>) returns (v: ContentValue)
    ensures v.kind == OutputMessages
    ensures v.messages == Some([Message("assistant", "", OutputParts(resp), SchemaFinishReason(resp, CallParts(OutputParts(resp))))])
  {
    var parts := [];
    if resp.Some? && resp.value.content.Some? {
      parts := MapParts(resp.value.content.value.parts);
    }
    var toolCall := HasToolCall(parts);
    v := ContentValue(OutputMessages, "", None, Some([Message("assistant", "", parts, SchemaFinishReason(resp, toolCall))]), None, "", "");
  }

  // What the details event reports for a response: its finish reason, and the
  // output message with the same reason.
  method ReportResponse(resp: LLMResponse) returns (finishReasons: seq<string>, v: ContentValue)
    ensures v.messages.Some? && |v.messages.value| == 1 && v.messages.value[0].parts == OutputParts(Some(resp))
    ensures finishReasons == if v.messages.value[0].finishReason == "" then [] else [v.messages.value[0].finishReason]
  {
    var toolCall := HasResponseToolCall(Some(resp));
    var reason := SchemaFinishReason(Some(resp), toolCall);
    finishReasons := if reason != "" then [reason] else [];
    v := OutputValue(Some(resp));
    if resp.content.Some? {
      CallsSurviveMapping(resp.content.value.parts);
    }
  }

  // The output message is of valid shape exactly if every function call of
  // the response has a name.
  lemma OutputValidIffNamed(lib: JsonLibrary, resp: LLMResponse, v: ContentValue)
    requires resp.content.Some? ==> AllMarshalValid(lib, resp.content.value.parts)
    requires v.kind == OutputMessages && v.messages.Some? && |v.messages.value| == 1
    requires v.messages.value[0].role == "assistant" && v.messages.value[0].parts == OutputParts(Some(resp))
    ensures ValidShape(lib, v) <==> (resp.content.Some? ==> CallsNamed(resp.content.value.parts))
  {
    if resp.content.Some? {
      PartsValidIffNamed(lib, resp.content.value.parts);
    }
    OneMessageShape(lib, v);
  }

  lemma OneMessageShape(lib: JsonLibrary, v: ContentValue)
    requires v.kind == OutputMessages && v.messages.Some? && |v.messages.value| == 1
    ensures ValidShape(lib, v) <==> ValidMessage(lib, v.messages.value[0])
  {
    if ValidMessage(lib, v.messages.value[0]) {
      forall i | 0 <= i < |v.messages.value| ensures ValidMessage(lib, v.messages.value[i]) {
      }
    }
  }

  // projectInputMessages: nothing to project without a turn.
  method ProjectInputMessages(lib: JsonLibrary, enabled: bool, projector: Option<Projector>, limit: int, contents: seq<Option<Turn>>)
    returns (p: ProjectedContent, diagnostics: seq<Diagnostic>)
    ensures Present(contents) == [] ==> p == NoContent && diagnostics == []
    ensures !enabled || projector.None? ==> p == NoContent && diagnostics == []
    ensures enabled && projector.Some? && Present(contents) != [] ==>
              var answer := Answer(projector.value, InputValue(contents));
              var drop := Drop(lib, limit, answer);
              && diagnostics == (if drop.Some? then [Diagnostic(InputMessages, drop.value)] else [])
              && p == if drop.Some? then NoContent else Projected(InputMessages, lib.encode(Document(lib, answer.value)))
  {
    p, diagnostics := NoContent, [];
    if contents == [] {
      return;
    }
    var msgs := MapTurns(contents);
    if msgs == [] {
      return;
    }
    p, diagnostics := ProjectContent(lib, enabled, projector, limit, ContentValue(InputMessages, "", None, Some(msgs), None, "", ""));
  }
}
