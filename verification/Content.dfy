// The fail-closed content pipeline: projection, shape validation,
// serialization and the byte limit.
module Content {
  import opened Types
  import opened Attributes

  datatype PartType = Text | ToolCall | ToolCallResponse | OtherType(name: string)

  // The two payloads are raw JSON; empty means absent.
  datatype MessagePart = MessagePart(partType: PartType, content: string, id: string, name: string, arguments: string, response: string)

  datatype Message = Message(role: string, content: string, parts: seq<MessagePart>, finishReason: string)

  datatype ToolDefinition = ToolDefinition(name: string, description: string)

  // The lists may be nil, which is encoded as null and not as an empty array.
  datatype ContentValue = ContentValue(
    kind: ContentKind,
    systemInstructions: string, systemInstructionParts: Option<seq<MessagePart>>,
    messages: Option<seq<Message>>, toolDefinitions: Option<seq<ToolDefinition>>,
    toolCallArguments: string, toolCallResult: string)

  // The JSON library at this boundary: which texts are valid, what they
  // decode to, how documents are written, and how many bytes a text takes.
  datatype JsonLibrary = JsonLibrary(
    valid: string -> bool, decode: Decoder, encode: Json -> string, number: string -> bool, bytes: string -> nat)

  // Every number in the document has the text of a JSON number.
  ghost predicate Proper(lib: JsonLibrary, j: Json)
    decreases j
  {
    match j
    case Number(text) => lib.number(text)
    case Arr(elems) => forall i | 0 <= i < |elems| :: Proper(lib, elems[i])
    case Obj(fields) => forall k <- fields :: Proper(lib, fields[k])
    case _ => true
  }

  // Decoding undoes encoding, valid texts decode, and only to proper
  // documents (RFC 8259).
  ghost predicate Lawful(lib: JsonLibrary) {
    && (forall j | Proper(lib, j) :: lib.decode(lib.encode(j)) == Some(j))
    && (forall s | lib.valid(s) :: lib.decode(s).Some?)
    && (forall s | lib.decode(s).Some? :: Proper(lib, lib.decode(s).value))
  }

  // ---- Shape ----

  predicate ValidPart(lib: JsonLibrary, p: MessagePart) {
    && !p.partType.OtherType? && (p.partType.ToolCall? ==> p.name != "")
    && (p.arguments != "" ==> lib.valid(p.arguments)) && (p.response != "" ==> lib.valid(p.response))
  }

  predicate ValidParts(lib: JsonLibrary, parts: seq<MessagePart>) {
    forall i | 0 <= i < |parts| :: ValidPart(lib, parts[i])
  }

  predicate ValidMessage(lib: JsonLibrary, m: Message) {
    m.role != "" && ValidParts(lib, m.parts)
  }

  predicate ValidMessages(lib: JsonLibrary, messages: seq<Message>) {
    forall i | 0 <= i < |messages| :: ValidMessage(lib, messages[i])
  }

  predicate AllNamed(tools: seq<ToolDefinition>) {
    forall i | 0 <= i < |tools| :: tools[i].name != ""
  }

  predicate ValidShape(lib: JsonLibrary, v: ContentValue) {
    match v.kind
    case SystemInstructions => v.systemInstructionParts.Some? ==> ValidParts(lib, v.systemInstructionParts.value)
    case InputMessages => v.messages.Some? ==> ValidMessages(lib, v.messages.value)
    case OutputMessages => v.messages.Some? ==> ValidMessages(lib, v.messages.value)
    case ToolDefinitions => v.toolDefinitions.Some? ==> AllNamed(v.toolDefinitions.value)
    case ToolCallArguments => true
    case ToolCallResult => true
    case OtherKind(_) => false
  }

  method ValidateParts(lib: JsonLibrary, parts: seq<MessagePart>) returns (ok: bool)
    ensures ok == ValidParts(lib, parts)
  {
    for i := 0 to |parts|
      invariant forall j | 0 <= j < i :: ValidPart(lib, parts[j])
    {
      var p := parts[i];
      match p.partType {
        case Text =>
        case ToolCall => if p.name == "" { return false; }
        case ToolCallResponse =>
        case OtherType(_) => return false;
      }
      if p.arguments != "" && !lib.valid(p.arguments) {
        return false;
      }
      if p.response != "" && !lib.valid(p.response) {
        return false;
      }
    }
    ok := true;
  }

  method ValidateMessages(lib: JsonLibrary, messages: seq<Message>) returns (ok: bool)
    ensures ok == ValidMessages(lib, messages)
  {
    for i := 0 to |messages|
      invariant forall j | 0 <= j < i :: ValidMessage(lib, messages[j])
    {
      var parts := ValidateParts(lib, messages[i].parts);
      if messages[i].role == "" || !parts {
        return false;
      }
    }
    ok := true;
  }

  method ValidateProjectionShape(lib: JsonLibrary, v: ContentValue) returns (ok: bool)
    ensures ok == ValidShape(lib, v)
  {
    match v.kind
    case SystemInstructions => ok := ValidateParts(lib, v.systemInstructionParts.GetOr([]));
    case InputMessages => ok := ValidateMessages(lib, v.messages.GetOr([]));
    case OutputMessages => ok := ValidateMessages(lib, v.messages.GetOr([]));
    case ToolDefinitions =>
      var tools := v.toolDefinitions.GetOr([]);
      for i := 0 to |tools|
        invariant forall j | 0 <= j < i :: tools[j].name != ""
      {
        if tools[i].name == "" {
          return false;
        }
      }
      ok := true;
    case ToolCallArguments => ok := true;
    case ToolCallResult => ok := true;
    case OtherKind(_) => ok := false;
  }

  // ---- Serialization ----

  function TypeName(t: PartType): string {
    match t
    case Text => "text"
    case ToolCall => "tool_call"
    case ToolCallResponse => "tool_call_response"
    case OtherType(name) => name
  }

  // A field that is omitted when empty.
  function TextField(name: string, s: string): map<string, Json> {
    if s == "" then map[] else map[name := Str(s)]
  }

  function RawField(lib: JsonLibrary, name: string, raw: string): map<string, Json> {
    if raw == "" || lib.decode(raw).None? then map[] else map[name := lib.decode(raw).value]
  }

  function PartTexts(p: MessagePart): map<string, Json> {
    map["type" := Str(TypeName(p.partType))] + TextField("content", p.content) + TextField("id", p.id) + TextField("name", p.name)
  }

  function PartDocument(lib: JsonLibrary, p: MessagePart): Json {
    Obj(PartTexts(p) + RawField(lib, "arguments", p.arguments) + RawField(lib, "response", p.response))
  }

  function PartDocuments(lib: JsonLibrary, parts: seq<MessagePart>): seq<Json> {
    seq(|parts|, i requires 0 <= i < |parts| => PartDocument(lib, parts[i]))
  }

  function PartsField(lib: JsonLibrary, parts: seq<MessagePart>): map<string, Json> {
    if parts == [] then map[] else map["parts" := Arr(PartDocuments(lib, parts))]
  }

  function MessageDocument(lib: JsonLibrary, m: Message): Json {
    Obj(map["role" := Str(m.role)] + TextField("content", m.content) + PartsField(lib, m.parts)
        + TextField("finish_reason", m.finishReason))
  }

  function ToolDocument(t: ToolDefinition): Json {
    Obj(map["name" := Str(t.name)] + TextField("description", t.description))
  }

  function MessagesDocument(lib: JsonLibrary, messages: seq<Message>): Json {
    Arr(seq(|messages|, i requires 0 <= i < |messages| => MessageDocument(lib, messages[i])))
  }

  function ToolsDocument(tools: seq<ToolDefinition>): Json {
    Arr(seq(|tools|, i requires 0 <= i < |tools| => ToolDocument(tools[i])))
  }

  // The document of the one field that matters for the kind.
  function Document(lib: JsonLibrary, v: ContentValue): Json {
    match v.kind
    case SystemInstructions =>
      if v.systemInstructionParts.Some? then Arr(PartDocuments(lib, v.systemInstructionParts.value)) else Str(v.systemInstructions)
    case InputMessages => if v.messages.Some? then MessagesDocument(lib, v.messages.value) else Null
    case OutputMessages => if v.messages.Some? then MessagesDocument(lib, v.messages.value) else Null
    case ToolDefinitions => if v.toolDefinitions.Some? then ToolsDocument(v.toolDefinitions.value) else Null
    case ToolCallArguments => Str(v.toolCallArguments)
    case ToolCallResult => Str(v.toolCallResult)
    case OtherKind(_) => Null
  }

  // All raw payloads written out are valid.
  predicate RawsValid(lib: JsonLibrary, parts: seq<MessagePart>) {
    forall i | 0 <= i < |parts| ::
      (parts[i].arguments != "" ==> lib.valid(parts[i].arguments)) && (parts[i].response != "" ==> lib.valid(parts[i].response))
  }

  // json.Marshal fails only on an invalid raw message; an unknown kind has no
  // field to marshal.
  function SerializeProjection(lib: JsonLibrary, v: ContentValue): Option<string> {
    var encodes := match v.kind
      case SystemInstructions => v.systemInstructionParts.Some? ==> RawsValid(lib, v.systemInstructionParts.value)
      case InputMessages => forall m <- v.messages.GetOr([]) :: RawsValid(lib, m.parts)
      case OutputMessages => forall m <- v.messages.GetOr([]) :: RawsValid(lib, m.parts)
      case OtherKind(_) => false
      case _ => true;
    if encodes then Some(lib.encode(Document(lib, v))) else None
  }

  // A value of valid shape always serializes.
  lemma ValidShapeSerializes(lib: JsonLibrary, v: ContentValue)
    requires ValidShape(lib, v)
    ensures SerializeProjection(lib, v) == Some(lib.encode(Document(lib, v)))
  {
  }

  // ---- What a document tells ----

  // What can be read from a part: payloads are the documents they decode to.
  datatype PartRead = PartRead(
    partType: PartType, content: string, id: string, name: string, arguments: Option<Json>, response: Option<Json>)

  datatype MessageRead = MessageRead(role: string, content: string, parts: seq<PartRead>, finishReason: string)

  datatype DocumentRead =
    | NothingRead
    | TextRead(text: string)
    | PartsRead(parts: seq<PartRead>)
    | MessagesRead(messages: seq<MessageRead>)
    | ToolsRead(tools: seq<ToolDefinition>)

  // A required text.
  function ReadText(fields: map<string, Json>, name: string): Option<string> {
    if name in fields && fields[name].Str? then Some(fields[name].s) else None
  }

  // An optional text is left out when it is empty, and only then.
  function ReadOptional(fields: map<string, Json>, name: string): Option<string> {
    if name !in fields then Some("")
    else if fields[name].Str? && fields[name].s != "" then Some(fields[name].s)
    else None
  }

  function ReadRaw(fields: map<string, Json>, name: string): Option<Json> {
    if name in fields then Some(fields[name]) else None
  }

  function ReadType(name: string): PartType {
    match name
    case "text" => Text
    case "tool_call" => ToolCall
    case "tool_call_response" => ToolCallResponse
    case _ => OtherType(name)
  }

  const PART_FIELDS := {"type", "content", "id", "name", "arguments", "response"}

  const MESSAGE_FIELDS := {"role", "content", "parts", "finish_reason"}

  const TOOL_FIELDS := {"name", "description"}

  // A reader that takes nothing but the fields of the schema.
  function ReadPart(j: Json): Option<PartRead> {
    if !j.Obj? || !(j.fields.Keys <= PART_FIELDS) then None
    else
      match (ReadText(j.fields, "type"), ReadOptional(j.fields, "content"), ReadOptional(j.fields, "id"), ReadOptional(j.fields, "name"))
      case (Some(partType), Some(content), Some(id), Some(name)) =>
        Some(PartRead(ReadType(partType), content, id, name, ReadRaw(j.fields, "arguments"), ReadRaw(j.fields, "response")))
      case _ => None
  }

  function ReadAll<T>(js: seq<Json>, read: Json -> Option<T>): Option<seq<T>> {
    if js == [] then Some([])
    else
      match (ReadAll(js[..|js| - 1], read), read(js[|js| - 1]))
      case (Some(before), Some(last)) => Some(before + [last])
      case _ => None
  }

  // Parts are left out when there are none, and only then.
  function ReadParts(fields: map<string, Json>): Option<seq<PartRead>> {
    if "parts" !in fields then Some([])
    else if fields["parts"].Arr? && fields["parts"].elems != [] then ReadAll(fields["parts"].elems, ReadPart)
    else None
  }

  function ReadMessage(j: Json): Option<MessageRead> {
    if !j.Obj? || !(j.fields.Keys <= MESSAGE_FIELDS) then None
    else
      match (ReadText(j.fields, "role"), ReadOptional(j.fields, "content"), ReadParts(j.fields), ReadOptional(j.fields, "finish_reason"))
      case (Some(role), Some(content), Some(parts), Some(reason)) => Some(MessageRead(role, content, parts, reason))
      case _ => None
  }

  function ReadTool(j: Json): Option<ToolDefinition> {
    if !j.Obj? || !(j.fields.Keys <= TOOL_FIELDS) then None
    else
      match (ReadText(j.fields, "name"), ReadOptional(j.fields, "description"))
      case (Some(name), Some(description)) => Some(ToolDefinition(name, description))
      case _ => None
  }

  function ReadInstructions(j: Json): Option<DocumentRead> {
    match j
    case Str(s) => Some(TextRead(s))
    case Arr(elems) => (match ReadAll(elems, ReadPart) case Some(parts) => Some(PartsRead(parts)) case None => None)
    case _ => None
  }

  function ReadMessages(j: Json): Option<DocumentRead> {
    match j
    case Null => Some(NothingRead)
    case Arr(elems) => (match ReadAll(elems, ReadMessage) case Some(messages) => Some(MessagesRead(messages)) case None => None)
    case _ => None
  }

  function ReadTools(j: Json): Option<DocumentRead> {
    match j
    case Null => Some(NothingRead)
    case Arr(elems) => (match ReadAll(elems, ReadTool) case Some(tools) => Some(ToolsRead(tools)) case None => None)
    case _ => None
  }

  function ReadString(j: Json): Option<DocumentRead> {
    if j.Str? then Some(TextRead(j.s)) else None
  }

  function ReadDocument(kind: ContentKind, j: Json): Option<DocumentRead> {
    match kind
    case SystemInstructions => ReadInstructions(j)
    case InputMessages => ReadMessages(j)
    case OutputMessages => ReadMessages(j)
    case ToolDefinitions => ReadTools(j)
    case ToolCallArguments => ReadString(j)
    case ToolCallResult => ReadString(j)
    case OtherKind(_) => None
  }

  // The payload of a part, decoded; an empty one is none.
  function Payload(lib: JsonLibrary, raw: string): Option<Json> {
    if raw == "" then None else lib.decode(raw)
  }

  predicate TellsPart(lib: JsonLibrary, r: PartRead, p: MessagePart) {
    && r.partType == p.partType && r.content == p.content && r.id == p.id && r.name == p.name
    && r.arguments == Payload(lib, p.arguments) && r.response == Payload(lib, p.response)
  }

  predicate TellsParts(lib: JsonLibrary, rs: seq<PartRead>, parts: seq<MessagePart>) {
    |rs| == |parts| && forall i | 0 <= i < |parts| :: TellsPart(lib, rs[i], parts[i])
  }

  predicate TellsMessage(lib: JsonLibrary, r: MessageRead, m: Message) {
    r.role == m.role && r.content == m.content && r.finishReason == m.finishReason && TellsParts(lib, r.parts, m.parts)
  }

  predicate TellsMessages(lib: JsonLibrary, rs: seq<MessageRead>, ms: seq<Message>) {
    |rs| == |ms| && forall i | 0 <= i < |ms| :: TellsMessage(lib, rs[i], ms[i])
  }

  // What was read is the one field of the value that matters for its kind.
  predicate Tells(lib: JsonLibrary, r: DocumentRead, v: ContentValue) {
    match v.kind
    case SystemInstructions =>
      if v.systemInstructionParts.Some? then r.PartsRead? && TellsParts(lib, r.parts, v.systemInstructionParts.value)
      else r == TextRead(v.systemInstructions)
    case InputMessages => if v.messages.Some? then r.MessagesRead? && TellsMessages(lib, r.messages, v.messages.value) else r == NothingRead
    case OutputMessages => if v.messages.Some? then r.MessagesRead? && TellsMessages(lib, r.messages, v.messages.value) else r == NothingRead
    case ToolDefinitions => r == if v.toolDefinitions.Some? then ToolsRead(v.toolDefinitions.value) else NothingRead
    case ToolCallArguments => r == TextRead(v.toolCallArguments)
    case ToolCallResult => r == TextRead(v.toolCallResult)
    case OtherKind(_) => false
  }

  // The JSON library decodes valid texts.
  ghost predicate Decodes(lib: JsonLibrary) {
    forall s | lib.valid(s) :: lib.decode(s).Some?
  }

  // Nothing but this field has changed.
  ghost predicate SameBut(a: map<string, Json>, b: map<string, Json>, name: string) {
    forall k | k != name :: (k in a <==> k in b) && (k in a ==> a[k] == b[k])
  }

  lemma PutText(fields: map<string, Json>, name: string, text: string)
    requires name !in fields
    ensures var more := fields + TextField(name, text);
            && ReadOptional(more, name) == Some(text) && SameBut(fields, more, name) && more.Keys <= fields.Keys + {name}
  {
  }

  lemma PutRaw(lib: JsonLibrary, fields: map<string, Json>, name: string, raw: string)
    requires name !in fields && Decodes(lib) && (raw != "" ==> lib.valid(raw))
    ensures var more := fields + RawField(lib, name, raw);
            && ReadRaw(more, name) == Payload(lib, raw) && SameBut(fields, more, name) && more.Keys <= fields.Keys + {name}
  {
  }

  lemma NamesDiffer()
    ensures "type" != "content" && "type" != "id" && "type" != "name" && "type" != "arguments" && "type" != "response"
    ensures "content" != "id" && "content" != "name" && "content" != "arguments" && "content" != "response"
    ensures "id" != "name" && "id" != "arguments" && "id" != "response"
    ensures "name" != "arguments" && "name" != "response" && "arguments" != "response"
  {
    assert "type"[0] != "name"[0];
  }

  predicate ReadsTexts(fields: map<string, Json>, p: MessagePart) {
    && ReadText(fields, "type") == Some(TypeName(p.partType)) && ReadOptional(fields, "content") == Some(p.content)
    && ReadOptional(fields, "id") == Some(p.id) && ReadOptional(fields, "name") == Some(p.name)
  }

  lemma TextsReadBack(p: MessagePart)
    ensures ReadsTexts(PartTexts(p), p) && PartTexts(p).Keys <= {"type", "content", "id", "name"}
  {
    NamesDiffer();
    var typed := map["type" := Str(TypeName(p.partType))];
    PutText(typed, "content", p.content);
    PutText(typed + TextField("content", p.content), "id", p.id);
    PutText(typed + TextField("content", p.content) + TextField("id", p.id), "name", p.name);
  }

  lemma TypeReadsBack(t: PartType)
    requires !t.OtherType?
    ensures ReadType(TypeName(t)) == t
  {
  }

  lemma StillReadsTexts(a: map<string, Json>, b: map<string, Json>, name: string, p: MessagePart)
    requires ReadsTexts(a, p) && SameBut(a, b, name) && (name == "arguments" || name == "response")
    ensures ReadsTexts(b, p)
  {
    NamesDiffer();
  }

  predicate ReadsPart(lib: JsonLibrary, fields: map<string, Json>, p: MessagePart) {
    && fields.Keys <= PART_FIELDS && ReadsTexts(fields, p)
    && ReadRaw(fields, "arguments") == Payload(lib, p.arguments) && ReadRaw(fields, "response") == Payload(lib, p.response)
  }

  lemma PayloadsReadBack(lib: JsonLibrary, texts: map<string, Json>, p: MessagePart)
    requires Decodes(lib) && ValidPart(lib, p) && ReadsTexts(texts, p) && texts.Keys <= {"type", "content", "id", "name"}
    ensures ReadsPart(lib, texts + RawField(lib, "arguments", p.arguments) + RawField(lib, "response", p.response), p)
  {
    var more := texts + RawField(lib, "arguments", p.arguments);
    NamesDiffer();
    PutRaw(lib, texts, "arguments", p.arguments);
    PutRaw(lib, more, "response", p.response);
    StillReadsTexts(texts, more, "arguments", p);
    StillReadsTexts(more, more + RawField(lib, "response", p.response), "response", p);
  }

  lemma FieldsReadBack(lib: JsonLibrary, p: MessagePart)
    requires Decodes(lib) && ValidPart(lib, p)
    ensures ReadsPart(lib, PartDocument(lib, p).fields, p)
  {
    TextsReadBack(p);
    PayloadsReadBack(lib, PartTexts(p), p);
  }

  lemma PartReadsBack(lib: JsonLibrary, p: MessagePart)
    requires Decodes(lib) && ValidPart(lib, p)
    ensures ReadPart(PartDocument(lib, p)).Some? && TellsPart(lib, ReadPart(PartDocument(lib, p)).value, p)
  {
    TypeReadsBack(p.partType);
    FieldsReadBack(lib, p);
    WellRead(lib, PartDocument(lib, p), p);
  }

  lemma WellRead(lib: JsonLibrary, j: Json, p: MessagePart)
    requires j.Obj? && ReadsPart(lib, j.fields, p) && ReadType(TypeName(p.partType)) == p.partType
    ensures ReadPart(j).Some? && TellsPart(lib, ReadPart(j).value, p)
  {
  }

  lemma {:induction false} ReadsAll<T>(js: seq<Json>, read: Json -> Option<T>)
    requires forall i | 0 <= i < |js| :: read(js[i]).Some?
    ensures ReadAll(js, read).Some? && |ReadAll(js, read).value| == |js|
    ensures forall i | 0 <= i < |js| :: Some(ReadAll(js, read).value[i]) == read(js[i])
  {
    if js == [] {
    } else {
      ReadsAll(js[..|js| - 1], read);
    }
  }

  lemma PartsReadBack(lib: JsonLibrary, parts: seq<MessagePart>)
    requires Decodes(lib) && ValidParts(lib, parts)
    ensures var r := ReadAll(PartDocuments(lib, parts), ReadPart); r.Some? && TellsParts(lib, r.value, parts)
  {
    forall i | 0 <= i < |parts|
      ensures ReadPart(PartDocuments(lib, parts)[i]).Some? && TellsPart(lib, ReadPart(PartDocuments(lib, parts)[i]).value, parts[i])
    {
      PartReadsBack(lib, parts[i]);
    }
    ReadsAll(PartDocuments(lib, parts), ReadPart);
  }

  lemma MessageNamesDiffer()
    ensures "role" != "content" && "role" != "parts" && "role" != "finish_reason"
    ensures "content" != "parts" && "content" != "finish_reason" && "parts" != "finish_reason"
  {
  }

  lemma PutParts(lib: JsonLibrary, fields: map<string, Json>, parts: seq<MessagePart>)
    requires "parts" !in fields && Decodes(lib) && ValidParts(lib, parts)
    ensures var more := fields + PartsField(lib, parts);
            && ReadParts(more).Some? && TellsParts(lib, ReadParts(more).value, parts)
            && SameBut(fields, more, "parts") && more.Keys <= fields.Keys + {"parts"}
  {
    PartsReadBack(lib, parts);
  }

  predicate ReadsMessage(lib: JsonLibrary, fields: map<string, Json>, m: Message) {
    && fields.Keys <= MESSAGE_FIELDS && ReadText(fields, "role") == Some(m.role)
    && ReadOptional(fields, "content") == Some(m.content) && ReadOptional(fields, "finish_reason") == Some(m.finishReason)
    && ReadParts(fields).Some? && TellsParts(lib, ReadParts(fields).value, m.parts)
  }

  // A message up to its parts, and with them.
  predicate ReadsSaid(fields: map<string, Json>, m: Message) {
    ReadText(fields, "role") == Some(m.role) && ReadOptional(fields, "content") == Some(m.content)
  }

  lemma SaidReadsBack(m: Message)
    ensures var fields := map["role" := Str(m.role)] + TextField("content", m.content);
            ReadsSaid(fields, m) && fields.Keys <= {"role", "content"} && "parts" !in fields && "finish_reason" !in fields
  {
    MessageNamesDiffer();
    PutText(map["role" := Str(m.role)], "content", m.content);
  }

  lemma StillReadsSaid(a: map<string, Json>, b: map<string, Json>, m: Message)
    requires ReadsSaid(a, m) && SameBut(a, b, "parts") && "finish_reason" !in a
    ensures ReadsSaid(b, m) && "finish_reason" !in b
  {
    MessageNamesDiffer();
  }

  lemma MessageFieldsReadBack(lib: JsonLibrary, m: Message)
    requires Decodes(lib) && ValidParts(lib, m.parts)
    ensures ReadsMessage(lib, MessageDocument(lib, m).fields, m)
  {
    var said := map["role" := Str(m.role)] + TextField("content", m.content);
    SaidReadsBack(m);
    PutParts(lib, said, m.parts);
    StillReadsSaid(said, said + PartsField(lib, m.parts), m);
    FinishReadsBack(lib, said + PartsField(lib, m.parts), m);
  }

  lemma FinishReadsBack(lib: JsonLibrary, said: map<string, Json>, m: Message)
    requires said.Keys <= {"role", "content", "parts"} && "finish_reason" !in said
    requires ReadsSaid(said, m)
    requires ReadParts(said).Some? && TellsParts(lib, ReadParts(said).value, m.parts)
    ensures ReadsMessage(lib, said + TextField("finish_reason", m.finishReason), m)
  {
    MessageNamesDiffer();
    PutText(said, "finish_reason", m.finishReason);
    SameParts(said, said + TextField("finish_reason", m.finishReason));
  }

  lemma SameParts(a: map<string, Json>, b: map<string, Json>)
    requires SameBut(a, b, "finish_reason")
    ensures ReadParts(a) == ReadParts(b)
  {
    MessageNamesDiffer();
  }

  lemma MessageReadsBack(lib: JsonLibrary, m: Message)
    requires Decodes(lib) && ValidMessage(lib, m)
    ensures ReadMessage(MessageDocument(lib, m)).Some? && TellsMessage(lib, ReadMessage(MessageDocument(lib, m)).value, m)
  {
    MessageFieldsReadBack(lib, m);
    WellReadMessage(lib, MessageDocument(lib, m), m);
  }

  lemma WellReadMessage(lib: JsonLibrary, j: Json, m: Message)
    requires j.Obj? && ReadsMessage(lib, j.fields, m)
    ensures ReadMessage(j).Some? && TellsMessage(lib, ReadMessage(j).value, m)
  {
  }

  lemma MessagesReadBack(lib: JsonLibrary, ms: seq<Message>)
    requires Decodes(lib) && ValidMessages(lib, ms)
    ensures var r := ReadAll(MessagesDocument(lib, ms).elems, ReadMessage); r.Some? && TellsMessages(lib, r.value, ms)
  {
    var js := MessagesDocument(lib, ms).elems;
    forall i | 0 <= i < |ms| ensures ReadMessage(js[i]).Some? && TellsMessage(lib, ReadMessage(js[i]).value, ms[i]) {
      MessageReadsBack(lib, ms[i]);
    }
    ReadsAll(js, ReadMessage);
  }

  lemma ToolReadsBack(t: ToolDefinition)
    ensures ReadTool(ToolDocument(t)) == Some(t)
  {
    var fields := ToolDocument(t).fields;
    assert ReadText(fields, "name") == Some(t.name);
    assert ReadOptional(fields, "description") == Some(t.description);
  }

  lemma ToolsReadBack(tools: seq<ToolDefinition>)
    ensures ReadAll(ToolsDocument(tools).elems, ReadTool) == Some(tools)
  {
    var js := ToolsDocument(tools).elems;
    forall i | 0 <= i < |tools| ensures ReadTool(js[i]) == Some(tools[i]) {
      ToolReadsBack(tools[i]);
    }
    ReadsAll(js, ReadTool);
    assert ReadAll(js, ReadTool).value == tools;
  }

  // The document of a value of valid shape tells the value: every message
  // with its role, content, parts and finish reason, every part with its
  // type, texts and decoded payloads, every tool, all in order.
  lemma DocumentReadsBack(lib: JsonLibrary, v: ContentValue)
    requires Decodes(lib) && ValidShape(lib, v)
    ensures ReadBack(lib, v, Document(lib, v))
  {
    match v.kind
    case SystemInstructions => InstructionsReadBack(lib, v);
    case InputMessages => ConversationReadsBack(lib, v);
    case OutputMessages => ConversationReadsBack(lib, v);
    case ToolDefinitions => DefinitionsReadBack(lib, v);
    case ToolCallArguments =>
    case ToolCallResult =>
  }

  lemma TellsInstructions(lib: JsonLibrary, v: ContentValue, j: Json)
    requires v.kind == SystemInstructions && v.systemInstructionParts.Some? && j.Arr?
    requires var r := ReadAll(j.elems, ReadPart); r.Some? && TellsParts(lib, r.value, v.systemInstructionParts.value)
    ensures ReadBack(lib, v, j)
  {
  }

  lemma InstructionsReadBack(lib: JsonLibrary, v: ContentValue)
    requires Decodes(lib) && ValidShape(lib, v) && v.kind == SystemInstructions
    ensures ReadBack(lib, v, Document(lib, v))
  {
    if v.systemInstructionParts.Some? {
      PartsReadBack(lib, v.systemInstructionParts.value);
      TellsInstructions(lib, v, Document(lib, v));
    }
  }

  lemma TellsConversation(lib: JsonLibrary, v: ContentValue, j: Json)
    requires (v.kind == InputMessages || v.kind == OutputMessages) && v.messages.Some? && j.Arr?
    requires var r := ReadAll(j.elems, ReadMessage); r.Some? && TellsMessages(lib, r.value, v.messages.value)
    ensures ReadBack(lib, v, j)
  {
  }

  lemma ConversationReadsBack(lib: JsonLibrary, v: ContentValue)
    requires Decodes(lib) && ValidShape(lib, v) && (v.kind == InputMessages || v.kind == OutputMessages)
    ensures ReadBack(lib, v, Document(lib, v))
  {
    if v.messages.Some? {
      MessagesReadBack(lib, v.messages.value);
      TellsConversation(lib, v, Document(lib, v));
    }
  }

  lemma DefinitionsReadBack(lib: JsonLibrary, v: ContentValue)
    requires ValidShape(lib, v) && v.kind == ToolDefinitions
    ensures ReadBack(lib, v, Document(lib, v))
  {
    if v.toolDefinitions.Some? {
      ToolsReadBack(v.toolDefinitions.value);
    }
  }

  // The document can be read, and tells the value.
  predicate ReadBack(lib: JsonLibrary, v: ContentValue, j: Json) {
    ReadDocument(v.kind, j).Some? && Tells(lib, ReadDocument(v.kind, j).value, v)
  }

  // ---- What a projected text tells ----

  ghost predicate ProperFields(lib: JsonLibrary, fields: map<string, Json>) {
    forall k <- fields :: Proper(lib, fields[k])
  }

  lemma MergeProper(lib: JsonLibrary, a: map<string, Json>, b: map<string, Json>)
    requires ProperFields(lib, a) && ProperFields(lib, b)
    ensures ProperFields(lib, a + b)
  {
  }

  lemma PartProper(lib: JsonLibrary, p: MessagePart)
    requires Lawful(lib)
    ensures Proper(lib, PartDocument(lib, p))
  {
    var typed := map["type" := Str(TypeName(p.partType))];
    var content, id, name := TextField("content", p.content), TextField("id", p.id), TextField("name", p.name);
    MergeProper(lib, typed, content);
    MergeProper(lib, typed + content, id);
    MergeProper(lib, typed + content + id, name);
    MergeProper(lib, typed + content + id + name, RawField(lib, "arguments", p.arguments));
    MergeProper(lib, typed + content + id + name + RawField(lib, "arguments", p.arguments), RawField(lib, "response", p.response));
  }

  lemma PartsProper(lib: JsonLibrary, parts: seq<MessagePart>)
    requires Lawful(lib)
    ensures Proper(lib, Arr(PartDocuments(lib, parts)))
  {
    forall i | 0 <= i < |parts| ensures Proper(lib, PartDocuments(lib, parts)[i]) {
      PartProper(lib, parts[i]);
    }
  }

  lemma MessageProper(lib: JsonLibrary, m: Message)
    requires Lawful(lib)
    ensures Proper(lib, MessageDocument(lib, m))
  {
    PartsProper(lib, m.parts);
  }

  lemma DocumentProper(lib: JsonLibrary, v: ContentValue)
    requires Lawful(lib)
    ensures Proper(lib, Document(lib, v))
  {
    if v.kind.SystemInstructions? && v.systemInstructionParts.Some? {
      PartsProper(lib, v.systemInstructionParts.value);
    } else if (v.kind.InputMessages? || v.kind.OutputMessages?) && v.messages.Some? {
      forall i | 0 <= i < |v.messages.value| ensures Proper(lib, MessageDocument(lib, v.messages.value[i])) {
        MessageProper(lib, v.messages.value[i]);
      }
    }
  }

  // The text decodes to a document that can be read, and tells the value.
  predicate TextTells(lib: JsonLibrary, data: string, v: ContentValue) {
    lib.decode(data).Some? && ReadBack(lib, v, lib.decode(data).value)
  }

  lemma TextReadsBack(lib: JsonLibrary, v: ContentValue)
    requires Lawful(lib) && ValidShape(lib, v)
    ensures TextTells(lib, lib.encode(Document(lib, v)), v)
  {
    DocumentProper(lib, v);
    DocumentReadsBack(lib, v);
  }

  // ---- The pipeline ----

  // What the application's projector does with a value; a panic is recovered
  // and counts as an error.
  datatype Projection = Projects(value: ContentValue) | Fails

  type Projector = ContentValue -> Projection

  datatype Reason = ProjectorError | ProjectorInvalid | ProjectorBadJSON | ProjectorOversize

  datatype Diagnostic = Diagnostic(stage: ContentKind, reason: Reason)

  // The projector's answer, filed under the kind that was asked for.
  function Answer(projector: Projector, v: ContentValue): Option<ContentValue> {
    match projector(v)
    case Projects(w) => Some(w.(kind := v.kind))
    case Fails => None
  }

  // What is wrong with the answer, if anything.
  function Drop(lib: JsonLibrary, limit: int, answer: Option<ContentValue>): Option<Reason> {
    if answer.None? then Some(ProjectorError)
    else if !ValidShape(lib, answer.value) then Some(ProjectorInvalid)
    else if lib.bytes(lib.encode(Document(lib, answer.value))) > limit then Some(ProjectorOversize)
    else None
  }

  // Each reason, in terms of the projector's answer.
  lemma DropReasons(lib: JsonLibrary, limit: int, projector: Projector, v: ContentValue)
    ensures var drop := Drop(lib, limit, Answer(projector, v));
            && (drop == Some(ProjectorError) <==> projector(v) == Fails)
            && (projector(v).Projects? ==>
                  var w := projector(v).value.(kind := v.kind);
                  && (drop == Some(ProjectorInvalid) <==> !ValidShape(lib, w))
                  && (drop == Some(ProjectorOversize) <==> ValidShape(lib, w) && lib.bytes(lib.encode(Document(lib, w))) > limit))
            && drop != Some(ProjectorBadJSON)
  {
  }

  // A projection is valid exactly if there is a projector, it returns a value
  // of valid shape, and the bytes fit. Every drop by a projector requests one
  // diagnostic, and none is ever for bad JSON.
  method ProjectContent(lib: JsonLibrary, enabled: bool, projector: Option<Projector>, limit: int, v: ContentValue)
    returns (p: ProjectedContent, diagnostics: seq<Diagnostic>)
    ensures !enabled || projector.None? ==> p == NoContent && diagnostics == []
    ensures enabled && projector.Some? ==>
              var answer := Answer(projector.value, v);
              var drop := Drop(lib, limit, answer);
              && diagnostics == (if drop.Some? then [Diagnostic(v.kind, drop.value)] else [])
              && p == if drop.Some? then NoContent else Projected(v.kind, lib.encode(Document(lib, answer.value)))
    ensures forall d <- diagnostics :: d.reason != ProjectorBadJSON
    ensures Lawful(lib) && p.Projected? ==>
              enabled && projector.Some? && projector.value(v).Projects? && p.kind == v.kind
              && TextTells(lib, p.data, projector.value(v).value.(kind := v.kind))
  {
    p, diagnostics := NoContent, [];
    if !enabled || projector.None? {
      return;
    }
    var projected := projector.value(v);
    if projected.Fails? {
      diagnostics := diagnostics + [Diagnostic(v.kind, ProjectorError)];
      return;
    }
    var value := projected.value.(kind := v.kind);
    var ok := ValidateProjectionShape(lib, value);
    if !ok {
      diagnostics := diagnostics + [Diagnostic(v.kind, ProjectorInvalid)];
      return;
    }
    ValidShapeSerializes(lib, value);
    var data := SerializeProjection(lib, value);
    if data.None? {
      diagnostics := diagnostics + [Diagnostic(v.kind, ProjectorBadJSON)];
      return;
    }
    if lib.bytes(data.value) > limit {
      diagnostics := diagnostics + [Diagnostic(v.kind, ProjectorOversize)];
      return;
    }
    p := Projected(v.kind, data.value);
    if Lawful(lib) {
      TextReadsBack(lib, value);
    }
  }

  // ---- Both encodings agree ----

  // What a valid projection logs: for the structured kinds the document that
  // was projected, and for tool call strings what they encode if that is an
  // object or an array. The span attribute is the encoded document itself.
  lemma LoggedAsProjected(lib: JsonLibrary, v: ContentValue)
    requires Lawful(lib) && ValidShape(lib, v)
    ensures var logged := LoggedDocument(v.kind, lib.encode(Document(lib, v)), lib.decode);
            var text := if v.kind.ToolCallArguments? then v.toolCallArguments else v.toolCallResult;
            if IsToolCallString(v.kind) && lib.decode(text).Some? && IsStructured(lib.decode(text).value)
            then logged == lib.decode(text) else logged == Some(Document(lib, v)) && ReadBack(lib, v, logged.value)
  {
    DocumentProper(lib, v);
    DocumentReadsBack(lib, v);
  }
}
