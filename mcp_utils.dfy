/** Parsing the results of `tools/call`, `resources/read` and `prompts/get`
    from the raw `result` member of a response, and the constructors of
    content values. Each parser accepts or rejects its input as a whole: the
    first element that fails decides the error. */
module McpUtils {
  import opened Wrappers
  import opened Json
  import opened McpTypes

  /** The raw `result` of a response: absent (a nil pointer), text that is
      not JSON, or a JSON document. */
  datatype RawMessage = NilMessage | Malformed | Document(doc: Json)

  datatype ParseError =
    | ResponseNil
    | UnmarshalFailed
    | ContentMissing
    | ContentNotArray
    | ContentsMissing
    | ContentsNotArray
    | ContentNotObject
    | MessagesNotArray
    | MessageNotObject
    | UnsupportedRole(role: string)
    | ImageIncomplete
    | AudioIncomplete
    | ResourceMissing
    | UnsupportedContentType(contentType: string)
    | ResourceUriMissing
    | UnsupportedResourceType

  // ---------------------------------------------------------------------------
  // Field access.

  /** The string under `key`, or "" when it is absent or not a string. */
  function ExtractString(data: map<string, Json>, key: string): (r: string)
    ensures key in data && data[key].JStr? ==> r == data[key].s
    ensures !(key in data && data[key].JStr?) ==> r == ""
  {
    if key in data && data[key].JStr? then data[key].s else ""
  }

  /** The object under `key`, or `None` (a nil map) when it is absent or not
      an object. */
  function ExtractMap(data: map<string, Json>, key: string): (r: Option<map<string, Json>>)
    ensures r.Some? <==> key in data && data[key].JObj?
    ensures r.Some? ==> r.value == data[key].fields
  {
    if key in data && data[key].JObj? then Some(data[key].fields) else None
  }

  /** Decoding into `map[string]any`: `null` leaves a nil (empty) map and any
      other non-object is an error. */
  function DecodeObject(raw: RawMessage): (r: Result<map<string, Json>, ParseError>)
    ensures r.Ok? <==> raw.Document? && (raw.doc.JObj? || raw.doc.JNull?)
    ensures raw.NilMessage? ==> r == Err(ResponseNil)
    ensures r.Err? && !raw.NilMessage? ==> r == Err(UnmarshalFailed)
  {
    match raw
    case NilMessage => Err(ResponseNil)
    case Malformed => Err(UnmarshalFailed)
    case Document(JObj(m)) => Ok(m)
    case Document(JNull) => Ok(map[])
    case Document(_) => Err(UnmarshalFailed)
  }

  // ---------------------------------------------------------------------------
  // Constructors.

  function NewTextContent(text: string): (c: Content)
    ensures WellTagged(c) && c.TextContent? && c.text == text
  {
    TextContent(TextType, text)
  }

  function NewImageContent(data: string, mimeType: string): (c: Content)
    ensures WellTagged(c) && c.ImageContent? && c.data == data && c.mimeType == mimeType
  {
    ImageContent(ImageType, data, mimeType)
  }

  function NewAudioContent(data: string, mimeType: string): (c: Content)
    ensures WellTagged(c) && c.AudioContent? && c.data == data && c.mimeType == mimeType
  {
    AudioContent(AudioType, data, mimeType)
  }

  function NewEmbeddedResource(resource: ResourceContents): (c: Content)
    ensures WellTagged(c) && c.EmbeddedResource? && c.resource == resource
  {
    EmbeddedResource(ResourceType, resource)
  }

  function NewPromptMessage(role: Role, content: Content): (m: PromptMessage)
    ensures m.role == role && m.content == content
  {
    PromptMessage(role, content)
  }

  /** A tool result holding one text content and nothing else. */
  function NewToolResultText(text: string): (r: CallToolResult)
    ensures |r.content| == 1 && r.content[0] == NewTextContent(text)
    ensures r.meta.None? && !r.isError
  {
    CallToolResult(None, [TextContent(TextType, text)], false)
  }

  // ---------------------------------------------------------------------------
  // Single values.

  /** Resource contents need a `uri`, and then non-empty `text` (which wins)
      or non-empty `blob`. */
  function ParseResourceContents(m: map<string, Json>): (r: Result<ResourceContents, ParseError>)
    ensures r.Ok? <==> ExtractString(m, "uri") != ""
                       && (ExtractString(m, "text") != "" || ExtractString(m, "blob") != "")
    ensures ExtractString(m, "uri") == "" ==> r == Err(ResourceUriMissing)
    ensures r.Ok? ==> r.value.uri == ExtractString(m, "uri") && r.value.mimeType == ExtractString(m, "mimeType")
    ensures r.Ok? ==> (r.value.TextResourceContents? <==> ExtractString(m, "text") != "")
    ensures r.Ok? && r.value.TextResourceContents? ==> r.value.text == ExtractString(m, "text")
    ensures r.Ok? && r.value.BlobResourceContents? ==> r.value.blob == ExtractString(m, "blob")
  {
    var uri := ExtractString(m, "uri");
    if uri == "" then Err(ResourceUriMissing)
    else
      var mimeType := ExtractString(m, "mimeType");
      var text := ExtractString(m, "text");
      if text != "" then Ok(TextResourceContents(uri, mimeType, text))
      else
        var blob := ExtractString(m, "blob");
        if blob != "" then Ok(BlobResourceContents(uri, mimeType, blob))
        else Err(UnsupportedResourceType)
  }

  /** Content is chosen by its `type`: text always parses, image and audio
      need data and a MIME type, a resource needs an object `resource` that
      parses as resource contents; every other type is refused. */
  function ParseContent(m: map<string, Json>): (r: Result<Content, ParseError>)
    ensures r.Ok? ==> WellTagged(r.value) && r.value.typ == ExtractString(m, "type")
    ensures ExtractString(m, "type") == TextType ==> r == Ok(TextContent(TextType, ExtractString(m, "text")))
    ensures ExtractString(m, "type") in {ImageType, AudioType} ==>
      (r.Ok? <==> ExtractString(m, "data") != "" && ExtractString(m, "mimeType") != "")
    ensures r.Ok? && (r.value.ImageContent? || r.value.AudioContent?) ==>
      r.value.data == ExtractString(m, "data") && r.value.mimeType == ExtractString(m, "mimeType")
    ensures ExtractString(m, "type") == ResourceType ==>
      (r.Ok? <==> ExtractMap(m, "resource").Some? && ParseResourceContents(ExtractMap(m, "resource").value).Ok?)
    ensures r.Ok? && r.value.EmbeddedResource? ==>
      Ok(r.value.resource) == ParseResourceContents(ExtractMap(m, "resource").value)
    ensures ExtractString(m, "type") !in {TextType, ImageType, AudioType, ResourceType} ==>
      r == Err(UnsupportedContentType(ExtractString(m, "type")))
  {
    var contentType := ExtractString(m, "type");
    if contentType == TextType then
      Ok(NewTextContent(ExtractString(m, "text")))
    else if contentType == ImageType then
      var data := ExtractString(m, "data");
      var mimeType := ExtractString(m, "mimeType");
      if data == "" || mimeType == "" then Err(ImageIncomplete) else Ok(NewImageContent(data, mimeType))
    else if contentType == AudioType then
      var data := ExtractString(m, "data");
      var mimeType := ExtractString(m, "mimeType");
      if data == "" || mimeType == "" then Err(AudioIncomplete) else Ok(NewAudioContent(data, mimeType))
    else if contentType == ResourceType then
      match ExtractMap(m, "resource")
      case None => Err(ResourceMissing)
      case Some(resource) =>
        match ParseResourceContents(resource)
        case Err(e) => Err(e)
        case Ok(contents) => Ok(NewEmbeddedResource(contents))
    else
      Err(UnsupportedContentType(contentType))
  }

  /** A prompt message: an object whose role is exactly "assistant" or
      "user" and whose `content` is an object that parses as content. */
  function ParseMessage(m: map<string, Json>): (r: Result<PromptMessage, ParseError>)
    ensures r.Ok? <==> ExtractString(m, "role") in {RoleAssistant, RoleUser}
                       && ExtractMap(m, "content").Some? && ParseContent(ExtractMap(m, "content").value).Ok?
    ensures r.Ok? ==> r.value.role == ExtractString(m, "role")
                      && Ok(r.value.content) == ParseContent(ExtractMap(m, "content").value)
    ensures ExtractString(m, "role") !in {RoleAssistant, RoleUser} ==> r == Err(UnsupportedRole(ExtractString(m, "role")))
  {
    var role := ExtractString(m, "role");
    if role == "" || (role != RoleAssistant && role != RoleUser) then Err(UnsupportedRole(role))
    else
      match ExtractMap(m, "content")
      case None => Err(ContentNotObject)
      case Some(content) =>
        match ParseContent(content)
        case Err(e) => Err(e)
        case Ok(c) => Ok(NewPromptMessage(role, c))
  }

  // ---------------------------------------------------------------------------
  // Arrays of values.

  /** One array element: it must be an object (else `notObject`) that
      `parse` accepts. */
  function ParseElement<T>(item: Json, parse: map<string, Json> -> Result<T, ParseError>, notObject: ParseError)
    : Result<T, ParseError>
  {
    if item.JObj? then parse(item.fields) else Err(notObject)
  }

  /** The elements parsed in order; the first failure is the result. */
  function ParseEach<T>(items: seq<Json>, parse: map<string, Json> -> Result<T, ParseError>, notObject: ParseError)
    : Result<seq<T>, ParseError>
  {
    if items == [] then Ok([])
    else
      match ParseEach(items[..|items| - 1], parse, notObject)
      case Err(e) => Err(e)
      case Ok(done) =>
        match ParseElement(items[|items| - 1], parse, notObject)
        case Err(e) => Err(e)
        case Ok(x) => Ok(done + [x])
  }

  /** All elements parse exactly when the array does, and then the output
      has the input's length and order. */
  lemma {:induction false} ParseEachOk<T>(items: seq<Json>, parse: map<string, Json> -> Result<T, ParseError>, notObject: ParseError)
    ensures ParseEach(items, parse, notObject).Ok? <==>
      forall i :: 0 <= i < |items| ==> ParseElement(items[i], parse, notObject).Ok?
    ensures ParseEach(items, parse, notObject).Ok? ==>
      && |ParseEach(items, parse, notObject).value| == |items|
      && forall i :: 0 <= i < |items| ==>
           ParseElement(items[i], parse, notObject) == Ok(ParseEach(items, parse, notObject).value[i])
  {
    if items != [] {
      var init := items[..|items| - 1];
      ParseEachOk(init, parse, notObject);
      assert forall i :: 0 <= i < |init| ==> init[i] == items[i];
    }
  }

  /** A failing array fails with the error of its first failing element. */
  lemma {:induction false} ParseEachErr<T>(items: seq<Json>, parse: map<string, Json> -> Result<T, ParseError>, notObject: ParseError)
    returns (k: nat)
    requires ParseEach(items, parse, notObject).Err?
    ensures k < |items|
    ensures ParseElement(items[k], parse, notObject) == Err(ParseEach(items, parse, notObject).error)
    ensures forall i :: 0 <= i < k ==> ParseElement(items[i], parse, notObject).Ok?
  {
    var init := items[..|items| - 1];
    if ParseEach(init, parse, notObject).Err? {
      k := ParseEachErr(init, parse, notObject);
      assert forall i :: 0 <= i < |init| ==> init[i] == items[i];
    } else {
      ParseEachOk(init, parse, notObject);
      assert forall i :: 0 <= i < |init| ==> init[i] == items[i];
      k := |items| - 1;
    }
  }

  /** Once a prefix fails, nothing after it changes the error. */
  lemma {:induction false} ParseEachErrSticks<T>(
    items: seq<Json>, i: nat, parse: map<string, Json> -> Result<T, ParseError>, notObject: ParseError)
    requires i <= |items|
    requires ParseEach(items[..i], parse, notObject).Err?
    ensures ParseEach(items, parse, notObject) == ParseEach(items[..i], parse, notObject)
    decreases |items| - i
  {
    if i < |items| {
      assert items[..i + 1][..i] == items[..i];
      ParseEachErrSticks(items, i + 1, parse, notObject);
    } else {
      assert items[..i] == items;
    }
  }

  /** The loop shared by the three result parsers: the elements of `items`
      in order, stopping at the first failure. */
  method ParseArray<T>(items: seq<Json>, parse: map<string, Json> -> Result<T, ParseError>, notObject: ParseError)
    returns (r: Result<seq<T>, ParseError>)
    ensures r == ParseEach(items, parse, notObject)
  {
    var parsed: seq<T> := [];
    for i := 0 to |items|
      invariant ParseEach(items[..i], parse, notObject) == Ok(parsed)
    {
      assert items[..i + 1][..i] == items[..i];
      var item := items[i];
      if !item.JObj? {
        ParseEachErrSticks(items, i + 1, parse, notObject);
        return Err(notObject);
      }
      var element := parse(item.fields);
      if element.Err? {
        ParseEachErrSticks(items, i + 1, parse, notObject);
        return Err(element.error);
      }
      parsed := parsed + [element.value];
    }
    assert items[..|items|] == items;
    r := Ok(parsed);
  }

  // ---------------------------------------------------------------------------
  // Results.

  /** `_meta` when it is an object. */
  function MetaOf(m: map<string, Json>): Option<map<string, Json>> {
    ExtractMap(m, "_meta")
  }

  /** `isError` when it is a boolean, false otherwise. */
  function IsErrorOf(m: map<string, Json>): bool {
    "isError" in m && m["isError"].JBool? && m["isError"].b
  }

  function CallToolResultOf(raw: RawMessage): Result<CallToolResult, ParseError> {
    match DecodeObject(raw)
    case Err(e) => Err(e)
    case Ok(m) =>
      if "content" !in m then Err(ContentMissing)
      else if !m["content"].JArr? then Err(ContentNotArray)
      else
        match ParseEach(m["content"].items, ParseContent, ContentNotObject)
        case Err(e) => Err(e)
        case Ok(content) => Ok(CallToolResult(MetaOf(m), content, IsErrorOf(m)))
  }

  function ReadResourceResultOf(raw: RawMessage): Result<ReadResourceResult, ParseError> {
    match DecodeObject(raw)
    case Err(e) => Err(e)
    case Ok(m) =>
      if "contents" !in m then Err(ContentsMissing)
      else if !m["contents"].JArr? then Err(ContentsNotArray)
      else
        match ParseEach(m["contents"].items, ParseResourceContents, ContentNotObject)
        case Err(e) => Err(e)
        case Ok(contents) => Ok(ReadResourceResult(MetaOf(m), contents))
  }

  function GetPromptResultOf(raw: RawMessage): Result<GetPromptResult, ParseError> {
    match DecodeObject(raw)
    case Err(e) => Err(e)
    case Ok(m) =>
      var description := ExtractString(m, "description");
      if "messages" !in m then Ok(GetPromptResult(MetaOf(m), "", [], description))
      else if !m["messages"].JArr? then Err(MessagesNotArray)
      else
        match ParseEach(m["messages"].items, ParseMessage, MessageNotObject)
        case Err(e) => Err(e)
        case Ok(messages) => Ok(GetPromptResult(MetaOf(m), "", messages, description))
  }

  method ParseCallToolResult(raw: RawMessage) returns (r: Result<CallToolResult, ParseError>)
    ensures r == CallToolResultOf(raw)
  {
    var decoded := DecodeObject(raw);
    if decoded.Err? {
      return Err(decoded.error);
    }
    var m := decoded.value;
    var meta := MetaOf(m);
    var isError := IsErrorOf(m);
    if "content" !in m {
      return Err(ContentMissing);
    }
    if !m["content"].JArr? {
      return Err(ContentNotArray);
    }
    var content := ParseArray(m["content"].items, ParseContent, ContentNotObject);
    if content.Err? {
      return Err(content.error);
    }
    r := Ok(CallToolResult(meta, content.value, isError));
  }

  method ParseReadResourceResult(raw: RawMessage) returns (r: Result<ReadResourceResult, ParseError>)
    ensures r == ReadResourceResultOf(raw)
  {
    var decoded := DecodeObject(raw);
    if decoded.Err? {
      return Err(decoded.error);
    }
    var m := decoded.value;
    var meta := MetaOf(m);
    if "contents" !in m {
      return Err(ContentsMissing);
    }
    if !m["contents"].JArr? {
      return Err(ContentsNotArray);
    }
    var contents := ParseArray(m["contents"].items, ParseResourceContents, ContentNotObject);
    if contents.Err? {
      return Err(contents.error);
    }
    r := Ok(ReadResourceResult(meta, contents.value));
  }

  method ParseGetPromptResult(raw: RawMessage) returns (r: Result<GetPromptResult, ParseError>)
    ensures r == GetPromptResultOf(raw)
  {
    var decoded := DecodeObject(raw);
    if decoded.Err? {
      return Err(decoded.error);
    }
    var m := decoded.value;
    var meta := MetaOf(m);
    var description := ExtractString(m, "description");
    var messages: seq<PromptMessage> := [];
    if "messages" in m {
      if !m["messages"].JArr? {
        return Err(MessagesNotArray);
      }
      var parsed := ParseArray(m["messages"].items, ParseMessage, MessageNotObject);
      if parsed.Err? {
        return Err(parsed.error);
      }
      messages := parsed.value;
    }
    r := Ok(GetPromptResult(meta, "", messages, description));
  }

  // ---------------------------------------------------------------------------
  // What the result parsers accept.

  /** A tool result parses exactly when the document is an object whose
      `content` is an array of objects that all parse as content; the
      optional `_meta` and `isError` never make it fail. The content keeps
      the array's length and order. */
  lemma CallToolResultAccepts(raw: RawMessage)
    ensures CallToolResultOf(raw).Ok? <==>
      && DecodeObject(raw).Ok?
      && var m := DecodeObject(raw).value;
      && "content" in m && m["content"].JArr?
      && forall i :: 0 <= i < |m["content"].items| ==> ParseElement(m["content"].items[i], ParseContent, ContentNotObject).Ok?
    ensures CallToolResultOf(raw).Ok? ==>
      var m := DecodeObject(raw).value;
      var r := CallToolResultOf(raw).value;
      && r.meta == MetaOf(m) && r.isError == IsErrorOf(m)
      && |r.content| == |m["content"].items|
      && forall i :: 0 <= i < |r.content| ==> m["content"].items[i].JObj? && ParseContent(m["content"].items[i].fields) == Ok(r.content[i])
  {
    if DecodeObject(raw).Ok? {
      var m := DecodeObject(raw).value;
      if "content" in m && m["content"].JArr? {
        ParseEachOk(m["content"].items, ParseContent, ContentNotObject);
      }
    }
  }

  /** A failing tool result reports the error of its first failing content
      element. */
  lemma CallToolResultFirstError(raw: RawMessage) returns (k: nat)
    requires DecodeObject(raw).Ok?
    requires var m := DecodeObject(raw).value; "content" in m && m["content"].JArr?
    requires CallToolResultOf(raw).Err?
    ensures var items := DecodeObject(raw).value["content"].items;
      && k < |items|
      && ParseElement(items[k], ParseContent, ContentNotObject) == Err(CallToolResultOf(raw).error)
      && forall i :: 0 <= i < k ==> ParseElement(items[i], ParseContent, ContentNotObject).Ok?
  {
    k := ParseEachErr(DecodeObject(raw).value["content"].items, ParseContent, ContentNotObject);
  }

  /** A resource read result parses exactly when `contents` is an array of
      objects that all parse as resource contents, kept in order. */
  lemma ReadResourceResultAccepts(raw: RawMessage)
    ensures ReadResourceResultOf(raw).Ok? <==>
      && DecodeObject(raw).Ok?
      && var m := DecodeObject(raw).value;
      && "contents" in m && m["contents"].JArr?
      && forall i :: 0 <= i < |m["contents"].items| ==>
           ParseElement(m["contents"].items[i], ParseResourceContents, ContentNotObject).Ok?
    ensures ReadResourceResultOf(raw).Ok? ==>
      var m := DecodeObject(raw).value;
      var r := ReadResourceResultOf(raw).value;
      && r.meta == MetaOf(m)
      && |r.contents| == |m["contents"].items|
      && forall i :: 0 <= i < |r.contents| ==>
           m["contents"].items[i].JObj? && ParseResourceContents(m["contents"].items[i].fields) == Ok(r.contents[i])
  {
    if DecodeObject(raw).Ok? {
      var m := DecodeObject(raw).value;
      if "contents" in m && m["contents"].JArr? {
        ParseEachOk(m["contents"].items, ParseResourceContents, ContentNotObject);
      }
    }
  }

  /** A prompt result without `messages` parses with no messages; with
      `messages` it parses exactly when that is an array of objects that all
      parse as prompt messages, kept in order. */
  lemma GetPromptResultAccepts(raw: RawMessage)
    ensures GetPromptResultOf(raw).Ok? <==>
      && DecodeObject(raw).Ok?
      && var m := DecodeObject(raw).value;
      && ("messages" in m ==>
            && m["messages"].JArr?
            && forall i :: 0 <= i < |m["messages"].items| ==>
                 ParseElement(m["messages"].items[i], ParseMessage, MessageNotObject).Ok?)
    ensures GetPromptResultOf(raw).Ok? ==>
      var m := DecodeObject(raw).value;
      var r := GetPromptResultOf(raw).value;
      && r.meta == MetaOf(m) && r.description == ExtractString(m, "description") && r.prompt == ""
      && ("messages" !in m ==> r.messages == [])
      && ("messages" in m ==>
            && |r.messages| == |m["messages"].items|
            && forall i :: 0 <= i < |r.messages| ==>
                 m["messages"].items[i].JObj? && ParseMessage(m["messages"].items[i].fields) == Ok(r.messages[i]))
  {
    if DecodeObject(raw).Ok? {
      var m := DecodeObject(raw).value;
      if "messages" in m && m["messages"].JArr? {
        ParseEachOk(m["messages"].items, ParseMessage, MessageNotObject);
      }
    }
  }

  /** A single message with the role "system" (or any role other than
      "assistant" and "user") makes the whole prompt result fail. */
  lemma PromptRejectsOtherRoles(raw: RawMessage, i: nat)
    requires DecodeObject(raw).Ok?
    requires var m := DecodeObject(raw).value;
      && "messages" in m && m["messages"].JArr? && i < |m["messages"].items|
      && m["messages"].items[i].JObj?
      && ExtractString(m["messages"].items[i].fields, "role") !in {RoleAssistant, RoleUser}
    ensures GetPromptResultOf(raw).Err?
  {
    GetPromptResultAccepts(raw);
  }

  // ---------------------------------------------------------------------------
  // Encoding content as JSON, the partner of parsing.

  /** Resource contents as `encoding/json` writes them (`mimeType` is
      omitted when empty). */
  function ResourceJson(r: ResourceContents): map<string, Json> {
    var mime := if r.mimeType != "" then map["mimeType" := JStr(r.mimeType)] else map[];
    match r
    case TextResourceContents(uri, _, text) => map["uri" := JStr(uri), "text" := JStr(text)] + mime
    case BlobResourceContents(uri, _, blob) => map["uri" := JStr(uri), "blob" := JStr(blob)] + mime
  }

  function ContentJson(c: Content): map<string, Json> {
    match c
    case TextContent(t, text) => map["type" := JStr(t), "text" := JStr(text)]
    case ImageContent(t, data, mime) => map["type" := JStr(t), "data" := JStr(data), "mimeType" := JStr(mime)]
    case AudioContent(t, data, mime) => map["type" := JStr(t), "data" := JStr(data), "mimeType" := JStr(mime)]
    case EmbeddedResource(t, r) => map["type" := JStr(t), "resource" := JObj(ResourceJson(r))]
  }

  /** The resource contents the parser can produce. */
  predicate ResourceParseable(r: ResourceContents) {
    r.uri != "" && (r.TextResourceContents? ==> r.text != "") && (r.BlobResourceContents? ==> r.blob != "")
  }

  /** The content values the parser can produce. */
  predicate Parseable(c: Content) {
    && WellTagged(c)
    && (c.ImageContent? || c.AudioContent? ==> c.data != "" && c.mimeType != "")
    && (c.EmbeddedResource? ==> ResourceParseable(c.resource))
  }

  lemma ResourceRoundTrip(r: ResourceContents)
    requires ResourceParseable(r)
    ensures ParseResourceContents(ResourceJson(r)) == Ok(r)
  {
    var m := ResourceJson(r);
    assert ExtractString(m, "uri") == r.uri;
    assert ExtractString(m, "mimeType") == r.mimeType;
    if r.BlobResourceContents? {
      assert "text" !in m;
      assert ExtractString(m, "blob") == r.blob;
    }
  }

  /** Encoding and parsing again gives the content back. */
  lemma ContentRoundTrip(c: Content)
    requires Parseable(c)
    ensures ParseContent(ContentJson(c)) == Ok(c)
  {
    var m := ContentJson(c);
    assert ExtractString(m, "type") == c.typ;
    if c.EmbeddedResource? {
      ResourceRoundTrip(c.resource);
      assert ExtractMap(m, "resource") == Some(ResourceJson(c.resource));
    }
  }

  /** Whatever the parser produces is parseable, so encoding a parsed value
      and parsing it again yields the same value. */
  lemma ParsedContentReencodes(m: map<string, Json>)
    requires ParseContent(m).Ok?
    ensures Parseable(ParseContent(m).value)
    ensures ParseContent(ContentJson(ParseContent(m).value)) == ParseContent(m)
  {
    ContentRoundTrip(ParseContent(m).value);
  }
}
