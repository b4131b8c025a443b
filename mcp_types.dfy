/** The result types of the Model Context Protocol that the client parses:
    message content, resource contents, prompt messages and the results of
    `tools/call`, `resources/read` and `prompts/get`. Annotations are not
    modelled. */
module McpTypes {
  import opened Wrappers
  import opened Json

  const TextType: string := "text"
  const ImageType: string := "image"
  const AudioType: string := "audio"
  const ResourceType: string := "resource"

  /** A participant of a prompt conversation; any string converts to it. */
  type Role = string

  const RoleAssistant: Role := "assistant"
  const RoleUser: Role := "user"
  const RoleSystem: Role := "system"

  datatype ResourceContents =
    | TextResourceContents(uri: string, mimeType: string, text: string)
    | BlobResourceContents(uri: string, mimeType: string, blob: string)

  /** Message content; `typ` is the `type` member carried alongside. */
  datatype Content =
    | TextContent(typ: string, text: string)
    | ImageContent(typ: string, data: string, mimeType: string)
    | AudioContent(typ: string, data: string, mimeType: string)
    | EmbeddedResource(typ: string, resource: ResourceContents)

  datatype PromptMessage = PromptMessage(role: Role, content: Content)

  /** `_meta` is `None` when it is absent (a nil map). */
  datatype CallToolResult = CallToolResult(meta: Option<map<string, Json>>, content: seq<Content>, isError: bool)

  datatype ReadResourceResult = ReadResourceResult(meta: Option<map<string, Json>>, contents: seq<ResourceContents>)

  datatype GetPromptResult = GetPromptResult(
    meta: Option<map<string, Json>>, prompt: string, messages: seq<PromptMessage>, description: string)

  /** The tag a content value carries is the one of its kind. */
  predicate WellTagged(c: Content) {
    match c
    case TextContent(t, _) => t == TextType
    case ImageContent(t, _, _) => t == ImageType
    case AudioContent(t, _, _) => t == AudioType
    case EmbeddedResource(t, _) => t == ResourceType
  }
}
