/** The JSON-RPC 2.0 envelopes the transport exchanges with the server. How a
    payload is decoded (`json.Unmarshal` into an envelope) is not modelled: a
    `Codec` says what decoding makes of each payload. */
module JsonRpc {
  import opened Wrappers
  import opened Json

  const Version: string := "2.0"

  /** A request identifier; its wire representation is not modelled. */
  datatype Id = Id(token: string)

  datatype Request = Request(jsonrpc: string, id: Id, methodName: string, params: Json)

  datatype RpcError = RpcError(code: int, message: string, data: Option<Json>)

  /** A response envelope; `id` is `None` when the payload carries a null or
      missing id. */
  datatype Response = Response(jsonrpc: string, id: Option<Id>, result: Option<Json>, error: Option<RpcError>)

  datatype Notification = Notification(jsonrpc: string, methodName: string, params: map<string, Json>)

  /** What decoding a payload into a response envelope, and into a
      notification envelope, yields (`None` when decoding fails). */
  datatype Codec = Codec(response: string -> Option<Response>, notification: string -> Option<Notification>)
}
