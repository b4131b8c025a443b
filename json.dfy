/** A decoded JSON document, as `encoding/json` produces it when it decodes into
    `any`: null, booleans, numbers, strings, arrays (`[]any`) and objects
    (`map[string]any`). */
module Json {

  datatype Json =
    | JNull
    | JBool(b: bool)
    | JNum(n: int)
    | JStr(s: string)
    | JArr(items: seq<Json>)
    | JObj(fields: map<string, Json>)
}
