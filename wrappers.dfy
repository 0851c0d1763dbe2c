/** Small value types shared by every module of the model. */
module Wrappers {
  datatype Option<T> = None | Some(value: T)

  /** A JSON value, as the models build it for the server or read it back. */
  datatype Json =
    | JNull
    | JBool(b: bool)
    | JInt(i: int)
    | JStr(s: string)
    | JArray(items: seq<Json>)
    | JObject(fields: map<string, Json>)
}
