/** The library calls the handler makes but whose internals are not part of
    this model. Each is an arbitrary total function handed to the model, so
    every property proved holds whatever these functions do. */
module Foreign {
  import opened Js

  /** The two parts of `url.parse(u)` that the handler reads. */
  datatype Location = Location(protocol: Option<string>, pathname: Option<string>)

  datatype Lib = Lib(
    jsonParse: string -> Option<Value>,   // JSON.parse; None is a SyntaxError
    jsonStringify: Value -> string,       // JSON.stringify of a defined value
    qsParse: string -> Value,             // querystring.parse
    qsStringify: Value -> string,         // querystring.stringify
    urlParse: string -> Location,         // url.parse of a string
    numberText: real -> string            // the runtime's Number-to-String
  )

  /** Whether Node's `http.request` (expecting "http:") or `https.request`
      (expecting "https:") accepts request options whose `protocol` is
      `protocol`. An absent protocol takes the client's own; any other one
      makes the client throw before anything is sent. */
  predicate ClientAccepts(expected: string, protocol: Option<string>)
    ensures ClientAccepts(expected, protocol) <==> protocol == None || protocol == Some(expected)
  {
    protocol.None? || protocol.value == expected
  }
}
