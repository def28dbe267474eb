/** The collaborators MailjetClient delegates to and does not implement: the
    HTTP transport, with the calls it takes and the failures it raises, the
    JSON parser, String.getBytes and Base64.encode. Each is a function-typed
    field of `Env`, so the model assumes nothing about them. */
module Collaborators {
  import opened Wrappers
  import Json

  newtype byte = x: int | 0 <= x < 256

  /** What a collaborator may throw. The two checked exceptions the client
      catches are named; every other exception is `Unchecked`. */
  datatype Failure =
    | MalformedUrl
    | UnsupportedEncoding
    | Unchecked(name: string)

  /** One call into BasicHttpClient, with exactly the arguments it receives. */
  datatype Call =
    | GetCall(url: string, params: map<string, string>)
    | PostCall(url: string, contentType: string, data: seq<byte>)
    | PutCall(url: string, contentType: string, data: seq<byte>)
    | DeleteCall(url: string, params: map<string, string>)

  /** A transport reply: the HTTP status and the body as text. */
  datatype Raw = Raw(status: int, body: string)

  datatype Env = Env(
    // BasicHttpClient, given the headers registered with it and the call
    transport: (map<string, string>, Call) -> Result<Raw, Failure>,
    // `new JSONObject(text)`: the members of the object it reads, or the name
    // of the exception it throws
    parse: string -> Result<map<string, Json.Value>, string>,
    // String.getBytes() in the platform's default charset
    bytesOf: string -> seq<byte>,
    base64: seq<byte> -> string
  )
}
