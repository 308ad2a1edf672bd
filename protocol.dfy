/**
 * The JSON-RPC envelope and the MCP tool description exchanged by the server
 * (protocol revision "2024-11-05").
 */
module Protocol {
  import opened Wrappers
  import opened Json

  const ProtocolVersion: string := "2024-11-05"

  /** Error codes of section 5.1 of the JSON-RPC 2.0 Specification. */
  const MethodNotFound: int := -32601
  const InvalidParams: int := -32602
  const InternalError: int := -32603

  const NotificationInitialized: string := "notifications/initialized"

  /**
   * A decoded request. A missing `params` object is the empty map (a nil Go
   * map, on which every lookup misses) and a missing `id` is `Null` (a nil
   * `interface{}`).
   */
  datatype Request = Request(jsonrpc: string, methodName: string, params: Args, id: Value)

  /**
   * The outcome of one `json.Decoder.Decode` call on the input stream.
   * Well-formed JSON of the wrong shape is consumed whole and reported as a
   * `TypeMismatch`, after which decoding carries on with the next value.
   * Malformed JSON and read errors, the end of input included, are a
   * `StreamError`: the decoder stores it and returns it again from every
   * later call without reading further.
   */
  datatype Decoding = Decoded(req: Request) | TypeMismatch | StreamError

  /**
   * The state of a read loop: the replies written so far, the number of
   * decode errors logged, and whether the decoder or the encoder holds a
   * stored error. Go's `json.Encoder` stores a failed write the way the
   * decoder stores a stream error, and returns it from every later `Encode`.
   */
  datatype Session = Session(written: seq<Response>, decodeErrors: nat, readFailed: bool, writeFailed: bool)

  datatype RpcError = RpcError(code: int, message: string)

  datatype PropType = StringType | NumberType

  /** One entry of an input schema's `properties` object. */
  datatype PropSchema = PropSchema(typ: PropType, default: Option<string>, enum: seq<string>)

  /**
   * A tool definition: its name, the `properties` of its input schema and
   * the schema's `required` list. Descriptions are not modelled.
   */
  datatype ToolDef = ToolDef(name: string, properties: map<string, PropSchema>, required: seq<string>)

  /** The three shapes a successful `result` takes. */
  datatype ResultBody =
    | InitializeResult(protocolVersion: string, serverName: string, serverVersion: string)
    | ToolList(tools: seq<ToolDef>)
    | TextContent(text: string)

  /**
   * A response. `jsonrpc == ""` is the handlers' marker for "send nothing";
   * otherwise exactly one of `result` and `error` is set.
   */
  datatype Response = Response(jsonrpc: string, result: Option<ResultBody>, error: Option<RpcError>, id: Value)

  /** A response that carries the error `code`/`message` for request `id`. */
  function ErrorResponse(code: int, message: string, id: Value): (r: Response)
    ensures r.jsonrpc == "2.0" && r.result.None? && r.error == Some(RpcError(code, message)) && r.id == id
  {
    Response("2.0", None, Some(RpcError(code, message)), id)
  }

  /** A successful response for request `id`. */
  function ResultResponse(body: ResultBody, id: Value): (r: Response)
    ensures r.jsonrpc == "2.0" && r.result == Some(body) && r.error.None? && r.id == id
  {
    Response("2.0", Some(body), None, id)
  }

  /** What a reply that is actually sent looks like. */
  predicate WellFormedReply(r: Response) {
    r.jsonrpc == "2.0" && (r.result.Some? <==> r.error.None?)
  }

  /** The text block placed in the result of a successful `tools/call`. */
  function SuccessText(toolName: string, resultJson: string): (t: string)
    ensures |t| == |"Tool "| + |toolName| + |" executed successfully. Result:\n"| + |resultJson|
    ensures t[..5] == "Tool " && t[|t| - |resultJson|..] == resultJson
  {
    "Tool " + toolName + " executed successfully. Result:\n" + resultJson
  }

  /** Names the tools of a catalog declare. */
  function Names(tools: seq<ToolDef>): (s: set<string>)
    ensures forall i :: 0 <= i < |tools| ==> tools[i].name in s
    ensures forall n :: n in s ==> exists i :: 0 <= i < |tools| && tools[i].name == n
  {
    set t | t in tools :: t.name
  }

  /** No two definitions of a catalog share a name. */
  predicate DistinctNames(tools: seq<ToolDef>) {
    forall i, j :: 0 <= i < j < |tools| ==> tools[i].name != tools[j].name
  }
}
