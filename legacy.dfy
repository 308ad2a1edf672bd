/**
 * The older, standalone server in main.go: its own tool list, dispatcher,
 * request router and read loop. It renames four tools, has no case for
 * `notifications/initialized`, and writes a reply for every request it
 * decodes.
 */
module Legacy {
  import opened Wrappers
  import opened Json
  import opened Protocol
  import opened Tools
  import opened Handlers

  /** `handleListTools`: the same schemas as the MCP catalog under the older names. */
  const LegacyCatalog: seq<ToolDef> := [
    ToolDef("get_ticker", PairOnly, []),
    ToolDef("get_trades", PairOnly, []),
    ToolDef("get_orderbook", PairOnly, []),
    ToolDef("get_exchange_status", PairOnly, []),
    ToolDef("calculate_order_rate", RateProperties, ["order_type", "price", "amount"]),
    ToolDef("get_balance", NoProperties, []),
    ToolDef("get_accounts", NoProperties, []),
    ToolDef("get_transactions", NoProperties, []),
    ToolDef("get_open_orders", NoProperties, []),
    ToolDef("create_order", OrderProperties, ["order_type", "rate", "amount"]),
    ToolDef("cancel_order", OrderIdOnly, ["order_id"]),
    ToolDef("get_order", OrderIdOnly, ["order_id"])
  ]

  const LegacyNames: set<string> := {
    "get_ticker", "get_trades", "get_orderbook", "get_exchange_status",
    "calculate_order_rate", "get_balance", "get_accounts",
    "get_transactions", "get_open_orders", "create_order",
    "cancel_order", "get_order"
  }

  /** The eight names both servers use. */
  const SharedNames: set<string> := {
    "get_ticker", "get_trades", "get_exchange_status", "calculate_order_rate",
    "get_balance", "get_open_orders", "create_order", "cancel_order"
  }

  /** The four older names and the MCP names that replaced them. */
  const Renamed: map<string, string> := map[
    "get_orderbook" := "get_order_book",
    "get_accounts" := "get_account_info",
    "get_transactions" := "get_transaction_history",
    "get_order" := "get_order_details"
  ]

  /** The MCP name of an older tool name. */
  function CurrentName(name: string): string {
    if name in Renamed then Renamed[name] else name
  }

  /** `handleListTools`. */
  function ListTools(): (tools: seq<ToolDef>)
    ensures |tools| == 12 && DistinctNames(tools) && Names(tools) == LegacyNames
  {
    LegacyCatalogFacts();
    LegacyNameSet();
    LegacyCatalog
  }

  /** The older list holds twelve definitions with pairwise distinct names. */
  lemma LegacyCatalogFacts()
    ensures |LegacyCatalog| == 12 && DistinctNames(LegacyCatalog)
  {
  }

  /** The names the older list declares are exactly `LegacyNames`. */
  lemma LegacyNameSet()
    ensures Names(LegacyCatalog) == LegacyNames
  {
  }

  /**
   * The two lists describe the same tools in the same order: entry by
   * entry the schemas are equal and the names agree after renaming.
   */
  lemma CatalogsAgreeUpToRenaming()
    ensures |LegacyCatalog| == |Catalog|
    ensures forall i :: 0 <= i < |Catalog| ==>
              && LegacyCatalog[i].properties == Catalog[i].properties
              && LegacyCatalog[i].required == Catalog[i].required
              && CurrentName(LegacyCatalog[i].name) == Catalog[i].name
  {
    forall i | 0 <= i < |Catalog|
      ensures CurrentName(LegacyCatalog[i].name) == Catalog[i].name
    {
      if i == 2 || i == 6 || i == 7 || i == 11 {
        assert LegacyCatalog[i].name in Renamed;
      } else {
        assert LegacyCatalog[i].name !in Renamed;
      }
    }
  }

  /** The switch of `handleCallTool`. */
  function LegacyDispatch(name: string, args: Args): (r: Result<Call>)
  {
    match name
    case "get_ticker" => Ok(Ticker(PairArg(args)))
    case "get_trades" => Ok(Trades(PairArg(args)))
    case "get_orderbook" => Ok(OrderBooks(PairArg(args)))
    case "get_exchange_status" => Ok(ExchangeStatus(PairArg(args)))
    case "calculate_order_rate" =>
      Ok(OrdersRate(PairArg(args), StringOr(args, "order_type", ""),
                    NumberOr(args, "price", 0.0), NumberOr(args, "amount", 0.0)))
    case "get_balance" => Ok(Balance)
    case "get_accounts" => Ok(Accounts)
    case "get_transactions" => Ok(Transactions)
    case "get_open_orders" => Ok(OpenOrders)
    case "create_order" =>
      Ok(CreateOrder(PairArg(args), StringOr(args, "order_type", ""),
                     NumberOr(args, "rate", 0.0), NumberOr(args, "amount", 0.0)))
    case "cancel_order" => Ok(CancelOrder(OrderIdArg(args)))
    case "get_order" => Ok(GetOrder(OrderIdArg(args)))
    case _ => Err(UnknownTool(name))
  }

  /** `handleCallTool`: the selected call's outcome, or the unknown-tool error. */
  function LegacyCallTool(exec: Call -> Result<Value>, name: string, args: Args): (r: Result<Value>)
    ensures name !in LegacyNames ==> r == Err(UnknownTool(name))
    ensures name in LegacyNames ==> exists c :: r == exec(c)
    ensures LegacyDispatch(name, args).Ok? ==> r == exec(LegacyDispatch(name, args).value)
  {
    match LegacyDispatch(name, args)
    case Ok(c) => exec(c)
    case Err(e) => Err(e)
  }

  /** The older dispatcher accepts exactly the names its list declares. */
  lemma LegacyDispatchAcceptsListedNames(name: string, args: Args)
    ensures LegacyDispatch(name, args).Ok? <==> name in LegacyNames
    ensures LegacyDispatch(name, args).Err? ==> LegacyDispatch(name, args) == Err("unknown tool: " + name)
  {
  }

  /** On the eight shared names both dispatchers select the same call with the same arguments. */
  lemma SharedToolsAgree(name: string, args: Args)
    requires name in SharedNames
    ensures LegacyDispatch(name, args) == Dispatch(name, args)
    ensures LegacyDispatch(name, args).Ok?
  {
  }

  /** Each renamed tool selects the same call as the MCP tool that replaced it. */
  lemma RenamedToolsAgree(name: string, args: Args)
    requires name in Renamed
    ensures LegacyDispatch(name, args) == Dispatch(Renamed[name], args)
    ensures LegacyDispatch(name, args).Ok?
  {
  }

  /** Every tool the older list names is dispatched like its MCP counterpart. */
  lemma ListedToolsAgree(name: string, args: Args)
    requires name in LegacyNames
    ensures LegacyDispatch(name, args) == Dispatch(CurrentName(name), args)
  {
    if name in Renamed {
      RenamedToolsAgree(name, args);
    } else {
      SharedToolsAgree(name, args);
    }
  }

  /** The `tools/call` branch of `handleRequest`. */
  function LegacyCallToolResponse(exec: Call -> Result<Value>, marshal: Value -> Result<string>,
                                  params: Args, id: Value): (r: Response)
    ensures WellFormedReply(r) && r.id == id
    ensures r.error.Some? ==> r.error.value.code == InvalidParams || r.error.value.code == InternalError
    ensures !("name" in params && params["name"].Str?) ==> r == ErrorResponse(InvalidParams, "Missing tool name", id)
    ensures "name" in params && params["name"].Str? && params["name"].s !in LegacyNames ==>
              r == ErrorResponse(InternalError, "unknown tool: " + params["name"].s, id)
  {
    if !("name" in params && params["name"].Str?) then
      ErrorResponse(InvalidParams, "Missing tool name", id)
    else
      var toolName := params["name"].s;
      match LegacyCallTool(exec, toolName, ArgumentsOf(params))
      case Err(e) => ErrorResponse(InternalError, e, id)
      case Ok(result) =>
        match marshal(result)
        case Err(e) => ErrorResponse(InternalError, "Failed to marshal result: " + e, id)
        case Ok(text) => ResultResponse(TextContent(SuccessText(toolName, text)), id)
  }

  /**
   * `handleRequest`: every request, the notification included, gets a
   * well-formed reply echoing its id; anything but the three methods it
   * knows gets -32601.
   */
  function LegacyHandleRequest(exec: Call -> Result<Value>, marshal: Value -> Result<string>,
                               req: Request): (r: Response)
    ensures WellFormedReply(r) && r.id == req.id
    ensures req.methodName !in {"initialize", "tools/list", "tools/call"} ==>
              r.error == Some(RpcError(MethodNotFound, "Method not found"))
    ensures r.error.Some? && r.error.value.code == MethodNotFound ==>
              req.methodName !in {"initialize", "tools/list", "tools/call"}
  {
    match req.methodName
    case "initialize" =>
      ResultResponse(InitializeResult(ProtocolVersion, "coincheck-mcp-server", "1.0.0"), req.id)
    case "tools/list" => ResultResponse(ToolList(ListTools()), req.id)
    case "tools/call" => LegacyCallToolResponse(exec, marshal, req.params, req.id)
    case _ => ErrorResponse(MethodNotFound, "Method not found", req.id)
  }

  /** The notification is answered with -32601 and its (usually null) id. */
  lemma NotificationIsMethodNotFound(exec: Call -> Result<Value>, marshal: Value -> Result<string>, req: Request)
    requires req.methodName == NotificationInitialized
    ensures LegacyHandleRequest(exec, marshal, req) == ErrorResponse(MethodNotFound, "Method not found", req.id)
    ensures HandleRequest(exec, marshal, req).jsonrpc == ""
  {
  }

  /** A failing exchange call of any listed tool is reported as -32603 carrying the error text verbatim. */
  lemma LegacyToolFailureIsInternalError(exec: Call -> Result<Value>, marshal: Value -> Result<string>,
                                         req: Request, name: string, c: Call, message: string)
    requires req.methodName == "tools/call"
    requires "name" in req.params && req.params["name"] == Str(name)
    requires LegacyDispatch(name, ArgumentsOf(req.params)) == Ok(c) && exec(c) == Err(message)
    ensures name in LegacyNames
    ensures LegacyHandleRequest(exec, marshal, req) == ErrorResponse(InternalError, message, req.id)
  {
    LegacyDispatchAcceptsListedNames(name, ArgumentsOf(req.params));
  }

  /** A result of any listed tool that cannot be marshalled is reported as -32603. */
  lemma LegacyMarshalFailureIsInternalError(exec: Call -> Result<Value>, marshal: Value -> Result<string>,
                                            req: Request, name: string, c: Call, v: Value, message: string)
    requires req.methodName == "tools/call"
    requires "name" in req.params && req.params["name"] == Str(name)
    requires LegacyDispatch(name, ArgumentsOf(req.params)) == Ok(c) && exec(c) == Ok(v)
    requires marshal(v) == Err(message)
    ensures LegacyHandleRequest(exec, marshal, req)
            == ErrorResponse(InternalError, "Failed to marshal result: " + message, req.id)
  {
  }

  /**
   * A successful call of any listed tool is one text block announcing the
   * tool by its older name, then the marshalled result.
   */
  lemma LegacySuccessIsTextContent(exec: Call -> Result<Value>, marshal: Value -> Result<string>,
                                   req: Request, name: string, c: Call, v: Value, text: string)
    requires req.methodName == "tools/call"
    requires "name" in req.params && req.params["name"] == Str(name)
    requires LegacyDispatch(name, ArgumentsOf(req.params)) == Ok(c) && exec(c) == Ok(v)
    requires marshal(v) == Ok(text)
    ensures LegacyHandleRequest(exec, marshal, req)
            == ResultResponse(TextContent("Tool " + name + " executed successfully. Result:\n" + text), req.id)
  {
  }

  /**
   * Apart from `initialize` (whose server name differs), `tools/list` (whose
   * names differ), the notification, and the renamed tools, both routers
   * give the same reply; in particular the error codes of `tools/call`
   * agree.
   */
  lemma RoutersAgree(exec: Call -> Result<Value>, marshal: Value -> Result<string>, req: Request)
    requires req.methodName !in {"initialize", "tools/list", NotificationInitialized}
    requires "name" in req.params && req.params["name"].Str? ==>
               req.params["name"].s !in Renamed.Keys && req.params["name"].s !in Renamed.Values
    ensures LegacyHandleRequest(exec, marshal, req) == HandleRequest(exec, marshal, req)
  {
    if req.methodName == "tools/call" && "name" in req.params && req.params["name"].Str? {
      var name := req.params["name"].s;
      var args := ArgumentsOf(req.params);
      if name in SharedNames {
        SharedToolsAgree(name, args);
      } else {
        assert Renamed.Keys == LegacyNames - SharedNames;
        assert Renamed.Values == CatalogNames - SharedNames by {
          assert Renamed.Values == {"get_order_book", "get_account_info", "get_transaction_history", "get_order_details"} by {
            assert Renamed["get_orderbook"] == "get_order_book";
            assert Renamed["get_accounts"] == "get_account_info";
            assert Renamed["get_transactions"] == "get_transaction_history";
            assert Renamed["get_order"] == "get_order_details";
          }
        }
        LegacyDispatchAcceptsListedNames(name, args);
        DispatchAcceptsCatalogNames(name, args);
      }
    }
  }

  /** One pass of the read loop of `main` from state `s`; as `Server.Step`, without the empty-marker check. */
  function LegacyStep(exec: Call -> Result<Value>, marshal: Value -> Result<string>,
                      encodes: Response -> bool, s: Session, input: Decoding): Session
  {
    if s.readFailed then s.(decodeErrors := s.decodeErrors + 1)
    else
      match input
      case TypeMismatch => s.(decodeErrors := s.decodeErrors + 1)
      case StreamError => s.(decodeErrors := s.decodeErrors + 1, readFailed := true)
      case Decoded(req) =>
        var resp := LegacyHandleRequest(exec, marshal, req);
        if s.writeFailed then s
        else if encodes(resp) then s.(written := s.written + [resp])
        else s.(writeFailed := true)
  }

  /** The state of the read loop of `main` after one pass per decoder outcome. */
  function LegacyServed(exec: Call -> Result<Value>, marshal: Value -> Result<string>,
                        encodes: Response -> bool, inputs: seq<Decoding>): Session
  {
    if inputs == [] then Session([], 0, false, false)
    else
      LegacyStep(exec, marshal, encodes, LegacyServed(exec, marshal, encodes, inputs[..|inputs| - 1]),
                 inputs[|inputs| - 1])
  }

  /** What the read loop of `main` writes for `inputs`. */
  function LegacyWritten(exec: Call -> Result<Value>, marshal: Value -> Result<string>,
                         encodes: Response -> bool, inputs: seq<Decoding>): seq<Response>
  {
    LegacyServed(exec, marshal, encodes, inputs).written
  }

  /** Neither the decoder nor the encoder of `main` holds a stored error after `inputs`. */
  predicate LegacyLive(exec: Call -> Result<Value>, marshal: Value -> Result<string>,
                       encodes: Response -> bool, inputs: seq<Decoding>)
  {
    var s := LegacyServed(exec, marshal, encodes, inputs);
    !s.readFailed && !s.writeFailed
  }

  /**
   * The read loop of `main`: decode errors are logged and the loop goes on,
   * and every decoded request's reply is encoded, notifications included.
   * As in `Server.Run`, the loop never stops, and `decodeErrors` counts the
   * decode errors logged.
   */
  method LegacyServe(exec: Call -> Result<Value>, marshal: Value -> Result<string>,
                     encodes: Response -> bool, inputs: seq<Decoding>)
    returns (written: seq<Response>, decodeErrors: nat)
    ensures written == LegacyWritten(exec, marshal, encodes, inputs)
    ensures decodeErrors == LegacyServed(exec, marshal, encodes, inputs).decodeErrors
  {
    written, decodeErrors := [], 0;
    var readFailed, writeFailed := false, false;
    var i := 0;
    while i < |inputs|
      invariant 0 <= i <= |inputs|
      invariant Session(written, decodeErrors, readFailed, writeFailed)
                == LegacyServed(exec, marshal, encodes, inputs[..i])
    {
      assert inputs[..i + 1][..i] == inputs[..i];
      if readFailed {
        // `Decode` returns the stored error again: logged
        decodeErrors := decodeErrors + 1;
      } else {
        match inputs[i] {
          case TypeMismatch =>
            // the value is skipped: logged, nothing written
            decodeErrors := decodeErrors + 1;
          case StreamError =>
            decodeErrors := decodeErrors + 1;
            readFailed := true;
          case Decoded(req) =>
            var resp := LegacyHandleRequest(exec, marshal, req);
            if !writeFailed {
              if encodes(resp) {
                written := written + [resp];
              } else {
                writeFailed := true;
              }
            }
        }
      }
      i := i + 1;
    }
    assert inputs[..i] == inputs;
  }

  /** A stored decoder error is final for the older loop too. */
  lemma {:induction false} LegacyReadFailureIsFinal(exec: Call -> Result<Value>, marshal: Value -> Result<string>,
                                                    encodes: Response -> bool, a: seq<Decoding>, b: seq<Decoding>)
    requires LegacyServed(exec, marshal, encodes, a).readFailed
    ensures var s := LegacyServed(exec, marshal, encodes, a);
            LegacyServed(exec, marshal, encodes, a + b) == s.(decodeErrors := s.decodeErrors + |b|)
    decreases |b|
  {
    if b == [] {
      assert a + b == a;
    } else {
      var b' := b[..|b| - 1];
      assert (a + b)[..|a + b| - 1] == a + b';
      LegacyReadFailureIsFinal(exec, marshal, encodes, a, b');
    }
  }

  /** A stored encoder error is final for the older loop too. */
  lemma {:induction false} LegacyWriteFailureIsFinal(exec: Call -> Result<Value>, marshal: Value -> Result<string>,
                                                     encodes: Response -> bool, a: seq<Decoding>, b: seq<Decoding>)
    requires LegacyServed(exec, marshal, encodes, a).writeFailed
    ensures LegacyServed(exec, marshal, encodes, a + b).writeFailed
    ensures LegacyWritten(exec, marshal, encodes, a + b) == LegacyWritten(exec, marshal, encodes, a)
    decreases |b|
  {
    if b == [] {
      assert a + b == a;
    } else {
      var b' := b[..|b| - 1];
      assert (a + b)[..|a + b| - 1] == a + b';
      LegacyWriteFailureIsFinal(exec, marshal, encodes, a, b');
    }
  }

  /** From a live state, the older loop serves further input as a fresh session would. */
  lemma {:induction false} LegacyResumeFromLive(exec: Call -> Result<Value>, marshal: Value -> Result<string>,
                                                encodes: Response -> bool, a: seq<Decoding>, b: seq<Decoding>)
    requires LegacyLive(exec, marshal, encodes, a)
    ensures var s, t := LegacyServed(exec, marshal, encodes, a), LegacyServed(exec, marshal, encodes, b);
            LegacyServed(exec, marshal, encodes, a + b)
            == t.(written := s.written + t.written, decodeErrors := s.decodeErrors + t.decodeErrors)
    decreases |b|
  {
    if b == [] {
      assert a + b == a;
    } else {
      var b' := b[..|b| - 1];
      assert (a + b)[..|a + b| - 1] == a + b';
      assert (a + b)[|a + b| - 1] == b[|b| - 1];
      LegacyResumeFromLive(exec, marshal, encodes, a, b');
    }
  }

  /**
   * The older loop's output for two consecutive stretches of input is the
   * concatenation of their outputs, unless the first left a stored decoder
   * or encoder error behind.
   */
  lemma LegacyWrittenAppend(exec: Call -> Result<Value>, marshal: Value -> Result<string>,
                            encodes: Response -> bool, a: seq<Decoding>, b: seq<Decoding>)
    ensures LegacyWritten(exec, marshal, encodes, a + b)
            == LegacyWritten(exec, marshal, encodes, a)
               + (if LegacyLive(exec, marshal, encodes, a) then LegacyWritten(exec, marshal, encodes, b) else [])
  {
    if LegacyLive(exec, marshal, encodes, a) {
      LegacyResumeFromLive(exec, marshal, encodes, a, b);
    } else if LegacyServed(exec, marshal, encodes, a).readFailed {
      LegacyReadFailureIsFinal(exec, marshal, encodes, a, b);
    } else {
      LegacyWriteFailureIsFinal(exec, marshal, encodes, a, b);
    }
  }

  /**
   * The older loop, too, writes nothing more after a stream error, while
   * every later pass logs the stored error again.
   */
  lemma LegacyStreamErrorIsFinal(exec: Call -> Result<Value>, marshal: Value -> Result<string>,
                                 encodes: Response -> bool, a: seq<Decoding>, b: seq<Decoding>)
    ensures LegacyWritten(exec, marshal, encodes, a + [StreamError] + b) == LegacyWritten(exec, marshal, encodes, a)
    ensures LegacyServed(exec, marshal, encodes, a + [StreamError] + b).decodeErrors
            == LegacyServed(exec, marshal, encodes, a).decodeErrors + 1 + |b|
  {
    var s := LegacyServed(exec, marshal, encodes, a);
    var a' := a + [StreamError];
    assert a'[..|a|] == a && a'[|a'| - 1] == StreamError;
    assert LegacyServed(exec, marshal, encodes, a') == LegacyStep(exec, marshal, encodes, s, StreamError);
    assert LegacyServed(exec, marshal, encodes, a').readFailed;
    LegacyReadFailureIsFinal(exec, marshal, encodes, a + [StreamError], b);
  }

  /** The number of inputs that decoded before any stream error. */
  function DecodedCount(inputs: seq<Decoding>): nat {
    if inputs == [] then 0
    else
      var before := inputs[..|inputs| - 1];
      DecodedCount(before) + (if StreamError !in before && inputs[|inputs| - 1].Decoded? then 1 else 0)
  }

  /** When every write succeeds, the older loop writes one reply per decoded request. */
  lemma {:induction false} LegacyOneReplyPerDecoded(exec: Call -> Result<Value>, marshal: Value -> Result<string>,
                                                    encodes: Response -> bool, inputs: seq<Decoding>)
    requires forall r :: encodes(r)
    ensures |LegacyWritten(exec, marshal, encodes, inputs)| == DecodedCount(inputs)
    ensures LegacyServed(exec, marshal, encodes, inputs).readFailed <==> StreamError in inputs
    ensures !LegacyServed(exec, marshal, encodes, inputs).writeFailed
    decreases |inputs|
  {
    if inputs != [] {
      assert inputs == inputs[..|inputs| - 1] + [inputs[|inputs| - 1]];
      LegacyOneReplyPerDecoded(exec, marshal, encodes, inputs[..|inputs| - 1]);
    }
  }

  /**
   * Unlike section 4.1 of JSON-RPC 2.0 asks, the older loop writes a reply
   * to `notifications/initialized`, while the MCP loop writes nothing.
   */
  lemma NotificationAnswered(exec: Call -> Result<Value>, marshal: Value -> Result<string>,
                             encodes: Response -> bool, a: seq<Decoding>, req: Request)
    requires req.methodName == NotificationInitialized
    ensures var resp := ErrorResponse(MethodNotFound, "Method not found", req.id);
            LegacyLive(exec, marshal, encodes, a) && encodes(resp) ==>
              LegacyWritten(exec, marshal, encodes, a + [Decoded(req)])
              == LegacyWritten(exec, marshal, encodes, a) + [resp]
  {
    assert (a + [Decoded(req)])[..|a|] == a;
  }

  /**
   * The older loop as evidently intended: it returns at the first stream
   * error, the end of input included, and writes the same replies.
   */
  method LegacyServeUntilClosed(exec: Call -> Result<Value>, marshal: Value -> Result<string>,
                                encodes: Response -> bool, inputs: seq<Decoding>)
    returns (written: seq<Response>, read: nat)
    ensures read <= |inputs|
    ensures StreamError !in inputs ==> read == |inputs|
    ensures StreamError in inputs ==>
              0 < read && inputs[read - 1] == StreamError && StreamError !in inputs[..read - 1]
    ensures written == LegacyWritten(exec, marshal, encodes, inputs)
  {
    written, read := [], 0;
    var decodeErrors, writeFailed := 0, false;
    while read < |inputs|
      invariant 0 <= read <= |inputs|
      invariant StreamError !in inputs[..read]
      invariant Session(written, decodeErrors, false, writeFailed)
                == LegacyServed(exec, marshal, encodes, inputs[..read])
    {
      assert inputs[..read + 1] == inputs[..read] + [inputs[read]];
      assert inputs[..read + 1][..read] == inputs[..read];
      var next := inputs[read];
      read := read + 1;
      match next {
        case TypeMismatch =>
          decodeErrors := decodeErrors + 1;
        case StreamError =>
          assert inputs == inputs[..read] + inputs[read..];
          LegacyReadFailureIsFinal(exec, marshal, encodes, inputs[..read], inputs[read..]);
          return;
        case Decoded(req) =>
          var resp := LegacyHandleRequest(exec, marshal, req);
          if !writeFailed {
            if encodes(resp) {
              written := written + [resp];
            } else {
              writeFailed := true;
            }
          }
      }
    }
    assert inputs[..read] == inputs;
  }
}
