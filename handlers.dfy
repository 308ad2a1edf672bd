/**
 * The MCP package's request handling: `HandleCallTool`, which turns a tool
 * name and a loosely typed argument map into one exchange call, and
 * `HandleRequest`, which routes a JSON-RPC request by its method.
 *
 * The exchange client is not modelled: a dispatched call is the `Call`
 * value naming the REST operation and its coerced arguments, and what the
 * exchange answers is the parameter `exec`. `json.MarshalIndent` is the
 * parameter `marshal`, which either yields the text or the error text.
 */
module Handlers {
  import opened Wrappers
  import opened Json
  import opened Protocol
  import opened Tools

  /** One REST operation of the exchange client, with its arguments. */
  datatype Call =
    | Ticker(pair: string)
    | Trades(pair: string)
    | OrderBooks(pair: string)
    | ExchangeStatus(pair: string)
    | OrdersRate(pair: string, orderType: string, price: real, amount: real)
    | Balance
    | Accounts
    | Transactions
    | OpenOrders
    | CreateOrder(pair: string, orderType: string, rate: real, amount: real)
    | CancelOrder(orderId: int)
    | GetOrder(orderId: int)

  /** The error `HandleCallTool` returns for a name it does not know. */
  function UnknownTool(name: string): string {
    "unknown tool: " + name
  }

  /** The trading pair argument, "btc_jpy" unless a string is given. */
  function PairArg(args: Args): string {
    StringOr(args, "pair", DefaultPair)
  }

  /** The order id argument: a number truncated toward zero, otherwise 0. */
  function OrderIdArg(args: Args): (id: int)
    ensures "order_id" in args && args["order_id"].Number? ==> id == TruncateToInt(args["order_id"].n)
    ensures !("order_id" in args && args["order_id"].Number?) ==> id == 0
  {
    if "order_id" in args && args["order_id"].Number? then TruncateToInt(args["order_id"].n) else 0
  }

  /** The switch of `HandleCallTool`: which call a tool name selects. */
  function Dispatch(name: string, args: Args): (r: Result<Call>)
  {
    match name
    case "get_ticker" => Ok(Ticker(PairArg(args)))
    case "get_trades" => Ok(Trades(PairArg(args)))
    case "get_order_book" => Ok(OrderBooks(PairArg(args)))
    case "get_exchange_status" => Ok(ExchangeStatus(PairArg(args)))
    case "calculate_order_rate" =>
      Ok(OrdersRate(PairArg(args), StringOr(args, "order_type", ""),
                    NumberOr(args, "price", 0.0), NumberOr(args, "amount", 0.0)))
    case "get_balance" => Ok(Balance)
    case "get_account_info" => Ok(Accounts)
    case "get_transaction_history" => Ok(Transactions)
    case "get_open_orders" => Ok(OpenOrders)
    case "create_order" =>
      Ok(CreateOrder(PairArg(args), StringOr(args, "order_type", ""),
                     NumberOr(args, "rate", 0.0), NumberOr(args, "amount", 0.0)))
    case "cancel_order" => Ok(CancelOrder(OrderIdArg(args)))
    case "get_order_details" => Ok(GetOrder(OrderIdArg(args)))
    case _ => Err(UnknownTool(name))
  }

  /**
   * `HandleCallTool`: the selected call's outcome as the exchange reports
   * it, or the unknown-tool error without any exchange call.
   */
  function HandleCallTool(exec: Call -> Result<Value>, name: string, args: Args): (r: Result<Value>)
    ensures name !in CatalogNames ==> r == Err(UnknownTool(name))
    ensures name in CatalogNames ==> exists c :: r == exec(c)
    ensures Dispatch(name, args).Ok? ==> r == exec(Dispatch(name, args).value)
  {
    match Dispatch(name, args)
    case Ok(c) => exec(c)
    case Err(e) => Err(e)
  }

  /** The methods `HandleRequest` answers. */
  const KnownMethods: set<string> := {NotificationInitialized, "initialize", "tools/list", "tools/call"}

  /** The `tools/call` branch of `HandleRequest`. */
  function CallToolResponse(exec: Call -> Result<Value>, marshal: Value -> Result<string>,
                            params: Args, id: Value): (r: Response)
    ensures WellFormedReply(r) && r.id == id
    ensures r.error.Some? ==> r.error.value.code == InvalidParams || r.error.value.code == InternalError
  {
    if !("name" in params && params["name"].Str?) then
      ErrorResponse(InvalidParams, "Missing tool name", id)
    else
      var toolName := params["name"].s;
      match HandleCallTool(exec, toolName, ArgumentsOf(params))
      case Err(e) => ErrorResponse(InternalError, e, id)
      case Ok(result) =>
        match marshal(result)
        case Err(e) => ErrorResponse(InternalError, "Failed to marshal result: " + e, id)
        case Ok(text) => ResultResponse(TextContent(SuccessText(toolName, text)), id)
  }

  /**
   * `HandleRequest`. The notification gets the empty marker response (the
   * caller sends nothing for it); every other method gets a well-formed
   * reply echoing the request's id, and -32601 is the reply to exactly the
   * unknown methods.
   */
  function HandleRequest(exec: Call -> Result<Value>, marshal: Value -> Result<string>,
                         req: Request): (r: Response)
    ensures r.jsonrpc == "" <==> req.methodName == NotificationInitialized
    ensures req.methodName == NotificationInitialized ==> r == Response("", None, None, Null)
    ensures req.methodName != NotificationInitialized ==> WellFormedReply(r) && r.id == req.id
    ensures req.methodName !in KnownMethods ==>
              r.error == Some(RpcError(MethodNotFound, "Method not found"))
    ensures r.error.Some? && r.error.value.code == MethodNotFound ==> req.methodName !in KnownMethods
  {
    match req.methodName
    case "notifications/initialized" => Response("", None, None, Null)
    case "initialize" =>
      ResultResponse(InitializeResult(ProtocolVersion, "coincheck-mcp", "1.0.0"), req.id)
    case "tools/list" => ResultResponse(ToolList(GetToolDefinitions()), req.id)
    case "tools/call" => CallToolResponse(exec, marshal, req.params, req.id)
    case _ => ErrorResponse(MethodNotFound, "Method not found", req.id)
  }

  // ---------------------------------------------------------------------
  // The dispatcher's coercion rules

  /** Whether a decoded value passes the type assertion for a schema type. */
  predicate HasType(v: Value, typ: PropType) {
    match typ
    case StringType => v.Str?
    case NumberType => v.Number?
  }

  /** The value the dispatcher uses when a property is absent. */
  function DefaultValue(p: PropSchema): Value {
    match p.default
    case Some(d) => Str(d)
    case None => if p.typ == StringType then Str("") else Number(0.0)
  }

  /** Dispatch accepts exactly the catalog's names; others get the unknown-tool error. */
  lemma DispatchAcceptsCatalogNames(name: string, args: Args)
    ensures Dispatch(name, args).Ok? <==> name in CatalogNames
    ensures Dispatch(name, args).Err? ==> Dispatch(name, args) == Err("unknown tool: " + name)
  {
  }

  /** Omitting `pair` is the same as passing "btc_jpy", for every tool name. */
  lemma PairDefaultsToBtcJpy(name: string, args: Args)
    ensures Dispatch(name, args - {"pair"}) == Dispatch(name, args["pair" := Str("btc_jpy")])
  {
  }

  /** Omitting `order_type` is the same as passing "", for every tool name. */
  lemma OrderTypeDefaultsToEmpty(name: string, args: Args)
    ensures Dispatch(name, args - {"order_type"}) == Dispatch(name, args["order_type" := Str("")])
  {
  }

  /** Omitting a numeric argument is the same as passing 0, for every tool name. */
  lemma NumbersDefaultToZero(name: string, k: string, args: Args)
    requires k in {"price", "rate", "amount", "order_id"}
    ensures Dispatch(name, args - {k}) == Dispatch(name, args[k := Number(0.0)])
  {
  }

  /** A non-string `pair` or `order_type` is ignored, for every tool name. */
  lemma NonStringIsAbsent(name: string, k: string, v: Value, args: Args)
    requires k in {"pair", "order_type"} && !v.Str?
    ensures Dispatch(name, args[k := v]) == Dispatch(name, args - {k})
  {
  }

  /** A non-number `price`, `rate`, `amount` or `order_id` is ignored, for every tool name. */
  lemma NonNumberIsAbsent(name: string, k: string, v: Value, args: Args)
    requires k in {"price", "rate", "amount", "order_id"} && !v.Number?
    ensures Dispatch(name, args[k := v]) == Dispatch(name, args - {k})
  {
  }

  /** A declared argument of the wrong type is treated as if it were absent. */
  lemma WrongTypeIsAbsent(t: ToolDef, k: string, v: Value, args: Args)
    requires t in Catalog && k in t.properties
    requires !HasType(v, t.properties[k].typ)
    ensures Dispatch(t.name, args[k := v]) == Dispatch(t.name, args - {k})
  {
    PropertyShapes(t, k);
    if k == "pair" || k == "order_type" {
      NonStringIsAbsent(t.name, k, v, args);
    } else {
      NonNumberIsAbsent(t.name, k, v, args);
    }
  }

  /**
   * An absent argument takes its schema default, or the zero value of its
   * type when the schema marks it required.
   */
  lemma AbsentIsDefault(t: ToolDef, k: string, args: Args)
    requires t in Catalog && k in t.properties
    ensures Dispatch(t.name, args - {k}) == Dispatch(t.name, args[k := DefaultValue(t.properties[k])])
  {
    PropertyShapes(t, k);
    if k == "pair" {
      PairDefaultsToBtcJpy(t.name, args);
    } else if k == "order_type" {
      OrderTypeDefaultsToEmpty(t.name, args);
    } else {
      NumbersDefaultToZero(t.name, k, args);
    }
  }

  /**
   * The `required` list of a tool names exactly the arguments the
   * dispatcher fills with a zero value ("" or 0) when they are absent.
   */
  lemma RequiredAreZeroDefaulted(t: ToolDef, k: string, args: Args)
    requires t in Catalog && k in t.properties
    ensures k in t.required <==> DefaultValue(t.properties[k]) in {Str(""), Number(0.0)}
    ensures Dispatch(t.name, args - {k}) == Dispatch(t.name, args[k := DefaultValue(t.properties[k])])
  {
    CatalogFollowsSchemaRules();
    var i :| 0 <= i < |Catalog| && Catalog[i] == t;
    assert FollowsSchemaRules(Catalog[i]);
    AbsentIsDefault(t, k, args);
  }

  /** The four market-data tools read only `pair`. */
  lemma PairToolsReadOnlyPair(name: string, args: Args)
    requires name in {"get_ticker", "get_trades", "get_order_book", "get_exchange_status"}
    ensures Dispatch(name, args) == Dispatch(name, Restrict(args, PairOnly.Keys))
  {
    assert PairArg(Restrict(args, PairOnly.Keys)) == PairArg(args);
  }

  /** The two order tools read only the four properties they declare. */
  lemma OrderToolsReadOnlyDeclared(name: string, props: map<string, PropSchema>, args: Args)
    requires (name == "calculate_order_rate" && props == RateProperties) ||
             (name == "create_order" && props == OrderProperties)
    ensures Dispatch(name, args) == Dispatch(name, Restrict(args, props.Keys))
  {
    var first := if name == "calculate_order_rate" then "price" else "rate";
    var r := Restrict(args, props.Keys);
    assert props.Keys == {"pair", "order_type", first, "amount"};
    assert PairArg(r) == PairArg(args);
    assert StringOr(r, "order_type", "") == StringOr(args, "order_type", "");
    assert NumberOr(r, first, 0.0) == NumberOr(args, first, 0.0);
    assert NumberOr(r, "amount", 0.0) == NumberOr(args, "amount", 0.0);
  }

  /** The two order-id tools read only `order_id`. */
  lemma OrderIdToolsReadOnlyOrderId(name: string, args: Args)
    requires name in {"cancel_order", "get_order_details"}
    ensures Dispatch(name, args) == Dispatch(name, Restrict(args, OrderIdOnly.Keys))
  {
    assert OrderIdArg(Restrict(args, OrderIdOnly.Keys)) == OrderIdArg(args);
  }

  /** Only the properties a tool's schema declares influence its call. */
  lemma OnlyDeclaredArgumentsRead(t: ToolDef, args: Args)
    requires t in Catalog
    ensures Dispatch(t.name, args) == Dispatch(t.name, Restrict(args, t.properties.Keys))
  {
    ToolShapes(t);
    if t.name in {"get_ticker", "get_trades", "get_order_book", "get_exchange_status"} {
      PairToolsReadOnlyPair(t.name, args);
    } else if t.name == "calculate_order_rate" || t.name == "create_order" {
      OrderToolsReadOnlyDeclared(t.name, t.properties, args);
    } else if t.name in {"cancel_order", "get_order_details"} {
      OrderIdToolsReadOnlyOrderId(t.name, args);
    }
  }

  /** A sample well-typed value different from every default. */
  function SampleValue(typ: PropType): (v: Value)
    ensures HasType(v, typ)
  {
    if typ == StringType then Str("x") else Number(1.0)
  }

  /** A string argument changes the call of every tool that reads it. */
  lemma StringArgumentMatters(name: string, k: string)
    requires || (k == "pair" && name in {"get_ticker", "get_trades", "get_order_book", "get_exchange_status",
                                         "calculate_order_rate", "create_order"})
             || (k == "order_type" && name in {"calculate_order_rate", "create_order"})
    ensures Dispatch(name, map[k := Str("x")]) != Dispatch(name, map[])
  {
    var given := map[k := Str("x")];
    if k == "pair" {
      assert PairArg(given) == "x" != PairArg(map[]);
    } else {
      assert StringOr(given, k, "") == "x";
    }
  }

  /** A numeric argument changes the call of every tool that reads it. */
  lemma NumberArgumentMatters(name: string, k: string)
    requires || (k in {"price", "amount"} && name == "calculate_order_rate")
             || (k in {"rate", "amount"} && name == "create_order")
             || (k == "order_id" && name in {"cancel_order", "get_order_details"})
    ensures Dispatch(name, map[k := Number(1.0)]) != Dispatch(name, map[])
  {
    var given := map[k := Number(1.0)];
    if k == "order_id" {
      assert OrderIdArg(given) == 1;
    } else {
      assert NumberOr(given, k, 0.0) == 1.0;
    }
  }

  /** Every property a tool's schema declares does influence its call. */
  lemma DeclaredArgumentsMatter(t: ToolDef, k: string)
    requires t in Catalog && k in t.properties
    ensures Dispatch(t.name, map[k := SampleValue(t.properties[k].typ)]) != Dispatch(t.name, map[])
  {
    PropertyShapes(t, k);
    PropertyOwners(t, k);
    if k == "pair" || k == "order_type" {
      StringArgumentMatters(t.name, k);
    } else {
      NumberArgumentMatters(t.name, k);
    }
  }

  /** `order_id` 42 cancels order 42, but the string "42" cancels order 0. */
  lemma OrderIdCoercion()
    ensures Dispatch("cancel_order", map["order_id" := Number(42.0)]) == Ok(CancelOrder(42))
    ensures Dispatch("cancel_order", map["order_id" := Str("42")]) == Ok(CancelOrder(0))
    ensures Dispatch("get_order_details", map["order_id" := Number(-7.5)]) == Ok(GetOrder(-7))
  {
  }

  /** Numeric `create_order` arguments are forwarded unchanged with the default pair. */
  lemma CreateOrderForwardsArguments(orderType: string, rate: real, amount: real)
    ensures Dispatch("create_order",
              map["order_type" := Str(orderType), "rate" := Number(rate), "amount" := Number(amount)])
            == Ok(CreateOrder("btc_jpy", orderType, rate, amount))
  {
  }

  // ---------------------------------------------------------------------
  // HandleRequest's branches

  /** A `tools/call` without a string `name` is -32602, whatever the exchange or marshaller would do. */
  lemma MissingToolName(exec: Call -> Result<Value>, marshal: Value -> Result<string>, req: Request,
                        exec': Call -> Result<Value>, marshal': Value -> Result<string>)
    requires req.methodName == "tools/call"
    requires !("name" in req.params && req.params["name"].Str?)
    ensures HandleRequest(exec, marshal, req) == ErrorResponse(InvalidParams, "Missing tool name", req.id)
    ensures HandleRequest(exec, marshal, req) == HandleRequest(exec', marshal', req)
  {
  }

  /** An unknown tool name is reported as -32603 with the dispatcher's message. */
  lemma UnknownToolIsInternalError(exec: Call -> Result<Value>, marshal: Value -> Result<string>,
                                   req: Request, name: string)
    requires req.methodName == "tools/call"
    requires "name" in req.params && req.params["name"] == Str(name)
    requires name !in CatalogNames
    ensures HandleRequest(exec, marshal, req) == ErrorResponse(InternalError, "unknown tool: " + name, req.id)
  {
  }

  /** A failing exchange call is reported as -32603 carrying the error text verbatim. */
  lemma ToolFailureIsInternalError(exec: Call -> Result<Value>, marshal: Value -> Result<string>,
                                   req: Request, name: string, c: Call, message: string)
    requires req.methodName == "tools/call"
    requires "name" in req.params && req.params["name"] == Str(name)
    requires Dispatch(name, ArgumentsOf(req.params)) == Ok(c) && exec(c) == Err(message)
    ensures HandleRequest(exec, marshal, req) == ErrorResponse(InternalError, message, req.id)
  {
  }

  /** A result that cannot be marshalled is reported as -32603. */
  lemma MarshalFailureIsInternalError(exec: Call -> Result<Value>, marshal: Value -> Result<string>,
                                      req: Request, name: string, c: Call, v: Value, message: string)
    requires req.methodName == "tools/call"
    requires "name" in req.params && req.params["name"] == Str(name)
    requires Dispatch(name, ArgumentsOf(req.params)) == Ok(c) && exec(c) == Ok(v)
    requires marshal(v) == Err(message)
    ensures HandleRequest(exec, marshal, req)
            == ErrorResponse(InternalError, "Failed to marshal result: " + message, req.id)
  {
  }

  /** A successful call is one text block announcing the tool, then the marshalled result. */
  lemma SuccessIsTextContent(exec: Call -> Result<Value>, marshal: Value -> Result<string>,
                             req: Request, name: string, c: Call, v: Value, text: string)
    requires req.methodName == "tools/call"
    requires "name" in req.params && req.params["name"] == Str(name)
    requires Dispatch(name, ArgumentsOf(req.params)) == Ok(c) && exec(c) == Ok(v)
    requires marshal(v) == Ok(text)
    ensures HandleRequest(exec, marshal, req)
            == ResultResponse(TextContent("Tool " + name + " executed successfully. Result:\n" + text), req.id)
  {
  }

  /** Missing or non-object `arguments` behave exactly like an empty argument map. */
  lemma NonObjectArgumentsAreEmpty(exec: Call -> Result<Value>, marshal: Value -> Result<string>, req: Request)
    requires !("arguments" in req.params && req.params["arguments"].Object?)
    ensures HandleRequest(exec, marshal, req)
            == HandleRequest(exec, marshal, req.(params := req.params["arguments" := Object(map[])]))
  {
  }

  /** `initialize` answers the protocol revision and echoes the id; `tools/list` answers the catalog. */
  lemma InitializeAndListTools(exec: Call -> Result<Value>, marshal: Value -> Result<string>, req: Request)
    ensures req.methodName == "initialize" ==>
              HandleRequest(exec, marshal, req).result.Some? &&
              HandleRequest(exec, marshal, req).result.value.protocolVersion == "2024-11-05" &&
              HandleRequest(exec, marshal, req).id == req.id
    ensures req.methodName == "tools/list" ==>
              HandleRequest(exec, marshal, req) == ResultResponse(ToolList(Catalog), req.id)
  {
  }
}
