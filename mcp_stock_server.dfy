/** The stock-price tool server of OpenAI/MCPServer.py (class `MCPStockServer`):
    the fixed tool list, dispatch of a tool call by name, the `call_tool` handler
    that wraps a result as one text content, and the price lookup with its
    fallbacks. The market data source (`yfinance`) is a parameter: for a symbol
    it gives the `info` dictionary and the closing prices of the last day, or the
    message of the exception that reading them raised. */
module McpStockServer {
  import opened Wrappers
  import opened Dicts
  import opened Json

  /** `mcp.types.Tool` */
  datatype Tool = Tool(name: string, description: string, inputSchema: Json)

  /** `mcp.types.TextContent` (its `type` field is `contentType` here). */
  datatype TextContent = TextContent(contentType: string, text: string)

  const StockToolName := "get_stock_price"
  const StockToolDescription :=
    "Získá aktuální cenu akcie podle burzovního symbolu (např. AAPL pro Apple, MSFT pro Microsoft, TSLA pro Tesla)"
  const SymbolDescription := "Burzovní symbol akcie (např. AAPL, MSFT, GOOGL)"
  const UnknownToolPrefix := "Neznámý nástroj: "
  const NoPricePrefix := "Nepodařilo se získat cenu pro symbol "
  const FetchErrorPrefix := "Chyba při získávání ceny: "

  // ---------------------------------------------------------------- the tool list

  /** The member `k` of a JSON object, `None` when absent or not an object. */
  function Member(j: Json, k: string): Json
  {
    if j.Object? then Get(j.fields, k) else Null
  }

  /** The names a JSON schema lists under `properties`. */
  function PropertyNames(schema: Json): seq<string>
  {
    var props := Member(schema, "properties");
    if props.Object? then Keys(props.fields) else []
  }

  /** The names a JSON schema lists under `required`. */
  function RequiredNames(schema: Json): seq<string>
  {
    var req := Member(schema, "required");
    if req.List? then seq(|req.items|, i requires 0 <= i < |req.items| => PyStr(req.items[i])) else []
  }

  /** The declared JSON type of property `p` of a schema. */
  function PropertyType(schema: Json, p: string): Json
  {
    Member(Member(Member(schema, "properties"), p), "type")
  }

  /** `self.tools_list`, as `get_tools` and `list_tools` return it: one tool, for
      the stock price, taking one required string argument `symbol`. */
  function GetTools(): (tools: seq<Tool>)
    ensures |tools| == 1
    ensures tools[0].name == StockToolName && tools[0].description == StockToolDescription
    ensures tools[0].inputSchema.Object? && Get(tools[0].inputSchema.fields, "type") == Str("object")
    ensures PropertyNames(tools[0].inputSchema) == ["symbol"]
    ensures RequiredNames(tools[0].inputSchema) == ["symbol"]
    ensures PropertyType(tools[0].inputSchema, "symbol") == Str("string")
  {
    var symbol := Object([("type", Str("string")), ("description", Str(SymbolDescription))]);
    var schema := Object([("type", Str("object")),
                          ("properties", Object([("symbol", symbol)])),
                          ("required", List([Str("symbol")]))]);
    LookupFirst(schema.fields, 1, "properties");
    LookupFirst(schema.fields, 2, "required");
    LookupFirst(schema.fields, 0, "type");
    LookupFirst(symbol.fields, 0, "type");
    assert Keys([("symbol", symbol)]) == ["symbol"];
    assert RequiredNames(schema) == ["symbol"];
    [Tool(StockToolName, StockToolDescription, schema)]
  }

  /** The names of the listed tools. */
  function ToolNames(tools: seq<Tool>): (names: seq<string>)
    ensures |names| == |tools| && forall i :: 0 <= i < |tools| ==> names[i] == tools[i].name
  {
    if tools == [] then [] else [tools[0].name] + ToolNames(tools[1..])
  }

  // ---------------------------------------------------------------- the price lookup

  /** What the market data source gives for one symbol: `stock.info`, and the
      `Close` column of `stock.history(period="1d")`, each as a value or as the
      message of the exception raised while getting it. */
  datatype Ticker = Ticker(info: Result<Dict<Json>, string>, closes: Result<seq<Json>, string>)

  /** `yf.Ticker(symbol)` */
  type Market = Json -> Ticker

  /** The success dictionary: symbol, price, currency (default "USD") and name
      (default the symbol), in that key order. */
  function PriceDict(symbol: Json, price: Json, info: Dict<Json>): (r: Json)
    ensures r.Object? && Get(r.fields, "price") == price && !HasKey(r.fields, "error")
  {
    var fields := [("symbol", symbol),
                   ("price", price),
                   ("currency", GetOr(info, "currency", Str("USD"))),
                   ("name", GetOr(info, "longName", symbol))];
    LookupFirst(fields, 1, "price");
    Object(fields)
  }

  /** `get_stock_price(symbol)` on the data the market gives for it. The price is
      `currentPrice or regularMarketPrice`; the last close of the day is looked at
      only when that is `None`; a price that is not truthy is reported as not
      found; any exception becomes an error dictionary. */
  function StockPrice(symbol: Json, t: Ticker): (r: Json)
    ensures r.Object?
    ensures t.info.Failure? ==> r == ErrorDict(FetchErrorPrefix + t.info.error)
    ensures t.info.Success? ==>
      var info := t.info.value;
      var first := Or(Get(info, "currentPrice"), Get(info, "regularMarketPrice"));
      && (Truthy(first) ==> r == PriceDict(symbol, first, info))
      && (!Truthy(first) && first != Null ==> r == ErrorDict(NoPricePrefix + PyStr(symbol)))
      && (first == Null && t.closes.Failure? ==> r == ErrorDict(FetchErrorPrefix + t.closes.error))
      && (first == Null && t.closes.Success? ==>
            var cs := t.closes.value;
            if cs != [] && Truthy(cs[|cs| - 1]) then r == PriceDict(symbol, cs[|cs| - 1], info)
            else r == ErrorDict(NoPricePrefix + PyStr(symbol)))
  {
    match t.info
    case Failure(e) => ErrorDict(FetchErrorPrefix + e)
    case Success(info) =>
      var first := Or(Get(info, "currentPrice"), Get(info, "regularMarketPrice"));
      var price :=
        if first != Null then Success(first)
        else match t.closes
          case Failure(e) => Failure(e)
          case Success(cs) => Success(if cs == [] then Null else cs[|cs| - 1]);
      match price
      case Failure(e) => ErrorDict(FetchErrorPrefix + e)
      case Success(p) => if Truthy(p) then PriceDict(symbol, p, info) else ErrorDict(NoPricePrefix + PyStr(symbol))
  }

  /** `MCPStockServer.get_stock_price` */
  function GetStockPrice(symbol: Json, market: Market): Json
  {
    StockPrice(symbol, market(symbol))
  }

  /** The result either reports a price, which is then truthy and one of the three
      candidates, or reports an error, and never both. */
  lemma StockPriceShape(symbol: Json, t: Ticker)
    ensures var r := StockPrice(symbol, t);
      && (HasKey(r.fields, "price") <==> !HasKey(r.fields, "error"))
      && (HasKey(r.fields, "price") ==>
            && t.info.Success?
            && var p := Get(r.fields, "price");
            && Truthy(p)
            && (p == Get(t.info.value, "currentPrice") || p == Get(t.info.value, "regularMarketPrice")
                || (t.closes.Success? && t.closes.value != [] && p == t.closes.value[|t.closes.value| - 1])))
  {
  }

  /** The closing prices are not consulted when `currentPrice or
      regularMarketPrice` is anything but `None`. */
  lemma HistoryOnlyWhenNoQuote(symbol: Json, info: Dict<Json>, c1: Result<seq<Json>, string>, c2: Result<seq<Json>, string>)
    requires Or(Get(info, "currentPrice"), Get(info, "regularMarketPrice")) != Null
    ensures StockPrice(symbol, Ticker(Success(info), c1)) == StockPrice(symbol, Ticker(Success(info), c2))
  {
  }

  // ---------------------------------------------------------------- dispatch

  /** `call_tool_method(name, arguments)`: the stock tool gets
      `arguments.get("symbol")`, so a missing key passes `None`; arguments that are
      not a dictionary have no `get` and raise; any other name raises
      `ValueError`. */
  function CallToolMethod(name: string, arguments: Json, market: Market): (r: Outcome)
    ensures r.Returned? <==> name == StockToolName && arguments.Object?
    ensures r.Returned? ==> r.value == GetStockPrice(Get(arguments.fields, "symbol"), market)
    ensures name != StockToolName ==> r == Threw(UnknownToolPrefix + name)
    ensures name == StockToolName && arguments.Object? && !HasKey(arguments.fields, "symbol") ==>
      r == Returned(GetStockPrice(Null, market))
  {
    if name == StockToolName then
      if arguments.Object? then Returned(GetStockPrice(Get(arguments.fields, "symbol"), market))
      else Threw("'" + TypeName(arguments) + "' object has no attribute 'get'")
    else Threw(UnknownToolPrefix + name)
  }

  /** The names dispatch accepts are exactly the names the tool list advertises. */
  lemma DispatchMatchesToolList(name: string, arguments: Dict<Json>, market: Market)
    ensures CallToolMethod(name, Object(arguments), market).Returned? <==> name in ToolNames(GetTools())
  {
    assert ToolNames(GetTools()) == [StockToolName];
  }

  /** The `call_tool` handler registered with the MCP server: the same dispatch,
      with the result wrapped as one text content holding its JSON encoding. */
  function CallTool(name: string, arguments: Dict<Json>, market: Market, dumps: Json -> string): (r: Result<seq<TextContent>, string>)
    ensures r.Success? ==> |r.value| == 1 && r.value[0].contentType == "text"
  {
    if name == StockToolName then
      Success([TextContent("text", dumps(GetStockPrice(Get(arguments, "symbol"), market)))])
    else Failure(UnknownToolPrefix + name)
  }

  /** The handler returns what `call_tool_method` returns, encoded, and raises the
      same error. */
  lemma CallToolWrapsCallToolMethod(name: string, arguments: Dict<Json>, market: Market, dumps: Json -> string)
    ensures match CallToolMethod(name, Object(arguments), market)
      case Returned(v) => CallTool(name, arguments, market, dumps) == Success([TextContent("text", dumps(v))])
      case Threw(e) => CallTool(name, arguments, market, dumps) == Failure(e)
  {
  }
}
