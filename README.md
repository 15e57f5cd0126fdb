# Training AI agents: a Dafny model of the agents' core

This project models the core of the Training-AI-agents repository and proves properties of the model. The repository holds small tool-calling AI agents in Python. The model covers:

- **The two chat agents** (`AIAgent` in OllamaAI/main.py and OpenAI/main.py). Each is a class holding a conversation history. `chat` appends the user message, then calls the chat backend at most `max_iterations` (15) times. A reply with tool calls is appended, followed by the tools' results, and the loop goes on. The OpenAI agent appends one tool message per call. The Ollama agent appends one per call of a tool it knows, and skips unknown tools. A tool that raises ends the turn like any other exception. A reply without tool calls is the answer. At the bound, a fixed Czech sentence is returned. Any exception gives "Chyba: " followed by its message. The loop is an imperative method, proved equal to a recursive specification (`Rounds`/`Respond`). Lemmas about that specification give the call bound, how each exit leaves the history, and how every tool call is answered.
- **The stock-price MCP server** (OpenAI/MCPServer.py): the fixed tool list, dispatch by tool name, the `call_tool` handler, and the price lookup with its fallbacks.
- **The SQL Server tool module** (MSAgent/mcp_mssql.py):
  - the ODBC connection string;
  - `execute_query`, which turns rows into dictionaries and any failure into one error row;
  - the statements that `select_from_table`, `get_tables` and `execute_stored_procedure` build, and the dictionaries they return;
  - the module globals: the connection `db` and the tool registry. These are the fields of a class `ToolModule`.
- **The supervisor's delegation tools** (MSAgent/supervisor_agent.py): how the answer is cut out of a sub-agent's standard output between the `AGENT_RESULT_START` and `AGENT_RESULT_END` markers, and the result dictionary of every outcome.

Files:

- `wrappers.dfy`: `Option`, `Result` and `Outcome` (a returned value or a raised exception's message).
- `strings.dfy`: Python string operations. These are `join`, `split`, `find`, `in`, clamped slicing, `strip`, `count` and `str(int)`.
- `dicts.dfy`: a Python dict, as an insertion-ordered list of pairs.
- `json.dfy`: JSON-like Python values, their truthiness and `str`.
- `mcp_stock_server.dfy`, `ollama_agent.dfy`, `openai_agent.dfy`, `mcp_mssql.dfy`, `supervisor.dfy`: one module per source file.

## Model

| member | source | states |
|---|---|---|
| OllamaAgent.AIAgent.constructor | OllamaAI/main.py:62-66 | the history starts empty, the model defaults to "llama3.2" and the bound is 15 |
| OllamaAgent.AIAgent.AddMessage | OllamaAI/main.py:68-70 | the history gains exactly one `{"role", "content"}` entry at its end |
| OllamaAgent.AIAgent.Chat | OllamaAI/main.py:72-119 | the returned text, the new history and the number of backend calls are those of the specification `ChatTurn` |
| OllamaAgent.AIAgent.RunToolCalls | OllamaAI/main.py:96-109 | the tool loop appends exactly the messages of `RunTools` and reports its exception, if any |
| OllamaAgent.AIAgent.ResetConversation | OllamaAI/main.py:121-123 | the history is empty afterwards |
| OllamaAgent.ChatTurn | OllamaAI/main.py:72-119 | `chat` on a history: the user message appended, then at most `max_iterations` rounds (none for a negative bound) |
| OllamaAgent.Rounds | OllamaAI/main.py:77-79 | the `while` loop: with no round left, the bound sentence; otherwise one backend call on the current history, recorded as a request, and `Respond` to its reply |
| OllamaAgent.Respond | OllamaAI/main.py:80-116 | the loop body after the backend call: an exception ends the turn; tool calls append the echo and the results and go on; a plain reply appends the answer and ends the turn |
| OllamaAgent.RunTools | OllamaAI/main.py:97-109 | the batch appends at most one message per call, each a `tool` message |
| OllamaAgent.RunToolsStopsAtFault | OllamaAI/main.py:97-103 | once a tool raises, the later calls of the batch are not run |
| OllamaAgent.RunToolsAnswersKnownCalls | OllamaAI/main.py:97-109 | the batch finishes exactly when every call of a known tool returns; it then appends one tool message per known call, in request order, each holding the encoded result |
| OllamaAgent.RunToolsFaultAt | OllamaAI/main.py:97-109 | a failed batch names the call that raised; the results of the calls before it are kept, and nothing after it |
| OllamaAgent.RunToolsIgnoresUnknown | OllamaAI/main.py:102 | calls of tools missing from `available_functions` make no difference to the batch |
| OllamaAgent.RoundsExtend | OllamaAI/main.py:74-114 | the history only grows, and every request sent to the backend extends the history the loop started with |
| OllamaAgent.ChatKeepsUserMessage | OllamaAI/main.py:74 | the user message is appended before the first backend call, and stays however the turn ends |
| OllamaAgent.RoundsBounded | OllamaAI/main.py:77-117 | at most `n` backend calls, at least one when a round is allowed, and exactly `n` when the bound ended the turn |
| OllamaAgent.ChatBounded | OllamaAI/main.py:66-79 | a `chat` call makes at most `max_iterations` backend calls (15 by default), and exactly that many when it returns the bound sentence |
| OllamaAgent.RoundsExits | OllamaAI/main.py:92-119 | an answer is the content of a reply without tool calls, appended as one assistant entry. An exception keeps the history of the moment it was raised. Besides the answer, only echoed tool requests and tool results are appended |
| OllamaAgent.UnknownToolsContinue | OllamaAI/main.py:102-110 | a reply whose calls are all unknown appends only the echoed request, and the loop asks again |
| OllamaAgent.KnownToolRoundContinues | OllamaAI/main.py:92-110 | a tool round whose known tools all return appends the echoed request and one tool message per known call, in order, each holding the encoded result, and the loop asks again |
| OllamaAgent.AlwaysToolsExhaust | OllamaAI/main.py:78-117 | a backend that always asks for tools that return uses all `n` rounds and ends with the bound sentence |
| OllamaAgent.OneToolRoundThenAnswer | OllamaAI/main.py:82-116 | one tool round and then a plain reply leave user message, echoed request, tool result and answer in the history, after two backend calls |
| OpenAIAgent.AIAgent.constructor | OpenAI/main.py:48-52 | the history starts empty, the model defaults to "gpt-4" and the bound is 15 |
| OpenAIAgent.AIAgent.AddMessage | OpenAI/main.py:54-56 | the history gains exactly one entry at its end |
| OpenAIAgent.AIAgent.Chat | OpenAI/main.py:58-107 | the returned text, the new history and the number of backend calls are those of the specification `ChatTurn` |
| OpenAIAgent.AIAgent.RunToolCalls | OpenAI/main.py:84-97 | the tool loop appends exactly the messages of `RunTools` and reports its exception, if any |
| OpenAIAgent.AIAgent.ResetConversation | OpenAI/main.py:109-111 | the history is empty afterwards |
| OpenAIAgent.ChatTurn | OpenAI/main.py:58-107 | `chat` on a history: the user message appended, then at most `max_iterations` rounds (none for a negative bound) |
| OpenAIAgent.Rounds | OpenAI/main.py:63-65 | the `while` loop: with no round left, the bound sentence; otherwise one backend call on the current history, recorded as a request, and `Respond` to its reply |
| OpenAIAgent.Respond | OpenAI/main.py:66-104 | the loop body after the backend call: an exception ends the turn; tool calls append the echo and the answers and go on; a plain reply appends the answer and ends the turn |
| OpenAIAgent.Invoke | OpenAI/main.py:86-89 | arguments that `json.loads` rejects raise its error; otherwise the call goes to `call_tool_sync` with the decoded arguments |
| OpenAIAgent.RunTools | OpenAI/main.py:84-97 | the appended tool messages answer the first calls, one each, in order, with the call's id and name; a finished batch answers every call |
| OpenAIAgent.RunToolsStopsAtFault | OpenAI/main.py:84-97 | once a call raises, the later calls are not run |
| OpenAIAgent.RunToolsAnswersEveryCall | OpenAI/main.py:84-97 | the batch finishes exactly when every call decodes and returns; each message holds the encoded result of its own call |
| OpenAIAgent.RunToolsFaultAt | OpenAI/main.py:84-97 | a failed batch names the call that raised; the answers to the calls before it are kept |
| OpenAIAgent.RoundsExtend | OpenAI/main.py:60-102 | the history only grows, and every request extends the history the loop started with |
| OpenAIAgent.ChatKeepsUserMessage | OpenAI/main.py:60 | the user message is appended first, and stays however the turn ends |
| OpenAIAgent.RoundsBounded | OpenAI/main.py:63-105 | at most `n` backend calls, at least one when a round is allowed, and exactly `n` when the bound ended the turn |
| OpenAIAgent.ChatBounded | OpenAI/main.py:52-65 | a `chat` call makes at most `max_iterations` backend calls (15 by default) |
| OpenAIAgent.RoundsExits | OpenAI/main.py:79-107 | an answer is the content of a reply without tool calls, appended once; an exception keeps the history of the moment it was raised; only tool-round messages are appended otherwise |
| OpenAIAgent.ToolRoundAnswersEveryCall | OpenAI/main.py:79-98 | a tool round that goes through appends the echoed request and one answer per call, in order, and the loop continues |
| OpenAIAgent.FaultingCallAborts | OpenAI/main.py:84-107 | a call that raises ends the turn with its message, after the answers to the calls before it |
| OpenAIAgent.UndecodableArgumentsAbort | OpenAI/main.py:86-107 | arguments that do not decode end the turn with "Chyba: " and the decoder's message |
| OpenAIAgent.AlwaysToolsExhaust | OpenAI/main.py:64-105 | a backend that always asks for tools that return uses all `n` rounds and ends with the bound sentence |
| OpenAIAgent.UnknownToolAbortsTurn | OpenAI/main.py:84-107 | with the stock server behind `call_tool_sync`, an unknown tool name ends the turn with "Chyba: Neznámý nástroj: " and the name |
| Json.Or | OpenAI/MCPServer.py:70 | `a or b` is the first operand when it is truthy and the second otherwise, and is truthy exactly when one of them is |
| McpStockServer.GetTools | OpenAI/MCPServer.py:19-34 | one tool, `get_stock_price`, whose object schema has the one string property `symbol`, which is required |
| McpStockServer.PriceDict | OpenAI/MCPServer.py:79-84 | the success dictionary carries the price and no error |
| McpStockServer.StockPrice | OpenAI/MCPServer.py:65-88 | the price is `currentPrice or regularMarketPrice`; the last close is used only when that is `None`; a non-truthy price reports "not found"; every exception becomes an error dictionary with its message |
| McpStockServer.StockPriceShape | OpenAI/MCPServer.py:70-86 | a result has a price or an error, never both; a reported price is truthy and one of the three candidates |
| McpStockServer.HistoryOnlyWhenNoQuote | OpenAI/MCPServer.py:70-76 | the day's history is not consulted when a quote is present, even a falsy one |
| McpStockServer.GetStockPrice | OpenAI/MCPServer.py:65-88 | `get_stock_price`: `StockPrice` on the ticker the market data gives for the symbol, whose `info` and history may each be an exception |
| McpStockServer.CallToolMethod | OpenAI/MCPServer.py:58-63 | the stock tool gets `arguments.get("symbol")`, and `None` when it is missing; any other name raises "Neznámý nástroj: " and the name |
| McpStockServer.DispatchMatchesToolList | OpenAI/MCPServer.py:54-63 | dispatch accepts exactly the names the tool list advertises |
| McpStockServer.CallTool | OpenAI/MCPServer.py:45-52 | the handler returns one text content |
| McpStockServer.CallToolWrapsCallToolMethod | OpenAI/MCPServer.py:45-63 | the handler returns the JSON encoding of what `call_tool_method` returns, and raises the same error |
| McpMssql.ConnectionParts | MSAgent/mcp_mssql.py:46-62 | driver in braces, server and port, database; then `Trusted_Connection=yes` or `UID=` and `PWD=`; then `Encrypt=`; and `TrustServerCertificate=yes` last when trust is on and encryption is not "no"; `None` settings print as "None" |
| McpMssql.ConnectionString | MSAgent/mcp_mssql.py:44-64 | the connection string is the parts joined with ";" |
| McpMssql.GetConnectionString | MSAgent/mcp_mssql.py:44-64 | appending the parts one by one and joining them with ";" gives the connection string |
| McpMssql.AuthenticationParts | MSAgent/mcp_mssql.py:52-62 | Windows authentication is requested exactly when configured, certificate trust exactly when trust is on and encryption is not "no", and the encryption setting always |
| McpMssql.ConnectionStringSplits | MSAgent/mcp_mssql.py:64 | when no setting contains ";", splitting the string at ";" gives back exactly the parts, in order |
| McpMssql.BoundValues | MSAgent/mcp_mssql.py:73-76 | values are bound only when there are some |
| McpMssql.RunQuery | MSAgent/mcp_mssql.py:66-99 | `execute_query` on a connection: the driver gets the connection string, the statement and the bound values, and its outcome gives the results |
| McpMssql.QueryResults | MSAgent/mcp_mssql.py:85-99 | the results of an outcome: the row dictionaries, or the one error row `{"error": str(e)}` |
| McpMssql.RowDicts | MSAgent/mcp_mssql.py:85-94 | one dictionary per fetched row, in order, each built from the zipped columns and values |
| McpMssql.ExecuteQuery | MSAgent/mcp_mssql.py:66-99 | the nested loops build exactly the specified rows, or the single error row of an exception |
| McpMssql.BuildRows | MSAgent/mcp_mssql.py:85-94 | the loop over the fetched rows appends exactly one row dictionary per row, in order |
| McpMssql.BuildRowDict | MSAgent/mcp_mssql.py:87-93 | the loop over `zip(columns, row)` assigns the pairs in order, giving the dictionary built from the zipped pairs |
| McpMssql.RowDictColumns | MSAgent/mcp_mssql.py:87-94 | a row maps each column to the value of its last occurrence; with distinct column names, the row lists its columns in order |
| McpMssql.ErrorCheck | MSAgent/mcp_mssql.py:153 | the check `results and "error" in results[0]` catches every exception, with its message; it also fires for a first row with a column named "error" |
| McpMssql.ReportJsonLayout | MSAgent/mcp_mssql.py:154-165 | `count` is the length of `results`, `query` is the statement, and `error` is there exactly for an error |
| McpMssql.ReportFor | MSAgent/mcp_mssql.py:152-165 | an error row gives no rows and that row's error; otherwise every row and no error |
| McpMssql.ReportJson | MSAgent/mcp_mssql.py:154-173 | the dictionary `select_from_table` and `execute_stored_procedure` return, in the source's key order: results, count, the error if any, the procedure if any, the statement |
| McpMssql.BuildSelectQuery | MSAgent/mcp_mssql.py:136-147 | the statement built clause by clause is the specified `SelectQuery` |
| McpMssql.SelectQuery | MSAgent/mcp_mssql.py:136-147 | the select statement: "SELECT ", then "TOP n " for a truthy limit, "* FROM table", then the WHERE and ORDER BY clauses when given |
| McpMssql.SelectQueryStart | MSAgent/mcp_mssql.py:136-141 | the statement starts with "SELECT TOP " exactly when a nonzero limit is given; it then reads "SELECT TOP n * FROM table", and otherwise "SELECT * FROM table" |
| McpMssql.SelectQueryEnd | MSAgent/mcp_mssql.py:141-147 | the statement ends with the ORDER BY clause when one is given; otherwise with the WHERE clause when one is given; otherwise with the table |
| McpMssql.SelectResult | MSAgent/mcp_mssql.py:134-173 | the report carries the built statement. Before `get_all_mcp_tools` it reports the `NoneType` attribute error and no rows |
| McpMssql.SelectReportsRows | MSAgent/mcp_mssql.py:150-165 | a result set without an "error" column reports every row as its column dictionary, and no error |
| McpMssql.SelectReportsDriverError | MSAgent/mcp_mssql.py:150-159 | a driver exception is reported with its message and no rows |
| McpMssql.SchemaRows | MSAgent/mcp_mssql.py:213 | the comprehension keeps rows with a `TABLE_SCHEMA`, and all rows when all have one |
| McpMssql.TableNames | MSAgent/mcp_mssql.py:213 | the names are built exactly when every kept row has a `TABLE_NAME`; otherwise the result is `KeyError('TABLE_NAME')` |
| McpMssql.TableNamesOfKeptRows | MSAgent/mcp_mssql.py:213 | one name per kept row, in order, each `schema.name` |
| McpMssql.TablesJsonLayout | MSAgent/mcp_mssql.py:206-218 | `count` is the length of `tables`, and `error` is there exactly for an error |
| McpMssql.TablesJson | MSAgent/mcp_mssql.py:206-225 | the dictionary `get_tables` returns, in the source's key order: tables, count, and the error if any |
| McpMssql.TablesFor | MSAgent/mcp_mssql.py:204-225 | an error row's error, the `KeyError` of a kept row without a name, or the names, and no tables with an error |
| McpMssql.GetTablesResult | MSAgent/mcp_mssql.py:191-225 | before `get_all_mcp_tools` the result is the `NoneType` attribute error and no tables |
| McpMssql.CatalogueResults | MSAgent/mcp_mssql.py:192-213 | three-column catalogue rows make no error row, all are kept, and each gives its `schema.name` |
| McpMssql.TablesFromCatalogue | MSAgent/mcp_mssql.py:192-218 | a catalogue lists every table as `schema.name`, in catalogue order, with no error |
| McpMssql.Placeholders | MSAgent/mcp_mssql.py:256 | one placeholder per parameter, the `i`-th reading "@" + key `i` + " = ?" |
| McpMssql.ExecStatement | MSAgent/mcp_mssql.py:254-261 | with parameters, "EXEC procedure " and the placeholders joined with ", ", and one value per parameter, in dictionary order; without, the bare `EXEC procedure` and nothing bound |
| McpMssql.ExecAligned | MSAgent/mcp_mssql.py:254-258 | placeholder `i` of the statement names parameter `i`, and bound value `i` is that parameter's value |
| McpMssql.PlaceholdersMatchValues | MSAgent/mcp_mssql.py:256-258 | when no name contains "?", the statement has exactly as many "?" marks as bound values |
| McpMssql.ProcedureResult | MSAgent/mcp_mssql.py:252-290 | the report names the procedure and the statement; the driver receives the values exactly when there are some; before `get_all_mcp_tools` the result is the `NoneType` error |
| McpMssql.ToolModule.constructor | MSAgent/mcp_mssql.py:103-106 | no connection, and the three tools registered in definition order |
| McpMssql.ToolModule.GetAllMcpTools | MSAgent/mcp_mssql.py:296-308 | sets the global connection from the configuration and returns the registry, unchanged |
| McpMssql.ToolModule.SelectFromTable | MSAgent/mcp_mssql.py:114-173 | returns the dictionary of `SelectResult` for the current global connection |
| McpMssql.ToolModule.GetTables | MSAgent/mcp_mssql.py:183-225 | returns the dictionary of `GetTablesResult` for the current global connection |
| McpMssql.ToolModule.ExecuteStoredProcedure | MSAgent/mcp_mssql.py:235-290 | returns the dictionary of `ProcedureResult` for the current global connection |
| Supervisor.ExtractResult | MSAgent/supervisor_agent.py:116-120 | an answer exists exactly when both markers occur, and it is no longer than the output |
| Supervisor.ExtractResultStripped | MSAgent/supervisor_agent.py:120 | an extracted answer is already stripped: stripping it again changes nothing |
| Supervisor.StderrQuote | MSAgent/supervisor_agent.py:134 | exactly the first 500 characters of stderr, and all of stderr when it is no longer |
| Supervisor.QueryDatabase | MSAgent/supervisor_agent.py:22-151 | the dictionary `query_database` returns for each outcome of the sub-agent run; its entries for each outcome are stated by the `QueryDatabaseAnswered`, `QueryDatabaseUnexpected`, `QueryDatabaseAborted` and `QueryDatabaseStatus` lemmas |
| Supervisor.UnexpectedQuotesHead | MSAgent/supervisor_agent.py:133 | the unexpected-output message quotes exactly the first 500 characters of stdout, and all of it when it is no longer |
| Supervisor.QueryDatabaseAnswered | MSAgent/supervisor_agent.py:117-127 | output with an answer gives status "success", the agent, the answer and the task, and no error |
| Supervisor.QueryDatabaseUnexpected | MSAgent/supervisor_agent.py:128-136 | output without an answer gives status "error", the agent, the quoted stdout and stderr, and the task |
| Supervisor.QueryDatabaseAborted | MSAgent/supervisor_agent.py:138-151 | a timeout gives "Agent timeout - task took longer than 60 seconds"; an exception gives its text; both name the agent and the task |
| Supervisor.QueryDatabaseStatus | MSAgent/supervisor_agent.py:117-151 | every result names the agent and the task; the status is "success" exactly when the output holds an answer, and an error is present exactly otherwise |
| Supervisor.TranslateText | MSAgent/supervisor_agent.py:158-260 | the dictionary `translate_text` returns for each outcome of the sub-agent run; its entries for each outcome are stated by the `TranslateTextAnswered`, `TranslateTextUnexpected`, `TranslateTextAborted` and `TranslateTextStatus` lemmas |
| Supervisor.TranslateTextAnswered | MSAgent/supervisor_agent.py:230-240 | output with an answer gives status "success", the translator, the answer and the original text, and no task |
| Supervisor.TranslateTextUnexpected | MSAgent/supervisor_agent.py:241-247 | output without an answer gives status "error", the quoted stdout and stderr, and no original text |
| Supervisor.TranslateTextAborted | MSAgent/supervisor_agent.py:249-260 | a timeout gives "Translation timeout"; an exception gives its text; nothing else is reported |
| Supervisor.TranslateTextStatus | MSAgent/supervisor_agent.py:158-260 | every result names the translator; the original text is present exactly on success, which happens exactly when the output holds an answer; the target language makes no difference |
| Supervisor.FindStartMarker | MSAgent/supervisor_agent.py:118 | in the output of the agent script, the first start marker is the one the script printed |
| Supervisor.FindEndMarker | MSAgent/supervisor_agent.py:119 | in the output of the agent script, the first end marker is the one the script printed |
| Supervisor.ExtractAgentOutput | MSAgent/supervisor_agent.py:88-90 | when the script prints the start marker, the answer and the end marker, each on its own line, extraction gives back the answer, stripped. This holds when earlier output holds no marker and ends a line, and the answer holds no end marker |
| Supervisor.QueryDatabaseAnswer | MSAgent/supervisor_agent.py:116-127 | such an output makes `query_database` succeed with the answer; an answer without surrounding whitespace comes back unchanged |
| Supervisor.TranslateTextAnswer | MSAgent/supervisor_agent.py:229-240 | such an output makes `translate_text` succeed with the answer and the original text |

## Left out

- The chat backends (Ollama and OpenAI clients), `yfinance`, `pyodbc`, the subprocess and the file system are parameters of the model:
  - the chat backend: a function from model and history to a reply or an exception;
  - the market data: a function from the symbol to `info` and the day's closes, or their exceptions;
  - the SQL driver: a function from connection string, statement and bound values to the columns and rows, or an exception;
  - the sub-agent run: a `Completion`, meaning finished with stdout and stderr, timed out, or raised.
- `json.dumps` and `json.loads` are opaque parameters. `str` of a string inside a container is simplified: single quotes, no escaping.
- `round(price, 2)` is not modelled, because floating point is out of scope. Prices are carried as their Python text, and the `price` field holds the unrounded value.
- `value.isoformat()` for date and time columns is not modelled. Column values are JSON-like values and cannot be dates.
- The exception of `cursor.fetchall()` is folded into the driver's exception. Iterating the cursor description is folded into the column list.
- The message content `None` (a tool-calling reply without text) is not modelled. Content is always a string.
- The `TypeError` that `available_functions[name](**args)` raises for unexpected arguments is covered only abstractly. An executor may return or raise.
- The module-level `get_stock_price` of OllamaAI/main.py is not modelled separately. It has the same body as `MCPStockServer.get_stock_price`, which is modelled; the Ollama agent's registry is a parameter.
- `get_tools_from_mcp` (the conversion of MCP tools to the OpenAI tool format) and the `asyncio` plumbing of `call_tool_sync` are not modelled. They are format conversion and I/O.
- The MCP server's `run`, the stdio transport and registration of the handlers are not modelled.
- The command-line loops under `__main__`, `.env` loading and the supervisor's `main` are not modelled.
- The scripts the supervisor writes are not modelled. A task or text containing `'''` changes that script or breaks it. The changed script may print anything, the markers included. The model sees only the outcome of the run.
- The `tools` list sent to the backend is not modelled. It does not influence the loop.
- The key order of the MSSQL report dictionaries is fixed by `ReportJson` and `TablesJson`. It is not restated as a separate property.
- `OllamaAgent.AIAgent.Chat` and `OpenAIAgent.AIAgent.Chat`: the number of backend calls is a ghost counter. The histories sent to the backend are stated in the specification `Turn`, not logged by the method.
- `OllamaAgent.AIAgent.Chat` and `OpenAIAgent.AIAgent.Chat`: `max_iterations` is a constant field, because the source never reassigns it.
- `McpMssql.ToolModule.SelectFromTable`: the `"query": "N/A"` fallback of the `except` branch is not modelled, because it cannot be reached. `query = "SELECT "` is the first statement of the `try` (MSAgent/mcp_mssql.py:136), so an exception while the clauses are appended would report the partial statement. In the model, appending the clauses cannot raise, because the arguments are typed.
- `McpMssql.ToolModule.ExecuteStoredProcedure`: the `"query": "N/A"` fallback is not reachable in the model. In the source it applies only when building the placeholders raises, before `query` is assigned (MSAgent/mcp_mssql.py:254-261). The model's statement building cannot raise, because the parameters are typed.
- `McpMssql.SelectQuery`: `limit` is an integer. A boolean `True` passed as the limit (Python prints "TOP True") is not modelled.
