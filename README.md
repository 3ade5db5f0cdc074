# ObrolDB agent core, modelled in Dafny

ObrolDB lets a user ask questions about a SQLite database in plain language.
The agent (`personaagent/agent.py`) does four things:

- It starts a conversation history with a system prompt.
- It adds passages retrieved from a vector store to the user's question.
- It alternates between a chat model and a set of tools. The model answers
  either with text, which ends the turn, or with tool calls. Each tool call
  is dispatched and answered by a tool message carrying the call's id.
- It gives up after a fixed number of tool-calling turns.

There are eight tools (`personaagent/tools.py`):

- Seven look the database over: list the tables; get a table's columns,
  its row count, its table-info rows and a sample of its rows; find its
  key columns and its foreign keys.
- One runs an arbitrary query.

Every tool first logs a "Reasoning" panel. It then opens a short-lived
connection and cursor scope (`with_sql_cursor`) with `readonly` left at its
default, so the scope never commits or rolls back. It runs one statement
and turns the rows into Markdown-ish text. When a tool builds a
statement from a table name, the name is written as a double-quoted SQL
identifier with its own double quotes doubled.

The logger (`personaagent/logging.py`) writes panels to a console. Before
it does, it replaces any panel text that mentions SELECT, INSERT, UPDATE
or DELETE, in any letter case, by a fixed notice.

The model is split into these modules:

| file | module | what it holds |
|---|---|---|
| `wrappers.dfy` | `Wrappers` | `Option` and `Result` |
| `text.dfy` | `Text` | Python's `join`, `split`, `upper`, `lower`, `str(int)` and `int(str)` on ASCII, with their round trips |
| `logging.dfy` | `Logging` | the console as an object that collects records, and the redaction rule of `log_panel` |
| `identifiers.dfy` | `Identifiers` | quote doubling, and how SQLite reads a delimited identifier back |
| `gate.dfy` | `Gate` | the `with_sql_cursor` scope, as a class whose trace of connection and cursor calls must follow the scope's own protocol (one connection, one cursor, each closed before the next is opened) |
| `messages.dfy` | `Messages` | chat messages and tool calls |
| `dispatch.dfy` | `Dispatch` | the tool registry and `call_tool` |
| `tools.dfy` | `Tools` | the eight tools, with the database as an oracle that answers each statement text |
| `agent.dfy` | `Agent` | `create_history` and `ask`: the loop as a function, and `ask` as a method proved equal to it |

The chat model, the tool invocation and the database are function-valued
parameters. Every property below therefore holds for every model
behaviour and every database content.

## Model

| member | source | states |
|---|---|---|
| Logging.Redact | personaagent/logging.py:23-24 | When the text mentions one of the four keywords in any letter case, anywhere (also inside a word), the result is the fixed notice; otherwise the text is returned unchanged |
| Logging.MentionsSqlIff | personaagent/logging.py:23 | Searching the upper-cased text for the four keywords is the same as a letter-case-insensitive search of the original text |
| Logging.RedactHidesAnyCase | personaagent/logging.py:23-24 | A keyword written in any mix of cases, with any text around it, gets the whole text replaced |
| Logging.HiddenIsShown | personaagent/logging.py:24 | The notice itself mentions no keyword, so it is logged as written |
| Logging.RedactIdempotent | personaagent/logging.py:23-24 | Redacting twice is the same as redacting once |
| Logging.Console.Log | personaagent/logging.py:14 | One record is appended to the console and nothing else changes |
| Logging.Log | personaagent/logging.py:11-14 | `log` appends its text as one plain line, unredacted |
| Logging.LogPanel | personaagent/logging.py:17-32 | `log_panel` appends exactly one panel with the given title and border style (blue by default) and the redacted content; when the content mentions a keyword, the panel shows the notice |
| Identifiers.Escape | personaagent/tools.py:110 | Escaping never shortens a name and leaves a name without double quotes unchanged |
| Identifiers.Quote | personaagent/tools.py:113 | The identifier is the escaped name between two double quotes; a name without quotes appears between them as written |
| Identifiers.EscapeCounts | personaagent/tools.py:110 | Escaping doubles every double quote and keeps every other character, counted character by character |
| Identifiers.ReadEscaped | personaagent/tools.py:110-113 | SQLite reads the escaped name followed by a closing quote back as exactly the name, and leaves the rest of the statement untouched |
| Identifiers.UnescapeEscape | personaagent/tools.py:110 | Undoubling the escaped name gives back the name |
| Identifiers.QuotedInStatement | personaagent/tools.py:113 | In any statement `prefix + "name" + suffix`, the identifier read after the prefix is the name and is followed by the suffix, whatever quotes the name holds |
| Identifiers.QuoteInjective | personaagent/tools.py:110-113 | Different table names give different quoted identifiers |
| Gate.ScopeIsLegal | personaagent/tools.py:54-66 | Every call a scope makes is on an open connection or cursor, and the scope ends with both closed, whether the body completes or raises |
| Gate.ScopeCommitsIff | personaagent/tools.py:57-59 | A scope commits exactly when it is writable and its body completes |
| Gate.ScopeRollsBackIff | personaagent/tools.py:60-63 | A scope rolls back exactly when it is writable and its body raises |
| Gate.AccessGate.WithSqlCursor | personaagent/tools.py:43-66 | The scope records connect, cursor, the body's statements, then a commit or rollback when writable, then both closes; it hands back the body's outcome (re-raise) and keeps the trace legal |
| Gate.AccessGate.ExecuteAll | personaagent/tools.py:57 | The body's statements are executed on the open cursor in order |
| Dispatch.AvailableTools | personaagent/tools.py:14-24 | The registry holds eight tools under pairwise different names |
| Dispatch.EveryToolAvailable | personaagent/tools.py:14-24 | No tool is missing from the registry |
| Dispatch.Lookup | personaagent/tools.py:36-37 | The tool found carries the name asked for; nothing is found only when no tool has that name |
| Dispatch.ByNameSpec | personaagent/tools.py:36 | The name table maps each registered name to its tool and holds no other name |
| Dispatch.LookupName | personaagent/tools.py:36-37 | Every tool is found under its own name |
| Dispatch.LookupUnknown | personaagent/tools.py:37 | A name that is no tool's name is not found (the KeyError) |
| Dispatch.FirstIdField | personaagent/tools.py:39 | The position found is the first key whose lower-case form contains "id"; none is found only when no key qualifies |
| Dispatch.CallId | personaagent/tools.py:39-40 | When the search for the first id key finds none (no key of the call contains "id"), the call gets the empty id |
| Dispatch.CallIdSpec | personaagent/tools.py:39-40 | The correlation id is the text of the value under the first id key in key order ("name" and "args" never qualify) |
| Dispatch.CallIdWithoutIdKey | personaagent/tools.py:40 | A call without an id key is answered under the empty id |
| Dispatch.CallIdOfModelCall | personaagent/tools.py:39-40 | A call as the model emits it is answered under its own `id`; a `None` id becomes the text "None" |
| Dispatch.CallTool | personaagent/tools.py:26-41 | `call_tool` fails with the unknown-name error exactly when the registry lookup finds nothing (by `Lookup`, exactly when no tool has the call's name); its answer is a tool message under the call's id |
| Dispatch.CallToolAnswers | personaagent/tools.py:36-41 | A call to a registered tool that returns a text is answered by one tool message holding that text under the call's id |
| Dispatch.CallToolPropagates | personaagent/tools.py:38 | A tool that raises makes `call_tool` raise the same error |
| Dispatch.CallToolUnknown | personaagent/tools.py:37 | A call to an unregistered name fails before any tool runs |
| Tools.TableInfoSqlQuotesName | personaagent/tools.py:110-113 | In `PRAGMA table_info("…");` the identifier reads back as exactly the table name, followed by `);` |
| Tools.CountSqlQuotesName | personaagent/tools.py:133-136 | In `SELECT COUNT(*) FROM "…";` the identifier reads back as exactly the table name, followed by `;` |
| Tools.SampleSqlQuotesName | personaagent/tools.py:180-183 | In `SELECT * FROM "…" LIMIT n;` the identifier reads back as exactly the table name, followed by the LIMIT clause |
| Tools.ForeignKeySqlQuotesName | personaagent/tools.py:231-233 | In `PRAGMA foreign_key_list("…");` the identifier reads back as exactly the table name, followed by `);` |
| Tools.ToolScopesNeverCommit | personaagent/tools.py:81 | A tool's scope, opened with the default `readonly`, neither commits nor rolls back, however the statement ends |
| Tools.Outcome | personaagent/tools.py:56-63 | The scope's body completes exactly when the fetch succeeds |
| Tools.ListTablesOutput | personaagent/tools.py:80-95 | `list_tables` returns the error text exactly when the query fails |
| Tools.ListTablesLayout | personaagent/tools.py:89-92 | The output is the header, one `- name` line per table, an empty line and the insight, joined by newlines |
| Tools.ListTablesSplit | personaagent/tools.py:86-92 | Splitting the output at newlines gives back those lines: every table once, in query order |
| Tools.TablesInsightCounts | personaagent/tools.py:90 | Two different table counts give two different insight lines |
| Tools.GetColumnsOutput | personaagent/tools.py:111-118 | A failure gives the error text; a table without columns gives "" |
| Tools.GetColumnsSplit | personaagent/tools.py:114-115 | When no column name holds ", ", the output splits at ", " into the column names in schema order |
| Tools.DescribeTableOutput | personaagent/tools.py:157-164 | A failure gives the error text |
| Tools.DescribeTableSplit | personaagent/tools.py:160-161 | The output has one line per table-info row, in row order |
| Tools.CountRowsOutput | personaagent/tools.py:134-141 | A failure, and only a failure, gives the error text; otherwise the output is a canonical decimal that reads back as the count |
| Tools.Frame | personaagent/tools.py:182-185 | The fetch yields columns and rows exactly when the statement succeeds and has a description; the rows are the fetched rows |
| Tools.Rendered | personaagent/tools.py:185-188 | The frame renders exactly when the statement succeeds, has a description and the frame constructor accepts its rows; a statement failure passes through unchanged |
| Tools.SampleTableOutput | personaagent/tools.py:181-196 | Every failure (the statement, a missing description, the frame) gives the error text; otherwise the output is the rendered table, an empty line and the insight counting the sampled rows |
| Tools.SampleInsightReadBack | personaagent/tools.py:190-191 | The insight line determines both the sampled-row count and the table name |
| Tools.QueryInsight | personaagent/tools.py:265-269 | The insight fails (IndexError) exactly when there are rows but no columns |
| Tools.QueryInsightReadBack | personaagent/tools.py:265-269 | The insight reports the row count: two insights that are equal report the same count, whichever sentence follows it |
| Tools.QueryInsightBranches | personaagent/tools.py:265-269 | No rows gives the no-data sentence; rows give the sentence naming the first column |
| Tools.ExecuteSqlOutput | personaagent/tools.py:251-273 | Every failure (the statement, a missing description, the frame, the insight) gives the one error text; otherwise the output is the rendered table, an empty line and the insight |
| Tools.KeyColumns | personaagent/tools.py:215 | The key columns are the columns with a primary-key position or a name ending in "ID", in schema order: a name is in the result exactly when such a column has it |
| Tools.KeyColumnsUnique | personaagent/tools.py:215 | With distinct column names, as SQLite requires, any subsequence of the column names that holds exactly the key names is the key list, so the contract of `KeyColumns` determines its result |
| Tools.KeyColumnsExample | personaagent/tools.py:215 | The "ID" suffix test is case-sensitive: "OrderID" counts, "Id" does not |
| Tools.PrimaryKeysOutput | personaagent/tools.py:212-216 | A database failure propagates unchanged |
| Tools.PrimaryKeysSplit | personaagent/tools.py:215-216 | When no column name contains ", ", the output splits at ", " back into the key columns in schema order, and is the empty text when there is no key column |
| Tools.ForeignKeysOutput | personaagent/tools.py:232-236 | A database failure propagates unchanged; a table without foreign keys gives "" |
| Tools.ForeignKeysSplit | personaagent/tools.py:234-236 | The output has one `from → table.to` line per foreign-key row, in row order |
| Tools.ListTables | personaagent/tools.py:68-95 | One reasoning panel, one `readonly` scope around the listing query, a red log line on failure, and the output above |
| Tools.GetColumns | personaagent/tools.py:97-118 | One reasoning panel, one `readonly` scope around the quoted `table_info` statement, a red log line on failure, and the output above |
| Tools.CountRows | personaagent/tools.py:120-141 | One reasoning panel, one `readonly` scope around the quoted count statement, a red log line on failure, and the output above |
| Tools.DescribeTable | personaagent/tools.py:143-164 | One reasoning panel, one `readonly` scope around the quoted `table_info` statement, a red log line on failure, and the output above |
| Tools.SampleTable | personaagent/tools.py:166-196 | One reasoning panel, one `readonly` scope around the quoted sample statement, a red log line on a failure of the statement or of the frame, and the output above |
| Tools.GetPrimaryKeys | personaagent/tools.py:198-216 | One reasoning panel, one `readonly` scope, no error line, and a failure propagated to the caller |
| Tools.GetForeignKeys | personaagent/tools.py:218-236 | One reasoning panel, one `readonly` scope, no error line, and a failure propagated to the caller |
| Tools.ExecuteSql | personaagent/tools.py:238-273 | One reasoning panel, one `readonly` scope around the caller's query, no error line, and the output above |
| Agent.CreateHistory | personaagent/agent.py:47-48 | The history holds exactly one message, the system prompt |
| Agent.StartMessages | personaagent/agent.py:63-67 | The working list is the history, unchanged, followed by one human message with the contextualized question |
| Agent.ContextualizedQuery | personaagent/agent.py:60-63 | The human message starts with the heading line and ends with an empty line and the question |
| Agent.ContextLayout | personaagent/agent.py:60-63 | The message is the heading, the passages (one empty line when nothing was retrieved), an empty line and the question lead with the query, joined by newlines |
| Agent.ContextualizedQueryLines | personaagent/agent.py:60-63 | When no passage and not the query hold a newline, the message splits into exactly those lines, the passages in retrieval order |
| Agent.EmptyRetrieval | personaagent/agent.py:60-63 | With nothing retrieved, the message is the heading, two empty lines and the question |
| Agent.Converse | personaagent/agent.py:69-82 | The loop invokes the model unless no iteration is left, and the working list never shrinks |
| Agent.DispatchAll | personaagent/agent.py:75-77 | Dispatching keeps the list in front and appends one tool message per call |
| Agent.DispatchAnswers | personaagent/agent.py:75-77 | When every call succeeds, the list gains exactly their answers, in emission order |
| Agent.NoBudget | personaagent/agent.py:69-82 | With no iterations allowed the model is never invoked and `ask` raises |
| Agent.Bounds | personaagent/agent.py:69-82 | The model is invoked at most once per iteration; every invocation but the last opens a tool turn; the loop raises exactly when all iterations were used by tool turns |
| Agent.AlwaysTools | personaagent/agent.py:69-82 | A model that always asks for tools that all succeed is invoked exactly `max_iterations` times, and then `ask` raises |
| Agent.Turn | personaagent/agent.py:70-78 | After a tool turn the next invocation sees the response followed by one tool message per call, in order, each under its call's id |
| Agent.AnswerIsLastReply | personaagent/agent.py:70-74 | A returned answer is the content of a response without tool calls, which is the last message of the list |
| Agent.OnlyAppends | personaagent/agent.py:66-77 | The loop keeps the starting list in front, unchanged, and appends only model responses and tool messages |
| Agent.SystemMessageStaysFirst | personaagent/agent.py:66-77 | A list whose only system message is its first keeps that shape through the loop |
| Agent.OneSystemMessage | personaagent/agent.py:47-67 | Started from `create_history()`, the list keeps the system message first and never gains another one |
| Agent.Ask | personaagent/agent.py:50-82 | `ask` logs one green "User Request" panel with the redacted query and returns what the loop function gives from the starting list |
| Text.SplitJoin | personaagent/tools.py:115 | `", ".join` and `"\n".join` of parts without the separator split back into the same parts |
| Text.NatToStringParse | personaagent/tools.py:138 | A canonical decimal is the `str` of the number it reads as |

## Left out

- The web user interface (`app.py`), configuration and the command line are not part of this model.
- Retrieval is a parameter: `passages` stands for the page contents that the vector store returns. The embedding model, the store and the retriever's `k` of 10 are not modelled.
- The chat model is a function from the message list to a reply or an error. Prompt formatting and streaming are not modelled.
- The system prompt's text is a parameter of `Agent.CreateHistory`. It embeds today's date, which comes from the clock.
- Tool invocation is a parameter of `Dispatch.CallTool`. LangChain's argument parsing and validation, and the binding of a tool name to the `Tools` method that runs it, are not modelled.
- The tools' console output during a run of `ask` therefore does not show up in `Agent.Ask`'s contract: it would come from inside `invoke`.
- The database is an oracle from statement text to rows or an exception text. SQLite's query semantics, the `sqlite_master` filter and PRAGMA results are not modelled.
- Whether a statement persists is not modelled. The connection is an ordinary read-write one, and `readonly` only skips the commit and the rollback. A statement passed to `execute_sql` outside the driver's implicit transaction, such as a `DROP TABLE`, takes effect under SQLite's autocommit with no commit call.
- A failing `sqlite3.connect`, `conn.commit` or `close` is not modelled. Failures come only from the statement or the code that reads its results.
- `pandas.DataFrame(rows, columns=columns).to_markdown(index=False)` is a parameter, `render`, that returns the Markdown text or the exception text. When pandas rejects rows that do not fit the columns is part of that parameter.
- Python's `str()` of a table-info tuple is a parameter, `rowRepr`.
- Upper and lower case are ASCII only. Unicode case mapping, where some characters change length when upper-cased, is not modelled.
- Rich's panel rendering and markup (`[red]…[/red]`) are not modelled. The console is a list of records, passed to each operation instead of a module-level global.
- Agent.Converse: when a tool raises partway through a turn, the tool messages already appended are lost with the exception. The model returns the list with the turn's AI reply appended but without any of its tool messages; only the outcome is meaningful.
- Agent.Ask: `history.copy()` is modelled by passing the history as a value, so aliasing of the caller's list is not modelled.
- Gate.AccessGate.WithSqlCursor: the statements the body executes are given in full. When the body raises, the model records every given statement before the rollback; it does not track where inside the body the exception occurred.
- Tools.GetColumnsOutput: the output cannot be split back into names that contain ", ". The source has the same ambiguity, so the round trip is stated only for names without it (Tools.GetColumnsSplit).
- Tools.DescribeTableOutput: only the error case is stated on the function. The line-by-line content is in Tools.DescribeTableSplit, for rows whose text holds no newline.
- Tools.SampleTable: a negative `row_sample_size` is passed through to the LIMIT clause as written. SQLite's reading of a negative LIMIT as "no limit" is part of the oracle.
