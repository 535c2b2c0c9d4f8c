# Tool-calling chatbot: a Dafny model of its turn driver and tools

This project models the core of a command-line chatbot that lets a
completion service call three local tools (a calculator, a weather lookup
and a news search). The model covers:

- `chat_with_functions`, the driver of one user turn. It appends the user's
  message, asks the service with all three tool schemas offered, and appends
  the reply verbatim. When the reply calls tools, it runs each call through an
  `if`/`elif` chain on the tool name and appends each answer. It then asks
  again without tools and shows the reply's text.
- `main`'s command loop. It strips each line, then quits on `q`, resets the
  history on `clear`, skips blank lines, and otherwise runs a turn. An
  interrupt ends the loop; other exceptions are reported and the loop goes on.
- The `calculate` handler and its schema.
- `get_weather`'s status branch, `process_weather_response`, and the weather schema.
- `get_news`'s fallbacks, `process_news_response`, and the news schema.

Modules follow the program:

- `Json` holds decoded argument values and `dict.get`.
- `Protocol` holds tool calls, replies, messages, schemas and requests.
- `Text` holds Python's `str.strip()` and `str.lower()`.
- `Calculator`, `Weather` and `News` hold the three tool handlers.
- `Dispatch` holds the dispatch chain and one turn, as functions of the
  previous history and the service's replies.
- `Repl` holds the command loop's specification and the `Session` class.
  `Session` owns the mutable history and carries the imperative `Turn`,
  `DispatchCalls`, `Step` and `Run` methods, each proved against those functions.

Whatever the model cannot see is a parameter:

- `json.loads`.
- The calculator's message builder.
- The weather and news services.
- Python's `str()`.
- The completion service's two replies. `None` means the request raised.

## Model

| member | source | states |
|---|---|---|
| Json.GetOr | src/helpers/weather.py:86 | `dict.get(key, default)`: the stored value when the key is present, the default otherwise |
| Json.Get | src/helpers/news.py:130-131 | `dict.get(key)`: the stored value when the key is present, Python's `None` otherwise |
| Protocol.ParamNamed | src/helpers/news.py:86-115 | the parameter found carries the name asked for and is declared; none is found only when no declared parameter has that name |
| Protocol.ParamNamedFirst | src/helpers/news.py:86-115 | when several parameters share a name, the lookup returns the first of them |
| Calculator.Calculate | src/helpers/calculator.py:2-25 | the result is an error exactly for an unknown operation or a division by zero; a division by zero gives "Error: Division by zero"; an unknown operation gives the quoted-name message; a quotient times the divisor gives back the dividend |
| Calculator.UnknownOperation | src/helpers/calculator.py:25 | the message is the fixed prefix, then the operation verbatim, then a closing quote |
| Calculator.CalculateArithmetic | src/helpers/calculator.py:14-19 | add, subtract and multiply give the exact sum, difference and product |
| Calculator.CalculateInverses | src/helpers/calculator.py:14-23 | subtract undoes add; divide by a non-zero number undoes multiply |
| Calculator.CalculatorSchemaAgrees | src/helpers/calculator.py:28-53 | the schema is well formed; the `operation` enum is exactly the handler's operations; an operation is in the enum iff the handler does not answer "Unknown operation"; all three parameters are required |
| Weather.GetWeather | src/helpers/weather.py:30-52 | a request that raises gives no value; any status but 200 gives the sentinel 0.0; status 200 gives the body's temperature |
| Weather.FailedStatusIgnoresBody | src/helpers/weather.py:44-46 | for a status other than 200 the body plays no part: the result is 0.0 |
| Weather.WeatherLocation | src/helpers/weather.py:86 | the `location` argument when present, Melbourne otherwise |
| Weather.ProcessWeatherResponse | src/helpers/weather.py:74-102 | a message exists iff the arguments decode and the fetch yields a temperature; it is a `tool` message with the call's id, the name get_weather and the rendered temperature |
| Weather.MissingLocationFetchesMelbourne | src/helpers/weather.py:86-92 | arguments without `location` answer with Melbourne's weather |
| Weather.ErrorStatusAnswersWithSentinel | src/helpers/weather.py:44-46 | an upstream error status still answers the call, and its content is the rendering of 0.0 |
| Weather.WeatherSchemaAgrees | src/helpers/weather.py:55-72 | the schema requires nothing; its declared `location` default equals both the builder's fallback and `get_weather`'s own default |
| News.NewsArguments | src/helpers/news.py:128-132 | each of query, from, to and sortBy is the argument when present; the fallbacks are "", None, None and "publishedAt" |
| News.EmptyArgumentsUseDefaults | src/helpers/news.py:129-132 | an empty argument object queries "" sorted by publishedAt with no date bounds |
| News.GetNews | src/helpers/news.py:53-83 | no client gives an empty list; a call that raises, or a response without `articles`, gives an empty list; otherwise the response's `articles` |
| News.OfflineIgnoresService | src/helpers/news.py:68-70 | without a client the service is never consulted: any two services give the empty list |
| News.ProcessNewsResponse | src/helpers/news.py:117-148 | no message exactly when the arguments do not decode or the articles are not something `len()` accepts (the count printed at line 140 raises then); otherwise a `tool` message with the call's id, the name get_news and the rendered article list |
| News.FallbacksAnswer | src/helpers/news.py:68-83 | a decoded call without a client, after a raising fetch or without an `articles` field is answered with the rendering of the empty list |
| News.NewsSchemaAgrees | src/helpers/news.py:86-115 | the schema is well formed and requires only `query`; `sortBy` offers exactly relevancy, popularity and publishedAt, and the builder's fallback at line 132 is one of them |
| News.NewsSchemaKeys | src/helpers/news.py:93-111 | the declared parameters are exactly query, from, to and sortBy |
| News.UndeclaredKeyIgnored | src/helpers/news.py:128-132 | an argument the schema does not declare leaves the query unchanged |
| News.DeclaredKeyRead | src/helpers/news.py:128-132 | every declared argument is read: its value becomes the matching field of the query |
| Dispatch.Route | src/main.py:77-92 | a call is skipped iff its name is none of the three tools; an appended message is the calculator builder's message, or exactly the message the weather or news builder returns, with the call's id and name; the chain raises exactly when a weather call has no message, or a news call's arguments do not decode or its articles have no length |
| Dispatch.Routed | src/main.py:76-92 | the handled calls are drawn from the calls, each with a handled name, no more of them than calls, and all of them when every name is handled |
| Dispatch.RoutedSingle | src/main.py:79-92 | one call is kept iff its name is handled |
| Dispatch.RoutedAppend | src/main.py:76-92 | routing distributes over concatenation; with `RoutedSingle` this makes the handled calls exactly the calls with handled names, in their original order |
| Dispatch.RoutedPosition | src/main.py:76-92 | a handled call is the routed call whose position is the number of handled calls before it |
| Dispatch.RoutedPositionsIncrease | src/main.py:76-92 | a handled call takes a routed position before that of any later call |
| Dispatch.DispatchAll | src/main.py:76-92 | the loop appends at most one message per call; which messages, in which order, is stated by `DispatchAnswersRouted` |
| Dispatch.DispatchAnswersRouted | src/main.py:76-92 | a loop that finishes appends exactly one answer per handled call, in call order; one that raises has appended answers to a proper prefix of the handled calls, since the call that raised is handled and unanswered; each answer is the matching builder's message |
| Dispatch.DispatchCompletes | src/main.py:76-92 | the loop runs to its end iff no call raises in the dispatch chain |
| Dispatch.DispatchExtend | src/main.py:76-92 | one more pass of the loop applies the next call's step to what the earlier calls appended |
| Dispatch.DispatchHalts | src/main.py:76-92 | once the loop has raised, later calls change nothing |
| Dispatch.UnknownCallSkipped | src/main.py:79-92 | a call with an unhandled name leaves the loop's effect as if it were absent |
| Dispatch.ParseFailureStopsDispatch | src/main.py:84-92 | a weather or news call whose arguments do not decode stops the loop before its end |
| Dispatch.RepeatedCallAnsweredTwice | src/main.py:76-92 | in a loop that finishes, the same handled call at two positions gets two different answer positions, each answering it: there is no deduplication |
| Dispatch.ToolNames | src/main.py:62 | one name per schema, in order |
| Dispatch.FirstRequest | src/main.py:57-64 | model gpt-4o, the given history, temperature 0.7, at most 150 tokens, the three schemas and automatic tool choice |
| Dispatch.FollowUpRequest | src/main.py:96-99 | model gpt-4o-mini, the given history, and no tools, tool choice or generation settings |
| Dispatch.RequestsOfferTools | src/main.py:57-64 | the first request offers calculate, get_weather and get_news, in that order, with automatic choice; the offered names are exactly the handled ones; the follow-up at lines 96-99 offers no tools; both carry the history |
| Dispatch.DisplayText | src/main.py:102 | the text shown is never empty; the reply's content when it is non-empty, "No response content" when it is absent or empty |
| Dispatch.TurnSpec | src/main.py:46-104 | the user message is appended first and the reply second; the first request carries the history with the user message; without tool calls nothing more happens; with tool calls the loop's answers follow; the follow-up is sent iff there are tool calls and the loop finished, and it carries the whole new history; the outcome is `NoToolCalls` exactly when the reply has no tool calls, so a raise in the loop or in the follow-up abandons the turn; a text is shown iff the follow-up got a reply |
| Dispatch.FollowUpNotRecorded | src/main.py:96-104 | the follow-up reply is shown but never appended: the history and the requests do not depend on it |
| Dispatch.FollowUpAnswersRoutedCalls | src/main.py:68-99 | when the follow-up is sent, the messages after the assistant reply answer the handled calls one for one, in order; each weather or news answer is a `tool` message with the id and name of a call in that reply |
| Dispatch.ParseFailureAbandonsTurn | src/main.py:84-92 | a weather or news call whose arguments do not decode ends the turn with no follow-up, keeping what was appended |
| Text.IsSpace | src/main.py:115 | the code points `str.strip()` removes; its ASCII part is stated by `AsciiWhitespace` |
| Text.AsciiWhitespace | src/main.py:115 | among ASCII characters the whitespace is exactly space, tab, line feed, vertical tab, form feed, carriage return and U+001C to U+001F; no whitespace lies above U+3000 |
| Text.SkipSpaces | src/main.py:115 | the first non-whitespace index at or after the start, with only whitespace skipped |
| Text.SkipSpacesBack | src/main.py:115 | the end once trailing whitespace is dropped, with only whitespace dropped |
| Text.Strip | src/main.py:115 | the result is a slice of the input with only whitespace around it, and neither starts nor ends with whitespace; it is empty iff the input is all whitespace |
| Text.StripIdempotent | src/main.py:115 | stripping twice is stripping once |
| Text.Lower | src/main.py:117-120 | same length; each character lowered on its own |
| Text.LowerIsQ | src/main.py:117 | the lowered line is "q" iff the line is "q" or "Q" |
| Text.LowerIsClear | src/main.py:120 | the lowered line is "clear" iff each of its five letters is the matching letter in either case |
| Repl.ClearedIsInitial | src/main.py:123-125 | the history `clear` installs equals the starting history of lines 41-43: one system message |
| Repl.Classify | src/main.py:115-130 | quit iff the stripped line lowers to "q"; clear iff it lowers to "clear"; blank iff the line is all whitespace; otherwise a prompt carrying the stripped, non-empty line |
| Repl.QuitInAnyCase | src/main.py:115-119 | a line quits iff it strips to "q" or "Q" |
| Repl.ClearInAnyCase | src/main.py:115-127 | a line resets iff it strips to "clear" in any mix of cases |
| Repl.PromptIsStripped | src/main.py:115-132 | a prompt is sent without surrounding whitespace |
| Repl.Apply | src/main.py:113-139 | the loop stops exactly on an interrupt or quit, changing nothing; clear installs the starting history and keeps the requests; blank changes nothing; a prompt applies one turn's appends and requests, including those of a turn that raised; requests only grow, and a history that opens with the system prompt keeps it |
| Repl.RunSpec | src/main.py:113-139 | over any events the requests only grow, and a history that opens with the system prompt keeps it, through turns and resets alike |
| Repl.StopIgnoresRest | src/main.py:117-119 | nothing after a quit or an interrupt (lines 135-137) has any effect |
| Repl.ClearAfterAnyTurns | src/main.py:120-127 | after any number of turns that did not stop the loop, `clear` leaves exactly the starting history |
| Repl.BlankIsNoOp | src/main.py:128-130 | an all-whitespace line leaves the state unchanged and the loop running |
| Repl.Session.constructor | src/main.py:41-43 | a new session holds the system prompt alone and no requests |
| Repl.Session.Turn | src/main.py:46-104 | the history and the requests grow by exactly the turn's appends and requests; the outcome is the turn's; the earlier history is left intact |
| Repl.Session.DispatchCalls | src/main.py:75-92 | the loop appends exactly the dispatch chain's messages for the calls, and reports whether it ran to the end |
| Repl.Session.Step | src/main.py:114-139 | one pass of the loop leaves exactly the state `Apply` gives and reports whether the loop ends |
| Repl.Session.Run | src/main.py:113-139 | the state after the loop is the command loop's specification applied to the events, up to the first that ends it |

## Left out

- src/helpers/movies.py is context and is not modelled.
- `process_calculator_response` is not part of this model. The calculator's
  `tool` message is an opaque function of the call, so nothing is claimed about
  its id, name or content. This is why `Dispatch.FollowUpAnswersRoutedCalls`
  correlates ids only for weather and news answers.
- Dispatch.FollowUpAnswersRoutedCalls: says nothing about calculator answers,
  for the same reason.
- src/helpers/calculator.py does not define `process_calculator_response`.
  So the import at src/main.py:11 raises `ImportError`, and the program as
  written cannot start. The model assumes a builder exists.
- Dispatch.RepeatedCallAnsweredTwice: the weather and news services are
  fixed functions of their arguments for the whole session. Two requests
  with the same arguments always get the same outcome, within a turn and
  across turns. In the source each call makes its own request, which may
  raise or answer differently. Through `Answers`, its conclusion also makes
  the answers to two identical weather or news calls equal. That part rests
  on this assumption, as do other results about the same collaborators.
- The OpenAI client is not modelled. That covers its construction, the
  credential checks, and the effect of the model name, temperature and token
  limit. Requests are recorded as data, and replies are inputs of a turn that
  are not tied to the requests.
- Console output is not modelled: panels, rules, spinners, the messages for
  clear and blank input, and the error report at line 139. `load_dotenv` and
  the environment are not modelled either.
- The model treats printing as never failing. `rich` reads printed text as
  markup, and a stray closing tag such as `[/b]` makes `console.print`
  raise. Such a tag can come from the location at src/helpers/weather.py:88,
  from the news arguments at src/helpers/news.py:134, or from the follow-up
  reply at src/main.py:103-104. The turn would then be abandoned. The
  exception's text is printed as markup again at src/main.py:139, so the
  handler raises too and `main` ends. Weather.ProcessWeatherResponse,
  News.ProcessNewsResponse, Dispatch.Route, Dispatch.TurnSpec and
  Repl.Apply describe the behaviour when printing succeeds.
- HTTP, URL building and JSON decoding of the weather body are not modelled.
  A request is an outcome (`ConnectionFailed`, or a status with a temperature
  that may be missing). A missing body field or a failed `float()` is an
  absent temperature.
- `json.loads` is a parameter. It returns `None` when decoding raises or the
  result is not an object; which texts it accepts is not modelled.
- The NewsAPI connection probe done at import is not modelled. It only decides
  whether a client exists, which is a boolean input.
- Python's `str()` of a float and of an article list is a parameter: the
  rendering functions.
- Numbers are exact reals, not IEEE doubles, so rounding, infinities and NaN
  are not modelled.
- An interrupt is modelled only at the prompt. An interrupt arriving during a
  turn is not modelled.
- End of input (`EOFError` from `input()`) is not modelled. The source would
  report it and prompt again forever.
- Text.Lower: lowers only the ASCII letters, while Python's `str.lower()`
  also maps other letters. No other character lowers to a letter of "q" or
  "clear", so the two command tests come out the same.

Where the behaviour of the code differs from what a design for this program
would expect, the model follows the code:

- A tool call with an unknown name is silently skipped. No error `tool`
  message is produced, so the follow-up may carry an unanswered call.
- Arguments that do not decode, and a weather request that raises or lacks a
  temperature, raise out of the turn. They are not turned into an error
  `tool` message. The history keeps what was appended before.
- A weather error status yields the number 0.0, not an error string.
- The follow-up reply is shown but never appended to the history.
- When the first reply has no tool calls, its content is not shown.
- An empty reply content counts as absent and shows "No response content".
