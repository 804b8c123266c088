# EdTech analytics MCP demo — a Dafny model

The repository is a small demo. Two MCP servers serve a fixed catalog of
analytics tools over a table of student records:

- `mcp-server.py`, the local server;
- `cloud-mcp-server.py`, the Cloud Run server.

A Streamlit front end, `cloud-web-ui.py`, asks a language model to turn a
question into a plan of tool calls, runs the plan against a server, and asks
the model to write the answer. This project models two parts of that:

1. **The tool catalog** (modules `Students`, `Catalog`, `SampleData`).
   - A student record is a datatype and the table is a `seq<Record>`.
   - Completion rates are exact `real`s, not floats.
   - Each tool is a function from the table and its argument to a
     `ToolResult` rather than to formatted text: `NotFound(course)`,
     `MeanRate`, `RatesByCourse`, `Struggling`, `CourseTickets`,
     `TicketsByCourse` or `ServerInfo`.
   - An optional course argument is an `Option<string>`. Python's `if course:`
     is `Truthy`: the argument is present and is not the empty string.
   - The two servers define the three analytics tools with identical code, so
     they are modelled once. `get_server_info` and the fallback data generator
     come from the cloud server only.
   - The generator is a method with a loop. Its random draws are an input
     sequence with range preconditions.
2. **Plan execution in `query_mcp_server`** (modules `Json`, `Planner`).
   - The reply to the planning request is given as a decoded JSON value, or
     as `None` when it is not valid JSON.
   - The MCP session is given as two outcomes: opening it and closing it.
   - `call_tool` is a function parameter returning `Ok(text)` or `Err(message)`.
     It also receives the call's position in the session, so the same request
     can succeed before a dropped connection and fail after it. The methods
     return the list of requests they made, so which calls happen, and in
     what order, is part of their contracts.
   - The answer-writing request is a function parameter of the question and
     `results_text`.
   - The loop over the plan is a method. Its contract states the entries it
     records, in plan order.

`Text` holds models of the Python string operations the code uses:
`{n:0Wd}` zero padding, `str.join`, `str.strip` and `str.endswith`.
`Wrappers` holds `Option` and `Result`.

Two behaviours of `query_mcp_server` that are easy to misread:

- A failure inside `call_tool`, a dropped connection included, is caught by
  the per-call `try` (cloud-web-ui.py:151-165). It is recorded as that call's
  error. Only creating, opening or closing the client leads to
  `"Failed to connect to MCP server: ..."`, and so does a malformed plan, as
  the next point says.
- A plan of the wrong shape also leads to that connection error, because the
  exception is raised outside the per-call `try`. This happens when the plan
  is not a dict, when `tool_calls` cannot be iterated, or when a planned call
  is not a dict. The model gives CPython's exception text in each case. A
  missing `"tool"` key, on the other hand, only yields a `None` tool name. The
  call with that name then fails, and the failure is recorded per call.

## Model

| member | source | states |
|---|---|---|
| `Text.DecimalValueOfDigits` | cloud-mcp-server.py:20 | reading back the decimal digits of `n` gives `n` |
| `Text.ZeroPadRoundTrip` | cloud-mcp-server.py:20 | zero-padded digits (`{i:04d}`) are all digits and still denote `i`, so padding loses nothing |
| `Text.DigitsLength` | cloud-mcp-server.py:25 | a number below 10^k has at most k digits, so `{n:0kd}` is exactly k characters long |
| `Text.DigitsNoLeadingZero` | cloud-web-ui.py:172 | the decimal spelling of `n`, as `str(n)` gives it for an integer tool name, starts with `'0'` only when `n` is 0 |
| `Text.JoinSplit` | cloud-web-ui.py:171 | `sep.join(a + b)` is `sep.join(a) + sep + sep.join(b)` for non-empty `a` and `b` |
| `Text.TrimStart` | cloud-web-ui.py:236 | the result is a suffix of the input; every removed character is whitespace; the result is empty or starts with a non-space |
| `Text.TrimEnd` | cloud-web-ui.py:236 | the result is a prefix of the input; every removed character is whitespace; the result is empty or ends with a non-space |
| `Text.StripEmptyIffBlank` | cloud-web-ui.py:236 | `s.strip()` is empty exactly when every character of `s` is whitespace in Python's sense |
| `Text.EndsWithIffConcat` | cloud-web-ui.py:196 | `s.endswith(x)` holds exactly when `s` is some text followed by `x` |
| `Catalog.OfCourse` | mcp-server.py:20 | the course filter never yields more records than the table holds |
| `Catalog.OfCourseContents` | mcp-server.py:20 | `df[df['course'] == c]` keeps every record of course `c`, as many times as the table holds it, and no other record |
| `Catalog.OfCourseEmptyIffAbsent` | mcp-server.py:20-21 | the selection for `c` is empty exactly when no record of the table has course `c` |
| `Catalog.CoursesInIffSelected` | mcp-server.py:26 | the groups of `groupby('course')` are exactly the courses whose selection is non-empty |
| `Catalog.Mean` | mcp-server.py:23 | the mean times the number of selected records equals the sum of their completion rates |
| `Catalog.TicketMean` | mcp-server.py:42 | the ticket mean times the number of selected records equals their ticket total |
| `Catalog.BelowRate` | mcp-server.py:32 | the threshold filter has as many records as there are table positions whose rate is strictly below the threshold |
| `Catalog.CompletionRates` | mcp-server.py:17-27 | for a truthy course that no record has: `NotFound` naming that course and no number. For a truthy course that is present: a mean whose product with the match count is the sum of the matching rates. For None or the empty string: the grouped answer |
| `Catalog.CourseCompletion` | cloud-mcp-server.py:33-38 | for an absent course, `NotFound(course)`; for a present one, the mean over exactly the matching records |
| `Catalog.MeanByCourse` | cloud-mcp-server.py:40 | one entry for every course present in the table and no other; each is the mean over that course's records only |
| `Catalog.IdentifyStruggling` | mcp-server.py:30-33 | the count is the number of table positions with rate strictly below the threshold; the threshold is 0.5 when none is given; the count never exceeds the table size |
| `Catalog.SupportTickets` | mcp-server.py:36-47 | for a truthy absent course, `NotFound(course)`. For a present course: total = sum of the matching tickets and average × match count = total. Otherwise, the grouped statistics |
| `Catalog.CourseTicketStats` | cloud-mcp-server.py:52-58 | the same not-found policy; the total is the ticket sum and the average is the total divided by the match count |
| `Catalog.TicketStatsByCourse` | cloud-mcp-server.py:60 | one (mean, sum) pair for every course present, each computed over that course's records only |
| `Catalog.GetServerInfo` | cloud-mcp-server.py:63-66 | reports exactly the number of records in the table |
| `Catalog.StrugglingIsStrict` | cloud-mcp-server.py:46 | one more record raises the count by one exactly when its rate is strictly below the threshold; a rate equal to the threshold adds nothing |
| `Catalog.StrugglingMonotone` | mcp-server.py:32 | raising the threshold never lowers the struggling count |
| `Catalog.BelowRateMonotone` | cloud-mcp-server.py:46 | the threshold filter only grows as the threshold rises |
| `Catalog.SumRatesBounds` | mcp-server.py:23 | rates in [0, 1] sum to between 0 and the number of records |
| `Catalog.MeanBounds` | cloud-mcp-server.py:37 | the mean of rates in [0, 1] lies in [0, 1] |
| `Catalog.MeanInUnitInterval` | cloud-mcp-server.py:34-37 | when the table's rates lie in [0, 1], so does the mean over any course present |
| `Catalog.CompletionMeansInUnitInterval` | mcp-server.py:19-27 | when the table's rates lie in [0, 1], every mean either branch reports lies in [0, 1] |
| `Catalog.GroupedAgreesWithSingle` | mcp-server.py:19-27 | for every non-empty course present, the grouped answer of each tool equals its single-course answer |
| `Catalog.ExampleDockerMean` | mcp-server.py:20-24 | a table with Docker rates 0.4 and 0.8 gives Docker a mean of exactly 0.6 |
| `Catalog.ExampleStruggling` | mcp-server.py:30-33 | in that table exactly one record is below 0.5, with the default threshold; the record at exactly 0.5 is not counted |
| `Catalog.ExampleAbsentCourse` | mcp-server.py:21-22 | in that table `"Ansible"` is reported as not found, by name |
| `SampleData.StudentIdInjective` | cloud-mcp-server.py:20 | different indices give different ids `STU{i:04d}` |
| `SampleData.EnrollmentDateRoundTrip` | cloud-mcp-server.py:25 | the date text of month m and day d reads back as the date (2024, m, d), which is a valid calendar date since d ≤ 28 |
| `SampleData.ParseDateParts` | cloud-mcp-server.py:25 | text built as `y-mm-dd` from digit fields of widths 4, 2 and 2 reads back field by field |
| `SampleData.SampleRecordBounded` | cloud-mcp-server.py:19-26 | a generated record has one of the four courses, a rate in [0.2, 1.0], a score in [60, 100], 0 to 5 tickets and a valid 2024 date |
| `SampleData.GenerateSample` | cloud-mcp-server.py:17-27 | exactly 1000 records; record i is built from draw i with id `STU{i:04d}`; the ids are pairwise distinct; every field is within its range |
| `Planner.DictPrefix` | cloud-web-ui.py:147-148 | the loop reaches the whole plan exactly when every planned call is a dict, and otherwise stops at the first call that is not one |
| `Planner.RequestOf` | cloud-web-ui.py:148-149 | the request takes the tool name from the call (None if absent) and the parameters (`{}` if absent) |
| `Planner.ToolCalls` | cloud-web-ui.py:147 | a plan that is not a dict raises `.get`'s error; a missing `tool_calls` key is an empty plan; a list is the sequence of planned calls |
| `Planner.EntryOf` | cloud-web-ui.py:148-165 | the entry holds the call's request (tool name and parameters with their defaults) and the reasoning (`""` if absent). It holds a result exactly when that call, made at its position in the session, succeeds, with the call's text, and otherwise the call's error text |
| `Planner.ExecutePlan` | cloud-web-ui.py:146-165 | one `call_tool` request per planned call, in plan order, up to the first call that is not a dict. When every call is a dict, one entry per call in plan order, failures included, entry k from the k-th call. Otherwise, the `.get` error of the first non-dict call, and no call after it is made |
| `Planner.Blocks` | cloud-web-ui.py:171-174 | one rendered `Tool: …\nResult: …` block per entry, in order |
| `Planner.ResultsTextConcat` | cloud-web-ui.py:171-174 | the text for entries `a + b` is the text for `a`, then `"\n\n"`, then the text for `b`: the rendering keeps plan order |
| `Planner.ResultsTextOfOne` | cloud-web-ui.py:172 | a single entry renders as `Tool: {tool}\nResult: ` followed by its result text, or by its error text when it has no result |
| `Planner.ServerType` | cloud-web-ui.py:196 | the server type is `"Local"` or `"Cloud"` |
| `Planner.ServerTypeLocalIff` | cloud-web-ui.py:196 | the type is `"Local"` exactly when the URL is some text followed by `.py` |
| `Planner.FinalQuestion` | cloud-web-ui.py:236 | the custom question is used when it has a non-whitespace character, and the selected one when it is all whitespace |
| `Planner.QueryMcpServer` | cloud-web-ui.py:129-197 | an unparsable plan gives `"AI response was not valid JSON"` and no call is made. A failure creating or opening the client gives `"Failed to connect to MCP server: "` plus the error, and no call is made. Otherwise the planned calls are made in plan order up to the first malformed one. A failure closing the session, or a malformed plan, then gives the connection error and discards all entries. Otherwise: the plan, one entry per planned call in order, the answer written from `results_text`, and the server type |

## Left out

- File I/O. The model does not cover reading `student_data.csv` or the `os.path.exists` checks (mcp-server.py:9-14, cloud-mcp-server.py:10-12, cloud-web-ui.py:53-67), nor the `exit(1)` when data is missing. The table is a given `seq<Record>`, and both ways the cloud server can obtain it (from the file, or from `GenerateSample`) are up to the caller.
- The `random` draws (cloud-mcp-server.py:21-25). They are inputs. `uniform(0.2, 1.0)` is a float draw, so only its bounds are stated.
- Formatting of the tool results: `:.2%`, `:.1f`, `:.0%`, and pandas `to_string()` with its layout and row order. The tools return numbers in a datatype instead.
- Floating point. Completion rates, the threshold and every mean are exact `real`s. pandas' float64 `mean()` of the completion rates (mcp-server.py:23, 26; cloud-mcp-server.py:37, 40) and of the ticket counts (mcp-server.py:42, 45; cloud-mcp-server.py:56, 60) rounds, and the float `<` against the threshold (mcp-server.py:32, cloud-mcp-server.py:46) compares rounded values. The model states the exact values and comparisons.
- pandas details. NaN handling in `mean`, `sum` and `groupby` is not modelled: every record has a defined course, rate and ticket count.
- The FastMCP servers, their tool registration and name dispatch (`@mcp.tool()`, `mcp.run`, port and environment handling). The fastmcp `Client`, `async with`, `asyncio.run` and the transports are left out too. A call into the catalog is the opaque `call_tool` parameter of the planner.
- Both OpenAI chat-completion requests (cloud-web-ui.py:83-127, 176-190). The reply to the planning request, decoded, is the `plan` input, and the final answer is the `synthesize` parameter. As a result, an exception raised by these requests, or by `json.loads` for a reason other than invalid JSON, is not modelled.
- The choice between `result.content[0].text` and `str(result)` (cloud-web-ui.py:156). The call's text is whatever `call_tool` returns.
- The Streamlit interface: page layout, sidebar, server selection, buttons, result display and footer (cloud-web-ui.py:8-51, 199-281). Only the `final_question` expression at line 236 is modelled.
- The course argument stays an `Option<string>`. A plan that passes a non-string JSON value as a course, or an explicit null threshold, is not modelled.
- Planner.ShowTool: Python's `str()` of a float, list or dict used as a tool name is not reproduced; such values render as a placeholder naming their type.
- Planner.QueryMcpServer: if the session fails to close after a malformed plan, the model reports the closing error, as Python does when `__aexit__` raises. It does not model the session closing without an error but suppressing the exception.
- Idempotence of the tools is not a separate lemma. The tools are Dafny functions over an immutable sequence, so two calls with the same arguments give the same result by construction; a lemma saying so would have an empty proof.
- The `'No result'` default of `results_text` (cloud-web-ui.py:172) has no branch in the model. Every recorded entry carries either `result` or `error`, so that default is never reached.
