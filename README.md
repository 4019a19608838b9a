# Mental health plan generator: a Dafny model of its processing core

The repository is one Streamlit script, `mental_plan_processor.py`. A signed-in
user uploads a CSV or Excel table of patient records. The script sends each
record to a plan-generation webhook. It collects the answers into a report
table with six columns, and it issues one warning for each record whose call
failed. The same page has a chat box that forwards the conversation to a chat
completion service.

The model replaces the network calls with their outcomes, given as plain
values. It covers the following parts, one module each:

- `PlanClient`: `analyze_and_generate_plan`. A call outcome (`Http(status, body)`
  or `Raised(message)`) becomes the dictionary the loop reads.
- `Batch`: the loop over the records (`ProcessBatch`, an imperative `for` loop
  that appends to `results`). It is proved equal to the pure specification
  `Report`/`Warnings`. Lemmas about that specification cover order,
  completeness, failure isolation and the "N/A" defaults.
- `Chat`: the session's `chat_history` (a `seq` field of class `ChatSession`).
  It also covers the message list built by the comprehension and the reply
  text, including the error reply.
- `App`: the choice of reader by the `.csv` suffix, and the page's terminal
  states: results table, "no valid results", read failure, and "please upload".
- `Decimal` and `PyText`: Python's `str(int)`, `str.strip()` and `str.endswith()`,
  as far as the script uses them.

Behaviour of the script that is easy to misread, as the model follows it:

- Only status 200 counts as success. A 201 or any other 2xx status becomes
  `{"error": "Status 201"}`.
- The skip test is whether the output has an `"error"` key. So a 200 body that
  has an `"error"` key is skipped too (`PlanClient.SkippedIff`).
- The "N/A" defaults are filled in by the loop, not by the client.
- A readable file with no records and a file whose every call fails both end in
  "No valid results generated.". They differ only in the warnings: none for the
  first, one per record for the second (`Batch.AllFailed`). Both states differ
  from the no-file state (`App.ShowUploadSection`, `App.NoticesDistinct`).

## Model

| member | source | states |
|---|---|---|
| `PlanClient.Normalise` | mental_plan_processor.py:78-89 | status 200 returns the body unchanged; any other status returns the one-key map `{"error": "Status <code>"}`; a raised error returns `{"error": <message>}` |
| `PlanClient.SkippedIff` | mental_plan_processor.py:84-89 | a record is skipped exactly when its call did not end in status 200, or when the 200 body itself has an "error" key |
| `PlanClient.StatusErrorIdentifiesCode` | mental_plan_processor.py:87 | two non-200 statuses give the same error dictionary if and only if they are the same code |
| `PlanClient.RaisedMimicsStatus` | mental_plan_processor.py:87-89 | an exception whose text is "Status c" gives the same error dictionary as status c, so the cause is not recoverable from the dictionary |
| `Decimal.NatToString` | mental_plan_processor.py:87 | the decimal spelling of the status code: non-empty, digits only, leading zero only for 0 |
| `Decimal.NatRoundTrip` | mental_plan_processor.py:87 | reading the digits back gives the number |
| `Decimal.IntToStringInjective` | mental_plan_processor.py:87 | different integers have different spellings |
| `Batch.ProcessBatch` | mental_plan_processor.py:105-120 | the loop's `results` equal `Report(records, outputs)` and its warnings equal `Warnings(outputs)`, where `outputs` are the normalised call outcomes, one per record |
| `Batch.PositionsSound` | mental_plan_processor.py:107-111 | every listed position is a record index whose output is, or is not, an error, as requested |
| `Batch.PositionsIncreasing` | mental_plan_processor.py:107 | the listed positions strictly increase, so input order is kept |
| `Batch.PositionsComplete` | mental_plan_processor.py:107-111 | every index with the requested kind of output is listed |
| `Batch.PositionsPartition` | mental_plan_processor.py:107-111 | successes and failures together number exactly the records |
| `Batch.ReportAt` | mental_plan_processor.py:105-120 | the table has one row per record without an "error" key, and row k is built from the k-th such record and its output |
| `Batch.WarningsAt` | mental_plan_processor.py:109-111 | warning k is "❌ Error processing row: " followed by the error text of the k-th failed record |
| `Batch.EachRecordOnce` | mental_plan_processor.py:107-120 | each record produces exactly one row or one warning |
| `Batch.ReportFields` | mental_plan_processor.py:113-120 | in row k, Patient ID and Condition are the record's `id` and `condition`, and the four plan fields are the output's `risk`, `initial_plan`, `adapted_plan` and `final_plan`; each is "N/A" when its key is absent |
| `Batch.ColumnsExact` | mental_plan_processor.py:113-120 | a row has exactly six entries, keyed Patient ID, Condition, Risk Level, Initial Plan, Adapted Plan, Final Plan in that order; the six keys are distinct, and each key looks up its own field |
| `Batch.ColumnsOnlyHeader` | mental_plan_processor.py:113-120 | no key outside those six is present in a row |
| `Batch.LookupFirst` | mental_plan_processor.py:113-120 | a lookup in the row's ordered pairs finds the value of the first entry with that key (the row's keys are distinct, so this is the dictionary's value) |
| `Batch.LookupMissing` | mental_plan_processor.py:113-120 | a lookup of a key that no entry has finds nothing |
| `Batch.ReportSnoc` | mental_plan_processor.py:107-120 | the unfolding step of `Report`: one more record adds its row at the end of the table, or nothing when its output has an "error" key |
| `Batch.ReportAppend` | mental_plan_processor.py:107-120 | the report of a batch split in two is the report of the first part followed by that of the second |
| `Batch.WarningsAppend` | mental_plan_processor.py:109-111 | the same holds for the warnings |
| `Batch.FailureIsolated` | mental_plan_processor.py:109-111 | a failed record adds no row, and the records after it are reported as if it were absent |
| `Batch.FailureWarned` | mental_plan_processor.py:109-111 | a failed record adds exactly its own warning, between the warnings before and after it |
| `Batch.AllFailed` | mental_plan_processor.py:107-128 | if every call fails, the table is empty and there is one warning per record |
| `Batch.TimeoutScenario` | mental_plan_processor.py:105-120 | three records where the second call times out give the rows of the first and third, in order, and one warning naming the timeout |
| `Batch.MissingFieldsScenario` | mental_plan_processor.py:113-120 | a record without `id` or `condition`, whose answer has only `risk`, gives a row that is "N/A" everywhere except Risk Level |
| `Chat.ToMessage` | mental_plan_processor.py:54 | an entry becomes a message with role user exactly when its speaker is "You" and assistant otherwise; the role is never system and the content is unchanged |
| `Chat.BuildRequest` | mental_plan_processor.py:53-55 | the message list is the system instruction followed by the replayed history |
| `Chat.KeptSound` | mental_plan_processor.py:55 | every kept position holds an entry other than ("AI", "Loading..."), and the positions increase |
| `Chat.KeptComplete` | mental_plan_processor.py:55 | every entry other than ("AI", "Loading...") is kept |
| `Chat.ReplayAt` | mental_plan_processor.py:53-55 | message k of the replay is the k-th kept history entry, converted |
| `Chat.ReplayAppend` | mental_plan_processor.py:53-55 | replaying a history in two parts gives the two replays one after the other |
| `Chat.NoSystemAfterFirst` | mental_plan_processor.py:53-55 | only the first message of the request has the system role |
| `Chat.UserTurnIsLast` | mental_plan_processor.py:48-55 | after the user's entry is appended, the request is the previous request followed by that text with role user |
| `Chat.ReplyText` | mental_plan_processor.py:57-59 | a completed call's reply is its content stripped; a failure's reply is "❌ OpenAI error: " followed by the error text |
| `Chat.CompletedReplyTrimmed` | mental_plan_processor.py:57 | a completed reply neither begins nor ends with white space |
| `Chat.ChatSession.constructor` | mental_plan_processor.py:22-23 | a new session's history is empty |
| `Chat.ChatSession.Submit` | mental_plan_processor.py:47-61 | an empty input changes nothing and sends nothing; any other input sends the request built from the history plus ("You", input), and the history grows by exactly ("You", input) then ("AI", reply), with earlier entries unchanged |
| `PyText.LeadingSpaces` | mental_plan_processor.py:57 | the number of leading characters `strip()` drops: all of them are white space (as `str.isspace()` defines it), and the next character, if any, is not |
| `PyText.TrailingSpaces` | mental_plan_processor.py:57 | the number of trailing characters `strip()` drops: all of them are white space, and the character before them, if any, is not |
| `PyText.StripSlice` | mental_plan_processor.py:57 | `strip()` returns the slice `s[i..j]` with only white space outside it, and the slice neither starts nor ends with white space |
| `PyText.StripIdempotent` | mental_plan_processor.py:57 | stripping twice is the same as stripping once |
| `App.ReaderForCsv` | mental_plan_processor.py:95-98 | the CSV reader is chosen exactly for names ending in ".csv" (case-sensitive); every other name goes to the Excel reader |
| `App.Read` | mental_plan_processor.py:95-98 | the file is read by the reader its name selects |
| `App.NoticesDistinct` | mental_plan_processor.py:128-133 | the "no valid results", read-failure and "please upload" messages differ, whatever the failure's text |
| `App.ShowUploadSection` | mental_plan_processor.py:93-133 | with no file the page asks for one; a failing reader gives the read-failure state and no warnings; otherwise the warnings are those of the batch, and the page shows the table if it has rows and "no valid results" if not |

## Left out

- The login form (lines 25-38): a UI gate with fixed credentials.
- Page configuration, secrets loading and the missing-key warning (lines 11-17).
- Rendering: titles, `st.dataframe`, the preview of the first rows, the chat rendering loop (lines 63-65) and the success messages. Warnings and terminal states are modelled only as returned values.
- The webhook POST (URL, JSON body, 15-second timeout) and the chat completion call (model name, the shape of the answer). Both are network I/O, so the model takes their outcomes as inputs: one `CallOutcome` per record, and one `ChatOutcome` per submission.
- The prompt text built from `row.to_dict()`. It only feeds the network call, so it is not modelled.
- pandas: `read_csv`/`read_excel` are replaced by what each reader makes of the file (`App.ParseResult`). `DataFrame`, `to_csv` and the download button are not modelled.
- Cell and JSON values are modelled as strings. NaN cells, numeric cells and non-string JSON values are not modelled. A JSON answer that is not an object (a list, say) is not modelled either; the script would fail on it in `output.get` and show the read-failure message.
- Streamlit's rerun behaviour: the text box keeps its value across reruns, so the script may send the same input again. The model treats each call of `ChatSession.Submit` as one run of the handler.
- Session state other than the chat history (the `authenticated` flag).
