# Spreadsheet assistant command layer, in Dafny

This project models the client-side command layer of the BetterExcel/Skopeo
spreadsheet assistant. It also models two pieces of state on the orchestrator
server. Each source file becomes one Dafny module:

- `Text` (text.dfy) and `Js` (js.dfy) hold the shared vocabulary:
  - ASCII letters, digits, upper-casing, JavaScript `trim` and whitespace, and substring search;
  - JavaScript values, with their truthiness and their `String()`;
  - a guard outcome (`Pass` or `Fail(kind, detail)`) that stands for "returns or throws `Error('KIND: detail')`";
  - the text `e?.message || String(e)` reads from a thrown value: the `message` of an `Error` or of a plain object, else `String(e)`.
- `Validators` (validators.ts) covers the guards on cell addresses, ranges, column identifiers and formulas:
  - `parseAddress`;
  - `colLettersToNumber`, as a recursive function and as the loop the source runs.
- `Errors` (errors.ts) covers `classifyError`, as the source's chain of tests, and also as an ordered rule table where the first match wins. It also holds the `userMessage` table.
- `Preview` (preview.ts) covers `estimateCells`, `splitCell`, the `colToNum` loop, and the `summarizePreview` loop over a batch of tool calls.
- `Tools` (tools.ts) covers `BasicTools`:
  - Each tool is a class method that validates its arguments and then issues an ordered sequence of UNO commands through a channel object.
  - The channel appends every message to `sent`. The `k`-th message ever sent settles with the `k`-th scripted reply.
  - Every method is proved against `Exec`, the tool's piecewise trace. `ExecRuns` ties `Exec` to running the tool's script of guards and sends.
- `Executor` (executor.ts) covers `ToolExecutor`:
  - `dispatch` maps a call's name to a tool, coercing its arguments.
  - `run` is the fail-fast loop. It records dispatches, compensating `undo` attempts and progress reports as events.
  - `Run` is proved against `RunSteps`. `RunStepsRunCalls` equates `RunSteps` with the reference `RunCalls`, about which the run's properties are proved.
- `Bridge` (bridge.ts) covers `UNOBridge`:
  - The pending table maps each id to what it waits for. `outbox` records posted messages and `settled` records promise completions.
  - Ids are fresh values passed in. A fired timer is an explicit `Timeout(id)` event.
  - The `uno` message is recorded as its id, command and arguments, not as the literal object.
- `RateLimit` (rateLimit.ts) covers the fixed-window limiter. It is a pure decision function `Admit` over the counter map, plus the `Limiter` class whose handler is proved to be `Admit`.
- `Plans` (plan.ts) covers:
  - the request schema, as predicates on a JSON value;
  - `PlanStore`, a class over the plan map;
  - the decisions of the two routes, the stream route in its two steps: the lookup before its first `await` (`Begin`) and the `finally` after the stream ends (`Finish`).

## Where the code and its tests disagree

The model follows the code.

- `validateRange` never checks the start row against 1, so a lone `A0` passes it (`Validators.LoneRowZero`), while `validateCellAddress` refuses it (`Validators.RowZeroAddress`). validators.test.ts:17 expects `A0:B2` to throw, and as written it does, but only because `RANGE_RE` refuses every `start:end` (see Findings). The corrected guard accepts `A0:B2` (`Validators.StartRowZero`).
- `ToolExecutor.run` never retries: each call is dispatched at most once (`Executor.DispatchedInOrder`). executor.test.ts:34 and :53 expect a failing tool to be called twice.
- `markConsumed` deletes the record in the same step that flags it. A stored record is therefore never consumed, and the `409` answer of `GET /api/stream/:planId` cannot occur (`Plans.PlanRoutes.Stream`, last ensures).
- A plan is streamed once only by requests that do not overlap. Two requests whose handlers both pass the lookup before the first stream ends both stream it (`Plans.PlanRoutes.OverlappingBegins`); see Findings.
- As written, `RANGE_RE` refuses every `start:end` range; see Findings. Every range tool then throws `INVALID_RANGE: Invalid range` for such a range and issues nothing (`Tools.AsWrittenPairsThrow`, `Executor.PairRangeStepAsWritten`). The tools and the executor are otherwise stated with the evidently intended pattern; on every other input the two agree (`Tools.AsWrittenAgreesTool`, `Executor.DispatchAgreesAsWritten`). The preview does not use `RANGE_RE`: preview.ts:11 builds its own `^CELL(:CELL)?$` pattern, which is modelled as written (`Validators.MatchRange`) and is not affected by the bug.

## Model

| member | source | states |
|---|---|---|
| Validators.MatchCell | apps/ai-calc-assistant/src/agent/validators.ts:7 | a match of the cell pattern is a well-formed address (1-3 letters, 1-7 digits, optional `$`s) whose pieces render back to exactly the input |
| Validators.MatchRender | apps/ai-calc-assistant/src/agent/validators.ts:7 | every well-formed address is matched, and the pieces it gives back are its own |
| Validators.ColLettersToNumber | apps/ai-calc-assistant/src/agent/validators.ts:75-82 | the loop computes the base-26 value `ColumnNumber` of the letters, and 1-3 letters give a column between 1 and 18278 |
| Validators.ColumnNumberRange | apps/ai-calc-assistant/src/agent/validators.ts:75-82 | one to three letters decode to a column between A (1) and ZZZ (18278) |
| Validators.ColumnNumberUpper | apps/ai-calc-assistant/src/agent/validators.ts:75-76 | decoding is case-insensitive: upper-casing the letters first changes nothing |
| Validators.ColumnLetters | apps/ai-calc-assistant/src/agent/validators.ts:75-82 | Z is 26, AA is 27, and XFD is 16384, the last column |
| Validators.ParseRendered | apps/ai-calc-assistant/src/agent/validators.ts:69-73 | `parseAddress` of an address, `$`s dropped, gives the column its letters decode to and the row its digits spell |
| Validators.ParsedHasNoSpace | apps/ai-calc-assistant/src/agent/validators.ts:69-71 | text that `parseAddress` accepts holds no whitespace |
| Validators.CellAddressSpec | apps/ai-calc-assistant/src/agent/validators.ts:13-22 | `validateCellAddress` passes exactly on a text matching the cell pattern whose column is in 1..16384 and row in 1..1048576; every refusal is `INVALID_RANGE` |
| Validators.CellAddressPassed | apps/ai-calc-assistant/src/agent/validators.ts:13-22 | an accepted address matches the pattern as it stands and lies in the sheet |
| Validators.CellAddressAccepted | apps/ai-calc-assistant/src/agent/validators.ts:13-22 | a matching in-sheet address is accepted |
| Validators.PaddedAddressRefused | apps/ai-calc-assistant/src/agent/validators.ts:14-18 | an address with leading or trailing whitespace passes the trimmed pattern test but is refused by `parseAddress` on the untrimmed text |
| Validators.SmallAddresses | apps/ai-calc-assistant/src/agent/validators.ts:13-22 | `A1` and `B2` are accepted |
| Validators.LastCellAccepted | apps/ai-calc-assistant/src/agent/validators.ts:13-22 | `XFD1048576`, the bottom-right cell, is accepted |
| Validators.AbsoluteAccepted | apps/ai-calc-assistant/src/agent/validators.ts:13-22 | `$B$2` is accepted |
| Validators.PastLastColumnRefused | apps/ai-calc-assistant/src/agent/validators.ts:19-20 | `ZZZ1048577` matches the pattern but is out of bounds and refused |
| Validators.DigitFirstRefused | apps/ai-calc-assistant/src/agent/validators.ts:14-15 | `1A` does not match the pattern and is refused |
| Validators.RowZeroAddress | apps/ai-calc-assistant/src/agent/validators.ts:19-20 | `A0` is refused as out of bounds |
| Validators.MatchRangeSound | apps/ai-calc-assistant/src/agent/preview.ts:11 | the preview's own range pattern, as written (which is also the corrected `RANGE_RE` of validators.ts:8-10): a match is a well-formed start with an optional well-formed end, rendering back to the input |
| Validators.MatchRangeRender | apps/ai-calc-assistant/src/agent/preview.ts:11 | the preview's own range pattern, as written (which is also the corrected `RANGE_RE`): every well-formed `start` or `start:end` is matched with its own pieces |
| Validators.SplitSingle | apps/ai-calc-assistant/src/agent/validators.ts:37 | splitting a lone address at `:` gives the address and no end |
| Validators.SplitPair | apps/ai-calc-assistant/src/agent/validators.ts:37 | splitting `start:end` at `:` gives the two addresses |
| Validators.CheckRendered | apps/ai-calc-assistant/src/agent/validators.ts:37-45 | after the pattern test, a range passes exactly when its start is left of and above its end and the end is inside the sheet |
| Validators.RangeSpec | apps/ai-calc-assistant/src/agent/validators.ts:33-46 | corrected: `validateRange` with the intended `RANGE_RE` passes exactly on a matching range whose start is top-left of its end and whose end is in the sheet; every refusal is `INVALID_RANGE` |
| Validators.RangePassed | apps/ai-calc-assistant/src/agent/validators.ts:33-46 | an accepted range matches the pattern untrimmed and meets the corner conditions |
| Validators.RangeAcceptedPasses | apps/ai-calc-assistant/src/agent/validators.ts:33-46 | corrected: with the intended `RANGE_RE`, a matching range that meets the corner conditions passes |
| Validators.PaddedRangeRefused | apps/ai-calc-assistant/src/agent/validators.ts:34-38 | a range with leading or trailing whitespace passes the trimmed test but is refused when its corners are parsed |
| Validators.AcceptedRangeBounds | apps/ai-calc-assistant/src/agent/validators.ts:40-45 | in an accepted range both corners are within the maxima, and the start column is at least 1, but the start row is only at least 0 |
| Validators.StartRowZero | apps/ai-calc-assistant/src/agent/validators.ts:37-45 | `A0:B2` is accepted by the corrected guard, its start row never being checked against 1, and refused as written |
| Validators.LoneRowZero | apps/ai-calc-assistant/src/agent/validators.ts:33-46 | a lone `A0` is accepted by the guard as written and as corrected, and is its own start |
| Validators.RowZeroSplit | apps/ai-calc-assistant/src/agent/validators.ts:37 | the start of `A0:B2` is `A0` |
| Validators.SameCellRange | apps/ai-calc-assistant/src/agent/validators.ts:33-46 | corrected: a range from a cell to itself, `B2:B2`, is accepted by the intended guard; as written `RANGE_RE` refuses it (`Validators.AsWrittenRefusesPairs`) |
| Validators.ReversedRange | apps/ai-calc-assistant/src/agent/validators.ts:33-46 | the reversed range `C10:A1` is refused |
| Validators.AsWrittenRefusesPairs | apps/ai-calc-assistant/src/agent/validators.ts:8-10 | with the pattern as built, every text whose trim holds a `:` is refused |
| Validators.RangeA1C10 | apps/ai-calc-assistant/src/agent/validators.ts:8-10 | `A1:C10` is refused by the pattern as built and accepted by the intended one |
| Validators.AsWrittenAgrees | apps/ai-calc-assistant/src/agent/validators.ts:8-10 | on a text whose trim holds no `:`, the guard as written and the corrected guard give the same outcome |
| Validators.ColumnIdNumber | apps/ai-calc-assistant/src/agent/validators.ts:48-52 | an accepted column identifier names a column from 1 to 18278, read the same in either case |
| Validators.FormulaSpec | apps/ai-calc-assistant/src/agent/validators.ts:24-31 | `validateFormula` passes exactly on text of length at least 2 starting with `=`; `validateSafeFormula` also demands at most 50000 UTF-16 units (50000 characters inside the Basic Multilingual Plane), and refuses with `FORMULA_ERROR` |
| Validators.FormulaExamples | apps/ai-calc-assistant/src/agent/validators.ts:24-31 | `=SUM(A1:A10)` passes; `SUM(A1:A10)` and `=` are refused with their messages |
| Validators.SafeTextSpec | apps/ai-calc-assistant/src/agent/validators.ts:55-59 | `validateSafeText` refuses exactly the text longer than 100000 UTF-16 units: all text up to 50000 characters passes, all text over 100000 characters is refused |
| Validators.AstralCountsTwice | apps/ai-calc-assistant/src/agent/validators.ts:58 | 60000 characters beyond the Basic Multilingual Plane are 120000 UTF-16 units and are refused |
| Errors.Classify | apps/ai-calc-assistant/src/agent/errors.ts:19-36 | `technical` is the message unchanged, and `retryable` holds exactly for TIMEOUT, COLLABORA_NOT_READY and TRANSIENT |
| Errors.FirstFiring | apps/ai-calc-assistant/src/agent/errors.ts:23-35 | the index of the first rule that fires, with no earlier rule firing |
| Errors.RuleTests | apps/ai-calc-assistant/src/agent/errors.ts:23-33 | each rule fires exactly on its substring test, with the grouping of `&&` over `\|\|` (COLLABORA needs READY unless CONTENTWINDOW or IFRAME; FORMULA needs ERROR unless INVALID_FORMULA) |
| Errors.ChainIsFirstMatch | apps/ai-calc-assistant/src/agent/errors.ts:21-35 | the chain of tests gives the code of the first rule that fires on the upper-cased text |
| Errors.FirstRuleWins | apps/ai-calc-assistant/src/agent/errors.ts:23-35 | when rule i fires and no earlier rule does, the code is rule i's, so a text with INVALID_RANGE and ADDRESS is INVALID_RANGE |
| Errors.UnknownWhenNoRule | apps/ai-calc-assistant/src/agent/errors.ts:35 | the code is UNKNOWN exactly when no rule fires, and UNKNOWN is not retryable |
| Errors.TimeoutFirst | apps/ai-calc-assistant/src/agent/errors.ts:23 | any text containing TIMEOUT, in any case, is a retryable TIMEOUT whatever else it contains |
| Errors.CaseInsensitive | apps/ai-calc-assistant/src/agent/errors.ts:21 | upper-casing the message first does not change the code |
| Errors.TechnicalKept | apps/ai-calc-assistant/src/agent/errors.ts:20 | a non-empty error message is kept as `technical`, whether thrown as an `Error`, as a plain object with a `message`, or as a string |
| Errors.UserMessageCode | apps/ai-calc-assistant/src/agent/errors.ts:38-61 | the code can be read back from its user message: `CodeOfMessage` inverts `userMessage` |
| Errors.UserMessagesDistinct | apps/ai-calc-assistant/src/agent/errors.ts:38-61 | different codes get different user messages, `UNKNOWN` included |
| Preview.SplitCellParses | apps/ai-calc-assistant/src/agent/preview.ts:21-25 | on a matched address, `splitCell` reads the same column and row as `parseAddress` |
| Preview.EstimateCells | apps/ai-calc-assistant/src/agent/preview.ts:10-19 | the estimate is at least 1, and exactly 1 for text matching neither an address nor `start:end` |
| Preview.Area | apps/ai-calc-assistant/src/agent/preview.ts:16-18 | the rectangle between two corners has at least one cell |
| Preview.AreaSymmetric | apps/ai-calc-assistant/src/agent/preview.ts:16-17 | the rectangle is the same whichever corner comes first |
| Preview.SplitRendered | apps/ai-calc-assistant/src/agent/preview.ts:21-25 | `splitCell` gives back an address's letters and its row |
| Preview.EstimateMatched | apps/ai-calc-assistant/src/agent/preview.ts:11-18 | a matched range is estimated as the rectangle between its corners, a lone address being its own end |
| Preview.EstimateSingle | apps/ai-calc-assistant/src/agent/preview.ts:13-18 | a single address counts one cell |
| Preview.EstimatePair | apps/ai-calc-assistant/src/agent/preview.ts:10-19 | `start:end` counts (\|Δcol\|+1)·(\|Δrow\|+1) cells |
| Preview.EstimateSymmetric | apps/ai-calc-assistant/src/agent/preview.ts:16-17 | a reversed range counts as many cells as the range |
| Preview.EstimateA1B3 | apps/ai-calc-assistant/src/agent/preview.ts:10-19 | `A1:B3` counts 6 cells |
| Preview.ColToNum | apps/ai-calc-assistant/src/agent/preview.ts:27-32 | the loop computes the same value as the validators' `colLettersToNumber` |
| Preview.Contribution | apps/ai-calc-assistant/src/agent/preview.ts:38-43 | a call contributes exactly when it is an address tool with a truthy `address` or a range tool with a truthy `range`, and then adds at least one cell |
| Preview.SummarizePreview | apps/ai-calc-assistant/src/agent/preview.ts:34-47 | the loop's total and ranges are the folds over the calls; confirmation is required exactly when the total exceeds the threshold (0 meaning 1000), and `reason` is LARGE_OPERATION exactly then |
| Preview.SummaryAppend | apps/ai-calc-assistant/src/agent/preview.ts:35-44 | the summary of two batches is the two summaries joined: ranges in input order, totals added |
| Preview.SummaryBounds | apps/ai-calc-assistant/src/agent/preview.ts:35-44 | there are no more ranges than calls, and the total is at least the number of ranges |
| Preview.IgnoredCall | apps/ai-calc-assistant/src/agent/preview.ts:39-43 | other tools, and calls without their `address` or `range`, change nothing |
| Preview.CountedCall | apps/ai-calc-assistant/src/agent/preview.ts:39-43 | an address call adds its text and one cell; a range call adds its text and `estimateCells` of it |
| Tools.UnoChannel.Uno | apps/ai-calc-assistant/src/agent/tools.ts:16 | an awaited command is appended to the sent log and settles with the reply scripted for its position |
| Tools.UnoChannel.Request | apps/ai-calc-assistant/src/agent/tools.ts:45 | an awaited request is appended to the sent log and settles with the reply scripted for its position |
| Tools.RunAppend | apps/ai-calc-assistant/src/agent/tools.ts:19-32 | running two scripts back to back is running the first, then, unless it threw, the second from where it stopped |
| Tools.RunIssuesPrefix | apps/ai-calc-assistant/src/agent/tools.ts:19-32 | commands go out in script order with none skipped: what was issued is a prefix of the script's messages, all of them when the run completes |
| Tools.RunStopsAtFailure | apps/ai-calc-assistant/src/agent/tools.ts:21-23 | a run throws only because a guard failed or the last issued command was rejected with that error |
| Tools.GuardsThenRun | apps/ai-calc-assistant/src/agent/tools.ts:13-16 | a failing guard throws its error before anything is issued; otherwise the rest runs |
| Tools.FirstFailure | apps/ai-calc-assistant/src/agent/tools.ts:13-16 | the index of the first failing guard, all before it passing |
| Tools.InvalidIssuesNothing | apps/ai-calc-assistant/src/agent/tools.ts:10-113 | for every tool, an invalid argument throws the first failing guard's error and issues no command |
| Tools.ValidSendsCommands | apps/ai-calc-assistant/src/agent/tools.ts:10-113 | for every tool whose guards pass, the run is the run of its commands |
| Tools.SendAllResolved | apps/ai-calc-assistant/src/agent/tools.ts:10-113 | when every reply resolves, all of a tool's commands are issued in order and it completes |
| Tools.ExecRuns | apps/ai-calc-assistant/src/agent/tools.ts:10-113 | the piecewise account of each tool (own guards, the move to a cell, then its command) agrees with running its script |
| Tools.GoToMoves | apps/ai-calc-assistant/src/agent/tools.ts:13-17 | `go_to_cell` validates the address, then issues one GoToCell with `ToPoint` |
| Tools.SetTextSends | apps/ai-calc-assistant/src/agent/tools.ts:19-24 | on a valid address, GoToCell then EnterString with the text; a rejected move stops before EnterString |
| Tools.ApplyFormulaExec | apps/ai-calc-assistant/src/agent/tools.ts:26-32 | `apply_formula` throws the address's error first, then the formula's, each before anything is issued; otherwise it moves and enters the formula |
| Tools.ApplyFormulaSends | apps/ai-calc-assistant/src/agent/tools.ts:26-32 | on a valid address and formula, GoToCell then EnterString with the formula; a rejected move stops before EnterString |
| Tools.SortRangeMoves | apps/ai-calc-assistant/src/agent/tools.ts:80-90 | once range and column pass, `sort_range` moves to the text before `:` and then sorts on the upper-cased column with the ascending flag |
| Tools.SortRangeSends | apps/ai-calc-assistant/src/agent/tools.ts:80-90 | with a valid start, exactly GoToCell then DataSort are issued, the sort only if the move resolved |
| Tools.UndoRedoSendOne | apps/ai-calc-assistant/src/agent/tools.ts:35-41 | `undo` and `redo` each issue exactly one command with no arguments |
| Tools.SelectRangeSendsOne | apps/ai-calc-assistant/src/agent/tools.ts:109-112 | `select_range` issues one GoToCell with the whole range and no preceding move, or throws before issuing anything |
| Tools.AutoFilterOnlyMoves | apps/ai-calc-assistant/src/agent/tools.ts:93-98 | `filter_range_autofilter` issues only the move to the range's start |
| Tools.NameRangeIssuesNothing | apps/ai-calc-assistant/src/agent/tools.ts:101-106 | `named_range_create` issues nothing, and throws `INVALID_NAME` for an empty name or one with whitespace |
| Tools.StartRevalidated | apps/ai-calc-assistant/src/agent/tools.ts:49-98 | a range tool whose range passes but whose start address fails (row 0) throws that error before issuing anything |
| Tools.AsWrittenPairsThrow | apps/ai-calc-assistant/src/agent/tools.ts:49-112 | with `validateRange` as written, every range tool given a range whose trim holds `:` throws `INVALID_RANGE: Invalid range` and issues nothing |
| Tools.AsWrittenAgreesTool | apps/ai-calc-assistant/src/agent/tools.ts:10-113 | on every other call, the tools as written behave exactly as `Exec` says |
| Tools.StartRevalidatedAsWritten | apps/ai-calc-assistant/src/agent/tools.ts:49-98 | as written too, a range that passes but whose start fails (a lone `A0`) throws the start's error before issuing anything |
| Tools.BasicTools.GoTo | apps/ai-calc-assistant/src/agent/tools.ts:13-17 | the channel's log grows by exactly the tool's trace and the result is its outcome |
| Tools.BasicTools.SetText | apps/ai-calc-assistant/src/agent/tools.ts:19-24 | the log grows by exactly `Exec` of the tool and the result is its outcome |
| Tools.BasicTools.ApplyFormula | apps/ai-calc-assistant/src/agent/tools.ts:26-32 | the log grows by exactly `Exec` of the tool and the result is its outcome |
| Tools.BasicTools.Undo | apps/ai-calc-assistant/src/agent/tools.ts:35-37 | the log grows by exactly `Exec` of the tool and the result is its outcome |
| Tools.BasicTools.Redo | apps/ai-calc-assistant/src/agent/tools.ts:39-41 | the log grows by exactly `Exec` of the tool and the result is its outcome |
| Tools.BasicTools.GetSelection | apps/ai-calc-assistant/src/agent/tools.ts:43-47 | one request is sent, and on success the selection is the reply's data or `{}` |
| Tools.BasicTools.CreatePivot | apps/ai-calc-assistant/src/agent/tools.ts:49-54 | the log grows by exactly `Exec` of the tool and the result is its outcome |
| Tools.BasicTools.CreateChart | apps/ai-calc-assistant/src/agent/tools.ts:56-64 | the log grows by exactly `Exec` of the tool and the result is its outcome |
| Tools.BasicTools.FormatBold | apps/ai-calc-assistant/src/agent/tools.ts:67-71 | the log grows by exactly `Exec` of the tool and the result is its outcome |
| Tools.BasicTools.FormatCurrency | apps/ai-calc-assistant/src/agent/tools.ts:73-77 | the log grows by exactly `Exec` of the tool and the result is its outcome |
| Tools.BasicTools.SortRange | apps/ai-calc-assistant/src/agent/tools.ts:80-90 | the log grows by exactly `Exec` of the tool and the result is its outcome |
| Tools.BasicTools.AutoFilter | apps/ai-calc-assistant/src/agent/tools.ts:93-98 | the log grows by exactly `Exec` of the tool and the result is its outcome |
| Tools.BasicTools.NameRange | apps/ai-calc-assistant/src/agent/tools.ts:101-106 | the log grows by exactly `Exec` of the tool and the result is its outcome |
| Tools.BasicTools.SelectRange | apps/ai-calc-assistant/src/agent/tools.ts:109-112 | the log grows by exactly `Exec` of the tool and the result is its outcome |
| Executor.KnownNames | apps/ai-calc-assistant/src/agent/executor.ts:43-62 | `dispatch` knows exactly the eight names, and every compensated tool is one of them |
| Executor.UnknownToolFails | apps/ai-calc-assistant/src/agent/executor.ts:60-61 | an unknown name throws `UNKNOWN_TOOL: <name>` without sending anything, and is not compensated |
| Executor.FlagCoercion | apps/ai-calc-assistant/src/agent/executor.ts:50-56 | `bold` is true unless explicitly `false` (and when absent); `ascending` is its truthiness (false when absent) |
| Executor.CallId | apps/ai-calc-assistant/src/agent/executor.ts:20 | the reported id is the call's own id when non-empty, the generated one otherwise |
| Executor.CompletedFirstFailure | apps/ai-calc-assistant/src/agent/executor.ts:19-37 | every call before the completed count succeeds, and the one at it, if any, fails |
| Executor.RunSucceeds | apps/ai-calc-assistant/src/agent/executor.ts:19-24 | `run` completes exactly when every call succeeds, and then its events are one dispatch and one success report per call, in order |
| Executor.RunFails | apps/ai-calc-assistant/src/agent/executor.ts:24-37 | when call m fails first, the events are m successes then the failure's log, and `run` throws an `Error` with the failure's message |
| Executor.SuccessDispatches | apps/ai-calc-assistant/src/agent/executor.ts:19-24 | a successful run dispatches every call once, in order, and attempts no undo |
| Executor.SuccessReports | apps/ai-calc-assistant/src/agent/executor.ts:22-23 | a successful run reports one success per call, with that call's id, in order |
| Executor.FailureLogContents | apps/ai-calc-assistant/src/agent/executor.ts:24-36 | a failure dispatches the call once, attempts undo exactly when the tool changes the sheet, and reports the failure with its message |
| Executor.LogAppend | apps/ai-calc-assistant/src/agent/executor.ts:19-37 | dispatches, reports and undo counts of a joined log are those of its parts joined |
| Executor.DispatchedInOrder | apps/ai-calc-assistant/src/agent/executor.ts:19-23 | calls are dispatched strictly in input order, each at most once, up to and including the first failure and none after |
| Executor.ProgressReports | apps/ai-calc-assistant/src/agent/executor.ts:19-37 | k successes then one failure carrying the thrown message are reported when call k fails first, one success per call otherwise |
| Executor.UndoOnlyAfterMutatingFailure | apps/ai-calc-assistant/src/agent/executor.ts:27-30 | undo is attempted exactly once when the failing call is `set_cell_text`, `apply_formula` or `sort_range`, and never otherwise |
| Executor.UndoSwallowed | apps/ai-calc-assistant/src/agent/executor.ts:26-36 | how the undo ends (resolves or throws) changes neither the events nor the error `run` throws |
| Executor.PairRangeStepAsWritten | apps/ai-calc-assistant/src/agent/executor.ts:21-36 | as written, a `sort_range`, `format_range_bold` or `format_range_currency` call whose range holds `:` issues nothing but the `undo` of `sort_range`, reports the `INVALID_RANGE` failure and rethrows it |
| Executor.DispatchAgreesAsWritten | apps/ai-calc-assistant/src/agent/executor.ts:41-63 | every other call is dispatched as written exactly as `DispatchTrace` says |
| Executor.RunStepsRunCalls | apps/ai-calc-assistant/src/agent/executor.ts:18-39 | the loop driven by a step function that agrees with one iteration of `run` is the reference run |
| Executor.ToolExecutor.Dispatch | apps/ai-calc-assistant/src/agent/executor.ts:41-63 | the bridge log grows by exactly the dispatched tool's trace and the result is its outcome |
| Executor.ToolExecutor.Step | apps/ai-calc-assistant/src/agent/executor.ts:21-36 | one iteration appends its events and its messages (the call's, then the undo's) and ends as the step function says |
| Executor.ToolExecutor.Run | apps/ai-calc-assistant/src/agent/executor.ts:18-39 | the events, the messages sent and the outcome are exactly those of the reference run over the calls |
| Bridge.RequestFields | apps/ai-calc-assistant/src/agent/bridge.ts:63 | the request carries `MessageId` and `id` and every payload key, with payload keys winning |
| Bridge.Addressee | apps/ai-calc-assistant/src/agent/bridge.ts:71-78 | an inbound message settles an entry exactly when it comes from the allowed origin, carries an object with a truthy `id`, and `String(id)` is pending |
| Bridge.ReplyOf | apps/ai-calc-assistant/src/agent/bridge.ts:83-88 | a truthy `error` rejects with `Error(String(error))`; otherwise the request resolves with the reply's `result` |
| Bridge.UnoBridge.constructor | apps/ai-calc-assistant/src/agent/bridge.ts:19-23 | the bridge starts listening with nothing pending, posted or settled |
| Bridge.UnoBridge.Dispose | apps/ai-calc-assistant/src/agent/bridge.ts:25-29 | stops listening and empties the table, settling nothing and posting nothing |
| Bridge.UnoBridge.Uno | apps/ai-calc-assistant/src/agent/bridge.ts:32-48 | adds exactly one fresh id, not already pending, waiting for a UNO reply; posts the command to the allowed origin only when the frame has a window |
| Bridge.UnoBridge.Request | apps/ai-calc-assistant/src/agent/bridge.ts:51-67 | adds exactly one fresh id waiting for the request type; posts `{MessageId, id, ...payload}` only when the frame has a window |
| Bridge.UnoBridge.Timeout | apps/ai-calc-assistant/src/agent/bridge.ts:36-39 | a pending id is removed and rejected with `UNO command timeout` or `<type> request timeout`; an id no longer pending changes nothing |
| Bridge.UnoBridge.OnMessage | apps/ai-calc-assistant/src/agent/bridge.ts:69-89 | a message addressed to a pending id removes that entry and settles it as `ReplyOf` says; any other message changes nothing; every id settles at most once (`Valid`) |
| RateLimit.Settings | services/ai-orchestrator/src/middleware/rateLimit.ts:7-8 | an explicit option wins, then the environment, then 60000 ms and 30 requests |
| RateLimit.ClientKey | services/ai-orchestrator/src/middleware/rateLimit.ts:13 | the key is the ip, else a non-empty forwarded header, else `unknown`, and never empty |
| RateLimit.Window | services/ai-orchestrator/src/middleware/rateLimit.ts:14-18 | a fresh window (count 0, ending now + windowMs) starts exactly when the key has none or now is strictly past its end |
| RateLimit.RetryAfter | services/ai-orchestrator/src/middleware/rateLimit.ts:20 | `Retry-After` is the ceiling of the remaining seconds, and at least 1 |
| RateLimit.Admit | services/ai-orchestrator/src/middleware/rateLimit.ts:13-25 | a request passes exactly when its window holds fewer than max, and then counts one more; a refused one keeps the count and gets `Retry-After`; no other key is touched |
| RateLimit.NoResetAtBoundary | services/ai-orchestrator/src/middleware/rateLimit.ts:15 | a request exactly at the window's end is still counted in it; one a millisecond later starts a new window |
| RateLimit.WindowCap | services/ai-orchestrator/src/middleware/rateLimit.ts:15-25 | while no request comes after the window ends, at most max minus the count so far pass |
| RateLimit.AtMostMaxPerWindow | services/ai-orchestrator/src/middleware/rateLimit.ts:14-25 | a freshly opened window lets at most max requests of its key through |
| RateLimit.Limiter.constructor | services/ai-orchestrator/src/middleware/rateLimit.ts:6-8 | the handler's settings are the options, else the environment, else the defaults, over the shared counter map |
| RateLimit.Limiter.Handle | services/ai-orchestrator/src/middleware/rateLimit.ts:10-29 | the handler's in-place update of the map and its verdict are exactly `Admit` |
| Plans.PromptRequired | services/ai-orchestrator/src/routes/plan.ts:9-10 | a body with only a prompt is accepted exactly when the prompt is non-empty; a missing or non-string prompt is refused |
| Plans.ContextEnums | services/ai-orchestrator/src/routes/plan.ts:11-24 | a selection type outside cell/range/column/row, or a document type outside calc/writer/impress, is refused |
| Plans.PlanStore.constructor | services/ai-orchestrator/src/routes/plan.ts:34-35 | the store starts empty |
| Plans.PlanStore.Create | services/ai-orchestrator/src/routes/plan.ts:37-42 | a new unconsumed record is stored under a fresh id, nothing else changes, and the store stays valid |
| Plans.PlanStore.Get | services/ai-orchestrator/src/routes/plan.ts:44-46 | returns the record stored under the id, or nothing when there is none |
| Plans.PlanStore.MarkConsumed | services/ai-orchestrator/src/routes/plan.ts:48-55 | the record is removed, other records are untouched, an unknown id is a no-op, and validity is kept |
| Plans.PlanStore.Claim | services/ai-orchestrator/src/routes/plan.ts:48-51 | corrected: an unconsumed record is flagged consumed and kept, nothing else changes |
| Plans.Open | services/ai-orchestrator/src/routes/plan.ts:76-83 | the lookup answers 404 exactly for an unknown id, 409 exactly for a consumed record, and otherwise goes on to stream the record's prompt |
| Plans.Finished | services/ai-orchestrator/src/routes/plan.ts:84-91 | 500 with the error's text exactly when the stream failed before the headers went out, otherwise the stream |
| Plans.StreamErrorText | services/ai-orchestrator/src/routes/plan.ts:88 | the 500 message is the error's message when non-empty, else `stream_error` |
| Plans.PlanRoutes.Post | services/ai-orchestrator/src/routes/plan.ts:64-72 | the limiter decides first (429 with `Retry-After`); then an invalid body gets 400 and a valid one 202 with a new plan stored under the fresh id |
| Plans.PlanRoutes.Begin | services/ai-orchestrator/src/routes/plan.ts:76-83 | the handler up to its first `await` answers as `Open` says and changes nothing |
| Plans.PlanRoutes.Finish | services/ai-orchestrator/src/routes/plan.ts:84-94 | after the stream, the answer is `Finished`, and `markConsumed` removes the plan whether the stream succeeded or not |
| Plans.PlanRoutes.Stream | services/ai-orchestrator/src/routes/plan.ts:75-95 | for a request no other request of the same plan overlaps: 404 exactly for an unknown id, 409 exactly for a consumed record (never, while no stored record is consumed), 500 exactly when the stream fails before headers; the plan is removed in every other case, so a later request gets 404 |
| Plans.PlanRoutes.OverlappingBegins | services/ai-orchestrator/src/routes/plan.ts:76-86 | as written, two requests for an unconsumed plan that both reach their first `await` before either ends both go on to stream it |
| Plans.PlanRoutes.BeginClaiming | services/ai-orchestrator/src/routes/plan.ts:76-86 | corrected: the lookup answers as `Open` says and, when it goes on to stream, flags the plan consumed |
| Plans.PlanRoutes.OverlappingBeginsClaiming | services/ai-orchestrator/src/routes/plan.ts:76-86 | corrected: of two overlapping requests for a plan, the first streams and the second is answered 409 |
| Plans.OpenedOnce | services/ai-orchestrator/src/routes/plan.ts:48-54 | once a plan is flagged or removed, no later lookup streams it |

## Left out

- SortRangeMoves: stated with the corrected `validateRange`. As written, a `start:end` range throws `INVALID_RANGE: Invalid range` before the move and the sort (`Tools.AsWrittenPairsThrow`).
- SortRangeSends: stated with the corrected `validateRange`. As written, no `start:end` range reaches GoToCell and DataSort (`Tools.AsWrittenPairsThrow`).
- SelectRangeSendsOne: stated with the corrected `validateRange`. As written, `select_range` of a `start:end` range throws instead of sending GoToCell (`Tools.AsWrittenPairsThrow`).
- AutoFilterOnlyMoves: stated with the corrected `validateRange`. As written, a `start:end` range throws instead of moving (`Tools.AsWrittenPairsThrow`).
- NameRangeIssuesNothing: stated with the corrected `validateRange`. As written, a `start:end` range throws `INVALID_RANGE` before the name is checked, so `INVALID_NAME` and completion are reached only for single addresses (`Tools.AsWrittenPairsThrow`).
- StartRevalidated: stated with the corrected `validateRange`. As written, `A0:B2` throws the range's `Invalid range` and only a lone `A0` throws the start's error (`Tools.StartRevalidatedAsWritten`).
- CreatePivot: the range tools are stated with the corrected `validateRange`. As written, a range whose trim holds `:` throws `INVALID_RANGE: Invalid range` and issues nothing instead (`Tools.AsWrittenPairsThrow`).
- CreateChart: the range tools are stated with the corrected `validateRange`. As written, a range whose trim holds `:` throws `INVALID_RANGE: Invalid range` and issues nothing instead (`Tools.AsWrittenPairsThrow`).
- FormatBold: the range tools are stated with the corrected `validateRange`. As written, a range whose trim holds `:` throws `INVALID_RANGE: Invalid range` and issues nothing instead (`Tools.AsWrittenPairsThrow`).
- FormatCurrency: the range tools are stated with the corrected `validateRange`. As written, a range whose trim holds `:` throws `INVALID_RANGE: Invalid range` and issues nothing instead (`Tools.AsWrittenPairsThrow`).
- SortRange: the range tools are stated with the corrected `validateRange`. As written, a range whose trim holds `:` throws `INVALID_RANGE: Invalid range` and issues nothing instead (`Tools.AsWrittenPairsThrow`).
- AutoFilter: the range tools are stated with the corrected `validateRange`. As written, a range whose trim holds `:` throws `INVALID_RANGE: Invalid range` and issues nothing instead (`Tools.AsWrittenPairsThrow`).
- NameRange: the range tools are stated with the corrected `validateRange`. As written, a range whose trim holds `:` throws `INVALID_RANGE: Invalid range` and issues nothing instead (`Tools.AsWrittenPairsThrow`).
- SelectRange: the range tools are stated with the corrected `validateRange`. As written, a range whose trim holds `:` throws `INVALID_RANGE: Invalid range` and issues nothing instead (`Tools.AsWrittenPairsThrow`).
- Dispatch: the range tools' traces are those of the corrected `validateRange`, so `sort_range('A1:C10', ...)` succeeds where the code as written throws; `Executor.PairRangeStepAsWritten` gives the run's step as written.
- Timers, `postMessage`, `addEventListener`, `crypto.randomUUID`, `Math.random`, `Date.now` and `process.env` are left out. Their effects are explicit events (`Timeout`), logs (`outbox`, `settled`, `sent`, `events`) and parameters (fresh ids, `now`, the environment's numbers).
- Fresh ids are assumed distinct from every id issued so far (`requires id !in issued`). This stands for the uniqueness of `randomUUID`.
- The Promise and async machinery is left out. An awaited bridge call settles with a scripted reply: the k-th message ever sent gets the k-th reply, and messages past the script resolve.
- `Tools.UnoChannel` is the bridge as the tools see it. It is not connected to `Bridge.UnoBridge`, whose table is modelled on its own.
- `Executor.ToolExecutor.Run` is stated against ghost step functions. `Valid` ties these to `DispatchTrace`, `UndoTrace` and `StepTrace`, and `RunStepsRunCalls` ties the loop to the reference `RunCalls`.
- `onProgress` is optional in the source. The model always records the reports it would receive. The callback is assumed not to throw: executor.ts:23 calls it inside the `try`, so a throwing callback would take the catch path (the `undo`, a failure report, a rethrow), which `Executor.StepTrace` does not model.
- JavaScript numbers are integers here. NaN, fractions and `Number(...)` parsing of environment strings are left out.
- Arrays are absent from the argument values of tool calls. The plan request's JSON value does have them.
- `Preview.SplitCell`: modelled on whole addresses. The source's unanchored search is only ever applied to texts that matched the full address pattern, where the two agree.
- The timeout lengths (10000 ms for `uno`, 8000 ms for `request`) are left out. When a timer fires is the caller's choice of event.
- The `uno` message is recorded as its id, command and arguments, not as the nested literal `{MessageId: 'uno', id, args: {...}}`.
- `Plans.PlanStore.MarkConsumed`: the record is flagged and then deleted. Other holders of the same record object, who would see the flag through aliasing, are not modelled.
- Zod's error details in the 400 body are left out.
- Errors.Classify: upper-cases the message over ASCII letters only. JavaScript's `toUpperCase` (errors.ts:21) also maps letters such as 'ı' to 'I' and 'ß' to "SS", so `classifyError('tımeout')` is TIMEOUT in the source but UNKNOWN in the model.
- `Js.ErrorText`: a truthy `message` that is not a string is turned into text with `String()`. The executor passes such a value to `onProgress` unconverted, and only its rethrown `Error` converts it.
- `planFromPrompt`, the SSE piping and the OpenAI call are left out. The stream's ending is the parameter `run`.
- `RateLimit.Limiter.Handle`: the `try`/`catch` that forwards a thrown error to `next` is left out, since nothing in the modelled handler throws.
- A forwarded header holding several values is taken as one string.

## Findings

| source | as written | input that shows it | evidently intended | confidence | as-written member | corrected member |
|---|---|---|---|---|---|---|
| apps/ai-calc-assistant/src/agent/validators.ts:8-10 | `RANGE_RE` is built from `CELL_ADDR_RE.source`, which keeps its own `^` and `$`, so after the first address the `$` demands the end of the text and the `(:...)?` group can never match | `validateRange('A1:C10')` throws `INVALID_RANGE: Invalid range` | a single address or `start:end`, as validators.test.ts:14 and the tools' callers expect | not executed | Validators.ValidateRangeAsWritten | Validators.ValidateRange |
| services/ai-orchestrator/src/routes/plan.ts:77-93 | the lookup neither flags nor removes the plan; `markConsumed` runs only in `finally`, after the stream | two `GET /api/stream/<id>` for one staged plan, the second arriving while the first awaits `planFromPrompt` (plan.ts:85): both stream the plan | a plan streams once: a request arriving while it streams is answered 409, the branch at plan.ts:81-83 | not executed | Plans.PlanRoutes.OverlappingBegins | Plans.PlanRoutes.BeginClaiming |

`Validators.AsWrittenRefusesPairs` proves that the as-written guard refuses every text whose trim holds a `:`. `Validators.RangeA1C10` shows `A1:C10` refused as written and accepted as intended. `Validators.RangeSpec` states what the corrected guard accepts. The tools and the executor use the corrected guard. The preview has its own correct pattern at preview.ts:11, modelled as written; it is the same pattern as the corrected `RANGE_RE`.

`Plans.PlanRoutes.OverlappingBegins` runs two lookups of an unconsumed plan before either stream ends, and both go on to stream it. `Plans.PlanRoutes.BeginClaiming` flags the plan when it goes on to stream, so a second overlapping request is answered 409 (`Plans.PlanRoutes.OverlappingBeginsClaiming`, `Plans.OpenedOnce`). `Plans.PlanRoutes.Stream` keeps the lookup as written.
