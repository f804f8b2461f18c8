/** The transactional executor (apps/ai-calc-assistant/src/agent/executor.ts):
    tool calls run one after another; the first failure stops the run, is
    compensated by one best-effort `undo` when the failing call changed the
    sheet, is reported, and is rethrown. */
module Executor {
  import opened Js
  import opened Tools
  import opened Text

  /** `ToolCall`: an optional id, the tool's name and its arguments. */
  datatype ToolCall = ToolCall(id: Option<string>, name: string, arguments: JsValue)

  /** `ExecResult`, the value handed to `onProgress`. */
  datatype ExecResult = ExecResult(toolCallId: string, success: bool, error: Option<string>)

  /** What the executor does, in order: dispatch a call, attempt the
      compensating `undo`, report progress. */
  datatype Event = Dispatched(call: ToolCall) | UndoAttempted | Progress(update: ExecResult)

  // ---------------------------------------------------------------- dispatch

  /** Property read on an arguments value; anything but an object has none
      of the properties the tools read. */
  function Prop(a: JsValue, key: string): JsValue {
    if a.Object? then Field(a.fields, key) else Undefined
  }

  /** `call.arguments || {}`. */
  function Args(call: ToolCall): JsValue {
    if Truthy(call.arguments) then call.arguments else EmptyObject
  }

  /** `String(a[key])`. */
  function Arg(call: ToolCall, key: string): string {
    ToJsString(Prop(Args(call), key))
  }

  /** The names `dispatch` knows. */
  predicate Known(name: string) {
    name == "set_cell_text" || name == "apply_formula" || name == "go_to_cell" || name == "sort_range"
    || name == "format_range_currency" || name == "format_range_bold" || name == "undo" || name == "redo"
  }

  /** The tools that change the sheet, and so are compensated by `undo`. */
  predicate Mutating(name: string) {
    name == "set_cell_text" || name == "apply_formula" || name == "sort_range"
  }

  /** The tool call `dispatch` makes, with its arguments coerced: `String`
      for texts, `!!a.ascending`, and `a.bold !== false`. */
  function DispatchOp(call: ToolCall): Option<ToolOp> {
    var name := call.name;
    if name == "set_cell_text" then Some(ToolOp.SetText(Arg(call, "address"), Arg(call, "text")))
    else if name == "apply_formula" then Some(ToolOp.ApplyFormula(Arg(call, "address"), Arg(call, "formula")))
    else if name == "go_to_cell" then Some(ToolOp.GoTo(Arg(call, "address")))
    else if name == "sort_range" then
      Some(ToolOp.SortRange(Arg(call, "range"), Arg(call, "column"), Truthy(Prop(Args(call), "ascending"))))
    else if name == "format_range_currency" then Some(ToolOp.FormatCurrency(Arg(call, "range")))
    else if name == "format_range_bold" then
      Some(ToolOp.FormatBold(Arg(call, "range"), Prop(Args(call), "bold") != Bool(false)))
    else if name == "undo" then Some(UndoLast)
    else if name == "redo" then Some(RedoLast)
    else None
  }

  /** The error an unknown name throws. */
  function UnknownTool(name: string): Thrown {
    ErrorObject("Error", "UNKNOWN_TOOL: " + name)
  }

  /** What dispatching a call does to the bridge, the next message being the
      `k`-th ever sent. */
  function DispatchTrace(call: ToolCall, replies: seq<Reply>, k: nat): Trace {
    var op := DispatchOp(call);
    if op.Some? then Exec(op.value, replies, k) else Trace([], Threw(UnknownTool(call.name)))
  }

  /** `dispatch` knows exactly the eight names, and every tool it
      compensates is one of them. */
  lemma KnownNames(call: ToolCall)
    ensures DispatchOp(call).Some? <==> Known(call.name)
    ensures Mutating(call.name) ==> Known(call.name)
  {
  }

  /** An unknown name throws `UNKNOWN_TOOL: <name>` before anything is sent,
      and is not compensated. */
  lemma UnknownToolFails(call: ToolCall, replies: seq<Reply>, k: nat)
    requires !Known(call.name)
    ensures DispatchTrace(call, replies, k) == Trace([], Threw(ErrorObject("Error", "UNKNOWN_TOOL: " + call.name)))
    ensures !Mutating(call.name)
  {
  }

  /** `format_range_bold` sets bold unless `bold` is literally `false`;
      `sort_range` sorts ascending exactly when `ascending` is truthy. */
  lemma FlagCoercion(range: string, column: string, flag: JsValue)
    ensures var call := ToolCall(None, "format_range_bold", Object(map["range" := Str(range), "bold" := flag]));
      DispatchOp(call) == Some(ToolOp.FormatBold(range, flag != Bool(false)))
    ensures var call := ToolCall(None, "format_range_bold", Object(map["range" := Str(range)]));
      DispatchOp(call) == Some(ToolOp.FormatBold(range, true))
    ensures var call := ToolCall(None, "sort_range", Object(map["range" := Str(range), "column" := Str(column), "ascending" := flag]));
      DispatchOp(call) == Some(ToolOp.SortRange(range, column, Truthy(flag)))
    ensures var call := ToolCall(None, "sort_range", Object(map["range" := Str(range), "column" := Str(column)]));
      DispatchOp(call) == Some(ToolOp.SortRange(range, column, false))
  {
    var m := map["range" := Str(range), "bold" := flag];
    assert Field(m, "range") == Str(range) && Field(m, "bold") == flag;
    var n := map["range" := Str(range), "column" := Str(column), "ascending" := flag];
    assert Field(n, "range") == Str(range) && Field(n, "column") == Str(column) && Field(n, "ascending") == flag;
    var o := map["range" := Str(range), "column" := Str(column)];
    assert Field(o, "range") == Str(range) && Field(o, "column") == Str(column) && "ascending" !in o;
    assert "bold" !in map["range" := Str(range)];
  }

  /** What dispatching a call does with `validateRange` as written. */
  function DispatchTraceAsWritten(call: ToolCall, replies: seq<Reply>, k: nat): Trace {
    var op := DispatchOp(call);
    if op.Some? then ExecAsWritten(op.value, replies, k) else Trace([], Threw(UnknownTool(call.name)))
  }

  /** The range tools `dispatch` knows. */
  predicate RangeCall(call: ToolCall) {
    call.name == "sort_range" || call.name == "format_range_bold" || call.name == "format_range_currency"
  }

  /** A range call dispatches its range tool on the `range` argument. */
  lemma RangeCallOp(call: ToolCall)
    requires RangeCall(call)
    ensures DispatchOp(call).Some? && RangeTool(DispatchOp(call).value)
    ensures DispatchOp(call).value.range == Arg(call, "range")
  {
  }

  /** A call whose dispatch throws `e` before issuing anything: one failure
      report with the error's text, and the `undo` of a mutating tool. */
  lemma ThrownAtOnce(call: ToolCall, id: string, dispatch: (ToolCall, seq<Reply>, nat) -> Trace,
                     undo: (seq<Reply>, nat) -> Trace, replies: seq<Reply>, k: nat, e: Thrown)
    requires dispatch(call, replies, k) == Trace([], Threw(e))
    ensures StepTrace(call, id, dispatch, undo, replies, k)
      == RunTrace(FailureLog(call, id, ErrorText(e)), if Mutating(call.name) then undo(replies, k).issued else [],
                  Threw(ErrorObject("Error", ErrorText(e))))
  {
  }

  /** As written, a range call whose range holds a `:` throws
      `INVALID_RANGE: Invalid range` with nothing issued; the loop then
      attempts `undo` for `sort_range` only, reports the failure and rethrows
      the message. */
  lemma PairRangeStepAsWritten(call: ToolCall, id: string, replies: seq<Reply>, k: nat)
    requires RangeCall(call) && ':' in Trim(Arg(call, "range"))
    ensures var message := Message(Fail("INVALID_RANGE", "Invalid range"));
      StepTrace(call, id, DispatchTraceAsWritten, UndoTrace, replies, k)
        == RunTrace(FailureLog(call, id, message),
                    if call.name == "sort_range" then [Outbound.Uno(Undo, [])] else [],
                    Threw(ErrorObject("Error", message)))
  {
    RangeCallOp(call);
    var op := DispatchOp(call).value;
    var e := GuardError(Fail("INVALID_RANGE", "Invalid range"));
    AsWrittenPairsThrow(op, replies, k);
    assert DispatchTraceAsWritten(call, replies, k) == Trace([], Threw(e));
    ThrownAtOnce(call, id, DispatchTraceAsWritten, UndoTrace, replies, k, e);
    assert ErrorText(e) == Message(Fail("INVALID_RANGE", "Invalid range"));
    UndoRedoSendOne(replies, k);
  }

  /** Every other call is dispatched as written exactly as `DispatchTrace`
      describes it. */
  lemma DispatchAgreesAsWritten(call: ToolCall, replies: seq<Reply>, k: nat)
    requires RangeCall(call) ==> ':' !in Trim(Arg(call, "range"))
    ensures DispatchTraceAsWritten(call, replies, k) == DispatchTrace(call, replies, k)
  {
    var op := DispatchOp(call);
    if op.Some? {
      if RangeTool(op.value) {
        RangeOpIsRangeCall(call);
        RangeCallOp(call);
      }
      AsWrittenAgreesTool(op.value, replies, k);
    }
  }

  /** Only the three range calls dispatch a range tool. */
  lemma RangeOpIsRangeCall(call: ToolCall)
    requires DispatchOp(call).Some? && RangeTool(DispatchOp(call).value)
    ensures RangeCall(call)
  {
  }

  // ---------------------------------------------------------------- the run, as a function

  /** `call.id || <generated>`. */
  function CallId(call: ToolCall, generated: string): (id: string)
    ensures call.id.Some? && call.id.value != "" ==> id == call.id.value
    ensures call.id.None? || call.id.value == "" ==> id == generated
  {
    if call.id.Some? && call.id.value != "" then call.id.value else generated
  }

  function Succeeded(id: string): ExecResult {
    ExecResult(id, true, None)
  }

  function Failed(id: string, message: string): ExecResult {
    ExecResult(id, false, Some(message))
  }

  /** The events of calls that all succeed. */
  function SuccessLog(calls: seq<ToolCall>, ids: seq<string>): seq<Event>
    requires |ids| == |calls|
  {
    if |calls| == 0 then []
    else [Dispatched(calls[0]), Progress(Succeeded(CallId(calls[0], ids[0])))] + SuccessLog(calls[1..], ids[1..])
  }

  /** The events of the failing call: dispatch, `undo` if the tool changes
      the sheet, the failure report. */
  function FailureLog(call: ToolCall, id: string, message: string): seq<Event> {
    [Dispatched(call)] + (if Mutating(call.name) then [UndoAttempted] else []) + [Progress(Failed(id, message))]
  }

  /** The events, the messages sent, and how `run` ended. */
  datatype RunTrace = RunTrace(events: seq<Event>, sent: seq<Outbound>, outcome: ToolOutcome)

  /** One iteration of `run`'s loop, the next message being the `k`-th ever
      sent: dispatch the call and report its success; or, when it throws,
      attempt `undo` if the tool changes the sheet (its outcome discarded),
      report the failure with the error's message and throw that message. */
  function StepTrace(call: ToolCall, id: string, dispatch: (ToolCall, seq<Reply>, nat) -> Trace,
                     undo: (seq<Reply>, nat) -> Trace, replies: seq<Reply>, k: nat): RunTrace
  {
    var t := dispatch(call, replies, k);
    if t.outcome.Done? then RunTrace([Dispatched(call), Progress(Succeeded(id))], t.issued, Done)
    else
      var message := ErrorText(t.outcome.err);
      var compensation := if Mutating(call.name) then undo(replies, k + |t.issued|).issued else [];
      RunTrace(FailureLog(call, id, message), t.issued + compensation, Threw(ErrorObject("Error", message)))
  }

  /** The step function `run`'s loop applies, for `dispatch` and `undo`. */
  function StepOf(dispatch: (ToolCall, seq<Reply>, nat) -> Trace, undo: (seq<Reply>, nat) -> Trace)
    : (ToolCall, string, seq<Reply>, nat) -> RunTrace
  {
    (call: ToolCall, id: string, replies: seq<Reply>, k: nat) => StepTrace(call, id, dispatch, undo, replies, k)
  }

  /** `run(calls)`, where `dispatch(c, replies, k)` is what dispatching `c` does with
      the next message being the `k`-th ever sent, `undo(replies, k)` likewise for the
      compensating `undo`, and `ids[i]` is the id generated for call `i`. */
  function RunCalls(calls: seq<ToolCall>, ids: seq<string>, dispatch: (ToolCall, seq<Reply>, nat) -> Trace,
                    undo: (seq<Reply>, nat) -> Trace, replies: seq<Reply>, k: nat): RunTrace
    requires |ids| == |calls|
  {
    RunSteps(calls, ids, StepOf(dispatch, undo), replies, k)
  }

  /** How many calls succeed before the first failure. */
  function Completed(calls: seq<ToolCall>, dispatch: (ToolCall, seq<Reply>, nat) -> Trace, replies: seq<Reply>, k: nat): (m: nat)
    ensures m <= |calls|
    decreases |calls|
  {
    if |calls| == 0 then 0
    else
      var t := dispatch(calls[0], replies, k);
      if t.outcome.Done? then 1 + Completed(calls[1..], dispatch, replies, k + |t.issued|) else 0
  }

  /** What dispatching call `i` does, once the calls before it have all
      succeeded. */
  function Attempt(calls: seq<ToolCall>, dispatch: (ToolCall, seq<Reply>, nat) -> Trace, replies: seq<Reply>, k: nat, i: nat): Trace
    requires i < |calls|
    decreases i
  {
    var t := dispatch(calls[0], replies, k);
    if i == 0 then t else Attempt(calls[1..], dispatch, replies, k + |t.issued|, i - 1)
  }

  /** Completed counts the leading calls that succeed: each of them did, and
      the next one, if any, failed. */
  lemma {:induction false} CompletedFirstFailure(calls: seq<ToolCall>, dispatch: (ToolCall, seq<Reply>, nat) -> Trace, replies: seq<Reply>, k: nat)
    ensures var m := Completed(calls, dispatch, replies, k);
      (forall i :: 0 <= i < m ==> Attempt(calls, dispatch, replies, k, i).outcome.Done?)
      && (m < |calls| ==> Attempt(calls, dispatch, replies, k, m).outcome.Threw?)
    decreases |calls|
  {
    if calls != [] {
      var t := dispatch(calls[0], replies, k);
      if t.outcome.Done? {
        var k' := k + |t.issued|;
        CompletedFirstFailure(calls[1..], dispatch, replies, k');
        var m := Completed(calls, dispatch, replies, k);
        forall i | 0 <= i < m ensures Attempt(calls, dispatch, replies, k, i).outcome.Done? {
          if i > 0 {
            assert Attempt(calls, dispatch, replies, k, i) == Attempt(calls[1..], dispatch, replies, k', i - 1);
          }
        }
        if m < |calls| {
          assert Attempt(calls, dispatch, replies, k, m) == Attempt(calls[1..], dispatch, replies, k', m - 1);
        }
      }
    }
  }

  /** A run returns exactly when every call succeeds, and then every call is
      dispatched and reported as a success, in order. */
  lemma {:induction false} RunSucceeds(calls: seq<ToolCall>, ids: seq<string>, dispatch: (ToolCall, seq<Reply>, nat) -> Trace,
                                       undo: (seq<Reply>, nat) -> Trace, replies: seq<Reply>, k: nat)
    requires |ids| == |calls|
    ensures var t := RunCalls(calls, ids, dispatch, undo, replies, k);
      (t.outcome.Done? <==> Completed(calls, dispatch, replies, k) == |calls|)
      && (t.outcome.Done? ==> t.events == SuccessLog(calls, ids))
    decreases |calls|
  {
    if calls != [] {
      var t := dispatch(calls[0], replies, k);
      if t.outcome.Done? {
        RunSucceeds(calls[1..], ids[1..], dispatch, undo, replies, k + |t.issued|);
      }
    }
  }

  /** When call `m = Completed(..)` fails, the first `m` calls are reported
      as successes, then the failing call is dispatched, compensated if it
      changes the sheet, and reported with its error's message, which `run`
      throws. Nothing after it is dispatched. */
  lemma {:induction false} RunFails(calls: seq<ToolCall>, ids: seq<string>, dispatch: (ToolCall, seq<Reply>, nat) -> Trace,
                                    undo: (seq<Reply>, nat) -> Trace, replies: seq<Reply>, k: nat)
    requires |ids| == |calls| && Completed(calls, dispatch, replies, k) < |calls|
    ensures var m := Completed(calls, dispatch, replies, k);
      Attempt(calls, dispatch, replies, k, m).outcome.Threw?
      && var message := ErrorText(Attempt(calls, dispatch, replies, k, m).outcome.err);
      RunCalls(calls, ids, dispatch, undo, replies, k).outcome == Threw(ErrorObject("Error", message))
      && RunCalls(calls, ids, dispatch, undo, replies, k).events
         == SuccessLog(calls[..m], ids[..m]) + FailureLog(calls[m], CallId(calls[m], ids[m]), message)
    decreases |calls|
  {
    var t := dispatch(calls[0], replies, k);
    var m := Completed(calls, dispatch, replies, k);
    if t.outcome.Done? {
      var k' := k + |t.issued|;
      RunFails(calls[1..], ids[1..], dispatch, undo, replies, k');
      assert Attempt(calls, dispatch, replies, k, m) == Attempt(calls[1..], dispatch, replies, k', m - 1);
      assert calls[..m][1..] == calls[1..][..m - 1] && ids[..m][1..] == ids[1..][..m - 1];
      assert calls[m] == calls[1..][m - 1] && ids[m] == ids[1..][m - 1];
      var head := StepTrace(calls[0], CallId(calls[0], ids[0]), dispatch, undo, replies, k).events;
      var earlier := SuccessLog(calls[1..][..m - 1], ids[1..][..m - 1]);
      assert SuccessLog(calls[..m], ids[..m]) == head + earlier;
      Assoc(head, earlier, FailureLog(calls[m], CallId(calls[m], ids[m]), ErrorText(Attempt(calls, dispatch, replies, k, m).outcome.err)));
    } else {
      assert calls[..0] == [] && ids[..0] == [];
    }
  }

  /** The calls an event log dispatches, in order. */
  function DispatchedCalls(events: seq<Event>): seq<ToolCall> {
    if events == [] then []
    else (if events[0].Dispatched? then [events[0].call] else []) + DispatchedCalls(events[1..])
  }

  /** The progress reports of an event log, in order. */
  function Reports(events: seq<Event>): seq<ExecResult> {
    if events == [] then []
    else (if events[0].Progress? then [events[0].update] else []) + Reports(events[1..])
  }

  /** How many times an event log attempts `undo`. */
  function Undos(events: seq<Event>): nat {
    if events == [] then 0
    else (if events[0].UndoAttempted? then 1 else 0) + Undos(events[1..])
  }

  lemma {:induction false} LogAppend(a: seq<Event>, b: seq<Event>)
    ensures DispatchedCalls(a + b) == DispatchedCalls(a) + DispatchedCalls(b)
    ensures Reports(a + b) == Reports(a) + Reports(b)
    ensures Undos(a + b) == Undos(a) + Undos(b)
  {
    DispatchedAppend(a, b);
    ReportsAppend(a, b);
    UndosAppend(a, b);
  }

  lemma {:induction false} DispatchedAppend(a: seq<Event>, b: seq<Event>)
    ensures DispatchedCalls(a + b) == DispatchedCalls(a) + DispatchedCalls(b)
  {
    if a == [] {
      assert a + b == b;
    } else {
      assert (a + b)[0] == a[0] && (a + b)[1..] == a[1..] + b;
      DispatchedAppend(a[1..], b);
    }
  }

  lemma {:induction false} ReportsAppend(a: seq<Event>, b: seq<Event>)
    ensures Reports(a + b) == Reports(a) + Reports(b)
  {
    if a == [] {
      assert a + b == b;
    } else {
      assert (a + b)[0] == a[0] && (a + b)[1..] == a[1..] + b;
      ReportsAppend(a[1..], b);
    }
  }

  lemma {:induction false} UndosAppend(a: seq<Event>, b: seq<Event>)
    ensures Undos(a + b) == Undos(a) + Undos(b)
  {
    if a == [] {
      assert a + b == b;
    } else {
      assert (a + b)[0] == a[0] && (a + b)[1..] == a[1..] + b;
      UndosAppend(a[1..], b);
    }
  }

  /** The log of one event. */
  lemma LogOne(e: Event)
    ensures DispatchedCalls([e]) == (if e.Dispatched? then [e.call] else [])
    ensures Reports([e]) == (if e.Progress? then [e.update] else [])
    ensures Undos([e]) == (if e.UndoAttempted? then 1 else 0)
  {
    assert [e][0] == e && [e][1..] == [];
  }

  /** The events of one successful call. */
  lemma SuccessHead(call: ToolCall, id: string)
    ensures var head := [Dispatched(call), Progress(Succeeded(id))];
      DispatchedCalls(head) == [call] && Reports(head) == [Succeeded(id)] && Undos(head) == 0
  {
    var head := [Dispatched(call), Progress(Succeeded(id))];
    assert head == [Dispatched(call)] + [Progress(Succeeded(id))];
    LogAppend([Dispatched(call)], [Progress(Succeeded(id))]);
    LogOne(Dispatched(call));
    LogOne(Progress(Succeeded(id)));
  }

  /** A run of successes dispatches every call once, in order, and never
      attempts `undo`. */
  lemma {:induction false} SuccessDispatches(calls: seq<ToolCall>, ids: seq<string>)
    requires |ids| == |calls|
    ensures DispatchedCalls(SuccessLog(calls, ids)) == calls
    ensures Undos(SuccessLog(calls, ids)) == 0
  {
    if calls != [] {
      SuccessDispatches(calls[1..], ids[1..]);
      SuccessHead(calls[0], CallId(calls[0], ids[0]));
      LogAppend([Dispatched(calls[0]), Progress(Succeeded(CallId(calls[0], ids[0])))], SuccessLog(calls[1..], ids[1..]));
      assert [calls[0]] + calls[1..] == calls;
    }
  }

  /** A run of successes reports each call as a success with its id. */
  lemma {:induction false} SuccessReports(calls: seq<ToolCall>, ids: seq<string>)
    requires |ids| == |calls|
    ensures |Reports(SuccessLog(calls, ids))| == |calls|
    ensures forall i :: 0 <= i < |calls| ==> Reports(SuccessLog(calls, ids))[i] == Succeeded(CallId(calls[i], ids[i]))
  {
    if calls != [] {
      SuccessReports(calls[1..], ids[1..]);
      SuccessHead(calls[0], CallId(calls[0], ids[0]));
      LogAppend([Dispatched(calls[0]), Progress(Succeeded(CallId(calls[0], ids[0])))], SuccessLog(calls[1..], ids[1..]));
      var rs, tail := Reports(SuccessLog(calls, ids)), Reports(SuccessLog(calls[1..], ids[1..]));
      assert rs == [Succeeded(CallId(calls[0], ids[0]))] + tail;
      forall i | 0 <= i < |calls| ensures rs[i] == Succeeded(CallId(calls[i], ids[i])) {
        if i > 0 {
          assert rs[i] == tail[i - 1];
        }
      }
    }
  }

  lemma FailureLogContents(call: ToolCall, id: string, message: string)
    ensures DispatchedCalls(FailureLog(call, id, message)) == [call]
    ensures Reports(FailureLog(call, id, message)) == [Failed(id, message)]
    ensures Undos(FailureLog(call, id, message)) == if Mutating(call.name) then 1 else 0
  {
    var u: seq<Event> := if Mutating(call.name) then [UndoAttempted] else [];
    var tail: seq<Event> := [Progress(Failed(id, message))];
    LogAppend([Dispatched(call)], u);
    LogAppend([Dispatched(call)] + u, tail);
    LogOne(Dispatched(call));
    LogOne(Progress(Failed(id, message)));
    if Mutating(call.name) {
      LogOne(UndoAttempted);
    }
  }

  /** Calls are dispatched in input order, each at most once (there is no
      retry), and none after the first failure. */
  lemma DispatchedInOrder(calls: seq<ToolCall>, ids: seq<string>, dispatch: (ToolCall, seq<Reply>, nat) -> Trace,
                          undo: (seq<Reply>, nat) -> Trace, replies: seq<Reply>, k: nat)
    requires |ids| == |calls|
    ensures var t, m := RunCalls(calls, ids, dispatch, undo, replies, k), Completed(calls, dispatch, replies, k);
      DispatchedCalls(t.events) == calls[..if m < |calls| then m + 1 else m]
  {
    var t, m := RunCalls(calls, ids, dispatch, undo, replies, k), Completed(calls, dispatch, replies, k);
    RunSucceeds(calls, ids, dispatch, undo, replies, k);
    if m == |calls| {
      SuccessDispatches(calls, ids);
      assert calls[..m] == calls;
    } else {
      RunFails(calls, ids, dispatch, undo, replies, k);
      var e := ErrorText(Attempt(calls, dispatch, replies, k, m).outcome.err);
      SuccessDispatches(calls[..m], ids[..m]);
      FailureLogContents(calls[m], CallId(calls[m], ids[m]), e);
      LogAppend(SuccessLog(calls[..m], ids[..m]), FailureLog(calls[m], CallId(calls[m], ids[m]), e));
      assert calls[..m] + [calls[m]] == calls[..m + 1];
    }
  }

  /** One success report per completed call, in order; then, if the run
      failed, exactly one failure report, for the failing call, carrying the
      same message that `run` throws. */
  lemma ProgressReports(calls: seq<ToolCall>, ids: seq<string>, dispatch: (ToolCall, seq<Reply>, nat) -> Trace,
                        undo: (seq<Reply>, nat) -> Trace, replies: seq<Reply>, k: nat)
    requires |ids| == |calls|
    ensures var t, m := RunCalls(calls, ids, dispatch, undo, replies, k), Completed(calls, dispatch, replies, k);
      var rs := Reports(t.events);
      |rs| == (if m < |calls| then m + 1 else m)
      && (forall i :: 0 <= i < m ==> rs[i] == Succeeded(CallId(calls[i], ids[i])))
      && (m < |calls| ==>
            t.outcome.Threw? && t.outcome.err.ErrorObject?
            && rs[m] == Failed(CallId(calls[m], ids[m]), t.outcome.err.message))
  {
    var t, m := RunCalls(calls, ids, dispatch, undo, replies, k), Completed(calls, dispatch, replies, k);
    if m == |calls| {
      RunSucceeds(calls, ids, dispatch, undo, replies, k);
      SuccessReports(calls, ids);
    } else {
      RunFails(calls, ids, dispatch, undo, replies, k);
      var e := ErrorText(Attempt(calls, dispatch, replies, k, m).outcome.err);
      SuccessReports(calls[..m], ids[..m]);
      FailureLogContents(calls[m], CallId(calls[m], ids[m]), e);
      LogAppend(SuccessLog(calls[..m], ids[..m]), FailureLog(calls[m], CallId(calls[m], ids[m]), e));
      var rs := Reports(t.events);
      assert forall i :: 0 <= i < m ==> rs[i] == Reports(SuccessLog(calls[..m], ids[..m]))[i];
    }
  }

  /** `undo` is attempted exactly once when the failing call is one that
      changes the sheet, and never otherwise; in particular never when every
      call succeeds. */
  lemma UndoOnlyAfterMutatingFailure(calls: seq<ToolCall>, ids: seq<string>, dispatch: (ToolCall, seq<Reply>, nat) -> Trace,
                                     undo: (seq<Reply>, nat) -> Trace, replies: seq<Reply>, k: nat)
    requires |ids| == |calls|
    ensures var t, m := RunCalls(calls, ids, dispatch, undo, replies, k), Completed(calls, dispatch, replies, k);
      Undos(t.events) == if m < |calls| && Mutating(calls[m].name) then 1 else 0
  {
    var t, m := RunCalls(calls, ids, dispatch, undo, replies, k), Completed(calls, dispatch, replies, k);
    if m == |calls| {
      RunSucceeds(calls, ids, dispatch, undo, replies, k);
      SuccessDispatches(calls, ids);
    } else {
      RunFails(calls, ids, dispatch, undo, replies, k);
      var e := ErrorText(Attempt(calls, dispatch, replies, k, m).outcome.err);
      SuccessDispatches(calls[..m], ids[..m]);
      FailureLogContents(calls[m], CallId(calls[m], ids[m]), e);
      LogAppend(SuccessLog(calls[..m], ids[..m]), FailureLog(calls[m], CallId(calls[m], ids[m]), e));
    }
  }

  /** Whatever `undo` does, the events and the outcome are the same: a
      failing `undo` is swallowed and the original message is kept. */
  lemma UndoSwallowed(calls: seq<ToolCall>, ids: seq<string>, dispatch: (ToolCall, seq<Reply>, nat) -> Trace,
                      undo: (seq<Reply>, nat) -> Trace, undo': (seq<Reply>, nat) -> Trace, replies: seq<Reply>, k: nat)
    requires |ids| == |calls|
    ensures RunCalls(calls, ids, dispatch, undo, replies, k).events == RunCalls(calls, ids, dispatch, undo', replies, k).events
    ensures RunCalls(calls, ids, dispatch, undo, replies, k).outcome == RunCalls(calls, ids, dispatch, undo', replies, k).outcome
  {
    RunSucceeds(calls, ids, dispatch, undo, replies, k);
    RunSucceeds(calls, ids, dispatch, undo', replies, k);
    if Completed(calls, dispatch, replies, k) < |calls| {
      RunFails(calls, ids, dispatch, undo, replies, k);
      RunFails(calls, ids, dispatch, undo', replies, k);
    }
  }

  /** The events, messages and outcome of earlier calls, followed by a run. */
  function Glue(events: seq<Event>, sent: seq<Outbound>, t: RunTrace): RunTrace {
    RunTrace(events + t.events, sent + t.sent, t.outcome)
  }

  lemma GlueGlue(e1: seq<Event>, s1: seq<Outbound>, e2: seq<Event>, s2: seq<Outbound>, t: RunTrace)
    ensures Glue(e1, s1, Glue(e2, s2, t)) == Glue(e1 + e2, s1 + s2, t)
  {
    assert e1 + (e2 + t.events) == e1 + e2 + t.events;
    assert s1 + (s2 + t.sent) == s1 + s2 + t.sent;
  }

  /** `step` is `StepTrace` for `dispatch` and `undo`. */
  ghost predicate Steps(step: (ToolCall, string, seq<Reply>, nat) -> RunTrace,
                        dispatch: (ToolCall, seq<Reply>, nat) -> Trace, undo: (seq<Reply>, nat) -> Trace)
  {
    forall call, id, replies, k {:trigger StepTrace(call, id, dispatch, undo, replies, k)} ::
      step(call, id, replies, k) == StepTrace(call, id, dispatch, undo, replies, k)
  }

  /** `run`'s loop for any `step`: the steps of the calls, in order, up to
      the first that throws. */
  function RunSteps(calls: seq<ToolCall>, ids: seq<string>, step: (ToolCall, string, seq<Reply>, nat) -> RunTrace,
                    replies: seq<Reply>, k: nat): RunTrace
    requires |ids| == |calls|
    decreases |calls|
  {
    if |calls| == 0 then RunTrace([], [], Done)
    else
      var s := step(calls[0], CallId(calls[0], ids[0]), replies, k);
      if s.outcome.Done? then Glue(s.events, s.sent, RunSteps(calls[1..], ids[1..], step, replies, k + |s.sent|)) else s
  }

  /** With `step` being `StepTrace` for `dispatch` and `undo`, the loop
      computes `RunCalls`. */
  lemma {:induction false} RunStepsRunCalls(calls: seq<ToolCall>, ids: seq<string>, step: (ToolCall, string, seq<Reply>, nat) -> RunTrace,
                                            dispatch: (ToolCall, seq<Reply>, nat) -> Trace, undo: (seq<Reply>, nat) -> Trace,
                                            replies: seq<Reply>, k: nat)
    requires |ids| == |calls| && Steps(step, dispatch, undo)
    ensures RunSteps(calls, ids, step, replies, k) == RunCalls(calls, ids, dispatch, undo, replies, k)
    decreases |calls|
  {
    if |calls| > 0 {
      var s := StepTrace(calls[0], CallId(calls[0], ids[0]), dispatch, undo, replies, k);
      RunStepsRunCalls(calls[1..], ids[1..], step, dispatch, undo, replies, k + |s.sent|);
    }
  }

  /** A run from call `i`, after earlier calls that left `done` and `sent`:
      when the step of call `i` succeeds, its events and messages join the
      earlier ones and the run goes on from call `i + 1`. */
  lemma Advance(calls: seq<ToolCall>, ids: seq<string>, step: (ToolCall, string, seq<Reply>, nat) -> RunTrace,
                replies: seq<Reply>, k: nat, i: nat, done: seq<Event>, sent: seq<Outbound>, whole: RunTrace, s: RunTrace)
    requires |ids| == |calls| && i < |calls|
    requires whole == Glue(done, sent, RunSteps(calls[i..], ids[i..], step, replies, k + |sent|))
    requires s == step(calls[i], CallId(calls[i], ids[i]), replies, k + |sent|) && s.outcome.Done?
    ensures whole == Glue(done + s.events, sent + s.sent, RunSteps(calls[i + 1..], ids[i + 1..], step, replies, k + |sent + s.sent|))
  {
    assert calls[i..][0] == calls[i] && ids[i..][0] == ids[i];
    assert calls[i..][1..] == calls[i + 1..] && ids[i..][1..] == ids[i + 1..];
    GlueGlue(done, sent, s.events, s.sent, RunSteps(calls[i + 1..], ids[i + 1..], step, replies, k + |sent + s.sent|));
  }

  lemma Assoc<T>(x: seq<T>, a: seq<T>, b: seq<T>)
    ensures x + a + b == x + (a + b)
  {
  }

  lemma Assoc3<T>(x: seq<T>, a: seq<T>, b: seq<T>, c: seq<T>)
    ensures x + a + b + c == x + (a + b + c)
  {
  }

  // ---------------------------------------------------------------- the executor

  /** The compensating `undo`. */
  function UndoTrace(replies: seq<Reply>, k: nat): Trace {
    Exec(UndoLast, replies, k)
  }

  /** `ToolExecutor`; `events` records what it does, the progress reports
      being what `onProgress` receives. `dispatch` names what `dispatch(call)`
      does, which is `DispatchTrace`. */
  class ToolExecutor {
    const tools: BasicTools
    var events: seq<Event>
    ghost const dispatch: (ToolCall, seq<Reply>, nat) -> Trace
    ghost const undo: (seq<Reply>, nat) -> Trace
    ghost const step: (ToolCall, string, seq<Reply>, nat) -> RunTrace

    /** `dispatch` and `undo` agree with `DispatchTrace` and `UndoTrace`
        everywhere, and `step` with `StepTrace` for them. */
    ghost predicate Valid() {
      && (forall call, replies, k {:trigger DispatchTrace(call, replies, k)} ::
            dispatch(call, replies, k) == DispatchTrace(call, replies, k))
      && (forall replies, k {:trigger UndoTrace(replies, k)} :: undo(replies, k) == UndoTrace(replies, k))
      && Steps(step, dispatch, undo)
    }

    constructor (tools: BasicTools)
      ensures this.tools == tools && events == [] && dispatch == DispatchTrace && undo == UndoTrace && Valid()
    {
      this.tools := tools;
      events := [];
      dispatch, undo := DispatchTrace, UndoTrace;
      step := StepOf(DispatchTrace, UndoTrace);
    }

    /** `dispatch(call)`. */
    method Dispatch(call: ToolCall) returns (r: ToolOutcome)
      requires Valid()
      modifies tools.bridge
      ensures tools.bridge.sent == old(tools.bridge.sent) + dispatch(call, tools.bridge.replies, |old(tools.bridge.sent)|).issued
      ensures r == dispatch(call, tools.bridge.replies, |old(tools.bridge.sent)|).outcome
    {
      assert dispatch(call, tools.bridge.replies, |tools.bridge.sent|) == DispatchTrace(call, tools.bridge.replies, |tools.bridge.sent|);
      var name := call.name;
      if name == "set_cell_text" {
        r := tools.SetText(Arg(call, "address"), Arg(call, "text"));
      } else if name == "apply_formula" {
        r := tools.ApplyFormula(Arg(call, "address"), Arg(call, "formula"));
      } else if name == "go_to_cell" {
        GoToMoves(Arg(call, "address"), tools.bridge.replies, |tools.bridge.sent|);
        r := tools.GoTo(Arg(call, "address"));
      } else if name == "sort_range" {
        r := tools.SortRange(Arg(call, "range"), Arg(call, "column"), Truthy(Prop(Args(call), "ascending")));
      } else if name == "format_range_currency" {
        r := tools.FormatCurrency(Arg(call, "range"));
      } else if name == "format_range_bold" {
        r := tools.FormatBold(Arg(call, "range"), Prop(Args(call), "bold") != Bool(false));
      } else if name == "undo" {
        r := tools.Undo();
      } else if name == "redo" {
        r := tools.Redo();
      } else {
        r := Threw(UnknownTool(name));
      }
    }

    /** One iteration of `run`'s loop. */
    method Step(call: ToolCall, id: string) returns (r: ToolOutcome)
      requires Valid()
      modifies this, tools.bridge
      ensures var s := step(call, id, tools.bridge.replies, |old(tools.bridge.sent)|);
        events == old(events) + s.events && tools.bridge.sent == old(tools.bridge.sent) + s.sent && r == s.outcome
    {
      ghost var e0, s0 := events, tools.bridge.sent;
      ghost var replies, k := tools.bridge.replies, |s0|;
      ghost var st := StepTrace(call, id, dispatch, undo, replies, k);
      assert step(call, id, replies, k) == st;
      ghost var t := dispatch(call, replies, k);
      events := events + [Dispatched(call)];
      var outcome := Dispatch(call);
      assert outcome == t.outcome && tools.bridge.sent == s0 + t.issued;
      if outcome.Done? {
        events := events + [Progress(Succeeded(id))];
        assert st == RunTrace([Dispatched(call), Progress(Succeeded(id))], t.issued, Done);
        assert e0 + [Dispatched(call)] + [Progress(Succeeded(id))] == e0 + [Dispatched(call), Progress(Succeeded(id))];
        return Done;
      }
      var message := ErrorText(outcome.err);
      ghost var k1 := k + |t.issued|;
      ghost var compensation: seq<Event> := if Mutating(call.name) then [UndoAttempted] else [];
      ghost var undone: seq<Outbound> := if Mutating(call.name) then undo(replies, k1).issued else [];
      assert st == RunTrace(FailureLog(call, id, message), t.issued + undone, Threw(ErrorObject("Error", message)));
      if Mutating(call.name) {
        events := events + [UndoAttempted];
        assert undo(replies, k1) == UndoTrace(replies, k1);
        var _ := tools.Undo();
      } else {
        assert events == events + compensation && tools.bridge.sent == tools.bridge.sent + undone;
      }
      events := events + [Progress(Failed(id, message))];
      Assoc3(e0, [Dispatched(call)], compensation, [Progress(Failed(id, message))]);
      Assoc(s0, t.issued, undone);
      r := Threw(ErrorObject("Error", message));
    }

    /** `run(calls, onProgress)`, where `ids[i]` is the id generated for
        call `i` when it carries none. */
    method Run(calls: seq<ToolCall>, ids: seq<string>) returns (r: ToolOutcome)
      requires |ids| == |calls| && Valid()
      modifies this, tools.bridge
      ensures var t := RunSteps(calls, ids, step, tools.bridge.replies, |old(tools.bridge.sent)|);
        events == old(events) + t.events && tools.bridge.sent == old(tools.bridge.sent) + t.sent && r == t.outcome
    {
      ghost var replies := tools.bridge.replies;
      ghost var e0, s0 := events, tools.bridge.sent;
      ghost var k0 := |s0|;
      ghost var whole := RunSteps(calls, ids, step, replies, k0);
      ghost var done: seq<Event>, sent: seq<Outbound> := [], [];
      assert calls[0..] == calls && ids[0..] == ids;
      var i := 0;
      while i < |calls|
        invariant 0 <= i <= |calls|
        invariant events == e0 + done && tools.bridge.sent == s0 + sent && |tools.bridge.sent| == k0 + |sent|
        invariant whole == Glue(done, sent, RunSteps(calls[i..], ids[i..], step, replies, k0 + |sent|))
        decreases |calls| - i
      {
        ghost var s := step(calls[i], CallId(calls[i], ids[i]), replies, k0 + |sent|);
        var outcome := Step(calls[i], CallId(calls[i], ids[i]));
        Assoc(e0, done, s.events);
        Assoc(s0, sent, s.sent);
        if outcome.Threw? {
          assert calls[i..][0] == calls[i] && ids[i..][0] == ids[i];
          return outcome;
        }
        Advance(calls, ids, step, replies, k0, i, done, sent, whole, s);
        done, sent := done + s.events, sent + s.sent;
        i := i + 1;
      }
      assert done + [] == done && sent + [] == sent;
      r := Done;
    }
  }
}
