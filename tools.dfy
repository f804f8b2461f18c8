/** The high-level editor tools (apps/ai-calc-assistant/src/agent/tools.ts):
    each validates its arguments, then issues a fixed, ordered sequence of
    primitive UNO commands through the bridge, awaiting each one. */
module Tools {
  import opened Text
  import opened Js
  import opened Validators

  /** `UNO_COMMANDS` (types.ts). */
  datatype UnoCommand =
    | GoToCell | EnterString | DataSort | InsertChart | DataPilotInsert
    | Bold | CurrencyFormat | Undo | Redo

  function CommandUrl(c: UnoCommand): string {
    match c
    case GoToCell => ".uno:GoToCell"
    case EnterString => ".uno:EnterString"
    case DataSort => ".uno:DataSort"
    case InsertChart => ".uno:InsertObjectChart"
    case DataPilotInsert => ".uno:DataPilotInsert"
    case Bold => ".uno:Bold"
    case CurrencyFormat => ".uno:NumberFormatCurrency"
    case Undo => ".uno:Undo"
    case Redo => ".uno:Redo"
  }

  datatype ArgValue = Text(s: string) | Flag(b: bool)

  /** `UNOArgument`. */
  datatype UnoArg = UnoArg(name: string, value: ArgValue)

  /** What a tool hands to the bridge: a UNO command, or a typed request. */
  datatype Outbound = Uno(command: UnoCommand, args: seq<UnoArg>) | Query(messageType: string)

  /** How the bridge's promise settles: resolved with the reply's `result`,
      or rejected. */
  datatype Reply = Resolved(data: JsValue) | Rejected(reason: Thrown)

  /** The reply to the `k`-th message sent; messages past the script succeed. */
  function ReplyAt(replies: seq<Reply>, k: nat): Reply {
    if k < |replies| then replies[k] else Resolved(Undefined)
  }

  /** The bridge as an awaiting tool sees it: every message is appended to
      `sent`, and the `k`-th message ever sent settles as `replies[k]`. */
  class UnoChannel {
    var sent: seq<Outbound>
    const replies: seq<Reply>

    constructor (replies: seq<Reply>)
      ensures sent == [] && this.replies == replies
    {
      sent := [];
      this.replies := replies;
    }

    /** `bridge.uno(command, args)`. */
    method Uno(command: UnoCommand, args: seq<UnoArg>) returns (r: Reply)
      modifies this
      ensures sent == old(sent) + [Outbound.Uno(command, args)]
      ensures r == ReplyAt(replies, |old(sent)|)
    {
      r := ReplyAt(replies, |sent|);
      sent := sent + [Outbound.Uno(command, args)];
    }

    /** `bridge.request(messageType, {})`. */
    method Request(messageType: string) returns (r: Reply)
      modifies this
      ensures sent == old(sent) + [Query(messageType)]
      ensures r == ReplyAt(replies, |old(sent)|)
    {
      r := ReplyAt(replies, |sent|);
      sent := sent + [Query(messageType)];
    }
  }

  /** One `BasicTools` method call with its arguments. */
  datatype ToolOp =
    | GoTo(address: string)
    | SetText(address: string, text: string)
    | ApplyFormula(address: string, formula: string)
    | UndoLast
    | RedoLast
    | ReadSelection
    | CreatePivot(range: string)
    | CreateChart(range: string, chartType: Option<string>)
    | FormatBold(range: string, bold: bool)
    | FormatCurrency(range: string)
    | SortRange(range: string, column: string, ascending: bool)
    | AutoFilter(range: string)
    | NameRange(name: string, range: string)
    | SelectRange(range: string)

  /** What a tool does, in order: evaluate a guard (which may throw), or send
      a message and await it. */
  datatype Step = Check(guard: Outcome) | Send(msg: Outbound)

  /** `range.split(':')[0]`. */
  function StartOf(range: string): string {
    SplitStart(range)
  }

  /** `!name || /\s/.test(name)` in `named_range_create`. */
  function CheckName(name: string): Outcome {
    if name == "" || HasSpace(name) then Fail("INVALID_NAME", "Name required without spaces") else Pass
  }

  function MoveTo(target: string): Outbound {
    Outbound.Uno(GoToCell, [UnoArg("ToPoint", Text(target))])
  }

  function Enter(s: string): Outbound {
    Outbound.Uno(EnterString, [UnoArg("StringName", Text(s))])
  }

  function Checks(guards: seq<Outcome>): (steps: seq<Step>)
    ensures |steps| == |guards|
    ensures forall i :: 0 <= i < |guards| ==> steps[i] == Check(guards[i])
  {
    if guards == [] then [] else [Check(guards[0])] + Checks(guards[1..])
  }

  function SendAll(ms: seq<Outbound>): (steps: seq<Step>)
    ensures |steps| == |ms|
    ensures forall i :: 0 <= i < |ms| ==> steps[i] == Send(ms[i])
  {
    if ms == [] then [] else [Send(ms[0])] + SendAll(ms[1..])
  }

  /** One validation: a validator and the argument it is applied to. */
  datatype Guard = Guard(check: string -> Outcome, arg: string)

  function Eval(g: Guard): Outcome {
    g.check(g.arg)
  }

  function Evals(gs: seq<Guard>): (os: seq<Outcome>)
    ensures |os| == |gs|
    ensures forall i :: 0 <= i < |gs| ==> os[i] == Eval(gs[i])
  {
    if gs == [] then [] else [Eval(gs[0])] + Evals(gs[1..])
  }

  /** The validations a tool performs itself, in order, before anything else. */
  function OwnGuards(op: ToolOp): seq<Guard> {
    match op
    case GoTo(a) => [Guard(ValidateCellAddress, a)]
    case SetText(a, _) => [Guard(ValidateCellAddress, a)]
    case ApplyFormula(a, f) => [Guard(ValidateCellAddress, a), Guard(ValidateFormula, f)]
    case UndoLast => []
    case RedoLast => []
    case ReadSelection => []
    case CreatePivot(r) => [Guard(ValidateRange, r)]
    case CreateChart(r, _) => [Guard(ValidateRange, r)]
    case FormatBold(r, _) => [Guard(ValidateRange, r)]
    case FormatCurrency(r) => [Guard(ValidateRange, r)]
    case SortRange(r, col, _) => [Guard(ValidateRange, r), Guard(ValidateColumnId, col)]
    case AutoFilter(r) => [Guard(ValidateRange, r)]
    case NameRange(name, r) => [Guard(ValidateRange, r), Guard(CheckName, name)]
    case SelectRange(r) => [Guard(ValidateRange, r)]
  }

  /** How the tool's own validations end, in order. */
  function Own(op: ToolOp): seq<Outcome> {
    Evals(OwnGuards(op))
  }

  /** Where the tool first moves with `go_to_cell`, if it does: the address,
      or the text before the first `:` of the range. */
  function Target(op: ToolOp): Option<string> {
    match op
    case SetText(a, _) => Some(a)
    case ApplyFormula(a, _) => Some(a)
    case CreatePivot(r) => Some(StartOf(r))
    case CreateChart(r, _) => Some(StartOf(r))
    case FormatBold(r, _) => Some(StartOf(r))
    case FormatCurrency(r) => Some(StartOf(r))
    case SortRange(r, _, _) => Some(StartOf(r))
    case AutoFilter(r) => Some(StartOf(r))
    case _ => None
  }

  /** The tool's own messages, sent after the move. */
  function Post(op: ToolOp): seq<Outbound> {
    match op
    case GoTo(a) => [MoveTo(a)]
    case SetText(_, t) => [Enter(t)]
    case ApplyFormula(_, f) => [Enter(f)]
    case UndoLast => [Outbound.Uno(Undo, [])]
    case RedoLast => [Outbound.Uno(Redo, [])]
    case ReadSelection => [Query("get_selection")]
    case CreatePivot(_) => [Outbound.Uno(DataPilotInsert, [])]
    case CreateChart(r, ty) =>
      [Outbound.Uno(InsertChart, [UnoArg("Range", Text(r)), UnoArg("ChartType", Text(if ty.Some? then ty.value else "bar"))])]
    case FormatBold(_, b) => [Outbound.Uno(Bold, [UnoArg("Bold", Flag(b))])]
    case FormatCurrency(_) => [Outbound.Uno(CurrencyFormat, [])]
    case SortRange(_, col, asc) =>
      [Outbound.Uno(DataSort, [UnoArg("SortKey1", Text(Upper(col))), UnoArg("SortAscending1", Flag(asc))])]
    case AutoFilter(_) => []
    case NameRange(_, _) => []
    case SelectRange(r) => [MoveTo(r)]
  }

  /** The guard of `go_to_cell(target)`, if the tool moves. */
  function MoveGuard(target: Option<string>): seq<Outcome> {
    if target.Some? then [ValidateCellAddress(target.value)] else []
  }

  /** The message of `go_to_cell(target)`, if the tool moves. */
  function MoveCommand(target: Option<string>): seq<Outbound> {
    if target.Some? then [MoveTo(target.value)] else []
  }

  /** `go_to_cell(target)` called from another tool. */
  function MoveSteps(target: Option<string>): seq<Step> {
    Checks(MoveGuard(target)) + SendAll(MoveCommand(target))
  }

  /** The ordered steps of a tool: its own guards, the move (whose own guard
      validates the target as an address), then its own messages. */
  function Script(op: ToolOp): seq<Step> {
    Checks(Own(op)) + MoveSteps(Target(op)) + SendAll(Post(op))
  }

  /** How a tool call ends: it returns, or it throws. */
  datatype ToolOutcome = Done | Threw(err: Thrown)

  /** The messages a tool issued and how it ended. */
  datatype Trace = Trace(issued: seq<Outbound>, outcome: ToolOutcome)

  /** Running steps against the scripted replies, the next message being the
      `k`-th ever sent: the first failing guard or rejected message ends the
      run with its error. */
  function Run(steps: seq<Step>, replies: seq<Reply>, k: nat): Trace
    decreases |steps|
  {
    if steps == [] then Trace([], Done)
    else match steps[0]
      case Check(o) =>
        if o.Fail? then Trace([], Threw(GuardError(o))) else Run(steps[1..], replies, k)
      case Send(m) =>
        match ReplyAt(replies, k)
        case Rejected(e) => Trace([m], Threw(e))
        case Resolved(_) =>
          var t := Run(steps[1..], replies, k + 1);
          Trace([m] + t.issued, t.outcome)
  }

  /** Running `a + b` runs `a`, then, unless `a` threw, `b` from where `a`
      left the channel. */
  lemma {:induction false} RunAppend(a: seq<Step>, b: seq<Step>, replies: seq<Reply>, k: nat)
    ensures var ta := Run(a, replies, k);
      Run(a + b, replies, k) ==
        if ta.outcome.Threw? then ta
        else var tb := Run(b, replies, k + |ta.issued|); Trace(ta.issued + tb.issued, tb.outcome)
  {
    if a == [] {
      assert a + b == b;
    } else {
      assert (a + b)[0] == a[0] && (a + b)[1..] == a[1..] + b;
      match a[0]
      case Check(o) =>
        RunAppend(a[1..], b, replies, k);
      case Send(m) =>
        RunAppend(a[1..], b, replies, k + 1);
        var ta := Run(a[1..], replies, k + 1);
        if ta.outcome.Done? {
          var tb := Run(b, replies, k + 1 + |ta.issued|);
          assert [m] + (ta.issued + tb.issued) == [m] + ta.issued + tb.issued;
        }
    }
  }

  /** The messages a script sends when nothing stops it. */
  function Sends(steps: seq<Step>): seq<Outbound> {
    if steps == [] then []
    else if steps[0].Send? then [steps[0].msg] + Sends(steps[1..])
    else Sends(steps[1..])
  }

  /** Messages go out in script order and none is skipped: what was issued is
      a prefix of the script's messages, and all of them when the run returns. */
  lemma {:induction false} RunIssuesPrefix(steps: seq<Step>, replies: seq<Reply>, k: nat)
    ensures var t := Run(steps, replies, k);
      |t.issued| <= |Sends(steps)| && t.issued == Sends(steps)[..|t.issued|]
    ensures Run(steps, replies, k).outcome.Done? ==> Run(steps, replies, k).issued == Sends(steps)
  {
    if steps != [] {
      match steps[0]
      case Check(o) =>
        RunIssuesPrefix(steps[1..], replies, k);
      case Send(m) =>
        RunIssuesPrefix(steps[1..], replies, k + 1);
    }
  }

  /** A run that throws stops at once: either a guard failed (and its error is
      what is thrown), or the last message issued was rejected (and its
      rejection is what is thrown). */
  lemma {:induction false} RunStopsAtFailure(steps: seq<Step>, replies: seq<Reply>, k: nat)
    requires Run(steps, replies, k).outcome.Threw?
    ensures var t := Run(steps, replies, k);
      (exists i :: 0 <= i < |steps| && steps[i].Check? && steps[i].guard.Fail?
         && t.outcome.err == GuardError(steps[i].guard))
      || (|t.issued| > 0 && ReplyAt(replies, k + |t.issued| - 1) == Rejected(t.outcome.err))
  {
    var t := Run(steps, replies, k);
    match steps[0]
    case Check(o) =>
      if o.Fail? {
        assert steps[0].Check? && steps[0].guard.Fail?;
      } else {
        RunStopsAtFailure(steps[1..], replies, k);
        var t1 := Run(steps[1..], replies, k);
        if |t1.issued| == 0 || ReplyAt(replies, k + |t1.issued| - 1) != Rejected(t1.outcome.err) {
          var i :| 0 <= i < |steps[1..]| && steps[1..][i].Check? && steps[1..][i].guard.Fail?
            && t1.outcome.err == GuardError(steps[1..][i].guard);
          assert steps[i + 1] == steps[1..][i];
        }
      }
    case Send(m) =>
      if ReplyAt(replies, k).Resolved? {
        RunStopsAtFailure(steps[1..], replies, k + 1);
        var t1 := Run(steps[1..], replies, k + 1);
        if |t1.issued| == 0 || ReplyAt(replies, k + 1 + |t1.issued| - 1) != Rejected(t1.outcome.err) {
          var i :| 0 <= i < |steps[1..]| && steps[1..][i].Check? && steps[1..][i].guard.Fail?
            && t1.outcome.err == GuardError(steps[1..][i].guard);
          assert steps[i + 1] == steps[1..][i];
        }
      }
  }

  /** Guards that pass change nothing; the first failing one throws before
      anything is sent. */
  lemma {:induction false} GuardsThenRun(guards: seq<Outcome>, rest: seq<Step>, replies: seq<Reply>, k: nat)
    ensures var steps := Checks(guards) + rest;
      Run(steps, replies, k) ==
        if FirstFailure(guards) < |guards| then Trace([], Threw(GuardError(guards[FirstFailure(guards)])))
        else Run(rest, replies, k)
  {
    if guards != [] {
      var steps := Checks(guards) + rest;
      assert steps[0] == Check(guards[0]);
      assert steps[1..] == Checks(guards[1..]) + rest;
      GuardsThenRun(guards[1..], rest, replies, k);
    } else {
      assert Checks(guards) + rest == rest;
    }
  }

  /** Index of the first failing guard, or `|guards|`. */
  function FirstFailure(guards: seq<Outcome>): (i: nat)
    ensures i <= |guards|
    ensures i < |guards| ==> guards[i].Fail?
    ensures forall j :: 0 <= j < i ==> guards[j].Pass?
  {
    if guards == [] then 0 else if guards[0].Fail? then 0 else 1 + FirstFailure(guards[1..])
  }

  lemma {:induction false} ChecksAppend(g: seq<Outcome>, h: seq<Outcome>)
    ensures Checks(g + h) == Checks(g) + Checks(h)
  {
    var l, r := Checks(g + h), Checks(g) + Checks(h);
    assert |l| == |r|;
    forall i | 0 <= i < |l| ensures l[i] == r[i] {
      if i < |g| {
        assert (g + h)[i] == g[i];
      } else {
        assert (g + h)[i] == h[i - |g|];
      }
    }
  }

  lemma {:induction false} SendAllAppend(m: seq<Outbound>, n: seq<Outbound>)
    ensures SendAll(m + n) == SendAll(m) + SendAll(n)
  {
    var l, r := SendAll(m + n), SendAll(m) + SendAll(n);
    assert |l| == |r|;
    forall i | 0 <= i < |l| ensures l[i] == r[i] {
      if i < |m| {
        assert (m + n)[i] == m[i];
      } else {
        assert (m + n)[i] == n[i - |m|];
      }
    }
  }

  /** Every guard the tool evaluates, its own and then the move's, in order. */
  function Guards(op: ToolOp): seq<Outcome> {
    Own(op) + MoveGuard(Target(op))
  }

  /** Every message the tool sends when nothing fails, in order. */
  function Commands(op: ToolOp): seq<Outbound> {
    MoveCommand(Target(op)) + Post(op)
  }

  lemma ShapeOf(own: seq<Outcome>, mg: seq<Outcome>, mc: seq<Outbound>, post: seq<Outbound>)
    ensures Checks(own) + (Checks(mg) + SendAll(mc)) + SendAll(post)
      == Checks(own + mg) + SendAll(mc + post)
  {
    ChecksAppend(own, mg);
    SendAllAppend(mc, post);
    Regroup(Checks(own), Checks(mg), SendAll(mc), SendAll(post));
  }

  lemma Regroup<T>(a: seq<T>, b: seq<T>, c: seq<T>, d: seq<T>)
    ensures a + (b + c) + d == (a + b) + (c + d)
  {
  }

  /** Each tool evaluates all its guards before it sends anything. */
  lemma ScriptShape(op: ToolOp)
    ensures Script(op) == Checks(Guards(op)) + SendAll(Commands(op))
  {
    ShapeOf(Own(op), MoveGuard(Target(op)), MoveCommand(Target(op)), Post(op));
  }

  /** A guard that fails, the tool's own or the move's check of its target,
      stops the tool before any message is sent, with that guard's error. */
  lemma InvalidIssuesNothing(op: ToolOp, replies: seq<Reply>, k: nat)
    requires FirstFailure(Guards(op)) < |Guards(op)|
    ensures Run(Script(op), replies, k) ==
      Trace([], Threw(GuardError(Guards(op)[FirstFailure(Guards(op))])))
  {
    ScriptShape(op);
    GuardsThenRun(Guards(op), SendAll(Commands(op)), replies, k);
  }

  /** Once every guard passes, the tool sends its commands in order, stopping
      at the first rejection. */
  lemma ValidSendsCommands(op: ToolOp, replies: seq<Reply>, k: nat)
    requires FirstFailure(Guards(op)) == |Guards(op)|
    ensures Run(Script(op), replies, k) == Run(SendAll(Commands(op)), replies, k)
  {
    ScriptShape(op);
    GuardsThenRun(Guards(op), SendAll(Commands(op)), replies, k);
  }

  /** Sending messages none of which is rejected issues all of them and returns. */
  lemma {:induction false} SendAllResolved(ms: seq<Outbound>, replies: seq<Reply>, k: nat)
    requires forall j :: k <= j < k + |ms| ==> ReplyAt(replies, j).Resolved?
    ensures Run(SendAll(ms), replies, k) == Trace(ms, Done)
  {
    if ms != [] {
      assert SendAll(ms)[1..] == SendAll(ms[1..]);
      assert ReplyAt(replies, k).Resolved?;
      SendAllResolved(ms[1..], replies, k + 1);
      assert [ms[0]] + ms[1..] == ms;
    }
  }

  /** `(res.data as any) || {}`. */
  function SelectionOf(reply: Reply): JsValue {
    match reply
    case Resolved(d) => if Truthy(d) then d else EmptyObject
    case Rejected(_) => Undefined
  }

  /** The outcome of awaiting one bridge message. */
  function Settle(reply: Reply): ToolOutcome {
    match reply
    case Resolved(_) => Done
    case Rejected(e) => Threw(e)
  }

  lemma RunOne(m: Outbound, replies: seq<Reply>, k: nat)
    ensures Run(SendAll([m]), replies, k) == Trace([m], Settle(ReplyAt(replies, k)))
  {
    assert SendAll([m])[1..] == [];
  }

  /** What `go_to_cell(a)` does: validate `a`, then send the move and await
      its reply. */
  function Moving(a: string, replies: seq<Reply>, k: nat): Trace {
    var v := ValidateCellAddress(a);
    if v.Fail? then Trace([], Threw(GuardError(v))) else Trace([MoveTo(a)], Settle(ReplyAt(replies, k)))
  }

  /** What moving to the target does, if the tool moves. */
  function Moved(target: Option<string>, replies: seq<Reply>, k: nat): Trace {
    if target.Some? then Moving(target.value, replies, k) else Trace([], Done)
  }

  lemma MovedRun(target: Option<string>, replies: seq<Reply>, k: nat)
    ensures Run(MoveSteps(target), replies, k) == Moved(target, replies, k)
  {
    if target.Some? {
      var a := target.value;
      GuardsThenRun([ValidateCellAddress(a)], SendAll([MoveTo(a)]), replies, k);
      RunOne(MoveTo(a), replies, k);
    } else {
      assert MoveSteps(target) == [];
    }
  }

  /** Unless the move threw, the tool's own messages after it. */
  function Then(tm: Trace, post: seq<Outbound>, replies: seq<Reply>, k: nat): Trace {
    if tm.outcome.Threw? then tm
    else
      var tp := Run(SendAll(post), replies, k + |tm.issued|);
      Trace(tm.issued + tp.issued, tp.outcome)
  }

  lemma ThenOne(tm: Trace, m: Outbound, replies: seq<Reply>, k: nat)
    requires tm.outcome.Done?
    ensures Then(tm, [m], replies, k) == Trace(tm.issued + [m], Settle(ReplyAt(replies, k + |tm.issued|)))
  {
    RunOne(m, replies, k + |tm.issued|);
  }

  /** With nothing before it, one message is issued and ends as its reply. */
  lemma SendOne(m: Outbound, replies: seq<Reply>, k: nat)
    ensures Then(Trace([], Done), [m], replies, k) == Trace([m], Settle(ReplyAt(replies, k)))
  {
    ThenOne(Trace([], Done), m, replies, k);
  }

  lemma ThenNone(tm: Trace, replies: seq<Reply>, k: nat)
    ensures Then(tm, [], replies, k) == tm
  {
    assert tm.issued + [] == tm.issued;
  }

  /** Own guards, then, unless one of them failed, the move's trace `tm`
      followed by the tool's own messages. */
  function RunPieces(own: seq<Outcome>, tm: Trace, post: seq<Outbound>, replies: seq<Reply>, k: nat): Trace {
    if FirstFailure(own) < |own| then Trace([], Threw(GuardError(own[FirstFailure(own)])))
    else Then(tm, post, replies, k)
  }

  lemma RunPiecesSound(own: seq<Outcome>, mid: seq<Step>, post: seq<Outbound>, replies: seq<Reply>, k: nat)
    ensures Run(Checks(own) + mid + SendAll(post), replies, k)
      == RunPieces(own, Run(mid, replies, k), post, replies, k)
  {
    RunAppend(Checks(own) + mid, SendAll(post), replies, k);
    GuardsThenRun(own, mid, replies, k);
  }

  /** A tool run in the order its method performs it: own guards, then the
      move, then its own messages from where the move left the channel. */
  lemma RunInParts(op: ToolOp, replies: seq<Reply>, k: nat)
    ensures Run(Script(op), replies, k) == RunPieces(Own(op), Run(MoveSteps(Target(op)), replies, k), Post(op), replies, k)
  {
    RunPiecesSound(Own(op), MoveSteps(Target(op)), Post(op), replies, k);
  }

  /** What a tool call does, piece by piece: its own guards, the move, its own
      messages. */
  function Exec(op: ToolOp, replies: seq<Reply>, k: nat): Trace {
    RunPieces(Own(op), Moved(Target(op), replies, k), Post(op), replies, k)
  }

  /** The piecewise account agrees with running the tool's script. */
  lemma ExecRuns(op: ToolOp, replies: seq<Reply>, k: nat)
    ensures Run(Script(op), replies, k) == Exec(op, replies, k)
  {
    RunInParts(op, replies, k);
    MovedRun(Target(op), replies, k);
  }

  /** A tool with no validations of its own: the move, then its messages. */
  lemma NoGuards(op: ToolOp, target: Option<string>, post: seq<Outbound>, replies: seq<Reply>, k: nat)
    requires OwnGuards(op) == [] && Target(op) == target && Post(op) == post
    ensures Exec(op, replies, k) == Then(Moved(target, replies, k), post, replies, k)
  {
  }

  /** A tool with one validation of its own. */
  lemma OneGuard(op: ToolOp, g: Guard, target: Option<string>, post: seq<Outbound>, replies: seq<Reply>, k: nat)
    requires OwnGuards(op) == [g] && Target(op) == target && Post(op) == post
    ensures Exec(op, replies, k)
      == if Eval(g).Fail? then Trace([], Threw(GuardError(Eval(g)))) else Then(Moved(target, replies, k), post, replies, k)
  {
    assert Own(op) == [Eval(g)];
    assert Own(op)[1..] == [];
  }

  /** Two guards: the first failure throws, otherwise the move and the
      messages follow. */
  lemma TwoChecks(o1: Outcome, o2: Outcome, tm: Trace, post: seq<Outbound>, replies: seq<Reply>, k: nat)
    ensures RunPieces([o1, o2], tm, post, replies, k)
      == if o1.Fail? then Trace([], Threw(GuardError(o1)))
         else if o2.Fail? then Trace([], Threw(GuardError(o2)))
         else Then(tm, post, replies, k)
  {
    var os := [o1, o2];
    assert os[1..] == [o2] && [o2][1..] == [];
    if o1.Pass? {
      assert FirstFailure(os) == 1 + FirstFailure([o2]);
    }
  }

  /** A tool with two validations of its own, the first checked first. */
  lemma TwoGuards(op: ToolOp, g: Guard, h: Guard, target: Option<string>, post: seq<Outbound>, replies: seq<Reply>, k: nat)
    requires OwnGuards(op) == [g, h] && Target(op) == target && Post(op) == post
    ensures Exec(op, replies, k)
      == if Eval(g).Fail? then Trace([], Threw(GuardError(Eval(g))))
         else if Eval(h).Fail? then Trace([], Threw(GuardError(Eval(h))))
         else Then(Moved(target, replies, k), post, replies, k)
  {
    assert [g, h][1..] == [h];
    assert Own(op) == [Eval(g), Eval(h)];
    TwoChecks(Eval(g), Eval(h), Moved(target, replies, k), post, replies, k);
  }

  // ---------------------------------------------------------------- per-tool consequences

  /** A move to a valid address followed by one message: the move is issued
      first, and the message only if the move's reply resolved. */
  lemma MoveThenOne(a: string, m: Outbound, replies: seq<Reply>, k: nat)
    requires ValidateCellAddress(a).Pass?
    ensures Then(Moving(a, replies, k), [m], replies, k)
      == if ReplyAt(replies, k).Rejected? then Trace([MoveTo(a)], Threw(ReplyAt(replies, k).reason))
         else Trace([MoveTo(a), m], Settle(ReplyAt(replies, k + 1)))
  {
    assert Moving(a, replies, k) == Trace([MoveTo(a)], Settle(ReplyAt(replies, k)));
    SettledThen(MoveTo(a), m, replies, k);
  }

  /** One message settled by its reply, then one more. */
  lemma SettledThen(x: Outbound, m: Outbound, replies: seq<Reply>, k: nat)
    ensures Then(Trace([x], Settle(ReplyAt(replies, k))), [m], replies, k)
      == if ReplyAt(replies, k).Rejected? then Trace([x], Threw(ReplyAt(replies, k).reason))
         else Trace([x, m], Settle(ReplyAt(replies, k + 1)))
  {
    if ReplyAt(replies, k).Resolved? {
      ThenOne(Trace([x], Settle(ReplyAt(replies, k))), m, replies, k);
      assert [x] + [m] == [x, m];
    }
  }

  /** `go_to_cell` as a tool of its own is exactly the move. */
  lemma GoToMoves(a: string, replies: seq<Reply>, k: nat)
    ensures Exec(ToolOp.GoTo(a), replies, k) == Moving(a, replies, k)
  {
    OneGuard(ToolOp.GoTo(a), Guard(ValidateCellAddress, a), None, [MoveTo(a)], replies, k);
    SendOne(MoveTo(a), replies, k);
  }

  /** `set_cell_text` on a valid address issues the move to it, then, unless
      the move was rejected, `EnterString` with the text. */
  lemma SetTextSends(a: string, t: string, replies: seq<Reply>, k: nat)
    requires ValidateCellAddress(a).Pass?
    ensures Exec(ToolOp.SetText(a, t), replies, k)
      == if ReplyAt(replies, k).Rejected? then Trace([MoveTo(a)], Threw(ReplyAt(replies, k).reason))
         else Trace([MoveTo(a), Enter(t)], Settle(ReplyAt(replies, k + 1)))
  {
    OneGuard(ToolOp.SetText(a, t), Guard(ValidateCellAddress, a), Some(a), [Enter(t)], replies, k);
    MoveThenOne(a, Enter(t), replies, k);
  }

  /** `apply_formula` checks the address, then the formula, then moves and
      enters the formula. */
  lemma ApplyFormulaExec(a: string, f: string, replies: seq<Reply>, k: nat)
    ensures ValidateCellAddress(a).Fail? ==>
      Exec(ToolOp.ApplyFormula(a, f), replies, k) == Trace([], Threw(GuardError(ValidateCellAddress(a))))
    ensures ValidateCellAddress(a).Pass? && ValidateFormula(f).Fail? ==>
      Exec(ToolOp.ApplyFormula(a, f), replies, k) == Trace([], Threw(GuardError(ValidateFormula(f))))
    ensures ValidateCellAddress(a).Pass? && ValidateFormula(f).Pass? ==>
      Exec(ToolOp.ApplyFormula(a, f), replies, k) == Then(Moving(a, replies, k), [Enter(f)], replies, k)
  {
    TwoGuards(ToolOp.ApplyFormula(a, f), Guard(ValidateCellAddress, a), Guard(ValidateFormula, f), Some(a), [Enter(f)], replies, k);
  }

  /** `apply_formula` with a valid address and formula issues the move, then
      `EnterString` with the formula. */
  lemma ApplyFormulaSends(a: string, f: string, replies: seq<Reply>, k: nat)
    requires ValidateCellAddress(a).Pass? && ValidateFormula(f).Pass?
    ensures Exec(ToolOp.ApplyFormula(a, f), replies, k)
      == if ReplyAt(replies, k).Rejected? then Trace([MoveTo(a)], Threw(ReplyAt(replies, k).reason))
         else Trace([MoveTo(a), Enter(f)], Settle(ReplyAt(replies, k + 1)))
  {
    ApplyFormulaExec(a, f, replies, k);
    MoveThenOne(a, Enter(f), replies, k);
  }

  function SortCommand(column: string, ascending: bool): Outbound {
    Outbound.Uno(DataSort, [UnoArg("SortKey1", Text(Upper(column))), UnoArg("SortAscending1", Flag(ascending))])
  }

  /** Once the range and the column pass, `sort_range` is the move to the
      range's start followed by the sort on the upper-cased column. */
  lemma SortRangeMoves(r: string, column: string, ascending: bool, replies: seq<Reply>, k: nat)
    ensures ValidateRange(r).Pass? && ValidateColumnId(column).Pass? ==>
      Exec(ToolOp.SortRange(r, column, ascending), replies, k)
      == Then(Moving(StartOf(r), replies, k), [SortCommand(column, ascending)], replies, k)
  {
    var op := ToolOp.SortRange(r, column, ascending);
    TwoGuards(op, Guard(ValidateRange, r), Guard(ValidateColumnId, column), Some(StartOf(r)), [SortCommand(column, ascending)], replies, k);
  }

  /** `sort_range` moves to the text before the first `:` and then sorts on
      the upper-cased column, once the range, the column and that start
      address are all valid. */
  lemma SortRangeSends(r: string, column: string, ascending: bool, replies: seq<Reply>, k: nat)
    requires ValidateRange(r).Pass? && ValidateColumnId(column).Pass? && ValidateCellAddress(StartOf(r)).Pass?
    ensures Exec(ToolOp.SortRange(r, column, ascending), replies, k)
      == if ReplyAt(replies, k).Rejected? then Trace([MoveTo(StartOf(r))], Threw(ReplyAt(replies, k).reason))
         else Trace([MoveTo(StartOf(r)), SortCommand(column, ascending)], Settle(ReplyAt(replies, k + 1)))
  {
    SortRangeMoves(r, column, ascending, replies, k);
    MoveThenOne(StartOf(r), SortCommand(column, ascending), replies, k);
  }

  /** `undo` and `redo` issue exactly one command, with no arguments, and end
      as its reply does. */
  lemma UndoRedoSendOne(replies: seq<Reply>, k: nat)
    ensures Exec(UndoLast, replies, k) == Trace([Outbound.Uno(Undo, [])], Settle(ReplyAt(replies, k)))
    ensures Exec(RedoLast, replies, k) == Trace([Outbound.Uno(Redo, [])], Settle(ReplyAt(replies, k)))
  {
    NoGuards(UndoLast, None, [Outbound.Uno(Undo, [])], replies, k);
    SendOne(Outbound.Uno(Undo, []), replies, k);
    NoGuards(RedoLast, None, [Outbound.Uno(Redo, [])], replies, k);
    SendOne(Outbound.Uno(Redo, []), replies, k);
  }

  /** `select_range` issues one `GoToCell` with the whole range and no move
      before it; an invalid range issues nothing. */
  lemma SelectRangeSendsOne(r: string, replies: seq<Reply>, k: nat)
    ensures Exec(SelectRange(r), replies, k)
      == if ValidateRange(r).Fail? then Trace([], Threw(GuardError(ValidateRange(r))))
         else Trace([MoveTo(r)], Settle(ReplyAt(replies, k)))
  {
    OneGuard(SelectRange(r), Guard(ValidateRange, r), None, [MoveTo(r)], replies, k);
    SendOne(MoveTo(r), replies, k);
  }

  /** `filter_range_autofilter` does nothing but `go_to_cell` on the range's
      start. */
  lemma AutoFilterOnlyMoves(r: string, replies: seq<Reply>, k: nat)
    ensures Exec(AutoFilter(r), replies, k)
      == if ValidateRange(r).Fail? then Trace([], Threw(GuardError(ValidateRange(r))))
         else Moving(StartOf(r), replies, k)
  {
    OneGuard(AutoFilter(r), Guard(ValidateRange, r), Some(StartOf(r)), [], replies, k);
    ThenNone(Moving(StartOf(r), replies, k), replies, k);
  }

  /** `named_range_create` issues nothing; after the range it refuses exactly
      an empty name or one holding white space, with `INVALID_NAME`. */
  lemma NameRangeIssuesNothing(name: string, r: string, replies: seq<Reply>, k: nat)
    ensures Exec(NameRange(name, r), replies, k).issued == []
    ensures ValidateRange(r).Fail? ==>
      Exec(NameRange(name, r), replies, k).outcome == Threw(GuardError(ValidateRange(r)))
    ensures ValidateRange(r).Pass? && (name == "" || HasSpace(name)) ==>
      Exec(NameRange(name, r), replies, k).outcome == Threw(GuardError(Fail("INVALID_NAME", "Name required without spaces")))
    ensures ValidateRange(r).Pass? && name != "" && !HasSpace(name) ==> Exec(NameRange(name, r), replies, k).outcome == Done
  {
    TwoGuards(NameRange(name, r), Guard(ValidateRange, r), Guard(CheckName, name), None, [], replies, k);
    ThenNone(Trace([], Done), replies, k);
  }

  /** The range tools re-validate the range's start as an address through
      `go_to_cell`: a range that passes but whose start does not (a row-0
      start, say) throws the start's error before anything is issued. */
  lemma StartRevalidated(op: ToolOp, r: string, replies: seq<Reply>, k: nat)
    requires op.CreatePivot? || op.CreateChart? || op.FormatBold? || op.FormatCurrency? || op.AutoFilter?
    requires r == op.range
    ensures ValidateRange(r).Pass? && ValidateCellAddress(StartOf(r)).Fail? ==>
      Exec(op, replies, k) == Trace([], Threw(GuardError(ValidateCellAddress(StartOf(r)))))
  {
    OneGuard(op, Guard(ValidateRange, r), Some(StartOf(r)), Post(op), replies, k);
  }

  // ---------------------------------------------------------------- the range check as written

  /** The tools whose first validation is `validateRange`. */
  predicate RangeTool(op: ToolOp) {
    op.CreatePivot? || op.CreateChart? || op.FormatBold? || op.FormatCurrency?
    || op.SortRange? || op.AutoFilter? || op.NameRange? || op.SelectRange?
  }

  /** Every range tool checks its range first. */
  lemma RangeToolGuards(op: ToolOp)
    requires RangeTool(op)
    ensures |OwnGuards(op)| >= 1 && OwnGuards(op)[0] == Guard(ValidateRange, op.range)
  {
  }

  /** The tool's own validations with the first, `validateRange`, as written:
      its doubly anchored pattern refuses every pair. */
  function OwnGuardsAsWritten(op: ToolOp): seq<Guard> {
    var gs := OwnGuards(op);
    if RangeTool(op) && |gs| >= 1 then [Guard(ValidateRangeAsWritten, op.range)] + gs[1..] else gs
  }

  /** What a tool call does with `validateRange` as written. */
  function ExecAsWritten(op: ToolOp, replies: seq<Reply>, k: nat): Trace {
    RunPieces(Evals(OwnGuardsAsWritten(op)), Moved(Target(op), replies, k), Post(op), replies, k)
  }

  /** A first guard that fails decides the run. */
  lemma FirstGuardFails(own: seq<Outcome>, tm: Trace, post: seq<Outbound>, replies: seq<Reply>, k: nat)
    requires |own| >= 1 && own[0].Fail?
    ensures RunPieces(own, tm, post, replies, k) == Trace([], Threw(GuardError(own[0])))
  {
    assert FirstFailure(own) == 0;
  }

  /** As written, every range tool given a `start:end` range throws
      `INVALID_RANGE: Invalid range` before anything is issued. */
  lemma AsWrittenPairsThrow(op: ToolOp, replies: seq<Reply>, k: nat)
    requires RangeTool(op) && ':' in Trim(op.range)
    ensures ExecAsWritten(op, replies, k) == Trace([], Threw(GuardError(Fail("INVALID_RANGE", "Invalid range"))))
  {
    RangeToolGuards(op);
    var own := Evals(OwnGuardsAsWritten(op));
    assert own[0] == Eval(Guard(ValidateRangeAsWritten, op.range));
    AsWrittenRefusesPairs(op.range);
    FirstGuardFails(own, Moved(Target(op), replies, k), Post(op), replies, k);
  }

  /** Every other call, and every range without a `:`, behaves as written
      exactly as `Exec` describes it. */
  lemma AsWrittenAgreesTool(op: ToolOp, replies: seq<Reply>, k: nat)
    requires RangeTool(op) ==> ':' !in Trim(op.range)
    ensures ExecAsWritten(op, replies, k) == Exec(op, replies, k)
  {
    if RangeTool(op) {
      RangeToolGuards(op);
      AsWrittenAgrees(op.range);
      var gs := OwnGuards(op);
      var hs := OwnGuardsAsWritten(op);
      assert |hs| == |gs| && forall i :: 0 < i < |gs| ==> hs[i] == gs[i];
      assert Eval(hs[0]) == Eval(gs[0]);
      assert Evals(hs) == Evals(gs);
    }
  }

  /** As written too, a range that passes but whose start `go_to_cell`
      refuses (a lone `A0`, say) throws the start's error with nothing
      issued: such a range holds no `:`, so both checks agree on it. */
  lemma StartRevalidatedAsWritten(op: ToolOp, r: string, replies: seq<Reply>, k: nat)
    requires op.CreatePivot? || op.CreateChart? || op.FormatBold? || op.FormatCurrency? || op.AutoFilter?
    requires r == op.range
    ensures ValidateRangeAsWritten(r).Pass? && ValidateCellAddress(StartOf(r)).Fail? ==>
      ExecAsWritten(op, replies, k) == Trace([], Threw(GuardError(ValidateCellAddress(StartOf(r)))))
  {
    if ':' in Trim(r) {
      AsWrittenRefusesPairs(r);
    } else {
      AsWrittenAgrees(r);
      AsWrittenAgreesTool(op, replies, k);
      StartRevalidated(op, r, replies, k);
    }
  }

  /** `BasicTools`: each method checks its own guards, moves with `go_to_cell`
      where the source does, then sends its own command. */
  class BasicTools {
    const bridge: UnoChannel

    constructor (bridge: UnoChannel)
      ensures this.bridge == bridge
    {
      this.bridge := bridge;
    }

    /** `go_to_cell`. */
    method GoTo(address: string) returns (r: ToolOutcome)
      modifies bridge
      ensures bridge.sent == old(bridge.sent) + Moving(address, bridge.replies, |old(bridge.sent)|).issued
      ensures r == Moving(address, bridge.replies, |old(bridge.sent)|).outcome
    {
      var v := ValidateCellAddress(address);
      if v.Fail? {
        return Threw(GuardError(v));
      }
      var reply := bridge.Uno(GoToCell, [UnoArg("ToPoint", Text(address))]);
      r := Settle(reply);
    }

    /** Move to `target` with `go_to_cell`, then, unless that threw, send one
        command and await it. */
    method MoveThenUno(target: string, command: UnoCommand, args: seq<UnoArg>) returns (r: ToolOutcome)
      modifies bridge
      ensures bridge.sent == old(bridge.sent) + Then(Moving(target, bridge.replies, |old(bridge.sent)|), [Outbound.Uno(command, args)], bridge.replies, |old(bridge.sent)|).issued
      ensures r == Then(Moving(target, bridge.replies, |old(bridge.sent)|), [Outbound.Uno(command, args)], bridge.replies, |old(bridge.sent)|).outcome
    {
      ghost var s0 := bridge.sent;
      ghost var k := |s0|;
      ghost var m := Outbound.Uno(command, args);
      ghost var tm := Moving(target, bridge.replies, k);
      r := GoTo(target);
      if r.Threw? {
        assert Then(tm, [m], bridge.replies, k) == tm;
        return;
      }
      ThenOne(tm, m, bridge.replies, k);
      var reply := bridge.Uno(command, args);
      assert bridge.sent == s0 + (tm.issued + [m]);
      r := Settle(reply);
    }

    /** `set_cell_text`; `String(text)` of a string is the string itself. */
    method SetText(address: string, text: string) returns (r: ToolOutcome)
      modifies bridge
      ensures bridge.sent == old(bridge.sent) + Exec(ToolOp.SetText(address, text), bridge.replies, |old(bridge.sent)|).issued
      ensures r == Exec(ToolOp.SetText(address, text), bridge.replies, |old(bridge.sent)|).outcome
    {
      ghost var k := |bridge.sent|;
      OneGuard(ToolOp.SetText(address, text), Guard(ValidateCellAddress, address), Some(address), [Enter(text)], bridge.replies, k);
      var v := ValidateCellAddress(address);
      if v.Fail? {
        return Threw(GuardError(v));
      }
      r := MoveThenUno(address, EnterString, [UnoArg("StringName", Text(text))]);
    }

    /** `apply_formula`. */
    method ApplyFormula(address: string, formula: string) returns (r: ToolOutcome)
      modifies bridge
      ensures bridge.sent == old(bridge.sent) + Exec(ToolOp.ApplyFormula(address, formula), bridge.replies, |old(bridge.sent)|).issued
      ensures r == Exec(ToolOp.ApplyFormula(address, formula), bridge.replies, |old(bridge.sent)|).outcome
    {
      ApplyFormulaExec(address, formula, bridge.replies, |bridge.sent|);
      var v := ValidateCellAddress(address);
      if v.Fail? {
        return Threw(GuardError(v));
      }
      var w := ValidateFormula(formula);
      if w.Fail? {
        return Threw(GuardError(w));
      }
      r := MoveThenUno(address, EnterString, [UnoArg("StringName", Text(formula))]);
    }

    /** `undo`. */
    method Undo() returns (r: ToolOutcome)
      modifies bridge
      ensures bridge.sent == old(bridge.sent) + Exec(ToolOp.UndoLast, bridge.replies, |old(bridge.sent)|).issued
      ensures r == Exec(ToolOp.UndoLast, bridge.replies, |old(bridge.sent)|).outcome
    {
      ghost var k := |bridge.sent|;
      NoGuards(ToolOp.UndoLast, None, [Outbound.Uno(UnoCommand.Undo, [])], bridge.replies, k);
      SendOne(Outbound.Uno(UnoCommand.Undo, []), bridge.replies, k);
      var reply := bridge.Uno(UnoCommand.Undo, []);
      r := Settle(reply);
    }

    /** `redo`. */
    method Redo() returns (r: ToolOutcome)
      modifies bridge
      ensures bridge.sent == old(bridge.sent) + Exec(ToolOp.RedoLast, bridge.replies, |old(bridge.sent)|).issued
      ensures r == Exec(ToolOp.RedoLast, bridge.replies, |old(bridge.sent)|).outcome
    {
      ghost var k := |bridge.sent|;
      NoGuards(ToolOp.RedoLast, None, [Outbound.Uno(UnoCommand.Redo, [])], bridge.replies, k);
      SendOne(Outbound.Uno(UnoCommand.Redo, []), bridge.replies, k);
      var reply := bridge.Uno(UnoCommand.Redo, []);
      r := Settle(reply);
    }

    /** `get_selection`: the reply's data, or `{}` when that is falsy. */
    method GetSelection() returns (r: ToolOutcome, selection: JsValue)
      modifies bridge
      ensures bridge.sent == old(bridge.sent) + Exec(ReadSelection, bridge.replies, |old(bridge.sent)|).issued
      ensures r == Exec(ReadSelection, bridge.replies, |old(bridge.sent)|).outcome
      ensures r.Done? ==> selection == SelectionOf(ReplyAt(bridge.replies, |old(bridge.sent)|))
    {
      ghost var k := |bridge.sent|;
      NoGuards(ReadSelection, None, [Query("get_selection")], bridge.replies, k);
      SendOne(Query("get_selection"), bridge.replies, k);
      var reply := bridge.Request("get_selection");
      r := Settle(reply);
      selection := SelectionOf(reply);
    }

    /** `create_pivot`. */
    method CreatePivot(range: string) returns (r: ToolOutcome)
      modifies bridge
      ensures bridge.sent == old(bridge.sent) + Exec(ToolOp.CreatePivot(range), bridge.replies, |old(bridge.sent)|).issued
      ensures r == Exec(ToolOp.CreatePivot(range), bridge.replies, |old(bridge.sent)|).outcome
    {
      ghost var k := |bridge.sent|;
      OneGuard(ToolOp.CreatePivot(range), Guard(ValidateRange, range), Some(StartOf(range)), [Outbound.Uno(DataPilotInsert, [])], bridge.replies, k);
      var v := ValidateRange(range);
      if v.Fail? {
        return Threw(GuardError(v));
      }
      r := MoveThenUno(StartOf(range), DataPilotInsert, []);
    }

    /** `create_chart`; the chart type defaults to `bar`. */
    method CreateChart(range: string, chartType: Option<string>) returns (r: ToolOutcome)
      modifies bridge
      ensures bridge.sent == old(bridge.sent) + Exec(ToolOp.CreateChart(range, chartType), bridge.replies, |old(bridge.sent)|).issued
      ensures r == Exec(ToolOp.CreateChart(range, chartType), bridge.replies, |old(bridge.sent)|).outcome
    {
      ghost var k := |bridge.sent|;
      OneGuard(ToolOp.CreateChart(range, chartType), Guard(ValidateRange, range), Some(StartOf(range)), [Outbound.Uno(InsertChart, [UnoArg("Range", Text(range)), UnoArg("ChartType", Text(if chartType.Some? then chartType.value else "bar"))])], bridge.replies, k);
      var v := ValidateRange(range);
      if v.Fail? {
        return Threw(GuardError(v));
      }
      r := MoveThenUno(StartOf(range), InsertChart, [UnoArg("Range", Text(range)), UnoArg("ChartType", Text(if chartType.Some? then chartType.value else "bar"))]);
    }

    /** `format_range_bold`. */
    method FormatBold(range: string, bold: bool) returns (r: ToolOutcome)
      modifies bridge
      ensures bridge.sent == old(bridge.sent) + Exec(ToolOp.FormatBold(range, bold), bridge.replies, |old(bridge.sent)|).issued
      ensures r == Exec(ToolOp.FormatBold(range, bold), bridge.replies, |old(bridge.sent)|).outcome
    {
      ghost var k := |bridge.sent|;
      OneGuard(ToolOp.FormatBold(range, bold), Guard(ValidateRange, range), Some(StartOf(range)), [Outbound.Uno(Bold, [UnoArg("Bold", Flag(bold))])], bridge.replies, k);
      var v := ValidateRange(range);
      if v.Fail? {
        return Threw(GuardError(v));
      }
      r := MoveThenUno(StartOf(range), Bold, [UnoArg("Bold", Flag(bold))]);
    }

    /** `format_range_currency`. */
    method FormatCurrency(range: string) returns (r: ToolOutcome)
      modifies bridge
      ensures bridge.sent == old(bridge.sent) + Exec(ToolOp.FormatCurrency(range), bridge.replies, |old(bridge.sent)|).issued
      ensures r == Exec(ToolOp.FormatCurrency(range), bridge.replies, |old(bridge.sent)|).outcome
    {
      ghost var k := |bridge.sent|;
      OneGuard(ToolOp.FormatCurrency(range), Guard(ValidateRange, range), Some(StartOf(range)), [Outbound.Uno(CurrencyFormat, [])], bridge.replies, k);
      var v := ValidateRange(range);
      if v.Fail? {
        return Threw(GuardError(v));
      }
      r := MoveThenUno(StartOf(range), CurrencyFormat, []);
    }

    /** `sort_range`: the sort key is the column upper-cased. */
    method SortRange(range: string, column: string, ascending: bool) returns (r: ToolOutcome)
      modifies bridge
      ensures bridge.sent == old(bridge.sent) + Exec(ToolOp.SortRange(range, column, ascending), bridge.replies, |old(bridge.sent)|).issued
      ensures r == Exec(ToolOp.SortRange(range, column, ascending), bridge.replies, |old(bridge.sent)|).outcome
    {
      ghost var k := |bridge.sent|;
      TwoGuards(ToolOp.SortRange(range, column, ascending), Guard(ValidateRange, range), Guard(ValidateColumnId, column), Some(StartOf(range)), [Outbound.Uno(DataSort, [UnoArg("SortKey1", Text(Upper(column))), UnoArg("SortAscending1", Flag(ascending))])], bridge.replies, k);
      var v := ValidateRange(range);
      if v.Fail? {
        return Threw(GuardError(v));
      }
      var w := ValidateColumnId(column);
      if w.Fail? {
        return Threw(GuardError(w));
      }
      r := MoveThenUno(StartOf(range), DataSort, [UnoArg("SortKey1", Text(Upper(column))), UnoArg("SortAscending1", Flag(ascending))]);
    }

    /** `filter_range_autofilter`: only the move is issued. */
    method AutoFilter(range: string) returns (r: ToolOutcome)
      modifies bridge
      ensures bridge.sent == old(bridge.sent) + Exec(ToolOp.AutoFilter(range), bridge.replies, |old(bridge.sent)|).issued
      ensures r == Exec(ToolOp.AutoFilter(range), bridge.replies, |old(bridge.sent)|).outcome
    {
      ghost var k := |bridge.sent|;
      OneGuard(ToolOp.AutoFilter(range), Guard(ValidateRange, range), Some(StartOf(range)), [], bridge.replies, k);
      var v := ValidateRange(range);
      if v.Fail? {
        return Threw(GuardError(v));
      }
      ThenNone(Moving(StartOf(range), bridge.replies, k), bridge.replies, k);
      r := GoTo(StartOf(range));
    }

    /** `named_range_create`: validation only; no command is issued. */
    method NameRange(name: string, range: string) returns (r: ToolOutcome)
      modifies bridge
      ensures bridge.sent == old(bridge.sent) + Exec(ToolOp.NameRange(name, range), bridge.replies, |old(bridge.sent)|).issued
      ensures r == Exec(ToolOp.NameRange(name, range), bridge.replies, |old(bridge.sent)|).outcome
    {
      NameRangeIssuesNothing(name, range, bridge.replies, |bridge.sent|);
      var v := ValidateRange(range);
      if v.Fail? {
        return Threw(GuardError(v));
      }
      if name == "" || HasSpace(name) {
        return Threw(GuardError(Fail("INVALID_NAME", "Name required without spaces")));
      }
      r := Done;
    }

    /** `select_range`: one move to the whole range, with no move to its start. */
    method SelectRange(range: string) returns (r: ToolOutcome)
      modifies bridge
      ensures bridge.sent == old(bridge.sent) + Exec(ToolOp.SelectRange(range), bridge.replies, |old(bridge.sent)|).issued
      ensures r == Exec(ToolOp.SelectRange(range), bridge.replies, |old(bridge.sent)|).outcome
    {
      ghost var k := |bridge.sent|;
      OneGuard(ToolOp.SelectRange(range), Guard(ValidateRange, range), None, [MoveTo(range)], bridge.replies, k);
      var v := ValidateRange(range);
      if v.Fail? {
        return Threw(GuardError(v));
      }
      SendOne(MoveTo(range), bridge.replies, k);
      var reply := bridge.Uno(GoToCell, [UnoArg("ToPoint", Text(range))]);
      r := Settle(reply);
    }
  }
}
