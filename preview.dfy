/** The preview estimator (apps/ai-calc-assistant/src/agent/preview.ts): how
    many cells a range covers, and what a batch of tool calls touches before
    it runs, with the confirmation it needs. */
module Preview {
  import opened Text
  import opened Js
  import opened Validators
  import opened Executor

  function Abs(x: int): (r: nat)
    ensures r == x || r == -x
  {
    if x < 0 then -x else x
  }

  // ---------------------------------------------------------------- one range

  /** `splitCell` on an address the cell pattern matched: its column letters
      and its row, read as a decimal number; `['A', 1]` when nothing matches. */
  function SplitCell(addr: string): (string, int) {
    match MatchCell(addr)
    case None => ("A", 1)
    case Some(p) => (p.letters, DigitsValue(p.digits))
  }

  /** `splitCell` reads the same column and row as `parseAddress`. */
  lemma SplitCellParses(addr: string)
    requires MatchCell(addr).Some?
    ensures ParseAddress(addr) == Some(Coord(ColumnNumber(SplitCell(addr).0), SplitCell(addr).1))
  {
    ParseRendered(MatchCell(addr).value);
  }

  /** `estimateCells`: 1 for text that is neither an address nor `start:end`;
      otherwise the size of the rectangle between the two corners, in either
      order (a single address is its own end). */
  function EstimateCells(range: string): (n: int)
    ensures n >= 1
    ensures MatchRange(range).None? ==> n == 1
  {
    match MatchRange(range)
    case None => 1
    case Some(r) =>
      var (c1, r1) := SplitCell(Render(r.start));
      var (c2, r2) := SplitCell(Render(EndOf(r)));
      Area(Coord(ColumnNumber(c1), r1), Coord(ColumnNumber(c2), r2))
  }

  /** The number of cells in the rectangle with corners `a` and `b`. */
  function Area(a: Coord, b: Coord): (n: int)
    ensures n >= 1
  {
    var cols, rows := Abs(b.col - a.col) + 1, Abs(b.row - a.row) + 1;
    AtLeastOne(cols, rows);
    cols * rows
  }

  lemma AtLeastOne(a: int, b: int)
    requires a >= 1 && b >= 1
    ensures a * b >= 1
  {
  }

  /** The rectangle is the same whichever corner comes first. */
  lemma AreaSymmetric(a: Coord, b: Coord)
    ensures Area(a, b) == Area(b, a)
  {
    assert Abs(b.col - a.col) == Abs(a.col - b.col) && Abs(b.row - a.row) == Abs(a.row - b.row);
  }

  /** `splitCell` gives back the letters and the row of an address. */
  lemma SplitRendered(p: CellRef)
    requires WellFormed(p)
    ensures SplitCell(Render(p)) == (p.letters, DigitsValue(p.digits))
  {
    MatchRender(p);
  }

  /** A matched range covers the rectangle between its corners. */
  lemma EstimateMatched(t: string, r: RangeRef)
    requires MatchRange(t) == Some(r)
    ensures EstimateCells(t) == Area(CoordOf(r.start), CoordOf(EndOf(r)))
  {
    MatchRangeSound(t);
    SplitRendered(r.start);
    SplitRendered(EndOf(r));
  }

  /** A single address covers one cell. */
  lemma EstimateSingle(p: CellRef)
    requires WellFormed(p)
    ensures EstimateCells(Render(p)) == 1
  {
    var r := RangeRef(p, None);
    MatchRangeRender(r);
    EstimateMatched(RenderRange(r), r);
  }

  /** `start:end` covers (|end.col - start.col| + 1) * (|end.row - start.row| + 1)
      cells. */
  lemma EstimatePair(p: CellRef, q: CellRef)
    requires WellFormed(p) && WellFormed(q)
    ensures EstimateCells(Render(p) + ":" + Render(q)) == Area(CoordOf(p), CoordOf(q))
  {
    var r := RangeRef(p, Some(q));
    MatchRangeRender(r);
    EstimateMatched(RenderRange(r), r);
  }

  /** A reversed range covers as many cells as the range itself. */
  lemma EstimateSymmetric(p: CellRef, q: CellRef)
    requires WellFormed(p) && WellFormed(q)
    ensures EstimateCells(Render(p) + ":" + Render(q)) == EstimateCells(Render(q) + ":" + Render(p))
  {
    EstimatePair(p, q);
    EstimatePair(q, p);
    AreaSymmetric(CoordOf(p), CoordOf(q));
  }

  /** `A1:B3` covers six cells. */
  lemma EstimateA1B3()
    ensures EstimateCells("A1:B3") == 6
  {
    var p, q := CellRef(false, "A", false, "1"), CellRef(false, "B", false, "3");
    CornersA1B3(p, q);
    EstimatePair(p, q);
  }

  lemma CornersA1B3(p: CellRef, q: CellRef)
    requires p == CellRef(false, "A", false, "1") && q == CellRef(false, "B", false, "3")
    ensures WellFormed(p) && WellFormed(q) && Render(p) + ":" + Render(q) == "A1:B3"
    ensures Area(CoordOf(p), CoordOf(q)) == 6
  {
    assert ColumnNumber("A") == 1 by { assert "A"[..0] == []; }
    assert ColumnNumber("B") == 2 by { assert "B"[..0] == []; }
    assert DigitsValue("1") == 1 by { assert "1"[..0] == []; }
    assert DigitsValue("3") == 3 by { assert "3"[..0] == []; }
    assert Area(Coord(1, 1), Coord(2, 3)) == 6;
  }

  /** `colToNum`: upper-cases, then folds `n = n * 26 + code - 64`, exactly as
      the validators' `colLettersToNumber` does. */
  method ColToNum(col: string) returns (n: int)
    ensures n == ColumnNumber(col)
  {
    n := 0;
    var s := Upper(col);
    for i := 0 to |s|
      invariant n == ColumnNumber(col[..i])
    {
      assert col[..i + 1][..i] == col[..i];
      n := n * 26 + (s[i] as int - 64);
    }
    assert col[..|s|] == col;
  }

  // ---------------------------------------------------------------- a batch of calls

  /** `PreviewSummary`; `reason` is absent unless confirmation is needed. */
  datatype PreviewSummary = PreviewSummary(totalCells: int, ranges: seq<string>, requiresConfirmation: bool, reason: Option<string>)

  const LargeOperation := "LARGE_OPERATION"
  const DefaultThreshold := 1000

  /** The tools whose `address` is counted as one cell. */
  predicate AddressTool(name: string) {
    name == "set_cell_text" || name == "apply_formula" || name == "go_to_cell"
  }

  /** The tools whose `range` is counted with `estimateCells`. */
  predicate RangeTool(name: string) {
    name == "sort_range" || name == "format_range_currency" || name == "format_range_bold"
  }

  /** What one call adds to the summary: the text pushed onto `ranges` and
      the cells added to the total, when it adds anything. */
  function Contribution(c: ToolCall): (r: Option<(string, int)>)
    ensures r.Some? <==> (AddressTool(c.name) && Truthy(Prop(Args(c), "address")))
                         || (RangeTool(c.name) && Truthy(Prop(Args(c), "range")))
    ensures r.Some? ==> r.value.1 >= 1
  {
    var a := Args(c);
    if AddressTool(c.name) then
      if Truthy(Prop(a, "address")) then Some((ToJsString(Prop(a, "address")), 1)) else None
    else if RangeTool(c.name) then
      if Truthy(Prop(a, "range")) then Some((ToJsString(Prop(a, "range")), EstimateCells(ToJsString(Prop(a, "range"))))) else None
    else None
  }

  /** The `ranges` of a batch: one text per contributing call, in order. */
  function Touched(calls: seq<ToolCall>): seq<string> {
    if |calls| == 0 then []
    else
      var c := Contribution(calls[|calls| - 1]);
      Touched(calls[..|calls| - 1]) + (if c.Some? then [c.value.0] else [])
  }

  /** The `totalCells` of a batch. */
  function Total(calls: seq<ToolCall>): int {
    if |calls| == 0 then 0
    else
      var c := Contribution(calls[|calls| - 1]);
      Total(calls[..|calls| - 1]) + (if c.Some? then c.value.1 else 0)
  }

  /** `cfg.maxCellsWithoutConfirmation || 1000`. */
  function Threshold(maxCells: int): int {
    if maxCells == 0 then DefaultThreshold else maxCells
  }

  /** `summarizePreview(calls, cfg)`. */
  method SummarizePreview(calls: seq<ToolCall>, maxCells: int) returns (p: PreviewSummary)
    ensures p.totalCells == Total(calls) && p.ranges == Touched(calls)
    ensures p.requiresConfirmation <==> Total(calls) > Threshold(maxCells)
    ensures p.reason == if p.requiresConfirmation then Some(LargeOperation) else None
  {
    var ranges: seq<string> := [];
    var total := 0;
    for i := 0 to |calls|
      invariant ranges == Touched(calls[..i]) && total == Total(calls[..i])
    {
      var c := calls[i];
      var a := Args(c);
      assert calls[..i + 1][..i] == calls[..i] && calls[..i + 1][i] == c;
      if c.name == "set_cell_text" || c.name == "apply_formula" || c.name == "go_to_cell" {
        if Truthy(Prop(a, "address")) {
          ranges := ranges + [ToJsString(Prop(a, "address"))];
          total := total + 1;
        }
      } else if c.name == "sort_range" || c.name == "format_range_currency" || c.name == "format_range_bold" {
        if Truthy(Prop(a, "range")) {
          ranges := ranges + [ToJsString(Prop(a, "range"))];
          total := total + EstimateCells(ToJsString(Prop(a, "range")));
        }
      }
    }
    assert calls[..|calls|] == calls;
    var confirm := total > Threshold(maxCells);
    p := PreviewSummary(total, ranges, confirm, if confirm then Some(LargeOperation) else None);
  }

  /** The summary of two batches run back to back is the two summaries
      joined: ranges in input order, totals added. */
  lemma {:induction false} SummaryAppend(a: seq<ToolCall>, b: seq<ToolCall>)
    ensures Touched(a + b) == Touched(a) + Touched(b)
    ensures Total(a + b) == Total(a) + Total(b)
    decreases |b|
  {
    if |b| == 0 {
      assert a + b == a;
    } else {
      var n := |b| - 1;
      assert (a + b)[..|a + b| - 1] == a + b[..n] && (a + b)[|a + b| - 1] == b[n];
      SummaryAppend(a, b[..n]);
    }
  }

  /** One entry per contributing call: no more ranges than calls, and every
      range adds at least one cell to the total. */
  lemma {:induction false} SummaryBounds(calls: seq<ToolCall>)
    ensures |Touched(calls)| <= |calls|
    ensures Total(calls) >= |Touched(calls)|
  {
    if |calls| > 0 {
      SummaryBounds(calls[..|calls| - 1]);
    }
  }

  /** A call of any other tool, or without its `address`/`range`, leaves the
      summary as it is. */
  lemma IgnoredCall(calls: seq<ToolCall>, c: ToolCall)
    requires !(AddressTool(c.name) && Truthy(Prop(Args(c), "address")))
    requires !(RangeTool(c.name) && Truthy(Prop(Args(c), "range")))
    ensures Touched(calls + [c]) == Touched(calls) && Total(calls + [c]) == Total(calls)
  {
    assert (calls + [c])[..|calls|] == calls;
  }

  /** A call with a range adds that range's text and `estimateCells` of it;
      one with an address adds its text and one cell. */
  lemma CountedCall(calls: seq<ToolCall>, c: ToolCall)
    ensures var a := Args(c);
      AddressTool(c.name) && Truthy(Prop(a, "address")) ==>
        Touched(calls + [c]) == Touched(calls) + [ToJsString(Prop(a, "address"))] && Total(calls + [c]) == Total(calls) + 1
    ensures var a := Args(c);
      RangeTool(c.name) && Truthy(Prop(a, "range")) ==>
        var r := ToJsString(Prop(a, "range"));
        Touched(calls + [c]) == Touched(calls) + [r] && Total(calls + [c]) == Total(calls) + EstimateCells(r)
  {
    assert (calls + [c])[..|calls|] == calls;
  }
}
