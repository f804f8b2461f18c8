/** Guards on A1-style cell addresses, ranges, column letters and formulas
    (apps/ai-calc-assistant/src/agent/validators.ts). Each guard either passes
    or throws an `Error` whose message starts with the error kind. */
module Validators {
  import opened Text
  import opened Js

  const MaxCols := 16384    // column XFD
  const MaxRows := 1048576

  /** The pieces `CELL_ADDR_RE` matches: an optional `$`, 1-3 letters, an
      optional `$`, 1-7 digits. */
  datatype CellRef = CellRef(absCol: bool, letters: string, absRow: bool, digits: string)

  datatype Coord = Coord(col: int, row: int)

  predicate WellFormed(p: CellRef) {
    1 <= |p.letters| <= 3 && AllLetters(p.letters) && 1 <= |p.digits| <= 7 && AllDigits(p.digits)
  }

  function Dollar(b: bool): string {
    if b then "$" else ""
  }

  /** The text a `CellRef` stands for. */
  function Render(p: CellRef): string {
    Dollar(p.absCol) + p.letters + Dollar(p.absRow) + p.digits
  }

  /** Every character of a rendered address is a letter, a digit or `$`. */
  lemma RenderChars(p: CellRef)
    requires WellFormed(p)
    ensures forall i :: 0 <= i < |Render(p)| ==>
      IsAsciiLetter(Render(p)[i]) || IsDigit(Render(p)[i]) || Render(p)[i] == '$'
    ensures !HasSpace(Render(p)) && ':' !in Render(p)
  {
    var s := Render(p);
    var a, b, c := Dollar(p.absCol), Dollar(p.absCol) + p.letters, Dollar(p.absCol) + p.letters + Dollar(p.absRow);
    forall i | 0 <= i < |s|
      ensures IsAsciiLetter(s[i]) || IsDigit(s[i]) || s[i] == '$'
    {
      if i < |a| {
      } else if i < |b| {
        assert s[i] == p.letters[i - |a|];
      } else if i < |c| {
      } else {
        assert s[i] == p.digits[i - |c|];
      }
    }
  }

  /** Length of the run of letters at the start of `s`. */
  function LetterRun(s: string): (n: nat)
    ensures n <= |s| && AllLetters(s[..n])
    ensures n < |s| ==> !IsAsciiLetter(s[n])
  {
    if s != [] && IsAsciiLetter(s[0]) then 1 + LetterRun(s[1..]) else 0
  }

  lemma {:induction false} LetterRunOf(letters: string, rest: string)
    requires AllLetters(letters)
    requires rest == [] || !IsAsciiLetter(rest[0])
    ensures LetterRun(letters + rest) == |letters|
  {
    if letters != [] {
      assert (letters + rest)[1..] == letters[1..] + rest;
      LetterRunOf(letters[1..], rest);
    } else {
      assert letters + rest == rest;
    }
  }

  /** An optional leading `$`: whether it is there, and what follows it. */
  function StripDollar(s: string): (bool, string) {
    if |s| > 0 && s[0] == '$' then (true, s[1..]) else (false, s)
  }

  lemma StripDollarOf(b: bool, rest: string)
    requires rest == [] || rest[0] != '$'
    ensures StripDollar(Dollar(b) + rest) == (b, rest)
  {
    if b {
      assert (Dollar(b) + rest)[1..] == rest;
    } else {
      assert Dollar(b) + rest == rest;
    }
  }

  /** The only way `s` can split into the pieces of `CELL_ADDR_RE`
      (`^\$?[A-Za-z]{1,3}\$?\d{1,7}$`): letters, digits and `$` are disjoint,
      so the letter run after an optional `$` is maximal. */
  function CellCandidate(s: string): CellRef {
    var (absCol, s1) := StripDollar(s);
    var n := LetterRun(s1);
    var (absRow, digits) := StripDollar(s1[n..]);
    CellRef(absCol, s1[..n], absRow, digits)
  }

  /** `CELL_ADDR_RE`, giving back what it matched. */
  function MatchCell(s: string): (r: Option<CellRef>)
    ensures r.Some? ==> WellFormed(r.value) && Render(r.value) == s
  {
    var p := CellCandidate(s);
    if WellFormed(p) && Render(p) == s then Some(p) else None
  }

  /** What follows the column letters of a rendered address. */
  function Tail(p: CellRef): string {
    Dollar(p.absRow) + p.digits
  }

  lemma StripColumnDollar(p: CellRef)
    requires WellFormed(p)
    ensures StripDollar(Render(p)) == (p.absCol, p.letters + Tail(p))
  {
    var s1 := p.letters + Tail(p);
    assert Render(p) == Dollar(p.absCol) + s1;
    assert s1[0] == p.letters[0];
    StripDollarOf(p.absCol, s1);
  }

  lemma LetterRunRendered(p: CellRef)
    requires WellFormed(p)
    ensures LetterRun(p.letters + Tail(p)) == |p.letters|
  {
    var rest := Tail(p);
    if !p.absRow {
      assert rest[0] == p.digits[0];
    }
    LetterRunOf(p.letters, rest);
  }

  lemma StripRowDollar(p: CellRef)
    requires WellFormed(p)
    ensures StripDollar(Tail(p)) == (p.absRow, p.digits)
  {
    assert p.digits[0] != '$';
    StripDollarOf(p.absRow, p.digits);
  }

  /** Every string of the address language is matched, with its own pieces. */
  lemma MatchRender(p: CellRef)
    requires WellFormed(p)
    ensures MatchCell(Render(p)) == Some(p)
  {
    var s1 := p.letters + Tail(p);
    StripColumnDollar(p);
    LetterRunRendered(p);
    StripRowDollar(p);
    assert s1[|p.letters|..] == Tail(p) && s1[..|p.letters|] == p.letters;
    assert CellCandidate(Render(p)) == p;
  }

  /** Value of one column letter: `A`/`a` is 1, ..., `Z`/`z` is 26. */
  function LetterValue(c: char): int {
    UpperChar(c) as int - 64
  }

  /** Bijective base-26 reading of column letters (`colLettersToNumber`). */
  function ColumnNumber(letters: string): int {
    if letters == [] then 0
    else ColumnNumber(letters[..|letters| - 1]) * 26 + LetterValue(letters[|letters| - 1])
  }

  lemma LetterValueRange(c: char)
    requires IsAsciiLetter(c)
    ensures 1 <= LetterValue(c) <= 26
  {
  }

  /** One to three letters name a column between A (1) and ZZZ (18278). */
  lemma {:induction false} ColumnNumberRange(letters: string)
    requires 1 <= |letters| <= 3 && AllLetters(letters)
    ensures 1 <= ColumnNumber(letters) <= 18278
  {
    var k := |letters|;
    var init := letters[..k - 1];
    LetterValueRange(letters[k - 1]);
    if k == 1 {
      assert init == [];
    } else {
      ColumnNumberRange(init);
      if k == 2 {
        assert ColumnNumber(init) <= 26;
      } else {
        var init2 := init[..1];
        assert init2 == letters[..1];
        ColumnNumberRange(init2);
        LetterValueRange(init[1]);
        assert ColumnNumber(init) <= 702;
      }
    }
  }

  /** `colLettersToNumber`: upper-cases, then folds `n = n * 26 + code - 64`. */
  method ColLettersToNumber(letters: string) returns (n: int)
    ensures n == ColumnNumber(letters)
    ensures 1 <= |letters| <= 3 && AllLetters(letters) ==> 1 <= n <= 18278
  {
    var s := Upper(letters);
    n := 0;
    var i := 0;
    while i < |s|
      invariant 0 <= i <= |s|
      invariant n == ColumnNumber(letters[..i])
    {
      assert letters[..i + 1][..i] == letters[..i];
      n := n * 26 + (s[i] as int - 64);
      i := i + 1;
    }
    assert letters[..i] == letters;
    if 1 <= |letters| <= 3 && AllLetters(letters) {
      ColumnNumberRange(letters);
    }
  }

  function CoordOf(p: CellRef): Coord {
    Coord(ColumnNumber(p.letters), DigitsValue(p.digits))
  }

  predicate InSheet(c: Coord) {
    1 <= c.col <= MaxCols && 1 <= c.row <= MaxRows
  }

  /** `parseAddress`: drop every `$`, then match `^([A-Za-z]{1,3})(\d{1,7})$`.
      With no `$` left, `MatchCell` reads exactly that pattern. */
  function ParseAddress(addr: string): Option<Coord> {
    match MatchCell(RemoveAll(addr, '$'))
    case None => None
    case Some(p) => Some(CoordOf(p))
  }

  /** A rendered address parses to the coordinates of its pieces. */
  lemma ParseRendered(p: CellRef)
    requires WellFormed(p)
    ensures ParseAddress(Render(p)) == Some(CoordOf(p))
  {
    RenderChars(p);
    assert '$' !in p.letters && '$' !in p.digits by {
      assert forall i :: 0 <= i < |p.letters| ==> IsAsciiLetter(p.letters[i]);
      assert forall i :: 0 <= i < |p.digits| ==> IsDigit(p.digits[i]);
    }
    RemoveAllConcat(Dollar(p.absCol) + p.letters + Dollar(p.absRow), p.digits, '$');
    RemoveAllConcat(Dollar(p.absCol) + p.letters, Dollar(p.absRow), '$');
    RemoveAllConcat(Dollar(p.absCol), p.letters, '$');
    RemoveAllAbsent(p.letters, '$');
    RemoveAllAbsent(p.digits, '$');
    assert RemoveAll(Dollar(p.absCol), '$') == [];
    assert RemoveAll(Dollar(p.absRow), '$') == [];
    var q := CellRef(false, p.letters, false, p.digits);
    assert RemoveAll(Render(p), '$') == Render(q);
    MatchRender(q);
  }

  /** Text that `parseAddress` accepts holds no white space. */
  lemma ParsedHasNoSpace(s: string)
    requires ParseAddress(s).Some?
    ensures !HasSpace(s)
  {
    var t := RemoveAll(s, '$');
    RenderChars(MatchCell(t).value);
    forall i | 0 <= i < |s|
      ensures !IsJsSpace(s[i])
    {
      if s[i] != '$' {
        assert s[i] in t;
        var j :| 0 <= j < |t| && t[j] == s[i];
      }
    }
  }

  // ---------------------------------------------------------------- cells

  /** `validateCellAddress`: the trimmed text must match `CELL_ADDR_RE`, then
      the UNtrimmed text is parsed and bounds-checked. */
  function ValidateCellAddress(address: string): Outcome {
    if MatchCell(Trim(address)).None? then Fail("INVALID_RANGE", "Invalid cell address")
    else match ParseAddress(address)
      case None => Fail("INVALID_RANGE", "Invalid address")
      case Some(c) =>
        if c.col < 1 || c.col > MaxCols || c.row < 1 || c.row > MaxRows then
          Fail("INVALID_RANGE", "Address out of bounds")
        else Pass
  }

  lemma CellAddressPassed(s: string)
    requires ValidateCellAddress(s).Pass?
    ensures MatchCell(s).Some? && InSheet(CoordOf(MatchCell(s).value))
  {
    ParsedHasNoSpace(s);
    TrimNoSpace(s);
    ParseRendered(MatchCell(s).value);
  }

  lemma CellAddressAccepted(s: string)
    requires MatchCell(s).Some? && InSheet(CoordOf(MatchCell(s).value))
    ensures ValidateCellAddress(s) == Pass
  {
    var p := MatchCell(s).value;
    RenderChars(p);
    TrimNoSpace(s);
    ParseRendered(p);
  }

  /** An address is accepted exactly when the text itself (not only its trim)
      is in the address language and it names a cell inside the sheet; every
      rejection is an `INVALID_RANGE:` error. */
  lemma CellAddressSpec(s: string)
    ensures ValidateCellAddress(s).Pass? <==>
      MatchCell(s).Some? && InSheet(CoordOf(MatchCell(s).value))
    ensures ValidateCellAddress(s).Fail? ==> ValidateCellAddress(s).kind == "INVALID_RANGE"
  {
    if ValidateCellAddress(s).Pass? {
      CellAddressPassed(s);
    } else if MatchCell(s).Some? && InSheet(CoordOf(MatchCell(s).value)) {
      CellAddressAccepted(s);
    }
  }

  /** Padded text such as `" A1"` passes the trimmed pattern test but is then
      refused by `parseAddress`, which sees the padding. */
  lemma PaddedAddressRefused(s: string)
    requires MatchCell(Trim(s)).Some? && Trim(s) != s
    ensures ValidateCellAddress(s) == Fail("INVALID_RANGE", "Invalid address")
  {
    if ParseAddress(s).Some? {
      ParsedHasNoSpace(s);
      TrimNoSpace(s);
    }
  }

  // ---------------------------------------------------------------- ranges

  /** A single address or `start:end`. */
  datatype RangeRef = RangeRef(start: CellRef, end: Option<CellRef>)

  predicate WellFormedRange(r: RangeRef) {
    WellFormed(r.start) && (r.end.Some? ==> WellFormed(r.end.value))
  }

  function RenderRange(r: RangeRef): string {
    if r.end.Some? then Render(r.start) + ":" + Render(r.end.value) else Render(r.start)
  }

  /** The range pattern as evidently intended, `^CELL(:CELL)?$`; it is also the
      pattern preview.ts builds for itself. An address holds no `:`, so the
      first `:` (if any) is the separator. */
  function MatchRange(t: string): Option<RangeRef> {
    var i := IndexOf(t, ':');
    if i == |t| then
      match MatchCell(t)
      case None => None
      case Some(p) => Some(RangeRef(p, None))
    else
      match (MatchCell(t[..i]), MatchCell(t[i + 1..]))
      case (Some(p), Some(q)) => Some(RangeRef(p, Some(q)))
      case _ => None
  }

  /** What the range pattern matches is the text of the range it returns. */
  lemma MatchRangeSound(t: string)
    requires MatchRange(t).Some?
    ensures WellFormedRange(MatchRange(t).value) && RenderRange(MatchRange(t).value) == t
  {
    var i := IndexOf(t, ':');
    if i < |t| {
      var p, q := MatchCell(t[..i]), MatchCell(t[i + 1..]);
      assert p.Some? && q.Some? && MatchRange(t).value == RangeRef(p.value, Some(q.value));
      assert t == t[..i] + ":" + t[i + 1..];
    } else {
      assert MatchRange(t).value == RangeRef(MatchCell(t).value, None);
    }
  }

  /** Every range text is matched, with its own pieces. */
  lemma MatchRangeRender(r: RangeRef)
    requires WellFormedRange(r)
    ensures MatchRange(RenderRange(r)) == Some(r)
  {
    var a := Render(r.start);
    RenderChars(r.start);
    MatchRender(r.start);
    if r.end.Some? {
      var b := Render(r.end.value);
      MatchRender(r.end.value);
      var s := RenderRange(r);
      assert s == a + [':'] + b;
      IndexOfConcat(a, ':', b);
      assert s[..|a|] == a && s[|a| + 1..] == b;
    } else {
      assert RenderRange(r) == a;
    }
  }

  /** `RANGE_RE` as the source builds it. `CELL_ADDR_RE.source` keeps its own
      `^` and `$`, so the pattern reads `^^CELL$(:^CELL$)?$`: the first address
      must run to the end of the input, after which the optional group would
      have to read a `:` past the end. Only a single address matches. */
  predicate RangePatternAsBuilt(t: string) {
    MatchCell(t).Some?
  }

  /** The first part of `range.split(':')`. */
  function SplitStart(s: string): string {
    s[..IndexOf(s, ':')]
  }

  /** The second part of `range.split(':')`, or `undefined`. */
  function SplitEnd(s: string): Option<string> {
    var i := IndexOf(s, ':');
    if i == |s| then None
    else
      var rest := s[i + 1..];
      Some(rest[..IndexOf(rest, ':')])
  }

  /** Lines 37-45 of `validateRange`: split at `:`, parse both ends (an empty
      or missing end reuses the start), require start top-left of end and the
      end inside the sheet. The start is never checked against 1. */
  function CheckRangeBody(s: string): Outcome {
    match ParseAddress(SplitStart(s))
    case None => Fail("INVALID_RANGE", "Invalid address")
    case Some(a) =>
      var e := SplitEnd(s);
      var b := if e.Some? && e.value != "" then ParseAddress(e.value) else Some(a);
      match b
      case None => Fail("INVALID_RANGE", "Invalid address")
      case Some(b) =>
        if a.col > b.col || a.row > b.row then Fail("INVALID_RANGE", "Start must be top-left of range")
        else if b.col > MaxCols || b.row > MaxRows then Fail("INVALID_RANGE", "Range exceeds sheet bounds")
        else Pass
  }

  /** `validateRange` exactly as written, with the doubly anchored `RANGE_RE`. */
  function ValidateRangeAsWritten(range: string): Outcome {
    if !RangePatternAsBuilt(Trim(range)) then Fail("INVALID_RANGE", "Invalid range")
    else CheckRangeBody(range)
  }

  /** `validateRange` with the range pattern the source evidently intends. */
  function ValidateRange(range: string): Outcome {
    if MatchRange(Trim(range)).None? then Fail("INVALID_RANGE", "Invalid range")
    else CheckRangeBody(range)
  }

  function EndOf(r: RangeRef): CellRef {
    if r.end.Some? then r.end.value else r.start
  }

  /** What `validateRange` demands of a matched range: start top-left of end,
      end inside the sheet. */
  predicate RangeAccepted(r: RangeRef) {
    var a, b := CoordOf(r.start), CoordOf(EndOf(r));
    a.col <= b.col && a.row <= b.row && b.col <= MaxCols && b.row <= MaxRows
  }

  lemma NoColon(s: string)
    requires ':' !in s
    ensures IndexOf(s, ':') == |s|
  {
  }

  /** `split(':')` of a single rendered address: the address, nothing after. */
  lemma SplitSingle(p: CellRef)
    requires WellFormed(p)
    ensures SplitStart(Render(p)) == Render(p) && SplitEnd(Render(p)) == None
  {
    RenderChars(p);
    NoColon(Render(p));
  }

  /** `split(':')` of two rendered addresses joined by `:` gives them back. */
  lemma SplitPair(p: CellRef, q: CellRef)
    requires WellFormed(p) && WellFormed(q)
    ensures SplitStart(Render(p) + ":" + Render(q)) == Render(p)
    ensures SplitEnd(Render(p) + ":" + Render(q)) == Some(Render(q))
  {
    var a, b := Render(p), Render(q);
    var s := a + ":" + b;
    RenderChars(p);
    RenderChars(q);
    IndexOfConcat(a, ':', b);
    assert s[..|a|] == a && s[|a| + 1..] == b;
    NoColon(b);
    assert b[..|b|] == b;
  }

  /** `CheckRangeBody` once both ends are parsed. */
  lemma CheckParsed(s: string, a: Coord, b: Coord)
    requires ParseAddress(SplitStart(s)) == Some(a)
    requires if SplitEnd(s).Some? && SplitEnd(s).value != "" then ParseAddress(SplitEnd(s).value) == Some(b) else b == a
    ensures CheckRangeBody(s) == Pass <==> a.col <= b.col && a.row <= b.row && b.col <= MaxCols && b.row <= MaxRows
  {
  }

  lemma CheckRendered(r: RangeRef)
    requires WellFormedRange(r)
    ensures CheckRangeBody(RenderRange(r)) == Pass <==> RangeAccepted(r)
  {
    ParseRendered(r.start);
    if r.end.Some? {
      SplitPair(r.start, r.end.value);
      ParseRendered(r.end.value);
      assert Render(r.end.value) != "";
    } else {
      SplitSingle(r.start);
    }
    CheckParsed(RenderRange(r), CoordOf(r.start), CoordOf(EndOf(r)));
  }

  /** Text holding white space is never an address. */
  lemma SpaceRefused(x: string, i: int)
    requires 0 <= i < |x| && IsJsSpace(x[i])
    ensures ParseAddress(x).None?
  {
    if ParseAddress(x).Some? {
      ParsedHasNoSpace(x);
      assert false;
    }
  }

  lemma NoColonJoin(a: string, b: string)
    requires ':' !in a && ':' !in b
    ensures ':' !in a + b
  {
  }

  /** Leading white space ends up in the start address, which then fails to parse. */
  lemma PaddedLeftRefused(s: string)
    requires |s| > 0 && IsJsSpace(s[0])
    ensures CheckRangeBody(s).Fail?
  {
    assert s[0] != ':';
    SpaceRefused(SplitStart(s), 0);
  }

  /** Trailing white space after a single address stays in the start address. */
  lemma PaddedRightSingleRefused(t: string, pad: string)
    requires ':' !in t && ':' !in pad && pad != [] && IsJsSpace(pad[|pad| - 1])
    ensures CheckRangeBody(t + pad).Fail?
  {
    var s := t + pad;
    NoColonJoin(t, pad);
    NoColon(s);
    assert SplitStart(s) == s;
    SpaceRefused(s, |s| - 1);
  }

  /** Trailing white space after `start:end` stays in the end address. */
  lemma PaddedRightPairRefused(a: string, b: string, pad: string)
    requires ':' !in a && ':' !in b && ':' !in pad && pad != [] && IsJsSpace(pad[|pad| - 1])
    ensures CheckRangeBody(a + ":" + b + pad).Fail?
  {
    var s := a + ":" + b + pad;
    var rest := b + pad;
    assert s == a + [':'] + rest;
    IndexOfConcat(a, ':', rest);
    assert s[|a| + 1..] == rest;
    NoColonJoin(b, pad);
    NoColon(rest);
    assert rest[..|rest|] == rest;
    assert SplitEnd(s) == Some(rest);
    SpaceRefused(rest, |rest| - 1);
  }

  lemma TrailingPad(s: string, hi: nat)
    requires hi < |s|
    requires forall j :: hi <= j < |s| ==> IsJsSpace(s[j])
    ensures s == s[..hi] + s[hi..] && ':' !in s[hi..] && IsJsSpace(s[hi..][|s| - hi - 1])
  {
    var pad := s[hi..];
    forall j | 0 <= j < |pad| ensures pad[j] != ':' { assert IsJsSpace(s[hi + j]); }
    assert IsJsSpace(s[|s| - 1]);
  }

  /** A matching range followed by white space is refused. */
  lemma PaddedRightRefused(s: string, hi: nat)
    requires hi < |s| && MatchRange(s[..hi]).Some?
    requires forall j :: hi <= j < |s| ==> IsJsSpace(s[j])
    ensures CheckRangeBody(s).Fail?
  {
    var t, pad := s[..hi], s[hi..];
    TrailingPad(s, hi);
    MatchRangeSound(t);
    var r := MatchRange(t).value;
    RenderChars(r.start);
    if r.end.Some? {
      RenderChars(r.end.value);
      PaddedRightPairRefused(Render(r.start), Render(r.end.value), pad);
    } else {
      PaddedRightSingleRefused(t, pad);
    }
  }

  /** A range whose trim matches but that carries padding is refused by the
      parsing that follows, which works on the untrimmed text. */
  lemma PaddedRangeRefused(s: string)
    requires MatchRange(Trim(s)).Some? && Trim(s) != s
    ensures CheckRangeBody(s).Fail?
  {
    var lo, hi := TrimSlice(s);
    if lo > 0 {
      PaddedLeftRefused(s);
    } else {
      assert Trim(s) == s[..hi];
      PaddedRightRefused(s, hi);
    }
  }

  /** A range text holds no white space. */
  lemma RenderRangeNoSpace(r: RangeRef)
    requires WellFormedRange(r)
    ensures !HasSpace(RenderRange(r))
  {
    RenderChars(r.start);
    if r.end.Some? {
      var a, b := Render(r.start), Render(r.end.value);
      RenderChars(r.end.value);
      var s := a + ":" + b;
      forall i | 0 <= i < |s| ensures !IsJsSpace(s[i]) {
        if i < |a| {
          assert s[i] == a[i];
        } else if i > |a| {
          assert s[i] == b[i - |a| - 1];
        }
      }
    }
  }

  lemma RangePassed(s: string)
    requires ValidateRange(s).Pass?
    ensures MatchRange(s).Some? && RangeAccepted(MatchRange(s).value)
  {
    if Trim(s) != s {
      PaddedRangeRefused(s);
    }
    MatchRangeSound(s);
    CheckRendered(MatchRange(s).value);
  }

  lemma RangeAcceptedPasses(s: string)
    requires MatchRange(s).Some? && RangeAccepted(MatchRange(s).value)
    ensures ValidateRange(s) == Pass
  {
    MatchRangeSound(s);
    var r := MatchRange(s).value;
    RenderRangeNoSpace(r);
    TrimNoSpace(s);
    CheckRendered(r);
  }

  /** Every refusal of the range body is an `INVALID_RANGE` error. */
  lemma CheckKind(s: string)
    ensures CheckRangeBody(s).Fail? ==> CheckRangeBody(s).kind == "INVALID_RANGE"
  {
  }

  /** A range is accepted exactly when the text itself is an address or two
      addresses joined by `:`, its start is top-left of its end and its end
      lies in the sheet; every rejection is an `INVALID_RANGE:` error. */
  lemma RangeSpec(s: string)
    ensures ValidateRange(s).Pass? <==> MatchRange(s).Some? && RangeAccepted(MatchRange(s).value)
    ensures ValidateRange(s).Fail? ==> ValidateRange(s).kind == "INVALID_RANGE"
  {
    CheckKind(s);
    if ValidateRange(s).Pass? {
      RangePassed(s);
    } else if MatchRange(s).Some? && RangeAccepted(MatchRange(s).value) {
      RangeAcceptedPasses(s);
    }
  }

  lemma AcceptedBounds(r: RangeRef)
    requires WellFormedRange(r) && RangeAccepted(r)
    ensures var a, b := CoordOf(r.start), CoordOf(EndOf(r));
      1 <= a.col <= b.col <= MaxCols && 0 <= a.row <= b.row <= MaxRows
  {
    ColumnNumberRange(r.start.letters);
  }

  /** In an accepted range the end is inside the sheet and the start is
      top-left of it, so both columns lie in 1..MaxCols and both rows in
      0..MaxRows: the start row is never checked against 1. */
  lemma AcceptedRangeBounds(s: string)
    requires ValidateRange(s).Pass?
    ensures MatchRange(s).Some?
    ensures var r := MatchRange(s).value;
      var a, b := CoordOf(r.start), CoordOf(EndOf(r));
      1 <= a.col <= b.col <= MaxCols && 0 <= a.row <= b.row <= MaxRows
  {
    RangePassed(s);
    MatchRangeSound(s);
    AcceptedBounds(MatchRange(s).value);
  }

  /** With the doubly anchored pattern, no text whose trim holds a `:` gets
      past the first check, whatever the addresses around it. */
  lemma AsWrittenRefusesPairs(s: string)
    requires ':' in Trim(s)
    ensures ValidateRangeAsWritten(s) == Fail("INVALID_RANGE", "Invalid range")
  {
    var t := Trim(s);
    if MatchCell(t).Some? {
      RenderChars(MatchCell(t).value);
    }
  }

  /** Without a `:` the two patterns agree, and so do the two guards. */
  lemma AsWrittenAgrees(s: string)
    requires ':' !in Trim(s)
    ensures ValidateRangeAsWritten(s) == ValidateRange(s)
  {
    var t := Trim(s);
    assert IndexOf(t, ':') == |t|;
  }

  /** `A1:C10`, the first range the source's own tests expect to pass, is
      refused as written and accepted by the intended pattern. */
  lemma RangeA1C10()
    ensures ValidateRangeAsWritten("A1:C10").Fail?
    ensures ValidateRange("A1:C10") == Pass
  {
    var p, q := CellRef(false, "A", false, "1"), CellRef(false, "C", false, "10");
    var r := RangeRef(p, Some(q));
    assert RenderRange(r) == "A1:C10";
    MatchRangeRender(r);
    assert ColumnNumber("C") == 3 by { assert "C"[..0] == []; }
    assert ColumnNumber("A") == 1 by { assert "A"[..0] == []; }
    assert DigitsValue("10") == 10 by { assert "10"[..1] == "1" && "1"[..0] == []; }
    assert DigitsValue("1") == 1 by { assert "1"[..0] == []; }
    RangeAcceptedPasses("A1:C10");
    assert Trim("A1:C10") == "A1:C10" by { RenderRangeNoSpace(r); TrimNoSpace("A1:C10"); }
    assert "A1:C10"[2] == ':';
    AsWrittenRefusesPairs("A1:C10");
  }

  /** The start row is never checked against 1: the intended pattern
      accepts `A0:B2`, which the pattern as written refuses as a pair. */
  lemma StartRowZero()
    ensures ValidateRange("A0:B2") == Pass
    ensures ValidateRangeAsWritten("A0:B2") == Fail("INVALID_RANGE", "Invalid range")
  {
    var p, q := CellRef(false, "A", false, "0"), CellRef(false, "B", false, "2");
    var r := RangeRef(p, Some(q));
    assert RenderRange(r) == "A0:B2";
    MatchRangeRender(r);
    assert ColumnNumber("B") == 2 by { assert "B"[..0] == []; }
    assert ColumnNumber("A") == 1 by { assert "A"[..0] == []; }
    assert DigitsValue("2") == 2 by { assert "2"[..0] == []; }
    assert DigitsValue("0") == 0 by { assert "0"[..0] == []; }
    RangeAcceptedPasses("A0:B2");
    assert Trim("A0:B2") == "A0:B2" by { RenderRangeNoSpace(r); TrimNoSpace("A0:B2"); }
    assert ("A0:B2")[2] == ':';
    AsWrittenRefusesPairs("A0:B2");
  }

  /** A lone `A0` is accepted as a range by both patterns: its row is never
      checked against 1, and it is its own start. */
  lemma LoneRowZero()
    ensures ValidateRangeAsWritten("A0") == Pass && ValidateRange("A0") == Pass
    ensures SplitStart("A0") == "A0"
  {
    var p := CellRef(false, "A", false, "0");
    var r := RangeRef(p, None);
    assert RenderRange(r) == "A0";
    MatchRangeRender(r);
    assert ColumnNumber("A") == 1 by { assert "A"[..0] == []; }
    assert DigitsValue("0") == 0 by { assert "0"[..0] == []; }
    RangeAcceptedPasses("A0");
    RenderChars(p);
    TrimNoSpace("A0");
    AsWrittenAgrees("A0");
    assert IndexOf("A0", ':') == 2;
  }

  /** Its start, the text before the `:`, is `A0`. */
  lemma RowZeroSplit()
    ensures SplitStart("A0:B2") == "A0"
  {
    IndexOfConcat("A0", ':', "B2");
    assert "A0:B2" == "A0" + [':'] + "B2";
  }

  /** A single address, by contrast, must have a row of at least 1. */
  lemma RowZeroAddress()
    ensures ValidateCellAddress("A0") == Fail("INVALID_RANGE", "Address out of bounds")
  {
    var p := CellRef(false, "A", false, "0");
    assert Render(p) == "A0";
    assert DigitsValue("0") == 0 by { assert "0"[..0] == []; }
    RenderChars(p);
    TrimNoSpace("A0");
    MatchRender(p);
    ParseRendered(p);
  }

  /** `A1` and `B2`, the addresses the tool tests use, are accepted. */
  lemma SmallAddresses()
    ensures ValidateCellAddress("A1") == Pass
    ensures ValidateCellAddress("B2") == Pass
  {
    var p, q := CellRef(false, "A", false, "1"), CellRef(false, "B", false, "2");
    assert Render(p) == "A1" && Render(q) == "B2";
    assert ColumnNumber("A") == 1 by { assert "A"[..0] == []; }
    assert ColumnNumber("B") == 2 by { assert "B"[..0] == []; }
    assert DigitsValue("1") == 1 by { assert "1"[..0] == []; }
    assert DigitsValue("2") == 2 by { assert "2"[..0] == []; }
    MatchRender(p);
    MatchRender(q);
    CellAddressAccepted("A1");
    CellAddressAccepted("B2");
  }

  /** Base 26 with A = 1: Z is 26, AA is 27, and XFD, the last column, is 16384. */
  lemma ColumnLetters()
    ensures ColumnNumber("Z") == 26 && ColumnNumber("AA") == 27 && ColumnNumber("XFD") == MaxCols
  {
    assert "Z"[..0] == [] && "AA"[..1] == "A" && "A"[..0] == [];
    assert "XFD"[..2] == "XF" && "XF"[..1] == "X" && "X"[..0] == [];
  }

  /** `1048576`, the last row. */
  lemma LastRowDigits()
    ensures DigitsValue("1048576") == MaxRows
  {
    assert "1048576"[..6] == "104857" && "104857"[..5] == "10485" && "10485"[..4] == "1048";
    assert "1048"[..3] == "104" && "104"[..2] == "10" && "10"[..1] == "1" && "1"[..0] == [];
  }

  /** The bottom-right cell is accepted. */
  lemma LastCellAccepted()
    ensures ValidateCellAddress("XFD1048576") == Pass
  {
    var p := CellRef(false, "XFD", false, "1048576");
    assert Render(p) == "XFD1048576";
    ColumnLetters();
    LastRowDigits();
    MatchRender(p);
    CellAddressAccepted("XFD1048576");
  }

  /** Absolute markers are accepted: `$B$2`. */
  lemma AbsoluteAccepted()
    ensures ValidateCellAddress("$B$2") == Pass
  {
    var p := CellRef(true, "B", true, "2");
    assert Render(p) == "$B$2";
    assert ColumnNumber("B") == 2 by { assert "B"[..0] == []; }
    assert DigitsValue("2") == 2 by { assert "2"[..0] == []; }
    MatchRender(p);
    CellAddressAccepted("$B$2");
  }

  /** `ZZZ` (18278) is past the last column. */
  lemma PastLastColumnRefused()
    ensures ValidateCellAddress("ZZZ1048577").Fail?
  {
    var p := CellRef(false, "ZZZ", false, "1048577");
    assert Render(p) == "ZZZ1048577";
    assert ColumnNumber("ZZZ") == 18278 by {
      assert "ZZZ"[..2] == "ZZ" && "ZZ"[..1] == "Z" && "Z"[..0] == [];
    }
    MatchRender(p);
    CellAddressSpec("ZZZ1048577");
  }

  /** Digits before letters do not match the pattern at all. */
  lemma DigitFirstRefused()
    ensures ValidateCellAddress("1A").Fail?
  {
    assert !IsAsciiLetter("1A"[0]);
    assert MatchCell("1A").None?;
    CellAddressSpec("1A");
  }

  /** A range from a cell to itself, `B2:B2`, is accepted. */
  lemma SameCellRange()
    ensures ValidateRange("B2:B2") == Pass
  {
    var b := CellRef(false, "B", false, "2");
    var r := RangeRef(b, Some(b));
    assert RenderRange(r) == "B2:B2";
    MatchRangeRender(r);
    assert ColumnNumber("B") == 2 by { assert "B"[..0] == []; }
    assert DigitsValue("2") == 2 by { assert "2"[..0] == []; }
    RangeAcceptedPasses("B2:B2");
  }

  /** The reversed range `C10:A1` is refused. */
  lemma ReversedRange()
    ensures ValidateRange("C10:A1").Fail?
  {
    var c, a := CellRef(false, "C", false, "10"), CellRef(false, "A", false, "1");
    var s := RangeRef(c, Some(a));
    assert RenderRange(s) == "C10:A1";
    MatchRangeRender(s);
    assert ColumnNumber("C") == 3 by { assert "C"[..0] == []; }
    assert ColumnNumber("A") == 1 by { assert "A"[..0] == []; }
    RangeSpec("C10:A1");
  }

  // ---------------------------------------------------------------- columns and formulas

  /** `validateColumnId`: the trimmed text must be 1-3 ASCII letters. */
  function ValidateColumnId(column: string): Outcome {
    var t := Trim(column);
    if 1 <= |t| <= 3 && AllLetters(t) then Pass
    else Fail("INVALID_COLUMN", "Invalid column identifier")
  }

  /** An accepted column identifier names a column between A and ZZZ, and
      `colLettersToNumber` reads it the same whatever its case. */
  lemma ColumnIdNumber(s: string)
    requires ValidateColumnId(s).Pass?
    ensures 1 <= ColumnNumber(Trim(s)) <= 18278
    ensures ColumnNumber(Upper(Trim(s))) == ColumnNumber(Trim(s))
  {
    ColumnNumberRange(Trim(s));
    ColumnNumberUpper(Trim(s));
  }

  lemma {:induction false} ColumnNumberUpper(letters: string)
    ensures ColumnNumber(Upper(letters)) == ColumnNumber(letters)
  {
    if letters != [] {
      var k := |letters| - 1;
      var u := Upper(letters);
      assert u[..k] == Upper(letters[..k]);
      ColumnNumberUpper(letters[..k]);
      assert UpperChar(UpperChar(letters[k])) == UpperChar(letters[k]);
    }
  }

  /** `validateFormula`: must start with `=` and have something after it;
      `length` counts UTF-16 units. */
  function ValidateFormula(formula: string): Outcome {
    if !StartsWith(formula, "=") then Fail("FORMULA_ERROR", "Formula must start with =")
    else if Utf16Length(formula) < 2 then Fail("FORMULA_ERROR", "Formula is too short")
    else Pass
  }

  /** `validateSafeFormula`: `validateFormula`, then a cap of 50000 UTF-16
      units. */
  function ValidateSafeFormula(formula: string): Outcome {
    match ValidateFormula(formula)
    case Fail(k, d) => Fail(k, d)
    case Pass => if Utf16Length(formula) > 50000 then Fail("FORMULA_ERROR", "Formula too long") else Pass
  }

  /** `validateSafeText`: only text over 100000 UTF-16 units is refused. */
  function ValidateSafeText(text: string): Outcome {
    if Utf16Length(text) > 100000 then Fail("INVALID_TEXT", "Text too long") else Pass
  }

  /** A formula is `=` and at least one more character; the safe variant
      also caps its UTF-16 length, which for a formula inside the Basic
      Multilingual Plane is its number of characters. */
  lemma FormulaSpec(f: string)
    ensures ValidateFormula(f).Pass? <==> |f| >= 2 && f[0] == '='
    ensures ValidateSafeFormula(f).Pass? <==> |f| >= 2 && f[0] == '=' && Utf16Length(f) <= 50000
    ensures ValidateSafeFormula(f).Fail? ==> ValidateSafeFormula(f).kind == "FORMULA_ERROR"
    ensures |f| >= 2 && f[0] == '=' && |f| <= 25000 ==> ValidateSafeFormula(f) == Pass
    ensures |f| > 50000 ==> ValidateSafeFormula(f).Fail?
    ensures (forall i :: 0 <= i < |f| ==> f[i] as int < 0x10000) ==>
      (ValidateSafeFormula(f).Pass? <==> |f| >= 2 && f[0] == '=' && |f| <= 50000)
  {
    if |f| == 1 {
      assert Utf16Length(f) == Utf16Units(f[0]) + Utf16Length(f[1..]);
    }
    Utf16Bmp(f);
  }

  /** `=SUM(A1:A10)` passes; without the `=`, or with nothing after it, the
      formula is refused. */
  lemma FormulaExamples()
    ensures ValidateFormula("=SUM(A1:A10)") == Pass
    ensures ValidateFormula("SUM(A1:A10)") == Fail("FORMULA_ERROR", "Formula must start with =")
    ensures ValidateFormula("=") == Fail("FORMULA_ERROR", "Formula is too short")
  {
    FormulaSpec("=SUM(A1:A10)");
  }

  /** Text is refused exactly when it is over 100000 UTF-16 units: anything
      up to 50000 characters passes, anything over 100000 characters is
      refused, and in between it depends on how many characters lie beyond
      the Basic Multilingual Plane. */
  lemma SafeTextSpec(t: string)
    ensures ValidateSafeText(t).Pass? <==> Utf16Length(t) <= 100000
    ensures ValidateSafeText(t).Fail? ==> ValidateSafeText(t) == Fail("INVALID_TEXT", "Text too long")
    ensures |t| <= 50000 ==> ValidateSafeText(t) == Pass
    ensures |t| > 100000 ==> ValidateSafeText(t).Fail?
    ensures (forall i :: 0 <= i < |t| ==> t[i] as int < 0x10000) ==> (ValidateSafeText(t).Pass? <==> |t| <= 100000)
  {
    Utf16Bmp(t);
  }

  /** One character beyond the Basic Multilingual Plane counts twice:
      60000 of them exceed the text cap. */
  lemma AstralCountsTwice(t: string)
    requires |t| == 60000 && forall i :: 0 <= i < |t| ==> t[i] == '\U{1F600}'
    ensures Utf16Length(t) == 120000
    ensures ValidateSafeText(t) == Fail("INVALID_TEXT", "Text too long")
  {
    AllAstral(t);
  }

  lemma {:induction false} AllAstral(t: string)
    requires forall i :: 0 <= i < |t| ==> t[i] as int >= 0x10000
    ensures Utf16Length(t) == 2 * |t|
  {
    if t != [] {
      assert forall i :: 0 <= i < |t[1..]| ==> t[1..][i] == t[i + 1];
      AllAstral(t[1..]);
    }
  }
}
