/** Classification of thrown errors into a closed set of codes, and the
    user-facing text for each code (apps/ai-calc-assistant/src/agent/errors.ts). */
module Errors {
  import opened Text
  import opened Js

  datatype ErrorCode =
    | Timeout | OriginMismatch | CollaboraNotReady | InvalidRange | InvalidAddress
    | FormulaError | ProtectedSheet | UnknownTool | Transient | Unknown

  datatype ClassifiedError = ClassifiedError(code: ErrorCode, technical: string, retryable: bool)

  predicate IsRetryable(c: ErrorCode) {
    c == Timeout || c == CollaboraNotReady || c == Transient
  }

  /** Lines 21-35: the ordered chain of substring tests on the upper-cased
      text, each branch fixing the code and the retry flag. */
  function Classify(tech: string): (r: ClassifiedError)
    ensures r.technical == tech
    ensures r.retryable <==> IsRetryable(r.code)
  {
    var t := Upper(tech);
    if Contains(t, "TIMEOUT") then ClassifiedError(Timeout, tech, true)
    else if Contains(t, "ORIGIN") && Contains(t, "MISMATCH") then ClassifiedError(OriginMismatch, tech, false)
    else if Contains(t, "CONTENTWINDOW") || (Contains(t, "COLLABORA") && Contains(t, "READY"))
      || Contains(t, "IFRAME") then ClassifiedError(CollaboraNotReady, tech, true)
    else if Contains(t, "INVALID_RANGE") then ClassifiedError(InvalidRange, tech, false)
    else if Contains(t, "INVALID_ADDRESS") || Contains(t, "ADDRESS") then ClassifiedError(InvalidAddress, tech, false)
    else if (Contains(t, "FORMULA") && Contains(t, "ERROR")) || Contains(t, "INVALID_FORMULA") then
      ClassifiedError(FormulaError, tech, false)
    else if Contains(t, "PROTECTED") && Contains(t, "SHEET") then ClassifiedError(ProtectedSheet, tech, false)
    else if Contains(t, "UNKNOWN_TOOL") then ClassifiedError(UnknownTool, tech, false)
    else if Contains(t, "NETWORK") || Contains(t, "TEMPORARY") || Contains(t, "BUSY") then
      ClassifiedError(Transient, tech, true)
    else ClassifiedError(Unknown, tech, false)
  }

  /** `classifyError`. Its `err?.message ? String(err.message) : String(err)`
      is `ErrorText`. */
  function ClassifyError(err: Thrown): ClassifiedError {
    Classify(ErrorText(err))
  }

  // ---------------------------------------------------------------- the rule table

  /** A rule fires when, for one of its clauses, every word of the clause
      occurs in the text. */
  datatype Rule = Rule(code: ErrorCode, clauses: seq<seq<string>>)

  predicate AllIn(t: string, words: seq<string>) {
    forall k :: 0 <= k < |words| ==> Contains(t, words[k])
  }

  predicate Fires(rule: Rule, t: string) {
    exists k :: 0 <= k < |rule.clauses| && AllIn(t, rule.clauses[k])
  }

  /** The rules in the order the classifier tries them. */
  const Rules: seq<Rule> := [
    Rule(Timeout, [["TIMEOUT"]]),
    Rule(OriginMismatch, [["ORIGIN", "MISMATCH"]]),
    Rule(CollaboraNotReady, [["CONTENTWINDOW"], ["COLLABORA", "READY"], ["IFRAME"]]),
    Rule(InvalidRange, [["INVALID_RANGE"]]),
    Rule(InvalidAddress, [["INVALID_ADDRESS"], ["ADDRESS"]]),
    Rule(FormulaError, [["FORMULA", "ERROR"], ["INVALID_FORMULA"]]),
    Rule(ProtectedSheet, [["PROTECTED", "SHEET"]]),
    Rule(UnknownTool, [["UNKNOWN_TOOL"]]),
    Rule(Transient, [["NETWORK"], ["TEMPORARY"], ["BUSY"]])
  ]

  /** Index of the first rule that fires, or `|rules|` when none does. */
  function FirstFiring(rules: seq<Rule>, t: string): (i: nat)
    ensures i <= |rules|
    ensures i < |rules| ==> Fires(rules[i], t)
    ensures forall j :: 0 <= j < i ==> !Fires(rules[j], t)
  {
    if rules == [] then 0
    else if Fires(rules[0], t) then 0
    else 1 + FirstFiring(rules[1..], t)
  }

  /** First match wins; no match is `Unknown`. */
  function FirstMatch(rules: seq<Rule>, t: string): ErrorCode {
    var i := FirstFiring(rules, t);
    if i < |rules| then rules[i].code else Unknown
  }

  lemma AllInOne(t: string, w: string)
    ensures AllIn(t, [w]) <==> Contains(t, w)
  {
    assert [w][0] == w;
  }

  lemma AllInTwo(t: string, v: string, w: string)
    ensures AllIn(t, [v, w]) <==> Contains(t, v) && Contains(t, w)
  {
    assert [v, w][0] == v && [v, w][1] == w;
  }

  lemma FiresAmong(code: ErrorCode, cs: seq<seq<string>>, t: string)
    requires 1 <= |cs| <= 3
    ensures Fires(Rule(code, cs), t) <==>
      AllIn(t, cs[0]) || (|cs| > 1 && AllIn(t, cs[1])) || (|cs| > 2 && AllIn(t, cs[2]))
  {
  }

  /** Rule `i` of the table fires exactly when the `i`-th test of the chain holds. */
  lemma RuleTests(t: string)
    ensures Fires(Rules[0], t) <==> Contains(t, "TIMEOUT")
    ensures Fires(Rules[1], t) <==> Contains(t, "ORIGIN") && Contains(t, "MISMATCH")
    ensures Fires(Rules[2], t) <==> (Contains(t, "CONTENTWINDOW")
      || (Contains(t, "COLLABORA") && Contains(t, "READY")) || Contains(t, "IFRAME"))
    ensures Fires(Rules[3], t) <==> Contains(t, "INVALID_RANGE")
    ensures Fires(Rules[4], t) <==> Contains(t, "INVALID_ADDRESS") || Contains(t, "ADDRESS")
    ensures Fires(Rules[5], t) <==> ((Contains(t, "FORMULA") && Contains(t, "ERROR"))
      || Contains(t, "INVALID_FORMULA"))
    ensures Fires(Rules[6], t) <==> Contains(t, "PROTECTED") && Contains(t, "SHEET")
    ensures Fires(Rules[7], t) <==> Contains(t, "UNKNOWN_TOOL")
    ensures Fires(Rules[8], t) <==> Contains(t, "NETWORK") || Contains(t, "TEMPORARY") || Contains(t, "BUSY")
  {
    FiresAmong(Rules[0].code, Rules[0].clauses, t);
    FiresAmong(Rules[1].code, Rules[1].clauses, t);
    FiresAmong(Rules[2].code, Rules[2].clauses, t);
    FiresAmong(Rules[3].code, Rules[3].clauses, t);
    FiresAmong(Rules[4].code, Rules[4].clauses, t);
    FiresAmong(Rules[5].code, Rules[5].clauses, t);
    FiresAmong(Rules[6].code, Rules[6].clauses, t);
    FiresAmong(Rules[7].code, Rules[7].clauses, t);
    FiresAmong(Rules[8].code, Rules[8].clauses, t);
    AllInOne(t, "TIMEOUT");
    AllInTwo(t, "ORIGIN", "MISMATCH");
    AllInOne(t, "CONTENTWINDOW");
    AllInTwo(t, "COLLABORA", "READY");
    AllInOne(t, "IFRAME");
    AllInOne(t, "INVALID_RANGE");
    AllInOne(t, "INVALID_ADDRESS");
    AllInOne(t, "ADDRESS");
    AllInTwo(t, "FORMULA", "ERROR");
    AllInOne(t, "INVALID_FORMULA");
    AllInTwo(t, "PROTECTED", "SHEET");
    AllInOne(t, "UNKNOWN_TOOL");
    AllInOne(t, "NETWORK");
    AllInOne(t, "TEMPORARY");
    AllInOne(t, "BUSY");
  }

  /** The chain of `if`s is the first-match reading of the rule table over
      the upper-cased text. */
  lemma ChainIsFirstMatch(tech: string)
    ensures Classify(tech).code == FirstMatch(Rules, Upper(tech))
  {
    var t := Upper(tech);
    RuleTests(t);
    var i := FirstFiring(Rules, t);
    assert i < |Rules| ==> Fires(Rules[i], t);
  }

  /** First match wins: when rule `i` fires and no earlier rule does, the
      code is rule `i`'s, whatever later rules would say. */
  lemma FirstRuleWins(tech: string, i: nat)
    requires i < |Rules| && Fires(Rules[i], Upper(tech))
    requires forall j :: 0 <= j < i ==> !Fires(Rules[j], Upper(tech))
    ensures Classify(tech).code == Rules[i].code
  {
    ChainIsFirstMatch(tech);
  }

  /** `Unknown` is returned exactly when no rule fires, and is not retryable. */
  lemma UnknownWhenNoRule(tech: string)
    ensures Classify(tech).code == Unknown <==> forall j :: 0 <= j < |Rules| ==> !Fires(Rules[j], Upper(tech))
    ensures Classify(tech).code == Unknown ==> !Classify(tech).retryable
  {
    ChainIsFirstMatch(tech);
    var k := FirstFiring(Rules, Upper(tech));
    assert forall j :: 0 <= j < |Rules| ==> Rules[j].code != Unknown;
    if k < |Rules| {
      assert Rules[k].code != Unknown;
    }
  }

  /** A message holding TIMEOUT is a timeout, even when it also names an
      address or anything else a later rule looks for. */
  lemma TimeoutFirst(tech: string)
    requires Contains(Upper(tech), "TIMEOUT")
    ensures Classify(tech) == ClassifiedError(Timeout, tech, true)
  {
  }

  /** Matching ignores case: upper-casing the message does not change its code. */
  lemma CaseInsensitive(tech: string)
    ensures Classify(Upper(tech)).code == Classify(tech).code
  {
    UpperIdempotent(tech);
  }

  /** The `technical` field is the message as thrown, not its upper-cased
      form, whether an `Error`, a plain object with a `message` or a string
      was thrown. */
  lemma TechnicalKept(name: string, message: string)
    requires message != ""
    ensures ClassifyError(ErrorObject(name, message)).technical == message
    ensures ClassifyError(Value(Object(map["message" := Str(message)]))).technical == message
    ensures ClassifyError(Value(Str(message))).technical == message
  {
    assert Field(map["message" := Str(message)], "message") == Str(message);
  }

  // ---------------------------------------------------------------- user messages

  /** `userMessage`: a fixed text per code; `Unknown` takes the default.
      Each text is its lead followed by its tail. */
  function UserMessage(code: ErrorCode): string {
    Lead(code) + Tail(code)
  }

  /** The opening words of each code's message. */
  function Lead(code: ErrorCode): string {
    match code
    case Timeout => "The editor didn\U{2019}t respond in time. "
    case OriginMismatch => "Security origin mismatch. "
    case CollaboraNotReady => "The editor is still loading. "
    case InvalidRange => "That range looks invalid. "
    case InvalidAddress => "That cell address looks invalid. "
    case FormulaError => "There\U{2019}s a problem with the formula "
    case ProtectedSheet => "This sheet seems protected. "
    case UnknownTool => "I don\U{2019}t recognize that operation. "
    case Transient => "Temporary issue communicating "
    case Unknown => "Unexpected error. "
  }

  /** The rest of each code's message. */
  function Tail(code: ErrorCode): string {
    match code
    case Timeout => "I\U{2019}ll try again briefly."
    case OriginMismatch => "Check PostMessageOrigin in Richdocuments configuration."
    case CollaboraNotReady => "Please wait a moment and try again."
    case InvalidRange => "Please check the start and end addresses (e.g., A1:C10)."
    case InvalidAddress => "Please use a format like A1 or $B$2."
    case FormulaError => "syntax. Please review the formula and try again."
    case ProtectedSheet => "Please unprotect it before making changes."
    case UnknownTool => "Try rephrasing or use a supported command."
    case Transient => "with the editor. I\U{2019}ll retry automatically."
    case Unknown => "Please try again."
  }

  /** Four characters of a text: enough to tell the ten user messages apart. */
  type Marks = (char, char, char, char)

  /** The marks of each code's message. */
  function MarksOf(code: ErrorCode): Marks {
    match code
    case Timeout => ('T', 'e', 'd', 'd')
    case OriginMismatch => ('S', 'c', 'i', 'i')
    case CollaboraNotReady => ('T', 'e', 'd', 'i')
    case InvalidRange => ('T', 'a', 'r', 'l')
    case InvalidAddress => ('T', 'a', 'c', 'd')
    case FormulaError => ('T', 'e', '\U{2019}', 'r')
    case ProtectedSheet => ('T', 'i', 's', 's')
    case UnknownTool => ('I', 'd', '\U{2019}', 'o')
    case Transient => ('T', 'm', 'r', 's')
    case Unknown => ('U', 'e', 'e', 'e')
  }

  /** The code with the given marks, if any. */
  function CodeOfMarks(t: Marks): (r: Option<ErrorCode>)
    ensures r.Some? ==> MarksOf(r.value) == t
  {
    if t == MarksOf(Timeout) then Some(Timeout)
    else if t == MarksOf(OriginMismatch) then Some(OriginMismatch)
    else if t == MarksOf(CollaboraNotReady) then Some(CollaboraNotReady)
    else if t == MarksOf(InvalidRange) then Some(InvalidRange)
    else if t == MarksOf(InvalidAddress) then Some(InvalidAddress)
    else if t == MarksOf(FormulaError) then Some(FormulaError)
    else if t == MarksOf(ProtectedSheet) then Some(ProtectedSheet)
    else if t == MarksOf(UnknownTool) then Some(UnknownTool)
    else if t == MarksOf(Transient) then Some(Transient)
    else if t == MarksOf(Unknown) then Some(Unknown)
    else None
  }

  /** The code whose user message a text is, read from four of its
      characters: the inverse of `UserMessage`. */
  function CodeOfMessage(m: string): Option<ErrorCode> {
    if |m| <= 11 then None else CodeOfMarks((m[0], m[2], m[5], m[11]))
  }

  predicate HasMarks(m: string, t: Marks) {
    |m| > 11 && (m[0], m[2], m[5], m[11]) == t
  }

  /** The marks of each code's message, read from its lead. */
  lemma UserMessageMarks(code: ErrorCode)
    ensures HasMarks(UserMessage(code), MarksOf(code))
  {
    LeadMarks(code);
    MarksKept(Lead(code), Tail(code), MarksOf(code));
  }

  /** The marks of each lead, checked a few codes at a time below. */
  lemma LeadMarks(code: ErrorCode)
    ensures HasMarks(Lead(code), MarksOf(code))
  {
    if code == Timeout || code == OriginMismatch { LeadMarks1(code); }
    else if code == CollaboraNotReady || code == InvalidRange { LeadMarks2(code); }
    else if code == InvalidAddress { LeadMarks3(code); }
    else if code == FormulaError { LeadMarks4(code); }
    else if code == ProtectedSheet || code == UnknownTool { LeadMarks5(code); }
    else { LeadMarks6(code); }
  }

  /** Text appended after the marks leaves them in place. */
  lemma MarksKept(a: string, b: string, t: Marks)
    requires HasMarks(a, t)
    ensures HasMarks(a + b, t)
  {
  }

  lemma LeadMarks1(code: ErrorCode)
    requires code == Timeout || code == OriginMismatch
    ensures HasMarks(Lead(code), MarksOf(code))
  {
  }

  lemma LeadMarks2(code: ErrorCode)
    requires code == CollaboraNotReady || code == InvalidRange
    ensures HasMarks(Lead(code), MarksOf(code))
  {
  }

  lemma LeadMarks3(code: ErrorCode)
    requires code == InvalidAddress
    ensures HasMarks(Lead(code), MarksOf(code))
  {
  }

  lemma LeadMarks4(code: ErrorCode)
    requires code == FormulaError
    ensures HasMarks(Lead(code), MarksOf(code))
  {
  }

  lemma LeadMarks5(code: ErrorCode)
    requires code == ProtectedSheet || code == UnknownTool
    ensures HasMarks(Lead(code), MarksOf(code))
  {
  }

  lemma LeadMarks6(code: ErrorCode)
    requires code == Transient || code == Unknown
    ensures HasMarks(Lead(code), MarksOf(code))
  {
  }

  /** Each code's message reads back as that code. */
  lemma UserMessageCode(code: ErrorCode)
    ensures CodeOfMessage(UserMessage(code)) == Some(code)
  {
    UserMessageMarks(code);
  }

  /** Every code has its own message: the user can tell the ten failures
      apart. */
  lemma UserMessagesDistinct(c: ErrorCode, d: ErrorCode)
    ensures c != d ==> UserMessage(c) != UserMessage(d)
  {
    UserMessageCode(c);
    UserMessageCode(d);
  }
}
