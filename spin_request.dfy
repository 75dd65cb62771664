/**
 * Validation of a request to record a spin. The rules are data, one list per field, and they
 * are interpreted as the framework's validator does: when the leading `required` rule fails
 * for a field, that field reports only its "required" message; otherwise every failing rule of
 * the field reports its message. Each message is the request's own custom message.
 */
module SpinRequest {
  import opened Wrappers

  /** A decoded request value as the validator sees it. */
  datatype InputValue =
    | Absent                                // the key is missing
    | Null                                  // the key holds null
    | Boolean(b: bool)                      // true or false
    | Text(s: string)                       // a string
    | Number(value: real, textLength: nat)  // an integer or float, and the length of its string form
    | Structured(count: nat)                // an array or object, with its number of entries

  datatype Field = ResultField | BetAmountField | PLField

  datatype Rule = Required | IsString | Numeric | Min(bound: int) | Max(bound: int)

  /** The validated fields of a request. */
  datatype SpinInput = SpinInput(result: InputValue, betAmount: InputValue, pl: InputValue)

  function ValueOf(input: SpinInput, field: Field): InputValue {
    match field
    case ResultField => input.result
    case BetAmountField => input.betAmount
    case PLField => input.pl
  }

  /** The request's rules: result is a required string of at most 255 characters, bet_amount a required number of at least 0, pl a required number. */
  function RequestRules(field: Field): (rules: seq<Rule>)
    ensures |rules| >= 2 && rules[0] == Required && Required !in rules[1..]
    ensures (Numeric in rules) != (IsString in rules)
  {
    match field
    case ResultField => [Required, IsString, Max(255)]
    case BetAmountField => [Required, Numeric, Min(0)]
    case PLField => [Required, Numeric]
  }

  /** The spin model's own rules for the same three fields (its session_id rule is not part of a request body). */
  function SpinModelRules(field: Field): seq<Rule> {
    match field
    case ResultField => [Required, IsString, Max(255)]
    case BetAmountField => [Required, Numeric, Min(0)]
    case PLField => [Required, Numeric]
  }

  /** The request and the model agree on every field's rules. */
  lemma RulesCoincide()
    ensures forall f: Field :: RequestRules(f) == SpinModelRules(f)
  {
    forall f: Field
      ensures RequestRules(f) == SpinModelRules(f)
    {
      match f
      case ResultField =>
      case BetAmountField =>
      case PLField =>
    }
  }

  /** The custom message for a rule of a field; every rule the request uses has one. */
  function Message(field: Field, rule: Rule): (msg: string)
    ensures rule in RequestRules(field) ==> msg != ""
  {
    match (field, rule)
    case (ResultField, Required) => "The spin result is required."
    case (ResultField, IsString) => "The spin result must be a valid string."
    case (ResultField, Max(_)) => "The spin result may not be greater than 255 characters."
    case (BetAmountField, Required) => "The bet amount is required."
    case (BetAmountField, Numeric) => "The bet amount must be a valid number."
    case (BetAmountField, Min(_)) => "The bet amount must be greater than or equal to 0."
    case (PLField, Required) => "The profit/loss amount is required."
    case (PLField, Numeric) => "The profit/loss amount must be a valid number."
    case _ => ""
  }

  // ---------------------------------------------------------------------------------------
  // Rule semantics

  /** Characters PHP's trim removes. */
  predicate IsTrimmed(c: char) {
    c == ' ' || c == '\t' || c == '\n' || c == '\r' || c == '\0' || c == '\U{B}'
  }

  predicate IsBlank(s: string) {
    forall i :: 0 <= i < |s| ==> IsTrimmed(s[i])
  }

  /** A value that fails `required`: missing, null, a blank string or an empty array. */
  predicate IsEmptyValue(v: InputValue) {
    v.Absent? || v.Null? || (v.Text? && IsBlank(v.s)) || (v.Structured? && v.count == 0)
  }

  /**
   * The size min and max compare against: the value of a number when the field is numeric,
   * otherwise the length of the string form; a string's length; an array's entry count.
   * A boolean is never numeric, so it is measured by its string form: "1" or "".
   */
  function Size(v: InputValue, numericField: bool): real {
    match v
    case Number(x, len) => if numericField then x else len as real
    case Boolean(b) => if b then 1.0 else 0.0
    case Text(s) => |s| as real
    case Structured(n) => n as real
    case _ => 0.0
  }

  predicate Passes(rule: Rule, v: InputValue, numericField: bool) {
    match rule
    case Required => !IsEmptyValue(v)
    case IsString => v.Text?
    case Numeric => v.Number?
    case Min(b) => Size(v, numericField) >= b as real
    case Max(b) => Size(v, numericField) <= b as real
  }

  /** The messages of the failing rules among `rules`, in rule order. */
  function Failures(field: Field, rules: seq<Rule>, v: InputValue, numericField: bool): seq<string> {
    if |rules| == 0 then []
    else
      (if Passes(rules[0], v, numericField) then [] else [Message(field, rules[0])])
      + Failures(field, rules[1..], v, numericField)
  }

  /** The messages a field reports: only "required" when that fails, else every failing rule. */
  function FieldErrors(field: Field, v: InputValue): seq<string> {
    var rules := RequestRules(field);
    var numericField := Numeric in rules;
    if !Passes(Required, v, numericField) then [Message(field, Required)]
    else Failures(field, rules[1..], v, numericField)
  }

  /** The validation outcome: the fields with at least one message, each with its messages. */
  function Validate(input: SpinInput): (errors: map<Field, seq<string>>)
    ensures forall f: Field :: f in errors <==> FieldErrors(f, ValueOf(input, f)) != []
    ensures forall f :: f in errors ==> errors[f] == FieldErrors(f, ValueOf(input, f))
  {
    map f | f in {ResultField, BetAmountField, PLField} && FieldErrors(f, ValueOf(input, f)) != []
      :: FieldErrors(f, ValueOf(input, f))
  }

  // ---------------------------------------------------------------------------------------
  // What the rules accept, stated directly

  predicate ValidResult(v: InputValue) {
    v.Text? && !IsBlank(v.s) && |v.s| <= 255
  }

  predicate ValidBetAmount(v: InputValue) {
    v.Number? && v.value >= 0.0
  }

  predicate ValidPL(v: InputValue) {
    v.Number?
  }

  predicate Acceptable(input: SpinInput) {
    ValidResult(input.result) && ValidBetAmount(input.betAmount) && ValidPL(input.pl)
  }

  /** The failures of a one- or two-rule list, spelled out. */
  lemma FailuresOfShortLists(field: Field, a: Rule, b: Rule, v: InputValue, numericField: bool)
    ensures Failures(field, [a], v, numericField)
         == (if Passes(a, v, numericField) then [] else [Message(field, a)])
    ensures Failures(field, [a, b], v, numericField)
         == (if Passes(a, v, numericField) then [] else [Message(field, a)])
          + (if Passes(b, v, numericField) then [] else [Message(field, b)])
  {
    var ma := if Passes(a, v, numericField) then [] else [Message(field, a)];
    var mb := if Passes(b, v, numericField) then [] else [Message(field, b)];
    assert [a][1..] == [] && [b][1..] == [] && [a, b][1..] == [b];
    assert Failures(field, [a], v, numericField) == ma + [];
    assert Failures(field, [b], v, numericField) == mb + [];
    assert ma + [] == ma && mb + [] == mb;
  }

  /** The result field, rule by rule. */
  lemma ResultFieldErrors(v: InputValue)
    ensures FieldErrors(ResultField, v)
         == if IsEmptyValue(v) then ["The spin result is required."]
            else ((if v.Text? then [] else ["The spin result must be a valid string."])
               + (if Size(v, false) <= 255.0 then [] else ["The spin result may not be greater than 255 characters."]))
  {
    assert RequestRules(ResultField)[1..] == [IsString, Max(255)];
    assert Numeric !in RequestRules(ResultField);
    FailuresOfShortLists(ResultField, IsString, Max(255), v, false);
  }

  /** The bet amount field, rule by rule. */
  lemma BetAmountFieldErrors(v: InputValue)
    ensures FieldErrors(BetAmountField, v)
         == if IsEmptyValue(v) then ["The bet amount is required."]
            else ((if v.Number? then [] else ["The bet amount must be a valid number."])
               + (if Size(v, true) >= 0.0 then [] else ["The bet amount must be greater than or equal to 0."]))
  {
    assert RequestRules(BetAmountField)[1..] == [Numeric, Min(0)];
    assert Numeric in RequestRules(BetAmountField);
    FailuresOfShortLists(BetAmountField, Numeric, Min(0), v, true);
  }

  /** The P/L field, rule by rule. */
  lemma PLFieldErrors(v: InputValue)
    ensures FieldErrors(PLField, v)
         == if IsEmptyValue(v) then ["The profit/loss amount is required."]
            else if v.Number? then [] else ["The profit/loss amount must be a valid number."]
  {
    assert RequestRules(PLField)[1..] == [Numeric];
    assert Numeric in RequestRules(PLField);
    FailuresOfShortLists(PLField, Numeric, Numeric, v, true);
  }

  lemma ResultErrorsIff(v: InputValue)
    ensures FieldErrors(ResultField, v) == [] <==> ValidResult(v)
  {
    ResultFieldErrors(v);
  }

  lemma BetAmountErrorsIff(v: InputValue)
    ensures FieldErrors(BetAmountField, v) == [] <==> ValidBetAmount(v)
  {
    BetAmountFieldErrors(v);
  }

  lemma PLErrorsIff(v: InputValue)
    ensures FieldErrors(PLField, v) == [] <==> ValidPL(v)
  {
    PLFieldErrors(v);
  }

  /** A request passes validation exactly when each field holds what its rules ask for. */
  lemma ValidateIff(input: SpinInput)
    ensures Validate(input) == map[] <==> Acceptable(input)
  {
    ResultErrorsIff(input.result);
    BetAmountErrorsIff(input.betAmount);
    PLErrorsIff(input.pl);
    if Validate(input) == map[] {
      assert ResultField !in Validate(input);
      assert BetAmountField !in Validate(input);
      assert PLField !in Validate(input);
    }
  }

  /** An empty field reports its "required" message and nothing else. */
  lemma EmptyFieldReportsRequired(field: Field, v: InputValue)
    requires IsEmptyValue(v)
    ensures FieldErrors(field, v) == [Message(field, Required)]
  {
  }

  /** An empty request reports all three fields at once, each with its "required" message. */
  lemma EmptyRequestErrors()
    ensures Validate(SpinInput(Absent, Absent, Absent)) == map[
      ResultField := ["The spin result is required."],
      BetAmountField := ["The bet amount is required."],
      PLField := ["The profit/loss amount is required."]]
  {
    var errors := Validate(SpinInput(Absent, Absent, Absent));
    assert ResultField in errors && BetAmountField in errors && PLField in errors;
  }

  /** A negative bet fails only the minimum rule; a non-numeric one fails only the numeric rule. */
  lemma BetAmountExamples(x: real, len: nat, s: string)
    requires x < 0.0 && !IsBlank(s)
    ensures FieldErrors(BetAmountField, Number(x, len)) == ["The bet amount must be greater than or equal to 0."]
    ensures FieldErrors(BetAmountField, Text(s)) == ["The bet amount must be a valid number."]
  {
    BetAmountFieldErrors(Number(x, len));
    BetAmountFieldErrors(Text(s));
  }

  /** A result over 255 characters fails only the length rule; a number fails only the string rule. */
  lemma ResultExamples(s: string, x: real, len: nat)
    requires |s| > 255 && !IsBlank(s) && len <= 255
    ensures FieldErrors(ResultField, Text(s)) == ["The spin result may not be greater than 255 characters."]
    ensures FieldErrors(ResultField, Number(x, len)) == ["The spin result must be a valid string."]
  {
    ResultFieldErrors(Text(s));
    ResultFieldErrors(Number(x, len));
  }

  /** A boolean passes `required` and the size rules, and fails only the type rule of each field. */
  lemma BooleanExamples(b: bool)
    ensures FieldErrors(BetAmountField, Boolean(b)) == ["The bet amount must be a valid number."]
    ensures FieldErrors(PLField, Boolean(b)) == ["The profit/loss amount must be a valid number."]
    ensures FieldErrors(ResultField, Boolean(b)) == ["The spin result must be a valid string."]
  {
    BetAmountFieldErrors(Boolean(b));
    PLFieldErrors(Boolean(b));
    ResultFieldErrors(Boolean(b));
  }

  // ---------------------------------------------------------------------------------------
  // Authorisation

  /** Only an authenticated user may record a spin. */
  function Authorize(user: Option<nat>): (allowed: bool)
    ensures allowed <==> user.Some?
  {
    user != None
  }
}
