/** Form validation of the front end (frontend/utils/validation.ts): the
    predefined rules, a validator that applies the rules declared for each
    field in declaration order, and the error/touched bookkeeping of the
    `useFormValidation` hook. Regular expressions are written out as
    predicates on the characters. */
module Validation {
  import opened Wrappers
  import opened Decimal
  import opened JsText

  /** A form value: a string, or `undefined`/`null`. */
  datatype Value = Str(s: string) | Missing

  /** JavaScript truthiness of a value: a non-empty string. */
  predicate Truthy(v: Value) {
    v.Str? && v.s != []
  }

  const REQUIRED_MESSAGE := "Ce champ est requis"
  const PATTERN_MESSAGE := "Format invalide"
  const EMAIL_MESSAGE := "Format d'email invalide"
  const USERNAME_MESSAGE := "Nom d'utilisateur : 3-20 caractères, " + "lettres, chiffres et underscore uniquement"
  const PHONE_MESSAGE := "Numéro de téléphone invalide"

  const PASSWORD_LENGTH_MESSAGE := "Minimum 8 caractères"
  const PASSWORD_UPPER_MESSAGE := "Au moins une majuscule"
  const PASSWORD_LOWER_MESSAGE := "Au moins une minuscule"
  const PASSWORD_DIGIT_MESSAGE := "Au moins un chiffre"
  const PASSWORD_SPECIAL_MESSAGE := "Au moins un caractère spécial"

  // ---------------------------------------------------------------------
  // Character classes
  // ---------------------------------------------------------------------

  predicate IsUpper(c: char) { 'A' <= c <= 'Z' }
  predicate IsLower(c: char) { 'a' <= c <= 'z' }
  predicate IsAsciiDigit(c: char) { '0' <= c <= '9' }

  /** The class `[!@#$%^&*(),.?":{}|<>]`. */
  predicate IsSpecial(c: char) {
    c in {'!', '@', '#', '$', '%', '^', '&', '*', '(', ')', ',', '.', '?', '"', ':', '{', '}', '|', '<', '>'}
  }

  /** The class `[a-zA-Z0-9_]`. */
  predicate IsWordChar(c: char) {
    IsUpper(c) || IsLower(c) || IsAsciiDigit(c) || c == '_'
  }

  /** The class `[^\s@]`. */
  predicate IsEmailChar(c: char) {
    !IsWhitespace(c) && c != '@'
  }

  predicate AllEmailChars(s: string) {
    forall i :: 0 <= i < |s| ==> IsEmailChar(s[i])
  }

  // ---------------------------------------------------------------------
  // The predefined rules
  // ---------------------------------------------------------------------

  /** `required`: an error for a falsy value or a string of white space
      only. */
  function Required(v: Value): Option<string> {
    if !Truthy(v) || Trim(v.s) == [] then Some(REQUIRED_MESSAGE) else None
  }

  /** `minLength(min)`. */
  function MinLength(min: int, v: Value): Option<string> {
    if Truthy(v) && |v.s| < min then Some("Minimum " + IntToString(min) + " caractères requis") else None
  }

  /** `maxLength(max)`. */
  function MaxLength(max: int, v: Value): Option<string> {
    if Truthy(v) && |v.s| > max then Some("Maximum " + IntToString(max) + " caractères autorisés") else None
  }

  /** `pattern(regex, message)`, the regular expression given as its test. */
  function Pattern(test: string -> bool, message: string, v: Value): Option<string> {
    if Truthy(v) && !test(v.s) then Some(message) else None
  }

  /** `/^[^\s@]+@[^\s@]+\.[^\s@]+$/`, part by part: a non-empty run before
      the `@` at `at`, a non-empty run up to the `.` at `dot`, and a
      non-empty run after it; none of the runs holds white space or `@`. */
  predicate EmailPattern(s: string) {
    exists at, dot :: 0 < at && at + 1 < dot && dot + 1 < |s| && s[at] == '@' && s[dot] == '.'
      && AllEmailChars(s[..at]) && AllEmailChars(s[at + 1..dot]) && AllEmailChars(s[dot + 1..])
  }

  /** `email`. */
  function Email(v: Value): Option<string> {
    if Truthy(v) && !EmailPattern(v.s) then Some(EMAIL_MESSAGE) else None
  }

  predicate HasUpper(s: string) { exists i :: 0 <= i < |s| && IsUpper(s[i]) }
  predicate HasLower(s: string) { exists i :: 0 <= i < |s| && IsLower(s[i]) }
  predicate HasDigit(s: string) { exists i :: 0 <= i < |s| && IsAsciiDigit(s[i]) }
  predicate HasSpecial(s: string) { exists i :: 0 <= i < |s| && IsSpecial(s[i]) }

  /** The five password checks, in the order validation.ts:72-90 makes
      them. */
  function PasswordChecks(s: string): seq<(bool, string)> {
    [ (|s| >= 8, PASSWORD_LENGTH_MESSAGE),
      (HasUpper(s), PASSWORD_UPPER_MESSAGE),
      (HasLower(s), PASSWORD_LOWER_MESSAGE),
      (HasDigit(s), PASSWORD_DIGIT_MESSAGE),
      (HasSpecial(s), PASSWORD_SPECIAL_MESSAGE) ]
  }

  /** The messages of the failing checks among `checks`, in order: what the
      local `errors` array ends up holding. */
  function Failures(checks: seq<(bool, string)>): (r: seq<string>)
    ensures |r| <= |checks|
  {
    if checks == [] then []
    else Failures(checks[..|checks| - 1]) + (if checks[|checks| - 1].0 then [] else [checks[|checks| - 1].1])
  }

  /** `parts.join(sep)`. */
  function Join(parts: seq<string>, sep: string): string {
    if parts == [] then ""
    else if |parts| == 1 then parts[0]
    else parts[0] + sep + Join(parts[1..], sep)
  }

  /** `password`. */
  function Password(v: Value): Option<string> {
    if Truthy(v) && Failures(PasswordChecks(v.s)) != [] then Some(Join(Failures(PasswordChecks(v.s)), ", ")) else None
  }

  /** `/^[a-zA-Z0-9_]{3,20}$/`. */
  predicate UsernamePattern(s: string) {
    3 <= |s| <= 20 && forall i :: 0 <= i < |s| ==> IsWordChar(s[i])
  }

  /** `username`. */
  function Username(v: Value): Option<string> {
    if Truthy(v) && !UsernamePattern(v.s) then Some(USERNAME_MESSAGE) else None
  }

  /** `[1-9][\d]{0,15}`: a digit from 1 to 9 and at most fifteen more
      digits. */
  predicate DigitRun(d: string) {
    1 <= |d| <= 16 && '1' <= d[0] <= '9' && forall i :: 0 <= i < |d| ==> IsAsciiDigit(d[i])
  }

  /** `/^[\+]?[1-9][\d]{0,15}$/`: an optional `+` before the digits. */
  predicate PhonePattern(t: string) {
    if |t| > 0 && t[0] == '+' then DigitRun(t[1..]) else DigitRun(t)
  }

  /** `phoneNumber`: the pattern is matched against the value with all white
      space removed. */
  function PhoneNumber(v: Value): Option<string> {
    if Truthy(v) && !PhonePattern(RemoveWhitespace(v.s)) then Some(PHONE_MESSAGE) else None
  }

  // ---------------------------------------------------------------------
  // Properties of the rules
  // ---------------------------------------------------------------------

  /** `required` fails exactly on a falsy value or on white space only. */
  lemma RequiredIff(v: Value)
    ensures Required(v).Some? <==> !Truthy(v) || forall i :: 0 <= i < |v.s| ==> IsWhitespace(v.s[i])
    ensures Required(v).Some? ==> Required(v).value == REQUIRED_MESSAGE
  {
    if v.Str? {
      TrimEmpty(v.s);
    }
  }

  /** The length rules fail exactly on a non-empty string shorter than the
      minimum, or longer than the maximum. */
  lemma LengthRulesIff(n: int, v: Value)
    ensures MinLength(n, v).Some? <==> v.Str? && 0 < |v.s| < n
    ensures MaxLength(n, v).Some? <==> v.Str? && |v.s| > n && |v.s| > 0
  {
  }

  /** Every rule except `required` accepts an empty or missing value. */
  lemma FalsyAccepted(v: Value, n: int, test: string -> bool, message: string)
    requires !Truthy(v)
    ensures MinLength(n, v) == None && MaxLength(n, v) == None && Pattern(test, message, v) == None
    ensures Email(v) == None && Password(v) == None && Username(v) == None && PhoneNumber(v) == None
  {
  }

  /** An address is accepted exactly when it has no white space, exactly
      one `@`, not in the first position, and a `.` that has at least one
      character between it and the `@` and at least one after it. */
  lemma EmailPatternIff(s: string)
    ensures EmailPattern(s) <==>
      exists at :: 0 < at < |s| && s[at] == '@' && NoWhitespace(s)
        && (forall k :: 0 <= k < |s| && k != at ==> s[k] != '@')
        && (exists dot :: at + 1 < dot < |s| - 1 && s[dot] == '.')
  {
    if EmailPattern(s) {
      var at, dot :| 0 < at && at + 1 < dot && dot + 1 < |s| && s[at] == '@' && s[dot] == '.'
        && AllEmailChars(s[..at]) && AllEmailChars(s[at + 1..dot]) && AllEmailChars(s[dot + 1..]);
      EmailPartsHaveOneAt(s, at, dot);
    }
    if exists at :: 0 < at < |s| && s[at] == '@' && NoWhitespace(s)
        && (forall k :: 0 <= k < |s| && k != at ==> s[k] != '@')
        && (exists dot :: at + 1 < dot < |s| - 1 && s[dot] == '.')
    {
      var at :| 0 < at < |s| && s[at] == '@' && NoWhitespace(s)
        && (forall k :: 0 <= k < |s| && k != at ==> s[k] != '@')
        && (exists dot :: at + 1 < dot < |s| - 1 && s[dot] == '.');
      var dot :| at + 1 < dot < |s| - 1 && s[dot] == '.';
      EmailPartsFromOneAt(s, at, dot);
    }
  }

  /** Three runs without white space or `@` around an `@` and a `.` make a
      string with that one `@` and no white space. */
  lemma EmailPartsHaveOneAt(s: string, at: nat, dot: nat)
    requires 0 < at && at + 1 < dot && dot + 1 < |s| && s[at] == '@' && s[dot] == '.'
    requires AllEmailChars(s[..at]) && AllEmailChars(s[at + 1..dot]) && AllEmailChars(s[dot + 1..])
    ensures NoWhitespace(s)
    ensures forall k :: 0 <= k < |s| && k != at ==> s[k] != '@'
  {
    forall k | 0 <= k < |s| && k != at ensures s[k] != '@' && !IsWhitespace(s[k]) {
      if k < at {
        assert s[..at][k] == s[k];
      } else if k < dot {
        assert s[at + 1..dot][k - at - 1] == s[k];
      } else if k > dot {
        assert s[dot + 1..][k - dot - 1] == s[k];
      }
    }
  }

  /** Conversely, such a string splits at its `@` and a later `.` into
      three runs the pattern accepts. */
  lemma EmailPartsFromOneAt(s: string, at: nat, dot: nat)
    requires 0 < at < |s| && s[at] == '@' && NoWhitespace(s)
    requires forall k :: 0 <= k < |s| && k != at ==> s[k] != '@'
    requires at + 1 < dot < |s| - 1 && s[dot] == '.'
    ensures EmailPattern(s)
  {
    assert AllEmailChars(s[..at]);
    assert AllEmailChars(s[at + 1..dot]);
    assert AllEmailChars(s[dot + 1..]);
  }

  /** The positions of the failing checks, in increasing order. */
  function FailingPositions(checks: seq<(bool, string)>): (idx: seq<nat>)
    ensures forall k :: 0 <= k < |idx| ==> idx[k] < |checks|
    ensures forall k, l :: 0 <= k < l < |idx| ==> idx[k] < idx[l]
    ensures forall j :: 0 <= j < |checks| ==> (j in idx <==> !checks[j].0)
  {
    if checks == [] then []
    else FailingPositions(checks[..|checks| - 1]) + (if checks[|checks| - 1].0 then [] else [|checks| - 1])
  }

  /** The collected messages are those of the failing checks, each once,
      in the order of the checks. */
  lemma {:induction false} FailuresAreFailingSubsequence(checks: seq<(bool, string)>)
    ensures var r, idx := Failures(checks), FailingPositions(checks);
      |r| == |idx| && forall k :: 0 <= k < |idx| ==> r[k] == checks[idx[k]].1
  {
    if checks != [] {
      var init, last := checks[..|checks| - 1], checks[|checks| - 1];
      FailuresAreFailingSubsequence(init);
      var r0, idx0 := Failures(init), FailingPositions(init);
      var r, idx := Failures(checks), FailingPositions(checks);
      assert r == r0 + (if last.0 then [] else [last.1]);
      assert idx == idx0 + (if last.0 then [] else [|checks| - 1]);
      forall k | 0 <= k < |idx| ensures r[k] == checks[idx[k]].1 {
        if k < |idx0| {
          assert r[k] == r0[k] && idx[k] == idx0[k];
          assert checks[idx0[k]] == init[idx0[k]];
        }
      }
    }
  }

  /** A password is accepted exactly when it is empty or passes all five
      checks. */
  lemma PasswordIff(v: Value)
    ensures Password(v) == None <==>
      !Truthy(v) || (|v.s| >= 8 && HasUpper(v.s) && HasLower(v.s) && HasDigit(v.s) && HasSpecial(v.s))
  {
    if Truthy(v) {
      var checks := PasswordChecks(v.s);
      FailuresAreFailingSubsequence(checks);
      var idx := FailingPositions(checks);
      if Failures(checks) == [] {
        assert forall j :: 0 <= j < 5 ==> j !in idx;
        assert checks[0].0 && checks[1].0 && checks[2].0 && checks[3].0 && checks[4].0;
      } else {
        assert idx[0] in idx && !checks[idx[0]].0;
      }
    }
  }

  /** A password that fails one check only gets that check's message
      alone. */
  lemma PasswordSingleFailure(v: Value, k: nat)
    requires Truthy(v) && k < 5
    requires !PasswordChecks(v.s)[k].0
    requires forall j :: 0 <= j < 5 && j != k ==> PasswordChecks(v.s)[j].0
    ensures Password(v) == Some(PasswordChecks(v.s)[k].1)
  {
    FailuresSingle(PasswordChecks(v.s), k);
  }

  /** When every check passes, no message is collected. */
  lemma {:induction false} FailuresNone(checks: seq<(bool, string)>)
    requires forall j :: 0 <= j < |checks| ==> checks[j].0
    ensures Failures(checks) == []
  {
    if checks != [] {
      FailuresNone(checks[..|checks| - 1]);
    }
  }

  /** When exactly one check fails, its message is the only one
      collected. */
  lemma {:induction false} FailuresSingle(checks: seq<(bool, string)>, k: nat)
    requires k < |checks| && !checks[k].0
    requires forall j :: 0 <= j < |checks| && j != k ==> checks[j].0
    ensures Failures(checks) == [checks[k].1]
  {
    var init := checks[..|checks| - 1];
    if k == |checks| - 1 {
      FailuresNone(init);
    } else {
      FailuresSingle(init, k);
    }
  }

  /** White space in a phone number is ignored. */
  lemma PhoneIgnoresWhitespace(s: string)
    requires RemoveWhitespace(s) != []
    ensures PhoneNumber(Str(s)) == PhoneNumber(Str(RemoveWhitespace(s)))
  {
    RemoveWhitespaceNone(RemoveWhitespace(s));
  }

  /** The one exception: a value of white space only is truthy, so it is
      checked, and its cleaned form, the empty string, fails the pattern;
      the empty string itself is falsy and accepted. */
  lemma PhoneBlankRefused(s: string)
    requires s != [] && forall i :: 0 <= i < |s| ==> IsWhitespace(s[i])
    ensures PhoneNumber(Str(s)) == Some(PHONE_MESSAGE)
    ensures PhoneNumber(Str(RemoveWhitespace(s))) == None
  {
    RemoveWhitespaceAll(s);
    assert !DigitRun([]);
    assert !PhonePattern(RemoveWhitespace(s));
  }

  /** An accepted phone number has at most seventeen characters once the
      white space is gone, and a `+` only in front. */
  lemma PhonePatternShape(t: string)
    requires PhonePattern(t)
    ensures 1 <= |t| <= 17
    ensures forall i :: 0 < i < |t| ==> IsAsciiDigit(t[i])
  {
    if t[0] == '+' {
      forall i | 0 < i < |t| ensures IsAsciiDigit(t[i]) {
        assert t[1..][i - 1] == t[i];
      }
    }
  }

  /** `username` takes letters, digits and `_` only, three to twenty of
      them. */
  lemma UsernameExamples()
    ensures Username(Str("alice_42")) == None
    ensures Username(Str("al")) == Some(USERNAME_MESSAGE)
    ensures Username(Str("alice-42")) == Some(USERNAME_MESSAGE)
    ensures Username(Str("abcdefghij" + "abcdefghij" + "a")) == Some(USERNAME_MESSAGE)
  {
    assert !IsWordChar("alice-42"[5]);
    assert |"abcdefghij" + "abcdefghij" + "a"| == 21;
  }

  /** `username` accepts exactly the empty value and the names of three to
      twenty letters, digits and underscores; it refuses every other value
      with its one message. */
  lemma UsernameIff(s: string)
    ensures Username(Str(s)) == None <==> s == [] || (3 <= |s| <= 20 && forall i :: 0 <= i < |s| ==> IsWordChar(s[i]))
    ensures Username(Str(s)) != None ==> Username(Str(s)) == Some(USERNAME_MESSAGE)
  {
  }

  /** A number of digits only is accepted exactly when it does not start
      with 0 and has at most sixteen digits. */
  lemma PhoneDigitsIff(s: string)
    requires s != [] && forall i :: 0 <= i < |s| ==> IsAsciiDigit(s[i])
    ensures PhoneNumber(Str(s)) == None <==> s[0] != '0' && |s| <= 16
  {
    RemoveWhitespaceNone(s);
  }

  /** A letter anywhere in the value makes `phoneNumber` fail. */
  lemma PhoneLetterRefused(s: string, i: nat)
    requires i < |s| && (IsUpper(s[i]) || IsLower(s[i]))
    ensures PhoneNumber(Str(s)) == Some(PHONE_MESSAGE)
  {
    var t := RemoveWhitespace(s);
    assert s[i] in t;
    var j :| 0 <= j < |t| && t[j] == s[i];
    if t[0] == '+' {
      assert t[1..][j - 1] == t[j];
    }
  }

  // ---------------------------------------------------------------------
  // Rules declared for a field
  // ---------------------------------------------------------------------

  /** The value of a rule entry of a `ValidationRule` object. */
  datatype RuleValue =
    | Flag(b: bool)
    | Num(n: int)
    | Regex(test: string -> bool)
    | Custom(check: Value -> Option<string>)

  /** JavaScript truthiness of a rule value; regular expressions and
      functions are objects, hence true. */
  predicate RuleTruthy(rv: RuleValue) {
    match rv
    case Flag(b) => b
    case Num(n) => n != 0
    case _ => true
  }

  /** A field's rules as `Object.entries` lists them, in declaration
      order. */
  type FieldRules = seq<(string, RuleValue)>

  /** One step of the `switch` of validation.ts:158-221; a rule of an
      unknown name, or of the wrong kind of value, gives no error. The
      `dateOfBirth` rule reads the clock: its age checks are passed in, and
      apply, as at validation.ts:110, to a truthy value only. */
  function ApplyRule(name: string, rv: RuleValue, v: Value, dateOfBirth: Value -> Option<string>): Option<string> {
    if name == "required" then (if RuleTruthy(rv) then Required(v) else None)
    else if name == "minLength" then (if rv.Num? then MinLength(rv.n, v) else None)
    else if name == "maxLength" then (if rv.Num? then MaxLength(rv.n, v) else None)
    else if name == "pattern" then (if rv.Regex? then Pattern(rv.test, PATTERN_MESSAGE, v) else None)
    else if name == "email" then (if RuleTruthy(rv) then Email(v) else None)
    else if name == "password" then (if RuleTruthy(rv) then Password(v) else None)
    else if name == "username" then (if RuleTruthy(rv) then Username(v) else None)
    else if name == "dateOfBirth" then (if RuleTruthy(rv) && Truthy(v) then dateOfBirth(v) else None)
    else if name == "phoneNumber" then (if RuleTruthy(rv) then PhoneNumber(v) else None)
    else if name == "custom" then (if rv.Custom? then rv.check(v) else None)
    else None
  }
  /** Whatever its rule value, a rule other than `required` and `custom`
      gives no error for an empty or missing value. */
  lemma RuleFalsyAccepted(name: string, rv: RuleValue, v: Value, dateOfBirth: Value -> Option<string>)
    requires !Truthy(v) && name != "required" && name != "custom"
    ensures ApplyRule(name, rv, v, dateOfBirth) == None
  {
  }


  /** `if (error)`: an error that stops validation is a non-empty string. */
  predicate IsError(e: Option<string>) {
    e.Some? && e.value != ""
  }

  /** The first error the rules give, in declaration order. */
  function FirstError(rules: FieldRules, v: Value, dateOfBirth: Value -> Option<string>): (r: Option<string>)
    ensures r == None || IsError(r)
  {
    if rules == [] then None
    else
      var e := ApplyRule(rules[0].0, rules[0].1, v, dateOfBirth);
      if IsError(e) then e else FirstError(rules[1..], v, dateOfBirth)
  }

  /** The first error is the error of the first rule that gives one; no
      error means no rule gives one. */
  lemma FirstErrorIff(rules: FieldRules, v: Value, dateOfBirth: Value -> Option<string>)
    ensures FirstError(rules, v, dateOfBirth) == None
        <==> forall i :: 0 <= i < |rules| ==> !IsError(ApplyRule(rules[i].0, rules[i].1, v, dateOfBirth))
    ensures FirstError(rules, v, dateOfBirth) != None ==>
      exists i :: 0 <= i < |rules|
        && FirstError(rules, v, dateOfBirth) == ApplyRule(rules[i].0, rules[i].1, v, dateOfBirth)
        && forall j :: 0 <= j < i ==> !IsError(ApplyRule(rules[j].0, rules[j].1, v, dateOfBirth))
  {
    FirstErrorNone(rules, v, dateOfBirth);
    FirstErrorFirst(rules, v, dateOfBirth);
  }

  /** No error exactly when no rule errs. */
  lemma {:induction false} FirstErrorNone(rules: FieldRules, v: Value, dateOfBirth: Value -> Option<string>)
    ensures FirstError(rules, v, dateOfBirth) == None
        <==> forall i :: 0 <= i < |rules| ==> !IsError(ApplyRule(rules[i].0, rules[i].1, v, dateOfBirth))
  {
    if rules != [] {
      var tail := rules[1..];
      FirstErrorNone(tail, v, dateOfBirth);
      forall i | 0 < i < |rules| ensures rules[i] == tail[i - 1] {
      }
    }
  }

  /** An error is that of a rule before which no rule errs. */
  lemma {:induction false} FirstErrorFirst(rules: FieldRules, v: Value, dateOfBirth: Value -> Option<string>)
    ensures FirstError(rules, v, dateOfBirth) != None ==>
      exists i :: 0 <= i < |rules|
        && FirstError(rules, v, dateOfBirth) == ApplyRule(rules[i].0, rules[i].1, v, dateOfBirth)
        && forall j :: 0 <= j < i ==> !IsError(ApplyRule(rules[j].0, rules[j].1, v, dateOfBirth))
  {
    if rules != [] && !IsError(ApplyRule(rules[0].0, rules[0].1, v, dateOfBirth)) {
      var tail := rules[1..];
      FirstErrorFirst(tail, v, dateOfBirth);
      if FirstError(tail, v, dateOfBirth) != None {
        var i :| 0 <= i < |tail|
          && FirstError(tail, v, dateOfBirth) == ApplyRule(tail[i].0, tail[i].1, v, dateOfBirth)
          && forall j :: 0 <= j < i ==> !IsError(ApplyRule(tail[j].0, tail[j].1, v, dateOfBirth));
        forall j | 0 < j < i + 1 ensures rules[j] == tail[j - 1] {
        }
        assert rules[i + 1] == tail[i];
      }
    }
  }

  // ---------------------------------------------------------------------
  // The validator
  // ---------------------------------------------------------------------

  /** What `validateForm` returns. */
  datatype ValidationResult = ValidationResult(isValid: bool, errors: seq<string>, fieldErrors: map<string, string>)

  /** Field names of a form, in `Object.entries` order. */
  function Names(formData: seq<(string, Value)>): seq<string> {
    seq(|formData|, i requires 0 <= i < |formData| => formData[i].0)
  }

  predicate DistinctNames(formData: seq<(string, Value)>) {
    forall i, j :: 0 <= i < j < |formData| ==> formData[i].0 != formData[j].0
  }

  /** `FormValidator`: the rules of each field, and the clock-dependent
      `dateOfBirth` rule. */
  class FormValidator {
    const rules: map<string, FieldRules>
    const dateOfBirth: Value -> Option<string>

    constructor(rules: map<string, FieldRules>, dateOfBirth: Value -> Option<string>)
      ensures this.rules == rules && this.dateOfBirth == dateOfBirth
    {
      this.rules := rules;
      this.dateOfBirth := dateOfBirth;
    }

    /** The error `validateField` reports: none for a field without
        rules. */
    function FieldError(fieldName: string, v: Value): (r: Option<string>)
      ensures r == None || IsError(r)
      ensures fieldName !in rules ==> r == None
    {
      if fieldName !in rules then None else FirstError(rules[fieldName], v, dateOfBirth)
    }

    /** The errors and the field map `validateForm` builds, one form entry
        after the other. */
    function FormErrors(formData: seq<(string, Value)>): (r: (seq<string>, map<string, string>))
      ensures |r.0| <= |formData|
      ensures forall e :: e in r.0 ==> e != ""
    {
      if formData == [] then ([], map[])
      else
        var prev := FormErrors(formData[..|formData| - 1]);
        var (name, v) := formData[|formData| - 1];
        var e := FieldError(name, v);
        if e.Some? then (prev.0 + [e.value], prev.1[name := e.value]) else prev
    }

    function FormOutcome(formData: seq<(string, Value)>): ValidationResult {
      var (errors, fieldErrors) := FormErrors(formData);
      ValidationResult(|errors| == 0, errors, fieldErrors)
    }

    /** `validateField`: the rules in declaration order, stopping at the
        first error. */
    method ValidateField(fieldName: string, v: Value) returns (error: Option<string>)
      ensures error == FieldError(fieldName, v)
    {
      if fieldName !in rules {
        return None;
      }
      var fieldRules := rules[fieldName];
      for i := 0 to |fieldRules|
        invariant FirstError(fieldRules, v, dateOfBirth) == FirstError(fieldRules[i..], v, dateOfBirth)
      {
        var (ruleName, ruleValue) := fieldRules[i];
        var e := ApplyRule(ruleName, ruleValue, v, dateOfBirth);
        if IsError(e) {
          return e;
        }
        assert fieldRules[i..][1..] == fieldRules[i + 1..];
      }
      return None;
    }

    /** `validateForm`: every entry of the form is validated in order; an
        entry with an error adds it to `errors` and to `fieldErrors`. */
    method ValidateForm(formData: seq<(string, Value)>) returns (result: ValidationResult)
      ensures result == FormOutcome(formData)
    {
      var errors: seq<string> := [];
      var fieldErrors: map<string, string> := map[];
      for i := 0 to |formData|
        invariant (errors, fieldErrors) == FormErrors(formData[..i])
      {
        assert formData[..i + 1][..i] == formData[..i];
        var (fieldName, v) := formData[i];
        var error := ValidateField(fieldName, v);
        if error.Some? {
          errors := errors + [error.value];
          fieldErrors := fieldErrors[fieldName := error.value];
        }
      }
      assert formData[..|formData|] == formData;
      result := ValidationResult(|errors| == 0, errors, fieldErrors);
    }

    /** `fieldErrors` has a key for exactly the fields of the form whose
        validation fails, and no error means no key. */
    lemma {:induction false} FormErrorsKeys(formData: seq<(string, Value)>)
      ensures forall name :: name in FormErrors(formData).1 <==>
        exists i :: 0 <= i < |formData| && formData[i].0 == name && FieldError(formData[i].0, formData[i].1).Some?
      ensures FormErrors(formData).0 == [] <==> FormErrors(formData).1 == map[]
    {
      if formData != [] {
        var init := formData[..|formData| - 1];
        FormErrorsKeys(init);
        assert forall i :: 0 <= i < |init| ==> init[i] == formData[i];
        var (name, v) := formData[|formData| - 1];
        if FieldError(name, v).Some? {
          assert name in FormErrors(formData).1;
        }
      }
    }

    /** The form is valid exactly when every field passes its rules. */
    lemma FormValidIff(formData: seq<(string, Value)>)
      ensures FormOutcome(formData).isValid <==>
        forall i :: 0 <= i < |formData| ==> FieldError(formData[i].0, formData[i].1) == None
      ensures FormOutcome(formData).isValid <==> FormOutcome(formData).fieldErrors == map[]
    {
      FormErrorsKeys(formData);
      var fieldErrors := FormErrors(formData).1;
      if FormOutcome(formData).isValid {
        forall i | 0 <= i < |formData| ensures FieldError(formData[i].0, formData[i].1) == None {
          assert formData[i].0 !in fieldErrors;
        }
      } else {
        assert fieldErrors != map[];
        var name :| name in fieldErrors;
      }
    }

    /** The positions of the form entries whose validation fails, in
        increasing order. */
    function ErrorPositions(formData: seq<(string, Value)>): (idx: seq<nat>)
      ensures forall k :: 0 <= k < |idx| ==> idx[k] < |formData|
      ensures forall k, l :: 0 <= k < l < |idx| ==> idx[k] < idx[l]
      ensures forall i :: 0 <= i < |formData| ==> (i in idx <==> FieldError(formData[i].0, formData[i].1).Some?)
    {
      if formData == [] then []
      else
        var last := formData[|formData| - 1];
        ErrorPositions(formData[..|formData| - 1]) + (if FieldError(last.0, last.1).Some? then [|formData| - 1] else [])
    }

    /** `errors` lists the failing fields' errors in form order. */
    lemma {:induction false} FormErrorsInOrder(formData: seq<(string, Value)>)
      ensures var errors, idx := FormErrors(formData).0, ErrorPositions(formData);
        |errors| == |idx| && forall k :: 0 <= k < |idx| ==>
          Some(errors[k]) == FieldError(formData[idx[k]].0, formData[idx[k]].1)
    {
      if formData != [] {
        FormErrorsInOrder(formData[..|formData| - 1]);
      }
    }

    /** For a form without repeated names, `fieldErrors` maps each failing
        field to its error. */
    lemma {:induction false} FormFieldErrors(formData: seq<(string, Value)>)
      requires DistinctNames(formData)
      ensures forall i :: 0 <= i < |formData| && formData[i].0 in FormErrors(formData).1 ==>
        Some(FormErrors(formData).1[formData[i].0]) == FieldError(formData[i].0, formData[i].1)
    {
      if formData != [] {
        var init, last := formData[..|formData| - 1], formData[|formData| - 1];
        assert forall i :: 0 <= i < |init| ==> init[i] == formData[i];
        FormFieldErrors(init);
        FormErrorsKeys(init);
        forall i | 0 <= i < |formData| && formData[i].0 in FormErrors(formData).1
          ensures Some(FormErrors(formData).1[formData[i].0]) == FieldError(formData[i].0, formData[i].1)
        {
          if i < |init| {
            assert formData[i].0 != last.0;
            if FieldError(last.0, last.1).None? {
              assert formData[i].0 in FormErrors(init).1;
            }
          }
        }
      }
    }
  }

  // ---------------------------------------------------------------------
  // The useFormValidation hook
  // ---------------------------------------------------------------------

  /** The state of the hook: the error text and the touched flag of each
      field. */
  class FormState {
    const validator: FormValidator
    var errors: map<string, string>
    var touched: map<string, bool>

    /** The hook only ever marks fields as touched. */
    predicate TouchedOnlyTrue()
      reads this
    {
      forall name :: name in touched ==> touched[name]
    }

    constructor(validator: FormValidator)
      ensures this.validator == validator && errors == map[] && touched == map[]
      ensures TouchedOnlyTrue()
    {
      this.validator := validator;
      errors := map[];
      touched := map[];
    }

    /** The text the hook stores for a field: its error, or "" when there
        is none. */
    function ErrorText(fieldName: string, v: Value): string
      reads this
    {
      var e := validator.FieldError(fieldName, v);
      if e.Some? then e.value else ""
    }

    /** The hook's `validateField`. */
    method ValidateField(fieldName: string, v: Value) returns (error: Option<string>)
      modifies this
      ensures error == validator.FieldError(fieldName, v)
      ensures errors == old(errors)[fieldName := ErrorText(fieldName, v)]
      ensures touched == old(touched)
    {
      error := validator.ValidateField(fieldName, v);
      errors := errors[fieldName := if error.Some? then error.value else ""];
    }

    /** `handleFieldChange`: only a touched field is validated again. */
    method HandleFieldChange(fieldName: string, v: Value)
      modifies this
      ensures fieldName in old(touched) && old(touched)[fieldName] ==> errors == old(errors)[fieldName := ErrorText(fieldName, v)]
      ensures !(fieldName in old(touched) && old(touched)[fieldName]) ==> errors == old(errors)
      ensures touched == old(touched)
    {
      if fieldName in touched && touched[fieldName] {
        var _ := ValidateField(fieldName, v);
      }
    }

    /** `handleFieldBlur`: the field becomes touched and is validated. */
    method HandleFieldBlur(fieldName: string, v: Value)
      modifies this
      requires TouchedOnlyTrue()
      ensures touched == old(touched)[fieldName := true]
      ensures errors == old(errors)[fieldName := ErrorText(fieldName, v)]
      ensures TouchedOnlyTrue()
    {
      touched := touched[fieldName := true];
      var _ := ValidateField(fieldName, v);
    }

    /** The hook's `validateForm`: the field errors replace all stored
        errors. */
    method ValidateForm(formData: seq<(string, Value)>) returns (result: ValidationResult)
      modifies this
      ensures result == validator.FormOutcome(formData)
      ensures errors == result.fieldErrors
      ensures touched == old(touched)
    {
      result := validator.ValidateForm(formData);
      errors := result.fieldErrors;
    }

    /** `clearErrors`. */
    method ClearErrors()
      modifies this
      ensures errors == map[] && touched == map[]
      ensures TouchedOnlyTrue()
    {
      errors := map[];
      touched := map[];
    }
  }
}
