/**
 * `validateInput` of main.js: checks one form field against an anchored
 * character-class pattern and, for names, a length limit. Each pattern is
 * written out as a predicate on the whole string.
 */
module InputValidation {
  import opened Accounts

  /** The result object `{isValid, message}`. */
  datatype Validation = Validation(isValid: bool, message: string)

  const Accepted := Validation(true, "")

  function Rejected(message: string): Validation {
    Validation(false, message)
  }

  /** `[A-Za-z]` */
  predicate IsAsciiLetter(c: char) {
    'A' <= c <= 'Z' || 'a' <= c <= 'z'
  }

  /** `[a-z0-9]` */
  predicate IsLowerOrDigit(c: char) {
    'a' <= c <= 'z' || '0' <= c <= '9'
  }

  /** `\d`: the ASCII digits only. */
  predicate IsDigit(c: char) {
    '0' <= c <= '9'
  }

  /** `\s`: the white space and line terminators of ECMAScript (space
      separators, tab, vertical tab, form feed, the byte order mark, line
      feed, carriage return, line and paragraph separators). */
  predicate IsWhiteSpace(c: char) {
    c == ' ' || c == '\t' || c == '\n' || c == '\r' || c == '\U{000B}' || c == '\U{000C}'
    || c == '\U{00A0}' || c == '\U{1680}' || ('\U{2000}' <= c <= '\U{200A}')
    || c == '\U{2028}' || c == '\U{2029}' || c == '\U{202F}' || c == '\U{205F}'
    || c == '\U{3000}' || c == '\U{FEFF}'
  }

  /** `/^[class]+$/`: at least one character, each in the class. */
  predicate AllOf(value: string, inClass: char -> bool) {
    |value| > 0 && forall i :: 0 <= i < |value| ==> inClass(value[i])
  }

  /** `/^\d{n}$/`: exactly `n` digits. */
  predicate Digits(value: string, n: nat) {
    |value| == n && forall i :: 0 <= i < |value| ==> IsDigit(value[i])
  }

  predicate IsNameChar(c: char) {
    IsAsciiLetter(c) || IsWhiteSpace(c)
  }

  const FullNameCharMessage := "The full name should contain alphabetic characters only."
  const UserNameCharMessage := "The username should contain lowercase alphabetic characters and numbers only."
  const PinMessage := "The PIN must be exactly 4 digits long."
  const AccountNumberMessage := "The account number must be exactly 6 digits long."
  const TransferAmountMessage := "The transfer amount must be a number greater than 0."

  function FullNameLengthMessage(maxLength: int): string {
    "The full name should not exceed " + IntToString(maxLength) + " characters."
  }

  function UserNameLengthMessage(maxLength: int): string {
    "The username must not exceed " + IntToString(maxLength) + " characters."
  }

  const DefaultUserNameLength := 12

  /** `validateInput(type, value, {maxLength})`; `maxLength` is `None` when
      the rules leave it undefined. `asNumber` is what JavaScript's string to
      number conversion makes of `value` (`None` for `NaN`); only the
      `transferAmount` check, through `isNaN` and `<=`, looks at it. Lengths are counted in characters: every
      string that reaches a length check has passed a pattern whose
      characters all lie in the Basic Multilingual Plane, so this equals the
      UTF-16 `length` the code compares. */
  function ValidateInput(kind: string, value: string, maxLength: Option<int>,
                         asNumber: Option<real>): (r: Validation)
    ensures r.isValid <==> r.message == ""
  {
    if kind == "fullName" then
      if !AllOf(value, IsNameChar) then Rejected(FullNameCharMessage)
      else if maxLength.Some? && |value| > maxLength.value then
        Rejected(FullNameLengthMessage(maxLength.value))
      else Accepted
    else if kind == "userName" then
      var limit := if maxLength.Some? then maxLength.value else DefaultUserNameLength;
      if !AllOf(value, IsLowerOrDigit) then Rejected(UserNameCharMessage)
      else if |value| > limit then Rejected(UserNameLengthMessage(limit))
      else Accepted
    else if kind == "pin" then
      if !Digits(value, 4) then Rejected(PinMessage) else Accepted
    else if kind == "accountNumber" then
      if !Digits(value, 6) then Rejected(AccountNumberMessage) else Accepted
    else if kind == "transferAmount" then
      if asNumber.None? || asNumber.value <= 0.0 then Rejected(TransferAmountMessage) else Accepted
    else Accepted
  }

  // ---------------------------------------------------------------------

  /** A PIN is valid exactly when it is four ASCII digits. */
  lemma PinRule(value: string, maxLength: Option<int>, asNumber: Option<real>)
    ensures ValidateInput("pin", value, maxLength, asNumber).isValid
        <==> |value| == 4 && forall i :: 0 <= i < |value| ==> '0' <= value[i] <= '9'
    ensures !ValidateInput("pin", value, maxLength, asNumber).isValid ==>
              ValidateInput("pin", value, maxLength, asNumber).message == PinMessage
  {
  }

  /** An account number is valid exactly when it is six ASCII digits. */
  lemma AccountNumberRule(value: string, maxLength: Option<int>, asNumber: Option<real>)
    ensures ValidateInput("accountNumber", value, maxLength, asNumber).isValid
        <==> |value| == 6 && forall i :: 0 <= i < |value| ==> '0' <= value[i] <= '9'
    ensures !ValidateInput("accountNumber", value, maxLength, asNumber).isValid ==>
              ValidateInput("accountNumber", value, maxLength, asNumber).message == AccountNumberMessage
  {
  }

  /** A user name is valid exactly when it is non-empty, all lower-case
      ASCII letters and digits, and no longer than the limit (12 unless
      given); a bad character is reported before a bad length. */
  lemma UserNameRule(value: string, maxLength: Option<int>, asNumber: Option<real>)
    ensures ValidateInput("userName", value, maxLength, asNumber).isValid
        <==> && 0 < |value| <= (if maxLength.None? then 12 else maxLength.value)
             && forall i :: 0 <= i < |value| ==> IsLowerOrDigit(value[i])
    ensures var r := ValidateInput("userName", value, maxLength, asNumber);
      !AllOf(value, IsLowerOrDigit) ==> r.message == UserNameCharMessage
  {
  }

  /** A full name is valid exactly when it is non-empty, all ASCII letters
      and white space, and within `maxLength` when one is given; a bad
      character is reported before a bad length. */
  lemma FullNameRule(value: string, maxLength: Option<int>, asNumber: Option<real>)
    ensures ValidateInput("fullName", value, maxLength, asNumber).isValid
        <==> && 0 < |value|
             && (forall i :: 0 <= i < |value| ==> IsAsciiLetter(value[i]) || IsWhiteSpace(value[i]))
             && (maxLength.Some? ==> |value| <= maxLength.value)
    ensures var r := ValidateInput("fullName", value, maxLength, asNumber);
      !AllOf(value, IsNameChar) ==> r.message == FullNameCharMessage
  {
  }

  /** A transfer amount is valid exactly when it converts to a number above
      zero; `NaN` is rejected. */
  lemma TransferAmountRule(value: string, maxLength: Option<int>, asNumber: Option<real>)
    ensures ValidateInput("transferAmount", value, maxLength, asNumber).isValid
        <==> asNumber.Some? && asNumber.value > 0.0
    ensures !ValidateInput("transferAmount", value, maxLength, asNumber).isValid ==>
              ValidateInput("transferAmount", value, maxLength, asNumber).message == TransferAmountMessage
  {
  }

  /** A type the validator does not know is always valid. */
  lemma UnknownKindRule(kind: string, value: string, maxLength: Option<int>, asNumber: Option<real>)
    requires kind !in {"fullName", "userName", "pin", "accountNumber", "transferAmount"}
    ensures ValidateInput(kind, value, maxLength, asNumber) == Validation(true, "")
  {
  }
}
