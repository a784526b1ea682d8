/** util/ValidationUtil.java: the registration validators. Each regex is
    written out as a predicate over the string's chars (the pattern as Java's
    `Matcher.matches()` reads it, the whole input matched), next to a checker
    the validators use, and a lemma ties the two. */
module Validation {
  import opened Wrappers
  import opened Text

  const EMAIL_REQUIRED := "Email is required"
  const EMAIL_INVALID := "Invalid email format"
  const PASSWORD_REQUIRED := "Password is required"
  const PASSWORD_TOO_SHORT := "Password must be at least 8 characters long"
  const PASSWORD_TOO_WEAK := "Password must contain at least one digit, one lowercase, one uppercase letter, and one special character"
  const PHONE_REQUIRED := "Phone number is required"
  const PHONE_INVALID := "Invalid phone number format. Must be a valid Nepali phone number (e.g., 9801234567 or +9779801234567)"
  const USERNAME_REQUIRED := "Username is required"
  const USERNAME_INVALID := "Username must be 4-20 characters and can only contain letters, numbers, periods, and underscores"

  predicate IsDigit(c: char) { '0' <= c <= '9' }
  predicate IsLower(c: char) { 'a' <= c <= 'z' }
  predicate IsUpper(c: char) { 'A' <= c <= 'Z' }
  predicate IsAlphanumeric(c: char) { IsDigit(c) || IsLower(c) || IsUpper(c) }

  /** The class before the '@': [a-zA-Z0-9_!#$%&'*+/=?`{|}~^.-]. */
  predicate IsLocalChar(c: char) {
    IsAlphanumeric(c) || c in "_!#$%&'*+/=?`{|}~^.-"
  }

  /** The class after the '@': [a-zA-Z0-9.-]. */
  predicate IsDomainChar(c: char) {
    IsAlphanumeric(c) || c == '.' || c == '-'
  }

  /** The password's special class [@#$%^&+=!]. */
  predicate IsSpecial(c: char) {
    c in "@#$%^&+=!"
  }

  /** Java's \s: [ \t\n\x0B\f\r]. */
  predicate IsRegexSpace(c: char) {
    c == ' ' || c == '\t' || c == '\n' || c == '\U{000B}' || c == '\U{000C}' || c == '\r'
  }

  /** The chars Java's `.` does not match outside DOTALL mode. */
  predicate IsLineTerminator(c: char) {
    c == '\n' || c == '\r' || c == '\U{0085}' || c == '\U{2028}' || c == '\U{2029}'
  }

  /** The username class [a-zA-Z0-9._]. */
  predicate IsUsernameChar(c: char) {
    IsAlphanumeric(c) || c == '.' || c == '_'
  }

  predicate All(s: string, p: char -> bool) {
    forall i :: 0 <= i < |s| ==> p(s[i])
  }

  /** Some char of `s` satisfies `p`, found by a scan from the front. */
  function Any(s: string, p: char -> bool): (b: bool)
    ensures b <==> exists i :: 0 <= i < |s| && p(s[i])
  {
    if s == [] then false
    else if p(s[0]) then true
    else
      var b := Any(s[1..], p);
      assert forall i :: 1 <= i < |s| ==> s[i] == s[1..][i - 1];
      b
  }

  /** The first position of `c` in `s`, or |s| when there is none. */
  function IndexOf(s: string, c: char): (r: nat)
    ensures r <= |s|
    ensures r < |s| ==> s[r] == c
    ensures forall k :: 0 <= k < r ==> s[k] != c
  {
    if s == [] then 0
    else if s[0] == c then 0
    else 1 + IndexOf(s[1..], c)
  }

  // ----- ^[a-zA-Z0-9_!#$%&'*+/=?`{|}~^.-]+@[a-zA-Z0-9.-]+$

  ghost predicate EmailPattern(s: string) {
    exists i :: 0 < i < |s| - 1 && s[i] == '@' && All(s[..i], IsLocalChar) && All(s[i + 1..], IsDomainChar)
  }

  /** Splits at the first '@': since '@' is in neither class, that is the
      only split the pattern can use. */
  function MatchesEmail(s: string): (b: bool)
    ensures b <==> EmailPattern(s)
  {
    var i := IndexOf(s, '@');
    var b := 0 < i < |s| - 1 && All(s[..i], IsLocalChar) && All(s[i + 1..], IsDomainChar);
    assert b ==> EmailPattern(s);
    assert EmailPattern(s) ==> b by {
      if EmailPattern(s) {
        var j :| 0 < j < |s| - 1 && s[j] == '@' && All(s[..j], IsLocalChar) && All(s[j + 1..], IsDomainChar);
        FirstAt(s, j);
      }
    }
    b
  }

  /** An '@' preceded only by local-part chars is the first one. */
  lemma FirstAt(s: string, j: nat)
    requires j < |s| && s[j] == '@' && All(s[..j], IsLocalChar)
    ensures IndexOf(s, '@') == j
  {
    assert forall k :: 0 <= k < j ==> s[..j][k] == s[k] && s[k] != '@';
  }

  // ----- ^(?=.*[0-9])(?=.*[a-z])(?=.*[A-Z])(?=.*[@#$%^&+=!])(?=\S+$).{8,}$

  /** `.{8,}` must consume the whole input, so no line terminator may occur,
      and the \S+ look-ahead rules out every whitespace char; the other four
      look-aheads each demand one char of their class. */
  ghost predicate PasswordPattern(s: string) {
    && |s| >= 8
    && (forall i :: 0 <= i < |s| ==> !IsRegexSpace(s[i]) && !IsLineTerminator(s[i]))
    && (exists i :: 0 <= i < |s| && IsDigit(s[i]))
    && (exists i :: 0 <= i < |s| && IsLower(s[i]))
    && (exists i :: 0 <= i < |s| && IsUpper(s[i]))
    && (exists i :: 0 <= i < |s| && IsSpecial(s[i]))
  }

  predicate IsPasswordChar(c: char) {
    !IsRegexSpace(c) && !IsLineTerminator(c)
  }

  function MatchesPassword(s: string): (b: bool)
    ensures b <==> PasswordPattern(s)
  {
    |s| >= 8 && All(s, IsPasswordChar)
    && Any(s, IsDigit) && Any(s, IsLower) && Any(s, IsUpper) && Any(s, IsSpecial)
  }

  // ----- ^(\+977|0)?9[6-9]\d{8}$

  /** 9[6-9]\d{8}: a ten-digit mobile number. */
  predicate IsMobileBody(s: string) {
    |s| == 10 && s[0] == '9' && '6' <= s[1] <= '9' && All(s[2..], IsDigit)
  }

  ghost predicate PhonePattern(s: string) {
    exists prefix :: prefix in {"", "+977", "0"} && |prefix| <= |s| && s[..|prefix|] == prefix && IsMobileBody(s[|prefix|..])
  }

  /** The body has ten chars, so the input's length decides which prefix the
      optional group took. */
  function MatchesPhone(s: string): (b: bool)
    ensures b <==> PhonePattern(s)
  {
    var b :=
      if |s| == 14 then s[..4] == "+977" && IsMobileBody(s[4..])
      else if |s| == 11 then s[..1] == "0" && IsMobileBody(s[1..])
      else IsMobileBody(s);
    assert b ==> PhonePattern(s) by {
      if b {
        var prefix := if |s| == 14 then "+977" else if |s| == 11 then "0" else "";
        assert prefix in {"", "+977", "0"} && s[..|prefix|] == prefix;
      }
    }
    b
  }

  // ----- ^[a-zA-Z0-9._]{4,20}$

  predicate MatchesUsername(s: string) {
    4 <= |s| <= 20 && All(s, IsUsernameChar)
  }

  // ----- the validators, as the errors each one appends

  /** validateEmail: the messages it appends. */
  function EmailErrors(email: Option<string>): seq<string> {
    if email.None? || email.value == "" then [EMAIL_REQUIRED]
    else if !MatchesEmail(email.value) then [EMAIL_INVALID]
    else []
  }

  /** "Email is required" alone for a null or empty value, otherwise
      "Invalid email format" exactly when the pattern fails. */
  lemma EmailErrorsMeaning(email: Option<string>)
    ensures email.None? || email.value == "" ==> EmailErrors(email) == [EMAIL_REQUIRED]
    ensures email.Some? && email.value != "" ==>
      && (EmailErrors(email) == [] <==> EmailPattern(email.value))
      && (EmailErrors(email) != [] ==> EmailErrors(email) == [EMAIL_INVALID])
  {
  }

  /** String.length(): UTF-16 code units, two for a character outside the
      Basic Multilingual Plane. The regex's `.` counts whole characters. */
  function Utf16Length(s: string): (n: nat)
    ensures |s| <= n <= 2 * |s|
    ensures (forall i :: 0 <= i < |s| ==> s[i] < '\U{10000}') ==> n == |s|
  {
    if s == [] then 0
    else Utf16Length(s[1..]) + (if s[0] < '\U{10000}' then 1 else 2)
  }

  /** validatePassword: the messages it appends. */
  function PasswordErrors(password: Option<string>): seq<string> {
    if password.None? || password.value == "" then [PASSWORD_REQUIRED]
    else
      (if Utf16Length(password.value) < 8 then [PASSWORD_TOO_SHORT] else [])
      + (if !MatchesPassword(password.value) then [PASSWORD_TOO_WEAK] else [])
  }

  /** "Password is required" alone for a null or empty value; a non-empty
      password shorter than 8 UTF-16 units gets both the length and the
      complexity message, because the pattern needs 8 characters too; one of
      8 units or more gets at most the complexity message; otherwise no
      message exactly when the pattern matches. */
  lemma PasswordErrorsMeaning(password: Option<string>)
    ensures password.None? || password.value == "" ==> PasswordErrors(password) == [PASSWORD_REQUIRED]
    ensures password.Some? && password.value != "" && Utf16Length(password.value) < 8 ==>
      PasswordErrors(password) == [PASSWORD_TOO_SHORT, PASSWORD_TOO_WEAK]
    ensures password.Some? && password.value != "" && Utf16Length(password.value) >= 8 ==>
      PasswordErrors(password) == (if PasswordPattern(password.value) then [] else [PASSWORD_TOO_WEAK])
    ensures password.Some? && password.value != "" ==> (PasswordErrors(password) == [] <==> PasswordPattern(password.value))
  {
  }

  /** A character outside the Basic Multilingual Plane counts twice for the
      length check and once for the pattern: seven characters, eight UTF-16
      units, so only the complexity message. */
  lemma AstralPasswordExample()
    ensures Utf16Length("Aa1!\U{1F600}xy") == 8
    ensures PasswordErrors(Some("Aa1!\U{1F600}xy")) == [PASSWORD_TOO_WEAK]
  {
  }

  /** validatePhoneNumber: the messages it appends. */
  function PhoneErrors(phoneNumber: Option<string>): seq<string> {
    if phoneNumber.None? || phoneNumber.value == "" then [PHONE_REQUIRED]
    else if !MatchesPhone(phoneNumber.value) then [PHONE_INVALID]
    else []
  }

  lemma PhoneErrorsMeaning(phoneNumber: Option<string>)
    ensures phoneNumber.None? || phoneNumber.value == "" ==> PhoneErrors(phoneNumber) == [PHONE_REQUIRED]
    ensures phoneNumber.Some? && phoneNumber.value != "" ==>
      && (PhoneErrors(phoneNumber) == [] <==> PhonePattern(phoneNumber.value))
      && (PhoneErrors(phoneNumber) != [] ==> PhoneErrors(phoneNumber) == [PHONE_INVALID])
  {
  }

  /** validateUsername: the messages it appends. */
  function UsernameErrors(username: Option<string>): seq<string> {
    if username.None? || username.value == "" then [USERNAME_REQUIRED]
    else if !MatchesUsername(username.value) then [USERNAME_INVALID]
    else []
  }

  lemma UsernameErrorsMeaning(username: Option<string>)
    ensures username.None? || username.value == "" ==> UsernameErrors(username) == [USERNAME_REQUIRED]
    ensures username.Some? && username.value != "" ==>
      && (UsernameErrors(username) == [] <==>
            4 <= |username.value| <= 20 && forall i :: 0 <= i < |username.value| ==> IsUsernameChar(username.value[i]))
      && (UsernameErrors(username) != [] ==> UsernameErrors(username) == [USERNAME_INVALID])
  {
  }

  /** validateNotEmpty: the message it appends. */
  function NotEmptyErrors(value: Option<string>, fieldName: string): seq<string> {
    if value.None? || Trim(value.value) == "" then [fieldName + " is required"] else []
  }

  /** "<field> is required" exactly when the value is null or nothing but
      chars trim() strips. */
  lemma NotEmptyErrorsMeaning(value: Option<string>, fieldName: string)
    ensures NotEmptyErrors(value, fieldName) == [] <==> value.Some? && !IsBlank(value.value)
    ensures NotEmptyErrors(value, fieldName) != [] ==> NotEmptyErrors(value, fieldName) == [fieldName + " is required"]
  {
    if value.Some? {
      TrimEmptyIffBlank(value.value);
    }
  }

  /** The field checks every registration shares, in their order. */
  function AccountErrors(username: Option<string>, email: Option<string>, password: Option<string>,
                         phoneNumber: Option<string>, address: Option<string>): seq<string>
  {
    UsernameErrors(username) + EmailErrors(email) + PasswordErrors(password)
    + PhoneErrors(phoneNumber) + NotEmptyErrors(address, "Address")
  }

  /** A field is acceptable to its validator. */
  ghost predicate AccountFieldsValid(username: Option<string>, email: Option<string>, password: Option<string>,
                                     phoneNumber: Option<string>, address: Option<string>)
  {
    && username.Some? && MatchesUsername(username.value)
    && email.Some? && EmailPattern(email.value)
    && password.Some? && PasswordPattern(password.value)
    && phoneNumber.Some? && PhonePattern(phoneNumber.value)
    && address.Some? && !IsBlank(address.value)
  }

  lemma AccountErrorsEmptyIff(username: Option<string>, email: Option<string>, password: Option<string>,
                              phoneNumber: Option<string>, address: Option<string>)
    ensures AccountErrors(username, email, password, phoneNumber, address) == []
        <==> AccountFieldsValid(username, email, password, phoneNumber, address)
  {
    var u, e, p, ph, a := UsernameErrors(username), EmailErrors(email), PasswordErrors(password),
                          PhoneErrors(phoneNumber), NotEmptyErrors(address, "Address");
    assert u == [] <==> username.Some? && MatchesUsername(username.value);
    assert e == [] <==> email.Some? && EmailPattern(email.value);
    assert p == [] <==> password.Some? && PasswordPattern(password.value);
    assert ph == [] <==> phoneNumber.Some? && PhonePattern(phoneNumber.value);
    assert a == [] <==> address.Some? && !IsBlank(address.value) by {
      NotEmptyErrorsMeaning(address, "Address");
    }
    assert |u + e + p + ph + a| == |u| + |e| + |p| + |ph| + |a|;
  }

  /** The errors validateCustomer collects: username, email, password,
      phone, address, full name. */
  function CustomerErrors(username: Option<string>, email: Option<string>, password: Option<string>,
                          phoneNumber: Option<string>, address: Option<string>, fullName: Option<string>): seq<string>
  {
    AccountErrors(username, email, password, phoneNumber, address) + NotEmptyErrors(fullName, "Full name")
  }

  /** The errors validateServiceProvider collects, the last for the business name. */
  function ProviderErrors(username: Option<string>, email: Option<string>, password: Option<string>,
                          phoneNumber: Option<string>, address: Option<string>, businessName: Option<string>): seq<string>
  {
    AccountErrors(username, email, password, phoneNumber, address) + NotEmptyErrors(businessName, "Business name")
  }

  /** validateCustomer accepts exactly the inputs every field validator accepts. */
  lemma CustomerErrorsEmptyIff(username: Option<string>, email: Option<string>, password: Option<string>,
                               phoneNumber: Option<string>, address: Option<string>, fullName: Option<string>)
    ensures CustomerErrors(username, email, password, phoneNumber, address, fullName) == []
        <==> AccountFieldsValid(username, email, password, phoneNumber, address) && fullName.Some? && !IsBlank(fullName.value)
  {
    AccountErrorsEmptyIff(username, email, password, phoneNumber, address);
    NotEmptyErrorsMeaning(fullName, "Full name");
  }

  /** validateServiceProvider accepts exactly the inputs every field validator accepts. */
  lemma ProviderErrorsEmptyIff(username: Option<string>, email: Option<string>, password: Option<string>,
                               phoneNumber: Option<string>, address: Option<string>, businessName: Option<string>)
    ensures ProviderErrors(username, email, password, phoneNumber, address, businessName) == []
        <==> AccountFieldsValid(username, email, password, phoneNumber, address) && businessName.Some? && !IsBlank(businessName.value)
  {
    AccountErrorsEmptyIff(username, email, password, phoneNumber, address);
    NotEmptyErrorsMeaning(businessName, "Business name");
  }

  /** The documented sample numbers pass; a number whose second digit is
      below 6, or that has one digit too many, does not. */
  lemma PhoneExamples()
    ensures MatchesPhone("9801234567") && MatchesPhone("+9779801234567") && MatchesPhone("09801234567")
    ensures !MatchesPhone("9512345678") && !MatchesPhone("98012345678")
  {
    assert IsMobileBody("9801234567") by {
      assert All("9801234567"[2..], IsDigit);
    }
    assert "+9779801234567"[4..] == "9801234567";
    assert "09801234567"[1..] == "9801234567";
  }

  /** The list validators append to. */
  class ErrorList {
    var errors: seq<string>

    constructor ()
      ensures errors == []
    {
      errors := [];
    }
  }

  method ValidateEmail(email: Option<string>, errors: ErrorList)
    modifies errors
    ensures errors.errors == old(errors.errors) + EmailErrors(email)
  {
    if email.None? || email.value == "" {
      errors.errors := errors.errors + [EMAIL_REQUIRED];
      return;
    }
    if !MatchesEmail(email.value) {
      errors.errors := errors.errors + [EMAIL_INVALID];
    }
  }

  method ValidatePassword(password: Option<string>, errors: ErrorList)
    modifies errors
    ensures errors.errors == old(errors.errors) + PasswordErrors(password)
  {
    if password.None? || password.value == "" {
      errors.errors := errors.errors + [PASSWORD_REQUIRED];
      return;
    }
    if Utf16Length(password.value) < 8 {
      errors.errors := errors.errors + [PASSWORD_TOO_SHORT];
    }
    if !MatchesPassword(password.value) {
      errors.errors := errors.errors + [PASSWORD_TOO_WEAK];
    }
  }

  method ValidatePhoneNumber(phoneNumber: Option<string>, errors: ErrorList)
    modifies errors
    ensures errors.errors == old(errors.errors) + PhoneErrors(phoneNumber)
  {
    if phoneNumber.None? || phoneNumber.value == "" {
      errors.errors := errors.errors + [PHONE_REQUIRED];
      return;
    }
    if !MatchesPhone(phoneNumber.value) {
      errors.errors := errors.errors + [PHONE_INVALID];
    }
  }

  method ValidateUsername(username: Option<string>, errors: ErrorList)
    modifies errors
    ensures errors.errors == old(errors.errors) + UsernameErrors(username)
  {
    if username.None? || username.value == "" {
      errors.errors := errors.errors + [USERNAME_REQUIRED];
      return;
    }
    if !MatchesUsername(username.value) {
      errors.errors := errors.errors + [USERNAME_INVALID];
    }
  }

  method ValidateNotEmpty(value: Option<string>, fieldName: string, errors: ErrorList)
    modifies errors
    ensures errors.errors == old(errors.errors) + NotEmptyErrors(value, fieldName)
  {
    if value.None? || Trim(value.value) == "" {
      errors.errors := errors.errors + [fieldName + " is required"];
    }
  }

  /** The five validators both aggregates run first, in their order. */
  method ValidateAccount(username: Option<string>, email: Option<string>, password: Option<string>,
                         phoneNumber: Option<string>, address: Option<string>, errors: ErrorList)
    modifies errors
    ensures errors.errors == old(errors.errors) + AccountErrors(username, email, password, phoneNumber, address)
  {
    ghost var start := errors.errors;
    ghost var u, e, p, ph, a := UsernameErrors(username), EmailErrors(email), PasswordErrors(password),
                                PhoneErrors(phoneNumber), NotEmptyErrors(address, "Address");
    ValidateUsername(username, errors);
    ValidateEmail(email, errors);
    ValidatePassword(password, errors);
    ValidatePhoneNumber(phoneNumber, errors);
    ValidateNotEmpty(address, "Address", errors);
    AppendFive(start, u, e, p, ph, a);
  }

  lemma AppendFive(s: seq<string>, u: seq<string>, e: seq<string>, p: seq<string>, ph: seq<string>, a: seq<string>)
    ensures s + u + e + p + ph + a == s + (u + e + p + ph + a)
  {
  }

  /** validateCustomer: runs every validator on a fresh list and fails with
      the list when it is not empty. */
  method ValidateCustomer(username: Option<string>, email: Option<string>, password: Option<string>,
                          phoneNumber: Option<string>, address: Option<string>, fullName: Option<string>)
    returns (r: Outcome<seq<string>>)
    ensures var errs := CustomerErrors(username, email, password, phoneNumber, address, fullName);
      r == if errs == [] then Pass else Fail(errs)
  {
    var errors := new ErrorList();
    ghost var account := AccountErrors(username, email, password, phoneNumber, address);
    ValidateAccount(username, email, password, phoneNumber, address, errors);
    assert errors.errors == account;
    ValidateNotEmpty(fullName, "Full name", errors);
    if errors.errors != [] {
      r := Fail(errors.errors);
    } else {
      r := Pass;
    }
  }

  /** validateServiceProvider: as validateCustomer, with the business name last. */
  method ValidateServiceProvider(username: Option<string>, email: Option<string>, password: Option<string>,
                                 phoneNumber: Option<string>, address: Option<string>, businessName: Option<string>)
    returns (r: Outcome<seq<string>>)
    ensures var errs := ProviderErrors(username, email, password, phoneNumber, address, businessName);
      r == if errs == [] then Pass else Fail(errs)
  {
    var errors := new ErrorList();
    ghost var account := AccountErrors(username, email, password, phoneNumber, address);
    ValidateAccount(username, email, password, phoneNumber, address, errors);
    assert errors.errors == account;
    ValidateNotEmpty(businessName, "Business name", errors);
    if errors.errors != [] {
      r := Fail(errors.errors);
    } else {
      r := Pass;
    }
  }
}
