/**
 * The registration form: six text fields, a terms checkbox, the validation
 * that builds the error map, the password-strength meter, and the simulated
 * request that hands the first name to the page on success.
 */
module SignUpForm {
  import opened Wrappers
  import opened EmailPattern

  /** The keys of the error map: the six fields plus the terms checkbox. */
  datatype Key = FirstName | LastName | Email | Phone | Password | ConfirmPassword | Terms

  datatype Data = Data(
    firstName: string, lastName: string, email: string,
    phone: string, password: string, confirmPassword: string)

  /**
   * The form's state. `pending` is the first name captured by the simulated
   * request when it was started; `None` when no request is outstanding.
   */
  datatype State = State(
    data: Data, errors: map<Key, string>, acceptTerms: bool,
    isLoading: bool, pending: Option<string>)

  const MinPasswordLength := 8
  const FirstNameRequired := "First name is required"
  const PasswordRequired := "Password is required"
  const PasswordTooShort := "Password must be at least 8 characters"
  const PasswordsDoNotMatch := "Passwords do not match"
  const TermsRequired := "You must accept the terms"

  const Initial := State(Data("", "", "", "", "", ""), map[], false, false, None)

  /** The text field behind a key; the terms checkbox has none. */
  function Get(d: Data, k: Key): string
    requires k != Terms
  {
    match k
    case FirstName => d.firstName
    case LastName => d.lastName
    case Email => d.email
    case Phone => d.phone
    case Password => d.password
    case ConfirmPassword => d.confirmPassword
  }

  predicate Shows(errors: map<Key, string>, k: Key)
  {
    k in errors && errors[k] != ""
  }

  /** The password's own error: required when empty, too short below eight characters. */
  function PasswordError(p: string): (e: Option<string>)
    ensures e == Some(PasswordRequired) <==> p == ""
    ensures e == Some(PasswordTooShort) <==> 0 < |p| < MinPasswordLength
    ensures e == None <==> |p| >= MinPasswordLength
  {
    if p == "" then Some(PasswordRequired)
    else if |p| < MinPasswordLength then Some(PasswordTooShort)
    else None
  }

  /** `validateForm`'s new error map. Last name and phone are never checked. */
  function Validate(d: Data, acceptTerms: bool): (r: map<Key, string>)
    ensures FirstName in r <==> d.firstName == ""
    ensures Email in r <==> EmailError(d.email).Some?
    ensures Password in r <==> PasswordError(d.password).Some?
    ensures ConfirmPassword in r <==> d.password != d.confirmPassword
    ensures Terms in r <==> !acceptTerms
    ensures LastName !in r && Phone !in r
    ensures FirstName in r ==> r[FirstName] == FirstNameRequired
    ensures Email in r ==> r[Email] == EmailError(d.email).value
    ensures Password in r ==> r[Password] == PasswordError(d.password).value
    ensures ConfirmPassword in r ==> r[ConfirmPassword] == PasswordsDoNotMatch
    ensures Terms in r ==> r[Terms] == TermsRequired
  {
    var e1 := if d.firstName == "" then map[FirstName := FirstNameRequired] else map[];
    var e2 := match EmailError(d.email)
      case Some(m) => e1[Email := m]
      case None => e1;
    var e3 := match PasswordError(d.password)
      case Some(m) => e2[Password := m]
      case None => e2;
    var e4 := if d.password != d.confirmPassword then e3[ConfirmPassword := PasswordsDoNotMatch] else e3;
    if !acceptTerms then e4[Terms := TermsRequired] else e4
  }

  /** The registration is accepted exactly when every checked condition holds. */
  lemma ValidIff(d: Data, acceptTerms: bool)
    ensures Validate(d, acceptTerms) == map[] <==>
      && d.firstName != ""
      && d.email != "" && ContainsEmailPattern(d.email)
      && |d.password| >= MinPasswordLength
      && d.password == d.confirmPassword
      && acceptTerms
  {
  }

  /** Two empty password fields are no mismatch: only 'Password is required' is reported. */
  lemma EmptyPasswordsNoMismatch(d: Data, acceptTerms: bool)
    requires d.password == "" && d.confirmPassword == ""
    ensures var r := Validate(d, acceptTerms);
      ConfirmPassword !in r && r[Password] == PasswordRequired
  {
  }

  /** `handleChange(field)` for a text field; the terms key is not a text field. */
  function HandleChange(st: State, field: Key, value: string): (r: State)
    requires field != Terms
    ensures Get(r.data, field) == value
    ensures forall k | k != Terms && k != field :: Get(r.data, k) == Get(st.data, k)
    ensures !Shows(r.errors, field)
    ensures r.errors.Keys == st.errors.Keys
    ensures forall k | k in st.errors && (k != field || st.errors[k] == "") :: r.errors[k] == st.errors[k]
    ensures r.acceptTerms == st.acceptTerms && r.isLoading == st.isLoading && r.pending == st.pending
  {
    var data := match field
      case FirstName => st.data.(firstName := value)
      case LastName => st.data.(lastName := value)
      case Email => st.data.(email := value)
      case Phone => st.data.(phone := value)
      case Password => st.data.(password := value)
      case ConfirmPassword => st.data.(confirmPassword := value);
    var errors := if Shows(st.errors, field) then st.errors[field := ""] else st.errors;
    st.(data := data, errors := errors)
  }

  /** The terms checkbox: only the flag changes; a shown terms error stays until the next submit. */
  function SetAcceptTerms(st: State, checked: bool): (r: State)
    ensures r == st.(acceptTerms := checked)
  {
    st.(acceptTerms := checked)
  }

  /**
   * `handleSubmit`: the errors become the validation result; only an empty
   * result starts loading and captures the first name for the completion.
   */
  function Submit(st: State): (r: State)
    ensures r.data == st.data && r.acceptTerms == st.acceptTerms
    ensures r.errors == Validate(st.data, st.acceptTerms)
    ensures Validate(st.data, st.acceptTerms) == map[] ==> r.isLoading && r.pending == Some(st.data.firstName)
    ensures Validate(st.data, st.acceptTerms) != map[] ==> r.isLoading == st.isLoading && r.pending == st.pending
  {
    var errors := Validate(st.data, st.acceptTerms);
    if errors == map[] then st.(errors := errors, isLoading := true, pending := Some(st.data.firstName))
    else st.(errors := errors)
  }

  /** The simulated request finishes: loading stops and the captured first name goes to the page. */
  function Complete(st: State): (r: (State, string))
    requires st.pending.Some?
    ensures r.0 == st.(isLoading := false, pending := None) && r.1 == st.pending.value
  {
    (st.(isLoading := false, pending := None), st.pending.value)
  }

  /** A successful completion always follows a valid submit: the name passed on is a validated, non-empty first name. */
  lemma CompletedNameNonEmpty(st: State)
    requires Validate(st.data, st.acceptTerms) == map[]
    ensures Complete(Submit(st)).1 == st.data.firstName && st.data.firstName != ""
  {
  }

  /** A password shorter than eight characters is reported as too short. */
  lemma ShortPasswordReported(d: Data, acceptTerms: bool)
    requires 0 < |d.password| < MinPasswordLength
    ensures Validate(d, acceptTerms)[Password] == PasswordTooShort
    ensures Validate(d, acceptTerms) != map[]
  {
  }

  // ---- password strength ----

  /** The five strength criteria, in the order the source tests them. */
  datatype Criterion = MinLength | Upper | Lower | Digit | Symbol

  const Criteria := [MinLength, Upper, Lower, Digit, Symbol]

  predicate IsUpper(c: char) { 'A' <= c <= 'Z' }
  predicate IsLower(c: char) { 'a' <= c <= 'z' }
  predicate IsDigit(c: char) { '0' <= c <= '9' }
  /** `[^A-Za-z0-9]` */
  predicate IsSymbol(c: char) { !IsUpper(c) && !IsLower(c) && !IsDigit(c) }

  /** Whether `p` meets criterion `c`; the character classes are unanchored tests. */
  predicate Meets(p: string, c: Criterion)
  {
    match c
    case MinLength => |p| >= MinPasswordLength
    case Upper => exists i | 0 <= i < |p| :: IsUpper(p[i])
    case Lower => exists i | 0 <= i < |p| :: IsLower(p[i])
    case Digit => exists i | 0 <= i < |p| :: IsDigit(p[i])
    case Symbol => exists i | 0 <= i < |p| :: IsSymbol(p[i])
  }

  /** How many of the criteria in `cs` the password meets. */
  function CountMet(p: string, cs: seq<Criterion>): (n: nat)
    ensures n <= |cs|
    ensures (exists i | 0 <= i < |cs| :: Meets(p, cs[i])) ==> n >= 1
  {
    if cs == [] then 0
    else (if Meets(p, cs[0]) then 1 else 0) + CountMet(p, cs[1..])
  }

  /** Any non-empty password meets one of the character-class criteria: its first character is in one of them. */
  lemma NonEmptyMeetsSome(p: string)
    requires p != ""
    ensures exists i | 0 <= i < |Criteria| :: Meets(p, Criteria[i])
  {
    var c := p[0];
    if IsUpper(c) { assert Meets(p, Criteria[1]); }
    else if IsLower(c) { assert Meets(p, Criteria[2]); }
    else if IsDigit(c) { assert Meets(p, Criteria[3]); }
    else { assert Meets(p, Criteria[4]); }
  }

  /**
   * `passwordStrength`: 0 for an empty password, otherwise the number of
   * criteria met, which is then between 1 and 5.
   */
  method PasswordStrength(p: string) returns (s: nat)
    ensures p == "" ==> s == 0
    ensures p != "" ==> s == CountMet(p, Criteria) && 1 <= s <= |Criteria|
  {
    if p == "" {
      return 0;
    }
    s := 0;
    if |p| >= MinPasswordLength { s := s + 1; }
    if exists i | 0 <= i < |p| :: IsUpper(p[i]) { s := s + 1; }
    if exists i | 0 <= i < |p| :: IsLower(p[i]) { s := s + 1; }
    if exists i | 0 <= i < |p| :: IsDigit(p[i]) { s := s + 1; }
    if exists i | 0 <= i < |p| :: IsSymbol(p[i]) { s := s + 1; }
    assert CountMet(p, [Symbol]) == (if Meets(p, Symbol) then 1 else 0) by {
      assert [Symbol][1..] == [];
    }
    assert CountMet(p, [Digit, Symbol]) == (if Meets(p, Digit) then 1 else 0) + CountMet(p, [Symbol]) by {
      assert [Digit, Symbol][1..] == [Symbol];
    }
    assert CountMet(p, [Lower, Digit, Symbol]) == (if Meets(p, Lower) then 1 else 0) + CountMet(p, [Digit, Symbol]) by {
      assert [Lower, Digit, Symbol][1..] == [Digit, Symbol];
    }
    assert CountMet(p, [Upper, Lower, Digit, Symbol]) == (if Meets(p, Upper) then 1 else 0) + CountMet(p, [Lower, Digit, Symbol]) by {
      assert [Upper, Lower, Digit, Symbol][1..] == [Lower, Digit, Symbol];
    }
    assert Criteria[1..] == [Upper, Lower, Digit, Symbol];
    NonEmptyMeetsSome(p);
  }

  const StrengthLabels := ["Very Weak", "Weak", "Fair", "Good", "Strong"]

  /** `strengthLabels[passwordStrength - 1]`, defined for every strength of a non-empty password. */
  function StrengthLabel(strength: nat): (text: string)
    requires 1 <= strength <= |StrengthLabels|
    ensures text in StrengthLabels
  {
    StrengthLabels[strength - 1]
  }
}
