/**
 * The sign-in form of the authentication screen: two fields, an error map
 * keyed by field name, a loading flag, and the simulated request that ends in a
 * success notification.
 */
module LoginForm {
  import opened EmailPattern

  datatype Field = Email | Password

  datatype Data = Data(email: string, password: string)

  /**
   * The form's state. `errors` is the source's error object: a key may be
   * absent, hold a message, or hold '' once the user edits the field.
   */
  datatype State = State(data: Data, errors: map<Field, string>, isLoading: bool)

  const PasswordRequired := "Password is required"
  const LoginSuccessful := "Login successful!"

  const Initial := State(Data("", ""), map[], false)

  function Get(d: Data, f: Field): string
  {
    match f
    case Email => d.email
    case Password => d.password
  }

  /** The error shown under field `f`: a present, non-empty message. */
  predicate Shows(errors: map<Field, string>, f: Field)
  {
    f in errors && errors[f] != ""
  }

  /**
   * `validateForm`'s new error map: the e-mail error (required or invalid,
   * never both) and 'Password is required' for an empty password.
   */
  function Validate(d: Data): (r: map<Field, string>)
    ensures Email in r <==> EmailError(d.email).Some?
    ensures Email in r ==> r[Email] == EmailError(d.email).value
    ensures Password in r <==> d.password == ""
    ensures Password in r ==> r[Password] == PasswordRequired
  {
    var newErrors := match EmailError(d.email)
      case Some(m) => map[Email := m]
      case None => map[];
    if d.password == "" then newErrors[Password := PasswordRequired] else newErrors
  }

  /** The form is valid exactly when the address is present and well formed and a password is given. */
  lemma ValidIff(d: Data)
    ensures Validate(d) == map[] <==> d.email != "" && ContainsEmailPattern(d.email) && d.password != ""
  {
  }

  /** `handleChange(field)`: the new value goes into that field and a shown error there is blanked. */
  function HandleChange(st: State, field: Field, value: string): (r: State)
    ensures Get(r.data, field) == value
    ensures forall f :: f != field ==> Get(r.data, f) == Get(st.data, f)
    ensures !Shows(r.errors, field)
    ensures r.errors.Keys == st.errors.Keys
    ensures forall f | f in st.errors && (f != field || st.errors[f] == "") :: r.errors[f] == st.errors[f]
    ensures r.isLoading == st.isLoading
  {
    var data := match field
      case Email => st.data.(email := value)
      case Password => st.data.(password := value);
    var errors := if Shows(st.errors, field) then st.errors[field := ""] else st.errors;
    State(data, errors, st.isLoading)
  }

  /**
   * `handleSubmit`: replaces the errors by the validation result and starts
   * loading only when that result is empty.
   */
  function Submit(st: State): (r: State)
    ensures r.data == st.data && r.errors == Validate(st.data)
    ensures r.isLoading <==> (Validate(st.data) == map[] || st.isLoading)
  {
    var errors := Validate(st.data);
    if errors == map[] then State(st.data, errors, true) else State(st.data, errors, st.isLoading)
  }

  /**
   * The simulated request finishes: loading stops and the success message is
   * raised. Its timer is only set by a submit that started loading.
   */
  function Complete(st: State): (r: (State, string))
    requires st.isLoading
    ensures r.0 == st.(isLoading := false) && r.1 == LoginSuccessful
  {
    (st.(isLoading := false), LoginSuccessful)
  }

  /** "not-an-email" with any password is reported invalid, and loading does not start. */
  lemma NotAnEmailRejected(password: string)
    ensures var r := Submit(State(Data("not-an-email", password), map[], false));
      r.errors[Email] == EmailInvalid && !r.isLoading
  {
  }
}
