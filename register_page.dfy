/** The registration form: its field updates and the checks before the account is created. */
module RegisterPage {
  import opened Wrappers
  import Text

  datatype RegisterForm = RegisterForm(email: string, password: string, confirmPassword: string, fullName: string, phone: string)

  datatype Field = Email | Password | ConfirmPassword | FullName | Phone

  function Get(form: RegisterForm, field: Field): string {
    match field
    case Email => form.email
    case Password => form.password
    case ConfirmPassword => form.confirmPassword
    case FullName => form.fullName
    case Phone => form.phone
  }

  datatype RegisterState = RegisterState(form: RegisterForm, error: string)

  /** `handleChange`: the edited field takes the new value, the others keep theirs, the error is cleared. */
  function HandleChange(state: RegisterState, field: Field, value: string): (s: RegisterState)
    ensures Get(s.form, field) == value
    ensures forall other: Field :: other != field ==> Get(s.form, other) == Get(state.form, other)
    ensures s.error == ""
  {
    var f := state.form;
    var form :=
      match field
      case Email => f.(email := value)
      case Password => f.(password := value)
      case ConfirmPassword => f.(confirmPassword := value)
      case FullName => f.(fullName := value)
      case Phone => f.(phone := value);
    RegisterState(form, "")
  }

  const Mismatch := "Passwörter stimmen nicht überein"
  const TooShort := "Passwort muss mindestens 6 Zeichen lang sein"
  const MinPasswordLength := 6
  /** Shown when the account request fails without a message of its own. */
  const RegisterFailedText := "Registrierung fehlgeschlagen"

  /** The arguments of the account-creating call; an empty full name or phone is left out. */
  datatype RegisterCall = RegisterCall(email: string, password: string, fullName: Option<string>, phone: Option<string>)

  datatype RegisterResult = Registered | RegisterFailed(message: string)

  datatype SubmitOutcome = SubmitOutcome(call: Option<RegisterCall>, error: string, verificationShown: bool, loading: bool)

  /**
   * `handleSubmit`: differing passwords are rejected first, then a password shorter
   * than six characters; in both cases nothing is sent. Otherwise the account is
   * requested, and the verification notice opens when that succeeds.
   */
  function HandleSubmit(form: RegisterForm, result: RegisterResult): (o: SubmitOutcome)
    ensures form.password != form.confirmPassword ==> o.call.None? && o.error == Mismatch
    ensures form.password == form.confirmPassword && |form.password| < MinPasswordLength ==>
              o.call.None? && o.error == TooShort
    ensures o.call.Some? <==> form.password == form.confirmPassword && |form.password| >= MinPasswordLength
    ensures o.call.Some? ==> o.call.value.email == form.email && o.call.value.password == form.password
    ensures o.call.Some? ==> (o.call.value.fullName.None? <==> form.fullName == "")
    ensures o.call.Some? ==> (o.call.value.phone.None? <==> form.phone == "")
    ensures o.call.Some? && form.fullName != "" ==> o.call.value.fullName == Some(form.fullName)
    ensures o.call.Some? && form.phone != "" ==> o.call.value.phone == Some(form.phone)
    ensures o.call.Some? && result.RegisterFailed? ==> o.error == Text.OrElse(result.message, RegisterFailedText)
    ensures o.verificationShown <==> o.call.Some? && result.Registered?
    ensures !o.loading
    ensures o.error == "" <==> o.call.Some? && result.Registered?
  {
    if form.password != form.confirmPassword then SubmitOutcome(None, Mismatch, false, false)
    else if |form.password| < MinPasswordLength then SubmitOutcome(None, TooShort, false, false)
    else
      var call := RegisterCall(form.email, form.password,
                               if form.fullName == "" then None else Some(form.fullName),
                               if form.phone == "" then None else Some(form.phone));
      match result
      case Registered => SubmitOutcome(Some(call), "", true, false)
      case RegisterFailed(m) => SubmitOutcome(Some(call), Text.OrElse(m, RegisterFailedText), false, false)
  }

  /** A short password that is also mistyped in the confirmation is reported as a mismatch. */
  lemma MismatchTakesPrecedence(form: RegisterForm, result: RegisterResult)
    requires |form.password| < MinPasswordLength && form.password != form.confirmPassword
    ensures HandleSubmit(form, result).error == Mismatch
  {
  }
}
