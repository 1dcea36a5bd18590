/** The profile page: the password change, the profile save and the e-mail verification parameter. */
module ProfilePage {
  import opened Wrappers
  import Text

  datatype MessageKind = Success | Error
  datatype Message = Message(kind: MessageKind, text: string)

  datatype PasswordForm = PasswordForm(currentPassword: string, newPassword: string, confirmPassword: string)

  const EmptyPasswordForm := PasswordForm("", "", "")

  datatype PasswordCall = PasswordCall(currentPassword: string, newPassword: string)

  datatype CallResult = Done | Failed(message: string)

  datatype PasswordState = PasswordState(form: PasswordForm, open: bool, message: Option<Message>)

  datatype ChangeOutcome = ChangeOutcome(call: Option<PasswordCall>, state: PasswordState)

  const Mismatch := "Die neuen Passwörter stimmen nicht überein."
  const TooShort := "Das neue Passwort muss mindestens 6 Zeichen lang sein."
  const Changed := "Passwort erfolgreich geändert!"
  /** Shown when the password change fails without a message of its own. */
  const ChangeFailed := "Fehler beim Ändern des Passworts"
  /** Shown when the profile save fails without a message of its own. */
  const SaveFailed := "Fehler beim Aktualisieren des Profils"

  /**
   * `handleChangePassword`: a mismatched confirmation is rejected before the length
   * check, and neither rejection sends anything. A successful change closes the form
   * and resets all three fields; a failed one keeps the form as it was.
   */
  function HandleChangePassword(state: PasswordState, result: CallResult): (o: ChangeOutcome)
    ensures state.form.newPassword != state.form.confirmPassword ==>
              o.call.None? && o.state == state.(message := Some(Message(Error, Mismatch)))
    ensures state.form.newPassword == state.form.confirmPassword && |state.form.newPassword| < 6 ==>
              o.call.None? && o.state == state.(message := Some(Message(Error, TooShort)))
    ensures o.call.Some? <==> state.form.newPassword == state.form.confirmPassword && |state.form.newPassword| >= 6
    ensures o.call.Some? ==> o.call.value == PasswordCall(state.form.currentPassword, state.form.newPassword)
    ensures o.call.Some? && result.Done? ==>
              o.state == PasswordState(EmptyPasswordForm, false, Some(Message(Success, Changed)))
    ensures o.call.Some? && result.Failed? ==>
              o.state.form == state.form && o.state.open == state.open
              && o.state.message == Some(Message(Error, Text.OrElse(result.message, ChangeFailed)))
  {
    var f := state.form;
    if f.newPassword != f.confirmPassword then ChangeOutcome(None, state.(message := Some(Message(Error, Mismatch))))
    else if |f.newPassword| < 6 then ChangeOutcome(None, state.(message := Some(Message(Error, TooShort))))
    else
      var call := PasswordCall(f.currentPassword, f.newPassword);
      match result
      case Done => ChangeOutcome(Some(call), PasswordState(PasswordForm("", "", ""), false, Some(Message(Success, Changed))))
      case Failed(m) =>
        ChangeOutcome(Some(call), state.(message := Some(Message(Error, Text.OrElse(m, ChangeFailed)))))
  }

  datatype ProfileCall = ProfileCall(fullName: Option<string>, phone: Option<string>)

  /** `handleSaveProfile` sends an empty full name or phone as undefined. */
  function SaveProfileCall(fullName: string, phone: string): (c: ProfileCall)
    ensures c.fullName.None? <==> fullName == ""
    ensures c.phone.None? <==> phone == ""
    ensures c.fullName.Some? ==> c.fullName.value == fullName
    ensures c.phone.Some? ==> c.phone.value == phone
  {
    ProfileCall(if fullName == "" then None else Some(fullName), if phone == "" then None else Some(phone))
  }

  /** The page after `handleSaveProfile`: whether the profile form is still being edited, and the message. */
  datatype SaveOutcome = SaveOutcome(call: ProfileCall, editing: bool, message: Message)

  /**
   * `handleSaveProfile`: the profile is always sent; success closes the edit form with
   * a success message, a failure leaves the edit state as it was and reports an error.
   */
  function HandleSaveProfile(editing: bool, fullName: string, phone: string, result: CallResult): (o: SaveOutcome)
    ensures o.call == SaveProfileCall(fullName, phone)
    ensures result.Done? ==> !o.editing && o.message == Message(Success, "Profil erfolgreich aktualisiert!")
    ensures result.Failed? ==> o.editing == editing && o.message == Message(Error, Text.OrElse(result.message, SaveFailed))
    ensures result.Failed? ==> o.message.text != ""
  {
    match result
    case Done => SaveOutcome(SaveProfileCall(fullName, phone), false, Message(Success, "Profil erfolgreich aktualisiert!"))
    case Failed(m) =>
      SaveOutcome(SaveProfileCall(fullName, phone), editing,
                  Message(Error, Text.OrElse(m, SaveFailed)))
  }

  /** What the page knows about the e-mail verification, and what it shows. */
  datatype VerificationState = VerificationState(emailVerified: Option<bool>, message: Option<Message>, refreshRequested: bool)

  /**
   * The `verified` URL parameter: exactly "true" marks the address verified, shows the
   * success message and asks for the customer to be reloaded; any other value changes nothing.
   */
  function ApplyVerifiedParam(state: VerificationState, verified: Option<string>): (s: VerificationState)
    ensures verified == Some("true") ==>
              s == VerificationState(Some(true), Some(Message(Success, "E-Mail wurde erfolgreich bestätigt!")), true)
    ensures verified != Some("true") ==> s == state
  {
    if verified == Some("true") then
      VerificationState(Some(true), Some(Message(Success, "E-Mail wurde erfolgreich bestätigt!")), true)
    else state
  }
}
