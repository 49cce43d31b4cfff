/** The change-password section of the settings page. */
module ChangePassword {
  import opened PasswordRules
  import JsString

  datatype Values = Values(oldPassword: string, newPassword: string, confirmPassword: string)

  /** The schema: the current password given, a strong new one, confirmed. */
  predicate SchemaAccepts(v: Values) {
    v.oldPassword != "" && StrongPassword(v.newPassword) &&
    v.confirmPassword != "" && v.confirmPassword == v.newPassword
  }

  /** What is sent: the two passwords only. */
  datatype Payload = Payload(oldPassword: string, newPassword: string)

  /** `handlePasswordChange`: the same password again is refused on the form;
      anything else is sent. */
  datatype Outcome = SameAsCurrent | Send(payload: Payload)

  function HandleChange(v: Values): (r: Outcome)
    ensures r == SameAsCurrent <==> v.oldPassword == v.newPassword
    ensures r.Send? ==> r.payload.oldPassword == v.oldPassword && r.payload.newPassword == v.newPassword
  {
    if v.oldPassword == v.newPassword then SameAsCurrent
    else Send(Payload(v.oldPassword, v.newPassword))
  }

  /** A password that is sent changes the password and keeps to the rules. */
  lemma SentPasswordIsNewAndStrong(v: Values)
    requires SchemaAccepts(v) && HandleChange(v).Send?
    ensures HandleChange(v).payload.newPassword != HandleChange(v).payload.oldPassword
    ensures StrongPassword(HandleChange(v).payload.newPassword)
  {
  }

  /** A server refusal that mentions "current password" marks the current
      password as wrong. */
  predicate MarksCurrentWrong(message: string) {
    JsString.Contains(message, "current password")
  }

  lemma CurrentPasswordMessage()
    ensures MarksCurrentWrong("Your current password is incorrect")
    ensures !MarksCurrentWrong("Session expired")
  {
    var sub := "current password";
    var m := "Your " + sub + " is incorrect";
    assert m[5..21] == sub;
    assert JsString.OccursAt(m, sub, 5);
    assert m == "Your current password is incorrect";
  }
}
