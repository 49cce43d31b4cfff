/** The dialog that creates and edits dashboard users. */
module UserModal {
  import opened Wrappers
  import opened PasswordRules

  datatype Mode = Create | Edit

  /** A user as the list holds it; a missing field is "". */
  datatype User = User(id: string, name: string, role: string, phoneNo: string, emailId: string)

  datatype Values = Values(name: string, role: string, phoneNo: string, emailId: string,
                           password: string, mode: Mode)

  /** The form starts from the user's fields (or "" each) and an empty password. */
  function InitialValues(user: Option<User>, mode: Mode): (v: Values)
    ensures v.password == "" && v.mode == mode
    ensures user.None? ==> v.name == "" && v.role == "" && v.phoneNo == "" && v.emailId == ""
    ensures user.Some? ==> v.name == user.value.name && v.role == user.value.role &&
                           v.phoneNo == user.value.phoneNo && v.emailId == user.value.emailId
  {
    match user
    case None => Values("", "", "", "", "", mode)
    case Some(u) => Values(u.name, u.role, u.phoneNo, u.emailId, "", mode)
  }

  /** The schema: name, role, phone and email required, the phone pattern, and a
      strong password required on create and optional (but strong) on edit.
      `emailOk` is the e-mail format check. */
  predicate SchemaAccepts(v: Values, emailOk: bool) {
    v.name != "" && v.role != "" && v.phoneNo != "" && PhonePattern(v.phoneNo) &&
    v.emailId != "" && emailOk &&
    (if v.mode == Create then v.password != "" && StrongPassword(v.password)
     else v.password == "" || StrongPassword(v.password))
  }

  /** The body sent: the values without `mode`, plus `username` on create, and
      without `password` when it is left empty on edit. */
  datatype Payload = Payload(name: string, role: string, phoneNo: string, emailId: string,
                             password: Option<string>, username: Option<string>)

  datatype Dispatch = CreateUser(data: Payload) | UpdateUser(id: string, data: Payload) | NoRequest

  /** The request a submission makes: the values without `mode`; on create the
      phone number doubles as `username`; on edit an empty password is left out;
      an edit with no user makes no request. */
  function Sent(values: Values, mode: Mode, user: Option<User>): (d: Dispatch)
    ensures d.CreateUser? <==> mode == Create
    ensures d.NoRequest? <==> mode == Edit && user.None?
    ensures d.UpdateUser? ==> user.Some? && d.id == user.value.id && d.data.username.None? &&
                              (d.data.password.None? <==> values.password == "")
  {
    var data := Payload(values.name, values.role, values.phoneNo, values.emailId,
                        if mode == Edit && values.password == "" then None else Some(values.password),
                        if mode == Create then Some(values.phoneNo) else None);
    if mode == Create then CreateUser(data)
    else if user.Some? then UpdateUser(user.value.id, data)
    else NoRequest
  }

  /** `handleSubmit`: the body is built step by step, then dispatched by mode. */
  method HandleSubmit(values: Values, mode: Mode, user: Option<User>) returns (d: Dispatch)
    ensures d == Sent(values, mode, user)
  {
    var submitData := Payload(values.name, values.role, values.phoneNo, values.emailId,
                              Some(values.password), None);
    if mode == Create {
      submitData := submitData.(username := Some(submitData.phoneNo));
    }
    if mode == Edit && submitData.password == Some("") {
      submitData := submitData.(password := None);
    }
    if mode == Create {
      d := CreateUser(submitData);
    } else if user.Some? {
      d := UpdateUser(user.value.id, submitData);
    } else {
      d := NoRequest;
    }
  }

  /** A new user that passes the form is sent with a strong password and a
      username that passes the phone pattern. */
  lemma CreateSendsStrongPassword(v: Values, emailOk: bool, user: Option<User>)
    requires v.mode == Create && SchemaAccepts(v, emailOk)
    ensures var d := Sent(v, Create, user);
            d.data.password.Some? && StrongPassword(d.data.password.value) &&
            d.data.username == Some(v.phoneNo) && PhonePattern(d.data.username.value)
  {
  }

  /** Saving an untouched edit form sends the user's own fields back and no
      password, so the password is kept. */
  lemma UntouchedEditKeepsPassword(u: User)
    ensures Sent(InitialValues(Some(u), Edit), Edit, Some(u)) ==
            UpdateUser(u.id, Payload(u.name, u.role, u.phoneNo, u.emailId, None, None))
  {
  }
}
