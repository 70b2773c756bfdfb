/** The registration form (`RegisterComponent`). */
module Register {
  import opened Common
  import opened AuthService

  /** `passwordsMatchValidator` on a group whose controls are given by name and value:
      true when it reports `passwordsNotMatch`. A group lacking either control passes. */
  predicate PasswordsMismatch(controls: map<string, string>)
  {
    "password" in controls && "confirmPassword" in controls && controls["password"] != controls["confirmPassword"]
  }

  /** A group lacking either control passes, whatever the other holds. */
  lemma MissingControlPasses(controls: map<string, string>, value: string)
    ensures !PasswordsMismatch(controls - {"password"})
    ensures !PasswordsMismatch(controls - {"confirmPassword"})
    ensures !PasswordsMismatch(map["password" := value])
  {
  }

  /** Swapping the password and its confirmation does not change the verdict. */
  lemma {:induction false} PasswordsMismatchIsSymmetric(controls: map<string, string>, p: string, q: string)
    ensures PasswordsMismatch(controls["password" := p]["confirmPassword" := q]) ==
            PasswordsMismatch(controls["password" := q]["confirmPassword" := p])
  {
    var a := controls["password" := p]["confirmPassword" := q];
    var b := controls["password" := q]["confirmPassword" := p];
    assert a["password"] == p && a["confirmPassword"] == q;
    assert b["password"] == q && b["confirmPassword"] == p;
  }

  /** The form's three controls. */
  datatype RegisterFormValue = RegisterFormValue(email: string, password: string, confirmPassword: string)

  function Controls(v: RegisterFormValue): map<string, string>
  {
    map["email" := v.email, "password" := v.password, "confirmPassword" := v.confirmPassword]
  }

  /** Whether the form is valid: a non-empty email that `isEmail` accepts (the email
      validator's pattern), a password of at least 6 characters, a non-empty confirmation,
      and the group validator passing. */
  predicate FormValid(v: RegisterFormValue, isEmail: string -> bool)
  {
    v.email != "" && isEmail(v.email) &&
    v.password != "" && |v.password| >= 6 &&
    v.confirmPassword != "" &&
    !PasswordsMismatch(Controls(v))
  }

  /** A valid form has a confirmation equal to its password. */
  lemma {:induction false} ValidFormPasswordsAgree(v: RegisterFormValue, isEmail: string -> bool)
    requires FormValid(v, isEmail)
    ensures v.confirmPassword == v.password && |v.password| >= 6
  {
    var c := Controls(v);
    assert c["password"] == v.password && c["confirmPassword"] == v.confirmPassword;
  }

  class RegisterComponent {
    var form: RegisterFormValue

    constructor ()
      ensures form == RegisterFormValue("", "", "")
    {
      form := RegisterFormValue("", "", "");
    }

    method EnterValues(v: RegisterFormValue)
      modifies this
      ensures form == v
    {
      form := v;
    }

    /** `onSubmit`: an invalid form sends nothing; a valid one posts the email and the
        password only. Success navigates to the login page; failure shows the server's
        message or a fixed one. */
    method OnSubmit(isEmail: string -> bool, response: Response<()>)
      returns (request: Option<Credentials>, notice: Option<Notice>, navigateTo: Option<string>)
      ensures request.Some? <==> FormValid(form, isEmail)
      ensures request.Some? ==> request.value == Credentials(form.email, form.password)
      ensures request.None? ==> notice.None? && navigateTo.None?
      ensures request.Some? && response.Ok? ==>
                notice == Some(SuccessNotice("Реєстрація успішна! Тепер ви можете увійти.")) &&
                navigateTo == Some("/login")
      ensures request.Some? && response.Failed? ==>
                notice == Some(ErrorNotice(OrElse(response.message, "Сталася помилка під час реєстрації"))) &&
                navigateTo.None?
    {
      if !FormValid(form, isEmail) {
        return None, None, None;
      }
      request := Some(Credentials(form.email, form.password));
      match response
      case Ok(_) =>
        notice, navigateTo := Some(SuccessNotice("Реєстрація успішна! Тепер ви можете увійти.")), Some("/login");
      case Failed(message) =>
        notice, navigateTo := Some(ErrorNotice(OrElse(message, "Сталася помилка під час реєстрації"))), None;
    }
  }
}
