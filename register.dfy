/** The sign-up form: a required name, the sign-in form's e-mail and password rules, a
    matching confirmation, and the details it submits. */
module Register {
  import opened Wrappers
  import opened JsStrings
  import opened FormErrors
  import Login

  /** The names of the form's inputs. */
  datatype Field = Name | Email | Password | ConfirmPassword

  const NameRequired := "Name is required"
  const PasswordsDiffer := "Passwords do not match"

  /** The name rule. */
  function NameError(name: string): (e: Option<string>)
    ensures e.Some? <==> IsBlank(name)
    ensures e.Some? ==> e == Some(NameRequired)
  {
    TrimEmptyIffBlank(name);
    if Trim(name) == "" then Some(NameRequired) else None
  }

  /** The confirmation rule, checked whatever the other fields hold. */
  function ConfirmError(password: string, confirmPassword: string): (e: Option<string>)
    ensures e.Some? <==> password != confirmPassword
    ensures e.Some? ==> e == Some(PasswordsDiffer)
  {
    if password != confirmPassword then Some(PasswordsDiffer) else None
  }

  /** The `newErrors` dictionary of `validateForm`: four independent checks. */
  function RegisterErrors(name: string, email: string, password: string, confirmPassword: string): (errs: Errors<Field>)
    ensures Name in errs <==> NameError(name).Some?
    ensures Name in errs ==> errs[Name] == NameError(name).value
    ensures Email in errs <==> Login.EmailError(email).Some?
    ensures Email in errs ==> errs[Email] == Login.EmailError(email).value
    ensures Password in errs <==> Login.PasswordError(password).Some?
    ensures Password in errs ==> errs[Password] == Login.PasswordError(password).value
    ensures ConfirmPassword in errs <==> ConfirmError(password, confirmPassword).Some?
    ensures ConfirmPassword in errs ==> errs[ConfirmPassword] == ConfirmError(password, confirmPassword).value
  {
    var withName := Put(map[], Name, NameError(name));
    var withEmail := Put(withName, Email, Login.EmailError(email));
    var withPassword := Put(withEmail, Password, Login.PasswordError(password));
    Put(withPassword, ConfirmPassword, ConfirmError(password, confirmPassword))
  }

  /** The e-mail and password entries are exactly those of the sign-in form. */
  lemma SameRulesAsLogin(name: string, email: string, password: string, confirmPassword: string)
    ensures var errs, login := RegisterErrors(name, email, password, confirmPassword), Login.LoginErrors(email, password);
      (Email in errs <==> Login.Email in login) && (Email in errs ==> errs[Email] == login[Login.Email])
      && (Password in errs <==> Login.Password in login) && (Password in errs ==> errs[Password] == login[Login.Password])
  {
  }

  /** Sign-up validates exactly when the name is not blank, the e-mail and password
      pass the sign-in rules, and the confirmation equals the password. */
  lemma RegisterErrorsEmptyIff(name: string, email: string, password: string, confirmPassword: string)
    ensures RegisterErrors(name, email, password, confirmPassword) == map[] <==>
      !IsBlank(name) && Login.LoginErrors(email, password) == map[] && password == confirmPassword
  {
    var errs := RegisterErrors(name, email, password, confirmPassword);
    var login := Login.LoginErrors(email, password);
    if errs != map[] {
      var k :| k in errs;
    }
    if login != map[] {
      var k :| k in login;
    }
  }

  /** Several errors can be reported at once: a blank form has all of them but the
      confirmation, which an empty password and a different confirmation add. */
  lemma AllFourErrors()
    ensures RegisterErrors("", "", "", "x").Keys == {Name, Email, Password, ConfirmPassword}
  {
    assert IsBlank("");
  }

  /** What `register` is called with. */
  datatype Details = Details(name: string, email: string, password: string)

  /** One `onChange` event. */
  datatype Edit = SetName(text: string) | SetEmail(text: string) | SetPassword(text: string) | SetConfirmPassword(text: string)
  {
    function Target(): Field {
      match this
      case SetName(_) => Name
      case SetEmail(_) => Email
      case SetPassword(_) => Password
      case SetConfirmPassword(_) => ConfirmPassword
    }
  }

  /** The form's state: `formData` and `errors`. */
  class RegisterForm {
    var name: string
    var email: string
    var password: string
    var confirmPassword: string
    var errors: Errors<Field>

    constructor ()
      ensures name == "" && email == "" && password == "" && confirmPassword == ""
      ensures errors == map[]
    {
      name, email, password, confirmPassword := "", "", "", "";
      errors := map[];
    }

    /** `validateForm`. */
    method ValidateForm() returns (valid: bool)
      modifies this`errors
      ensures errors == RegisterErrors(name, email, password, confirmPassword)
      ensures valid <==> errors == map[]
    {
      var newErrors: Errors<Field> := map[];
      if Trim(name) == "" {
        newErrors := newErrors[Name := NameRequired];
      }
      ghost var withName := newErrors;
      assert withName == Put(map[], Name, NameError(name));
      if Trim(email) == "" {
        newErrors := newErrors[Email := Login.EmailRequired];
      } else if !MatchesEmailPattern(email) {
        newErrors := newErrors[Email := Login.EmailInvalid];
      }
      ghost var withEmail := newErrors;
      assert withEmail == Put(withName, Email, Login.EmailError(email));
      if password == "" {
        newErrors := newErrors[Password := Login.PasswordRequired];
      } else if JsLength(password) < 6 {
        newErrors := newErrors[Password := Login.PasswordTooShort];
      }
      ghost var withPassword := newErrors;
      assert withPassword == Put(withEmail, Password, Login.PasswordError(password));
      if password != confirmPassword {
        newErrors := newErrors[ConfirmPassword := PasswordsDiffer];
      }
      assert newErrors == Put(withPassword, ConfirmPassword, ConfirmError(password, confirmPassword));
      errors := newErrors;
      valid := newErrors == map[];
    }

    /** `handleSubmit`: `register` is called with the name, e-mail and password only
        when validation passes. */
    method HandleSubmit() returns (sent: Option<Details>)
      modifies this`errors
      ensures errors == RegisterErrors(name, email, password, confirmPassword)
      ensures sent.Some? <==> errors == map[]
      ensures sent.Some? ==> sent.value == Details(name, email, password)
    {
      var valid := ValidateForm();
      if !valid {
        return None;
      }
      sent := Some(Details(name, email, password));
    }

    /** `handleChange`: the named field takes the value and its shown error is blanked. */
    method HandleChange(e: Edit)
      modifies this
      ensures name == (if e.SetName? then e.text else old(name))
      ensures email == (if e.SetEmail? then e.text else old(email))
      ensures password == (if e.SetPassword? then e.text else old(password))
      ensures confirmPassword == (if e.SetConfirmPassword? then e.text else old(confirmPassword))
      ensures errors == ClearError(old(errors), e.Target())
    {
      match e {
        case SetName(v) => name := v;
        case SetEmail(v) => email := v;
        case SetPassword(v) => password := v;
        case SetConfirmPassword(v) => confirmPassword := v;
      }
      if HasError(errors, e.Target()) {
        errors := errors[e.Target() := ""];
      }
    }
  }
}
