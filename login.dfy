/** The sign-in form: its e-mail and password rules, the credentials it submits, and
    its change handler. */
module Login {
  import opened Wrappers
  import opened JsStrings
  import opened FormErrors

  /** The names of the form's inputs. */
  datatype Field = Email | Password

  const EmailRequired := "Email is required"
  const EmailInvalid := "Email is invalid"
  const PasswordRequired := "Password is required"
  const PasswordTooShort := "Password must be at least 6 characters"

  /** The e-mail rule: blank is reported as missing before the pattern is tried. */
  function EmailError(email: string): (e: Option<string>)
    ensures IsBlank(email) ==> e == Some(EmailRequired)
    ensures !IsBlank(email) ==> (e.Some? <==> !MatchesEmailPattern(email))
    ensures !IsBlank(email) && e.Some? ==> e == Some(EmailInvalid)
    ensures e.Some? ==> e.value != ""
  {
    TrimEmptyIffBlank(email);
    if Trim(email) == "" then Some(EmailRequired)
    else if !MatchesEmailPattern(email) then Some(EmailInvalid)
    else None
  }

  /** The password rule: empty is missing, otherwise fewer than 6 code units is short. */
  function PasswordError(password: string): (e: Option<string>)
    ensures password == "" ==> e == Some(PasswordRequired)
    ensures password != "" ==> (e.Some? <==> JsLength(password) < 6)
    ensures password != "" && e.Some? ==> e == Some(PasswordTooShort)
    ensures e.Some? ==> e.value != ""
  {
    if password == "" then Some(PasswordRequired)
    else if JsLength(password) < 6 then Some(PasswordTooShort)
    else None
  }

  /** The `newErrors` dictionary of `validateForm`. */
  function LoginErrors(email: string, password: string): (errs: Errors<Field>)
    ensures Email in errs <==> EmailError(email).Some?
    ensures Email in errs ==> errs[Email] == EmailError(email).value
    ensures Password in errs <==> PasswordError(password).Some?
    ensures Password in errs ==> errs[Password] == PasswordError(password).value
  {
    Put(Put(map[], Email, EmailError(email)), Password, PasswordError(password))
  }

  /** Sign-in validates exactly when the e-mail is not blank and contains a match of
      the pattern, and the password has at least 6 code units. */
  lemma LoginErrorsEmptyIff(email: string, password: string)
    ensures LoginErrors(email, password) == map[] <==>
      !IsBlank(email) && MatchesEmailPattern(email) && JsLength(password) >= 6
  {
    var errs := LoginErrors(email, password);
    if errs != map[] {
      var k :| k in errs;
    }
    if password == "" {
      assert JsLength(password) == 0;
    }
  }

  /** Because the pattern is not anchored, surrounding text does not make an address
      invalid. */
  lemma AddressInsideTextIsValid(pre: string, post: string)
    ensures EmailError(pre + "a@b.c" + post) == None
  {
    var s := pre + "a@b.c" + post;
    assert "a@b.c" == ['a', '@', 'b', '.', 'c'];
    EmailMatchInsideText(pre, 'a', 'b', 'c', post);
    assert s[|pre|] == 'a' && !IsSpace('a');
  }

  /** The credentials handed to `login`. */
  datatype Credentials = Credentials(email: string, password: string)

  /** One `onChange` event. */
  datatype Edit = SetEmail(text: string) | SetPassword(text: string)
  {
    function Target(): Field {
      match this
      case SetEmail(_) => Email
      case SetPassword(_) => Password
    }
  }

  /** The form's state: `formData` and `errors`. */
  class LoginForm {
    var email: string
    var password: string
    var errors: Errors<Field>

    constructor ()
      ensures email == "" && password == "" && errors == map[]
    {
      email, password, errors := "", "", map[];
    }

    /** `validateForm`. */
    method ValidateForm() returns (valid: bool)
      modifies this`errors
      ensures errors == LoginErrors(email, password)
      ensures valid <==> errors == map[]
    {
      var newErrors: Errors<Field> := map[];
      if Trim(email) == "" {
        newErrors := newErrors[Email := EmailRequired];
      } else if !MatchesEmailPattern(email) {
        newErrors := newErrors[Email := EmailInvalid];
      }
      ghost var withEmail := newErrors;
      assert withEmail == Put(map[], Email, EmailError(email));
      if password == "" {
        newErrors := newErrors[Password := PasswordRequired];
      } else if JsLength(password) < 6 {
        newErrors := newErrors[Password := PasswordTooShort];
      }
      assert newErrors == Put(withEmail, Password, PasswordError(password));
      errors := newErrors;
      valid := newErrors == map[];
    }

    /** `handleSubmit`: `login` is called, with the form's e-mail and password, only
        when validation passes. */
    method HandleSubmit() returns (sent: Option<Credentials>)
      modifies this`errors
      ensures errors == LoginErrors(email, password)
      ensures sent.Some? <==> errors == map[]
      ensures sent.Some? ==> sent.value == Credentials(email, password)
    {
      var valid := ValidateForm();
      if !valid {
        return None;
      }
      sent := Some(Credentials(email, password));
    }

    /** `handleChange`: the named field takes the value and its shown error is blanked. */
    method HandleChange(e: Edit)
      modifies this
      ensures email == (if e.SetEmail? then e.text else old(email))
      ensures password == (if e.SetPassword? then e.text else old(password))
      ensures errors == ClearError(old(errors), e.Target())
    {
      match e {
        case SetEmail(v) => email := v;
        case SetPassword(v) => password := v;
      }
      if HasError(errors, e.Target()) {
        errors := errors[e.Target() := ""];
      }
    }
  }
}
