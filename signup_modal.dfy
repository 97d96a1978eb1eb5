/** The sign-up dialog: its form checks, in order, and the registration call they guard. */
module SignupModal {
  import opened Wrappers
  import Validation
  import opened Auth

  datatype SignupForm = SignupForm(
    firstName: string, lastName: string, username: string, email: string, password: string, confirmPassword: string)

  datatype FormCheck = FormValid | FormInvalid(message: string)

  const PasswordsDiffer: string := "Passwords do not match"
  const PasswordTooShort: string := "Password must be at least 6 characters long"
  const EmailInvalid: string := "Please enter a valid email address"
  const UnexpectedError: string := "An unexpected error occurred during registration."

  /** `validateForm()`: the passwords must match, then be at least six characters, then the email must be well formed;
    * only the first failure is reported. */
  function ValidateForm(f: SignupForm): (r: FormCheck)
    ensures r == FormValid <==> f.password == f.confirmPassword && |f.password| >= 6 && Validation.ValidateEmail(f.email)
    ensures f.password != f.confirmPassword ==> r == FormInvalid(PasswordsDiffer)
    ensures f.password == f.confirmPassword && |f.password| < 6 ==> r == FormInvalid(PasswordTooShort)
    ensures f.password == f.confirmPassword && |f.password| >= 6 && !Validation.ValidateEmail(f.email) ==>
      r == FormInvalid(EmailInvalid)
  {
    if f.password != f.confirmPassword then FormInvalid(PasswordsDiffer)
    else if |f.password| < 6 then FormInvalid(PasswordTooShort)
    else if !Validation.ValidateEmail(f.email) then FormInvalid(EmailInvalid)
    else FormValid
  }

  /** A form passes exactly when its email has the `name@domain.tld` shape and its confirmed password is long enough. */
  lemma {:induction false} ValidFormShape(f: SignupForm)
    ensures ValidateForm(f) == FormValid <==>
      f.password == f.confirmPassword && |f.password| >= 6 && Validation.EmailPattern(f.email)
  {
    Validation.EmailMatchesPattern(f.email);
  }

  /** A bad email is only reported once both password checks pass. */
  lemma {:induction false} PasswordChecksFirst(f: SignupForm)
    requires ValidateForm(f) == FormInvalid(EmailInvalid)
    ensures f.password == f.confirmPassword && |f.password| >= 6
  {
  }

  /** A toast the dialog shows. */
  datatype Toast = ToastSuccess(text: string) | ToastError(error: RawMessage)

  class SignupDialog {
    var loading: bool
    var toasts: seq<Toast>
    /** Whether the switch to the login dialog has been scheduled. */
    var switchScheduled: bool

    constructor()
      ensures !loading && toasts == [] && !switchScheduled
    {
      loading := false;
      toasts := [];
      switchScheduled := false;
    }

    /** `handleSubmit`: an invalid form shows its message and sends nothing; a valid one sends the registration
      * with the fields in the order `register` takes them, shows its outcome, and schedules the switch to login
      * on success. `loading` is off again afterwards. Returns the request sent. */
    method HandleSubmit(f: SignupForm, register: RegisterRequest -> Result<RegisterResult, string>)
      returns (sent: Option<RegisterRequest>)
      modifies this
      ensures !loading
      ensures ValidateForm(f).FormInvalid? ==>
        sent.None? && toasts == old(toasts) + [ToastError(TextMsg(ValidateForm(f).message))]
        && switchScheduled == old(switchScheduled)
      ensures ValidateForm(f) == FormValid ==>
        && sent == Some(RegisterBody(f.username, f.email, f.password, f.firstName, f.lastName))
        && match register(sent.value)
           case Ok(Registered(msg)) => toasts == old(toasts) + [ToastSuccess(msg)] && switchScheduled
           case Ok(RegisterFailed(err)) => toasts == old(toasts) + [ToastError(err)] && switchScheduled == old(switchScheduled)
           case Err(_) => toasts == old(toasts) + [ToastError(TextMsg(UnexpectedError))] && switchScheduled == old(switchScheduled)
    {
      loading := true;
      var check := ValidateForm(f);
      if check.FormInvalid? {
        toasts := toasts + [ToastError(TextMsg(check.message))];
        loading := false;
        sent := None;
        return;
      }
      var request := RegisterBody(f.username, f.email, f.password, f.firstName, f.lastName);
      sent := Some(request);
      var result := register(request);
      match result {
        case Ok(Registered(msg)) =>
          toasts := toasts + [ToastSuccess(msg)];
          switchScheduled := true;
        case Ok(RegisterFailed(err)) =>
          toasts := toasts + [ToastError(err)];
        case Err(_) =>
          toasts := toasts + [ToastError(TextMsg(UnexpectedError))];
      }
      loading := false;
    }
  }
}
