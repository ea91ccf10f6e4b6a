/** The registration form (frontend/src/app/register/page.tsx). */
module RegisterPage {
  import opened Basics

  datatype FormData = FormData(username: string, email: string, password: string, confirmPassword: string)

  datatype Credentials = Credentials(username: string, email: string, password: string)

  const AllFieldsRequired: string := "All fields are required"
  const PasswordsDoNotMatch: string := "Passwords do not match"
  const PasswordTooShort: string := "Password must be at least 6 characters"
  const RegistrationFailed: string := "Registration failed. Email may already be in use."
  const UnexpectedError: string := "An error occurred. Please try again."

  const MinPasswordLength: int := 6

  /** The validation chain of `handleSubmit`: the first failing check names the error. */
  function ValidationError(f: FormData): (e: Option<string>)
    ensures e == Some(AllFieldsRequired) <==> (f.username == "" || f.email == "" || f.password == "")
    ensures e == Some(PasswordsDoNotMatch) <==>
      f.username != "" && f.email != "" && f.password != "" && f.password != f.confirmPassword
    ensures e == Some(PasswordTooShort) <==>
      f.username != "" && f.email != "" && f.password != "" && f.password == f.confirmPassword
      && |f.password| < MinPasswordLength
    ensures e.None? <==>
      f.username != "" && f.email != "" && |f.password| >= MinPasswordLength && f.password == f.confirmPassword
  {
    if f.username == "" || f.email == "" || f.password == "" then Some(AllFieldsRequired)
    else if f.password != f.confirmPassword then Some(PasswordsDoNotMatch)
    else if |f.password| < MinPasswordLength then Some(PasswordTooShort)
    else None
  }

  /** How the dispatched `register` thunk ends. */
  datatype DispatchOutcome = Fulfilled | Rejected | Threw

  class RegisterPage {
    var error: string
    var loading: bool
    /** Every value passed to `setLoading`, in order. */
    var loadingUpdates: seq<bool>
    /** The credentials of every dispatched `register`. */
    var dispatched: seq<Credentials>
    /** The route pushed after a successful registration. */
    var route: Option<string>

    constructor ()
      ensures error == "" && !loading && loadingUpdates == [] && dispatched == [] && route.None?
    {
      error := "";
      loading := false;
      loadingUpdates := [];
      dispatched := [];
      route := None;
    }

    /** `handleSubmit` for the form `f`; `outcome` is how the dispatched registration ends. */
    method HandleSubmit(f: FormData, outcome: DispatchOutcome)
      modifies this
      ensures ValidationError(f).Some? ==>
        && error == ValidationError(f).value
        && loading == old(loading) && loadingUpdates == old(loadingUpdates)
        && dispatched == old(dispatched) && route == old(route)
      ensures ValidationError(f).None? ==>
        && dispatched == old(dispatched) + [Credentials(f.username, f.email, f.password)]
        && loadingUpdates == old(loadingUpdates) + [true, false]
        && !loading
        && error == (match outcome
                     case Fulfilled => ""
                     case Rejected => RegistrationFailed
                     case Threw => UnexpectedError)
        && route == (if outcome == Fulfilled then Some("/dashboard") else old(route))
    {
      error := "";

      if f.username == "" || f.email == "" || f.password == "" {
        error := AllFieldsRequired;
        return;
      }
      if f.password != f.confirmPassword {
        error := PasswordsDoNotMatch;
        return;
      }
      if |f.password| < MinPasswordLength {
        error := PasswordTooShort;
        return;
      }

      SetLoading(true);
      dispatched := dispatched + [Credentials(f.username, f.email, f.password)];
      match outcome {
        case Fulfilled => route := Some("/dashboard");
        case Rejected => error := RegistrationFailed;
        case Threw => error := UnexpectedError;
      }
      SetLoading(false);
    }

    method SetLoading(value: bool)
      modifies this`loading, this`loadingUpdates
      ensures loading == value && loadingUpdates == old(loadingUpdates) + [value]
    {
      loading := value;
      loadingUpdates := loadingUpdates + [value];
    }
  }
}
