/**
 * The login form (src/components/auth/LoginForm.tsx): email and password
 * fields, a show-password toggle, and a submit handler that refuses empty
 * fields, calls onLogin while a loading flag is set, reports the outcome
 * with a toast and always clears the flag.
 */
module LoginForm {
  import opened Wrappers
  import opened Toasts

  /** How the awaited onLogin call ended: it returned, or it threw. */
  datatype CallOutcome = Returned | Threw

  /** The arguments onLogin is called with. */
  datatype Credentials = Credentials(email: string, password: string)

  /** The guard of handleSubmit: both fields non-empty (JavaScript truthiness of a string). */
  predicate Filled(email: string, password: string) {
    email != "" && password != ""
  }

  /** The toast a submission emits. */
  function SubmitToast(email: string, password: string, outcome: CallOutcome): (t: Toast)
    ensures Destructive(t) <==> !Filled(email, password) || outcome.Threw?
    ensures t == LoginSucceeded <==> Filled(email, password) && outcome.Returned?
    ensures t == MissingFields <==> !Filled(email, password)
  {
    if !Filled(email, password) then MissingFields
    else if outcome.Returned? then LoginSucceeded
    else LoginFailed
  }

  datatype InputType = TextInput | PasswordInput

  /** The password input shows its text exactly when showPassword is set. */
  function PasswordInputType(showPassword: bool): (t: InputType)
    ensures t == TextInput <==> showPassword
  {
    if showPassword then TextInput else PasswordInput
  }

  /** The submit button: disabled while loading, with the label chosen by the same flag. */
  datatype SubmitButton = SubmitButton(disabled: bool, caption: string)

  function SubmitButtonOf(isLoading: bool): (b: SubmitButton)
    ensures b.disabled <==> isLoading
    ensures b.caption == (if isLoading then "Connexion..." else "Se connecter")
  {
    SubmitButton(isLoading, if isLoading then "Connexion..." else "Se connecter")
  }

  /** The form's useState hooks and the toasts it has emitted. */
  class LoginFormState {
    var email: string
    var password: string
    var showPassword: bool
    var isLoading: bool
    var toasts: seq<Toast>

    constructor ()
      ensures email == "" && password == "" && !showPassword && !isLoading && toasts == []
    {
      email, password := "", "";
      showPassword, isLoading := false, false;
      toasts := [];
    }

    /** The email input's onChange. */
    method SetEmail(value: string)
      modifies this
      ensures email == value
      ensures password == old(password) && showPassword == old(showPassword)
      ensures isLoading == old(isLoading) && toasts == old(toasts)
    {
      email := value;
    }

    /** The password input's onChange. */
    method SetPassword(value: string)
      modifies this
      ensures password == value
      ensures email == old(email) && showPassword == old(showPassword)
      ensures isLoading == old(isLoading) && toasts == old(toasts)
    {
      password := value;
    }

    /** The eye button. */
    method ToggleShowPassword()
      modifies this
      ensures showPassword == !old(showPassword)
      ensures PasswordInputType(showPassword) != PasswordInputType(old(showPassword))
      ensures email == old(email) && password == old(password)
      ensures isLoading == old(isLoading) && toasts == old(toasts)
    {
      showPassword := !showPassword;
    }

    /**
     * handleSubmit, with the awaited onLogin call ending as `outcome`. Returns
     * the arguments onLogin was called with, or None when it was not called.
     * The fields are never cleared.
     */
    method HandleSubmit(outcome: CallOutcome) returns (call: Option<Credentials>)
      modifies this
      ensures call == (if Filled(old(email), old(password)) then Some(Credentials(old(email), old(password))) else None)
      ensures toasts == old(toasts) + [SubmitToast(old(email), old(password), outcome)]
      ensures isLoading == (if Filled(old(email), old(password)) then false else old(isLoading))
      ensures email == old(email) && password == old(password) && showPassword == old(showPassword)
    {
      if email == "" || password == "" {
        toasts := toasts + [MissingFields];
        call := None;
        return;
      }
      isLoading := true;
      call := Some(Credentials(email, password));
      if outcome.Returned? {
        toasts := toasts + [LoginSucceeded];
      } else {
        toasts := toasts + [LoginFailed];
      }
      isLoading := false;
    }
  }
}
