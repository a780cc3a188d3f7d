/**
 * The sign-in / sign-up page (app/auth/page.tsx): a form with four fields,
 * a login/register mode, an error line and a submitting flag. Validation is
 * an ordered chain of checks; submission calls the provider's login or
 * register and redirects home on success.
 */
module AuthPage {
  import opened Wrappers
  import opened Api
  import opened AuthContext
  import opened Ui

  /** The four named inputs of the form. */
  datatype Field = Name | Email | Password | ConfirmPassword

  datatype FormData = FormData(name: string, email: string, password: string, confirmPassword: string) {

    function Get(f: Field): string {
      match f
      case Name => name
      case Email => email
      case Password => password
      case ConfirmPassword => confirmPassword
    }

    /** `{ ...prev, [name]: value }`: the named field replaced, the others kept. */
    function With(f: Field, value: string): (r: FormData)
      ensures r.Get(f) == value
      ensures forall g :: g != f ==> r.Get(g) == Get(g)
    {
      match f
      case Name => this.(name := value)
      case Email => this.(email := value)
      case Password => this.(password := value)
      case ConfirmPassword => this.(confirmPassword := value)
    }
  }

  const EmptyForm := FormData("", "", "", "")

  const MissingFieldsMessage := "Por favor, preencha todos os campos obrigatórios."
  const MissingNameMessage := "Por favor, digite seu nome."
  const PasswordMismatchMessage := "As senhas não coincidem."
  const ShortPasswordMessage := "A senha deve ter pelo menos 6 caracteres."
  const SubmitFailedMessage := "Ocorreu um erro. Tente novamente."
  const MinPasswordLength := 6

  /**
   * The message of the first check validateForm fails, or None when all
   * pass: email and password present; then, when registering, a name, a
   * matching confirmation and a password of at least six characters.
   */
  function FormError(isLogin: bool, f: FormData): (e: Option<string>)
    ensures e.None? <==>
      f.email != "" && f.password != ""
      && (!isLogin ==> f.name != "" && f.password == f.confirmPassword && |f.password| >= MinPasswordLength)
    ensures f.email == "" || f.password == "" ==> e == Some(MissingFieldsMessage)
    ensures isLogin ==> e.None? || e == Some(MissingFieldsMessage)
    ensures e.Some? ==> e.value in {MissingFieldsMessage, MissingNameMessage, PasswordMismatchMessage, ShortPasswordMessage}
  {
    if f.email == "" || f.password == "" then Some(MissingFieldsMessage)
    else if !isLogin && f.name == "" then Some(MissingNameMessage)
    else if !isLogin && f.password != f.confirmPassword then Some(PasswordMismatchMessage)
    else if !isLogin && |f.password| < MinPasswordLength then Some(ShortPasswordMessage)
    else None
  }

  /**
   * In register mode each message names the first failing check: a later
   * check is reported only when every earlier one passes.
   */
  lemma RegisterChecksInOrder(f: FormData)
    ensures FormError(false, f) == Some(MissingNameMessage) <==>
      f.email != "" && f.password != "" && f.name == ""
    ensures FormError(false, f) == Some(PasswordMismatchMessage) <==>
      f.email != "" && f.password != "" && f.name != "" && f.password != f.confirmPassword
    ensures FormError(false, f) == Some(ShortPasswordMessage) <==>
      f.email != "" && f.password != "" && f.name != "" && f.password == f.confirmPassword
      && |f.password| < MinPasswordLength
  {
  }

  /** In login mode the name and the confirmation are never looked at. */
  lemma LoginIgnoresRegistrationFields(f: FormData, name: string, confirm: string)
    ensures FormError(true, f.With(Name, name).With(ConfirmPassword, confirm)) == FormError(true, f)
  {
  }

  /** The call handleSubmit makes to the provider, with the form's values. */
  datatype AuthCall = LoginCall(email: string, password: string) | RegisterCall(name: string, email: string, password: string)

  /**
   * The page's guard: a spinner while the session check runs; nothing, and
   * a redirect home, for a signed-in user; the form otherwise.
   */
  function PageGuard(isLoading: bool, isAuthenticated: bool): (d: Decision)
    ensures d.view == Spinner <==> isLoading
    ensures d.view == Content <==> !isLoading && !isAuthenticated
    ensures d.redirect.Some? <==> !isLoading && isAuthenticated
    ensures d.redirect.Some? ==> d.redirect.value == "/" && d.view == Nothing
  {
    var redirect := if !isLoading && isAuthenticated then Some("/") else None;
    var view := if isLoading then Spinner else if isAuthenticated then Nothing else Content;
    Decision(view, redirect)
  }

  class AuthForm {
    var isLogin: bool
    var form: FormData
    var error: string
    var isSubmitting: bool

    /** The page opens in login mode with an empty form and no error. */
    constructor ()
      ensures isLogin && form == EmptyForm && error == "" && !isSubmitting
    {
      isLogin := true;
      form := EmptyForm;
      error := "";
      isSubmitting := false;
    }

    /** handleInputChange: set the named field and clear the error. */
    method HandleInputChange(field: Field, value: string)
      modifies this`form, this`error
      ensures form.Get(field) == value
      ensures forall g :: g != field ==> form.Get(g) == old(form).Get(g)
      ensures error == ""
    {
      form := form.With(field, value);
      error := "";
    }

    /**
     * validateForm: true exactly when no check fails; a failing check
     * writes its message to `error`, and a passing form leaves it alone.
     */
    method ValidateForm() returns (valid: bool)
      modifies this`error
      ensures valid <==> FormError(isLogin, form).None?
      ensures valid ==> error == old(error)
      ensures !valid ==> error == FormError(isLogin, form).value
    {
      var e := FormError(isLogin, form);
      if e.Some? {
        error := e.value;
        return false;
      }
      return true;
    }

    /** toggleMode: flip the mode, empty every field and clear the error. */
    method ToggleMode()
      modifies this`isLogin, this`form, this`error
      ensures isLogin == !old(isLogin) && form == EmptyForm && error == ""
    {
      isLogin := !isLogin;
      form := EmptyForm;
      error := "";
    }

    /** Toggling twice gives back the mode with an empty form. */
    method ToggleTwice()
      modifies this`isLogin, this`form, this`error
      ensures isLogin == old(isLogin) && form == EmptyForm && error == ""
    {
      ToggleMode();
      ToggleMode();
    }

    /**
     * handleSubmit: an invalid form makes no call. A valid one calls login
     * or register with the form's values, redirects home when it succeeds,
     * and otherwise shows the reported error or the default; the submitting
     * flag is down again when it returns.
     */
    method HandleSubmit(auth: AuthProvider, outcome: CallOutcome<AuthData>) returns (call: Option<AuthCall>, redirect: Option<string>)
      modifies this`error, this`isSubmitting, auth, auth.client
      ensures call.None? <==> FormError(isLogin, form).Some?
      ensures call.None? ==>
        redirect.None? && error == FormError(isLogin, form).value && isSubmitting == old(isSubmitting)
        && unchanged(auth) && unchanged(auth.client)
      ensures call.Some? ==> call.value == (if isLogin then LoginCall(form.email, form.password)
                                           else RegisterCall(form.name, form.email, form.password))
      ensures call.Some? ==> !isSubmitting && !auth.isLoading
      ensures call.Some? ==> (redirect == Some("/") <==> Delivered(outcome)) && (redirect.None? <==> !Delivered(outcome))
      ensures call.Some? && Delivered(outcome) ==>
        auth.user == Some(outcome.response.data.value.user) && error == ""
        && auth.client.token == Some(outcome.response.data.value.token)
        && auth.client.storage == WithToken(old(auth.client.storage), Some(outcome.response.data.value.token))
      ensures call.Some? && !Delivered(outcome) ==> unchanged(auth.client)
      ensures call.Some? && !Delivered(outcome) ==>
        error == OrElse(Some(FailureMessage(outcome, if isLogin then LoginFailedMessage else RegisterFailedMessage)), SubmitFailedMessage)
        && auth.user == old(auth.user)
    {
      var valid := ValidateForm();
      if !valid {
        return None, None;
      }
      isSubmitting := true;
      error := "";
      var result: AuthResult;
      if isLogin {
        call := Some(LoginCall(form.email, form.password));
        result := auth.Login(outcome);
      } else {
        call := Some(RegisterCall(form.name, form.email, form.password));
        result := auth.Register(outcome);
      }
      if result.success {
        redirect := Some("/");
      } else {
        redirect := None;
        error := OrElse(result.error, SubmitFailedMessage);
      }
      isSubmitting := false;
    }
  }
}
