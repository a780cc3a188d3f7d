/**
 * The authentication provider (contexts/auth-context.tsx): the signed-in
 * user, the loading flag, and the client's held token, changed by the
 * session check, login, registration, logout and user refresh. The server's
 * answer to each call is a parameter.
 */
module AuthContext {
  import opened Wrappers
  import opened Api

  /** What login, register, forgotPassword and resetPassword report to the page. */
  datatype AuthResult = AuthResult(success: bool, error: Option<string>)

  const LoginFailedMessage := "Erro ao fazer login"
  const RegisterFailedMessage := "Erro ao criar conta"
  const ForgotPasswordFailedMessage := "Erro ao enviar email de recuperação"
  const ResetPasswordFailedMessage := "Erro ao redefinir senha"

  class AuthProvider {
    var user: Option<User>
    var isLoading: bool
    /** The shared API client, whose token and storage the provider updates. */
    const client: ApiClient

    /** The provider starts with no user and loading until the session check ends. */
    constructor (client: ApiClient)
      ensures this.client == client && user == None && isLoading
    {
      this.client := client;
      user := None;
      isLoading := true;
    }

    /** `isAuthenticated = !!user`. */
    predicate IsAuthenticated()
      reads this
      ensures IsAuthenticated() <==> user != None
    {
      user.Some?
    }

    /**
     * checkAuthStatus: with no stored token there is no verify call; with
     * one, a verified user is adopted and any other answer clears the token
     * and the user. `verified` says whether the verify call was made.
     */
    method CheckAuthStatus(verify: CallOutcome<User>) returns (verified: bool)
      modifies this, client
      ensures verified <==> TokenKey in old(client.storage) && old(client.storage)[TokenKey] != ""
      ensures !verified ==> user == old(user) && unchanged(client)
      ensures verified && Delivered(verify) ==> user == verify.response.data && unchanged(client)
      ensures verified && !Delivered(verify) ==>
        user == None && client.token == None && client.storage == WithToken(old(client.storage), None)
      ensures !isLoading
    {
      var stored := Lookup(client.storage, TokenKey);
      if stored.None? || stored.value == "" {
        isLoading := false;
        return false;
      }
      verified := true;
      if Delivered(verify) {
        user := verify.response.data;
      } else {
        client.SetToken(None);
        user := None;
      }
      isLoading := false;
    }

    /**
     * login (and register, with its own default): a response that succeeds
     * with data stores its token and signs its user in; anything else
     * reports the message or default and leaves the session as it was.
     */
    method Login(outcome: CallOutcome<AuthData>) returns (result: AuthResult)
      modifies this, client
      ensures result.success <==> Delivered(outcome)
      ensures Delivered(outcome) ==>
        var d := outcome.response.data.value;
        result.error == None && user == Some(d.user) && client.token == Some(d.token)
        && client.storage == WithToken(old(client.storage), Some(d.token))
      ensures !Delivered(outcome) ==>
        result.error == Some(FailureMessage(outcome, LoginFailedMessage)) && user == old(user) && unchanged(client)
      ensures !isLoading
    {
      result := SignIn(outcome, LoginFailedMessage);
    }

    /** register: as login, with the default "Erro ao criar conta". */
    method Register(outcome: CallOutcome<AuthData>) returns (result: AuthResult)
      modifies this, client
      ensures result.success <==> Delivered(outcome)
      ensures Delivered(outcome) ==>
        var d := outcome.response.data.value;
        result.error == None && user == Some(d.user) && client.token == Some(d.token)
        && client.storage == WithToken(old(client.storage), Some(d.token))
      ensures !Delivered(outcome) ==>
        result.error == Some(FailureMessage(outcome, RegisterFailedMessage)) && user == old(user) && unchanged(client)
      ensures !isLoading
    {
      result := SignIn(outcome, RegisterFailedMessage);
    }

    /** The try/catch/finally body that login and register share. */
    method SignIn(outcome: CallOutcome<AuthData>, fallback: string) returns (result: AuthResult)
      modifies this, client
      ensures result.success <==> Delivered(outcome)
      ensures Delivered(outcome) ==>
        var d := outcome.response.data.value;
        result.error == None && user == Some(d.user) && client.token == Some(d.token)
        && client.storage == WithToken(old(client.storage), Some(d.token))
      ensures !Delivered(outcome) ==>
        result.error == Some(FailureMessage(outcome, fallback)) && user == old(user) && unchanged(client)
      ensures !isLoading
    {
      isLoading := true;
      if Delivered(outcome) {
        var d := outcome.response.data.value;
        client.SetToken(Some(d.token));
        user := Some(d.user);
        result := AuthResult(true, None);
      } else {
        result := AuthResult(false, Some(FailureMessage(outcome, fallback)));
      }
      isLoading := false;
    }

    /** logout: whatever the server answers or throws, the token and the user are cleared. */
    method Logout(outcome: CallOutcome<()>)
      modifies this`user, client
      ensures user == None && !IsAuthenticated()
      ensures client.token == None && client.storage == WithToken(old(client.storage), None)
      ensures TokenKey !in client.storage
    {
      client.SetToken(None);
      user := None;
    }

    /** refreshUser: adopt the current user only when the call succeeds with data. */
    method RefreshUser(outcome: CallOutcome<User>)
      modifies this`user
      ensures user == if Delivered(outcome) then outcome.response.data else old(user)
    {
      if Delivered(outcome) {
        user := outcome.response.data;
      }
    }

    /** forgotPassword: success follows the response's flag alone; nothing is stored. */
    method ForgotPassword(outcome: CallOutcome<()>) returns (result: AuthResult)
      ensures result.success <==> outcome.Returned? && outcome.response.success
      ensures result.success ==> result.error == None
      ensures !result.success ==> result.error == Some(FailureMessage(outcome, ForgotPasswordFailedMessage))
    {
      result := PasswordResult(outcome, ForgotPasswordFailedMessage);
    }

    /** resetPassword: as forgotPassword, with its own default message. */
    method ResetPassword(outcome: CallOutcome<()>) returns (result: AuthResult)
      ensures result.success <==> outcome.Returned? && outcome.response.success
      ensures result.success ==> result.error == None
      ensures !result.success ==> result.error == Some(FailureMessage(outcome, ResetPasswordFailedMessage))
    {
      result := PasswordResult(outcome, ResetPasswordFailedMessage);
    }
  }

  /** The result forgotPassword and resetPassword build from their call's outcome. */
  function PasswordResult(outcome: CallOutcome<()>, fallback: string): (result: AuthResult)
    ensures result.success <==> outcome.Returned? && outcome.response.success
    ensures !result.success && fallback != "" ==> result.error.Some? && (result.error.value == "" <==> outcome == Threw(StringError("")))
  {
    if outcome.Returned? && outcome.response.success then AuthResult(true, None)
    else AuthResult(false, Some(FailureMessage(outcome, fallback)))
  }
}
