/** The dashboard's login panel: the error it stores and the text it shows. */
module Auth {
  import opened Wrappers
  import opened Domain

  const DefaultLoginError := "Erro ao entrar. Verifique suas credenciais."
  const InvalidCredentials := "Invalid login credentials"
  const InvalidCredentialsShown := "E-mail ou senha incorretos"

  /** `err.message || 'Erro ao entrar. ...'`. */
  function LoginError(message: Option<string>): (r: string)
    ensures r != ""
    ensures Truthy(message) ==> r == message.value
    ensures !Truthy(message) ==> r == DefaultLoginError
  {
    OrElse(message, DefaultLoginError)
  }

  /** The text under "Acesso Negado": the credentials message is translated, anything else is shown as is. */
  function ShownAuthError(e: string): (r: string)
    ensures r != InvalidCredentials
    ensures e == InvalidCredentials ==> r == InvalidCredentialsShown
    ensures e != InvalidCredentials ==> r == e
  {
    if e == InvalidCredentials then InvalidCredentialsShown else e
  }

  /** The outcome of the sign-in call. */
  datatype SignInResult = SignedIn | Rejected(message: Option<string>)

  class LoginPanel {
    var authError: Option<string>

    constructor ()
      ensures authError == None
    {
      authError := None;
    }

    /**
     * A submit of the login form: the old error is cleared; a rejection
     * stores a non-empty message, so the "Acesso Negado" banner always shows
     * after a failed sign-in, in Portuguese for bad credentials.
     */
    method SignIn(result: SignInResult)
      modifies this
      ensures result.SignedIn? ==> authError == None
      ensures result.Rejected? ==> authError == Some(LoginError(result.message))
      ensures result.Rejected? ==> Truthy(authError) && ShownAuthError(authError.value) != InvalidCredentials
    {
      authError := None;
      if result.Rejected? {
        authError := Some(LoginError(result.message));
      }
    }
  }
}
