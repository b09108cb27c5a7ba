/** components/login-form.tsx: the sign-in form. It checks the two fields in a fixed order,
    then calls `login` and shows the message of the error it throws. The `fetch` outcome is an
    input, as in the Auth module; `router.push("/")` is recorded as a flag. */
module LoginForm {
  import opened FinanceTypes
  import Auth

  const InvalidEmail := "Digite um email valido"
  const MissingPassword := "Digite sua senha"

  /** `isFormValid`. */
  predicate IsFormValid(email: string, senha: string) {
    '@' in email && |senha| >= 1
  }

  /** The message the two checks of `handleSubmit` set, or `None` when they let it through. */
  function CheckFields(email: string, senha: string): (r: Option<string>)
    ensures '@' !in email ==> r == Some(InvalidEmail)
    ensures '@' in email && senha == "" ==> r == Some(MissingPassword)
    ensures r.None? <==> '@' in email && senha != ""
  {
    if '@' !in email then Some(InvalidEmail)
    else if |senha| < 1 then Some(MissingPassword)
    else None
  }

  /** The checks in `handleSubmit` and the button's `isFormValid` agree: a submit gets past
      the checks exactly when the form counts as valid. */
  lemma ChecksMatchFormValidity(email: string, senha: string)
    ensures CheckFields(email, senha).None? <==> IsFormValid(email, senha)
  {
  }

  /** The email check comes first: with both fields wrong, only the email message is shown. */
  lemma EmailCheckFirst(email: string, senha: string)
    requires '@' !in email && senha == ""
    ensures CheckFields(email, senha) == Some(InvalidEmail)
    ensures CheckFields(email, senha) != Some(MissingPassword)
  {
  }

  /** `disabled={loading || !isFormValid}`. */
  predicate SubmitDisabled(loading: bool, email: string, senha: string) {
    loading || !IsFormValid(email, senha)
  }

  /** The submit button is enabled exactly when no request is running and a submit would
      reach `login`. */
  lemma SubmitEnabledReachesLogin(loading: bool, email: string, senha: string)
    ensures !SubmitDisabled(loading, email, senha) <==> !loading && CheckFields(email, senha).None?
  {
  }

  /** `login` never throws an empty message: a parsed body's message or error counts only
      when non-empty, and the fallbacks are non-empty. */
  lemma LoginFailureNonEmpty(status: int, body: Auth.ErrorBody)
    ensures Auth.LoginFailureMessage(status, body) != ""
  {
  }

  /** The error a finished `login` call leaves on the form: none on success, otherwise the
      thrown error's message (every error `login` throws is an `Error`). */
  function LoginOutcomeMessage(outcome: Auth.FetchOutcome<Auth.AuthResponse>): (m: string)
    ensures outcome.Ok? <==> m == ""
    ensures outcome.NetworkFailure? ==> m == Auth.ConnectionError
    ensures outcome.NotOk? ==> m == Auth.LoginFailureMessage(outcome.status, outcome.body)
  {
    match outcome
    case Ok(_) => ""
    case NetworkFailure => Auth.ConnectionError
    case NotOk(status, body) =>
      LoginFailureNonEmpty(status, body);
      Auth.LoginFailureMessage(status, body)
  }

  class LoginFormState {
    var email: string
    var senha: string
    var error: string
    var loading: bool
    /** Whether `router.push("/")` has been called. */
    var navigatedHome: bool

    constructor()
      ensures email == senha == error == "" && !loading && !navigatedHome
    {
      email, senha, error, loading, navigatedHome := "", "", "", false, false;
    }

    /** `handleSubmit`. A failed check shows its message and `login` is not called; otherwise
        `login` runs against `client`, its error (or none) is shown, the page goes home on
        success, and loading ends false either way. The error set to "" first and the
        loading flag raised while the call runs are overwritten before the handler ends. */
    method HandleSubmit(client: Auth.AuthClient, outcome: Auth.FetchOutcome<Auth.AuthResponse>)
        returns (attempted: bool)
      modifies this, client
      ensures attempted <==> old(CheckFields(email, senha)).None?
      ensures email == old(email) && senha == old(senha)
      ensures !attempted ==>
        && error == old(CheckFields(email, senha)).value
        && loading == old(loading) && navigatedHome == old(navigatedHome)
        && client.storage == old(client.storage)
      ensures attempted ==>
        && error == LoginOutcomeMessage(outcome) && !loading
        && navigatedHome == (old(navigatedHome) || outcome.Ok?)
      ensures attempted && !outcome.Ok? ==> client.storage == old(client.storage)
      ensures attempted && outcome.Ok? ==>
        client.storage == old(client.storage)[Auth.TokenKey := Auth.Text(outcome.response.token)]
          [Auth.UserKey := Auth.UserRecord(Auth.UserData(outcome.response.userId, outcome.response.nome, old(email)))]
    {
      var check := CheckFields(email, senha);
      if check.Some? {
        error := check.value;
        return false;
      }
      var r := client.Login(email, senha, outcome);
      match r {
        case Success(_) =>
          error, navigatedHome := "", true;
        case Failure(message) =>
          error := message;
      }
      loading := false;
      return true;
    }
  }
}
