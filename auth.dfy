/** lib/auth.ts: the login and register calls against the authentication backend and
    the session kept in browser storage. `fetch` is replaced by its outcome, given as
    an input; `localStorage` by a map from keys to stored items. */
module Auth {
  import opened FinanceTypes
  import Text

  const TokenKey := "auth_token"
  const UserKey := "auth_user"

  const ConnectionError := "Nao foi possivel conectar ao servidor. Verifique se o backend esta rodando em localhost:8080."
  const LoginDefault := "Erro ao fazer login"
  const BadCredentials := "Email ou senha incorretos"
  const RegisterDefault := "Erro ao criar conta"
  const EmailInUse := "Este email ja esta em uso"
  const ServerError := "Erro interno do servidor. Verifique os logs do backend."

  datatype AuthResponse = AuthResponse(token: string, tipo: string, userId: int, nome: string)

  datatype RegisterPayload = RegisterPayload(nome: string, email: string, senha: string)

  datatype UserData = UserData(userId: int, nome: string, email: string)

  /** What `JSON.parse(await res.text())` makes of an error response's body:
      it throws; it yields `null` (so reading `.message` throws); or it yields a value
      whose `message` and `error` properties are given (`None` when absent). */
  datatype ErrorBody = Unparseable | ParsedNull | Parsed(message: Option<string>, error: Option<string>)

  /** The settled `fetch` call: it threw, or answered with a status outside 200-299 and a
      body, or answered with a 2xx status and a body of type `T`. */
  datatype FetchOutcome<T> = NetworkFailure | NotOk(status: int, body: ErrorBody) | Ok(response: T)

  /** A call that returned `value` or threw an `Error` with `message`. */
  datatype Result<T> = Success(value: T) | Failure(message: string)

  /** JavaScript truthiness of an optional string property. */
  predicate Truthy(o: Option<string>) {
    o.Some? && o.value != ""
  }

  /** `errorJson.message || errorJson.error || fallback`. */
  function MessageOr(message: Option<string>, error: Option<string>, fallback: string): (m: string)
    ensures m == fallback || (Truthy(message) && m == message.value) || (Truthy(error) && m == error.value)
    ensures Truthy(message) ==> m == message.value
    ensures !Truthy(message) ==> m == (if Truthy(error) then error.value else fallback)
  {
    if Truthy(message) then message.value else if Truthy(error) then error.value else fallback
  }

  /** The message `login` throws for a response that is not ok. */
  function LoginFailureMessage(status: int, body: ErrorBody): (m: string)
    ensures body.Parsed? ==> m == MessageOr(body.message, body.error, LoginDefault)
    ensures !body.Parsed? ==> (m == BadCredentials <==> status == 401 || status == 403)
    ensures !body.Parsed? ==> (m == LoginDefault <==> !(status == 401 || status == 403))
  {
    match body
    case Parsed(message, error) => MessageOr(message, error, LoginDefault)
    case _ => if status == 401 || status == 403 then BadCredentials else LoginDefault
  }

  /** The message `register` throws for a response that is not ok. */
  function RegisterFailureMessage(status: int, body: ErrorBody): (m: string)
    ensures body.Parsed? ==> m == MessageOr(body.message, body.error, RegisterDefault)
    ensures !body.Parsed? ==> (m == EmailInUse <==> status == 409)
    ensures !body.Parsed? ==> (m == ServerError <==> status >= 500)
    ensures !body.Parsed? ==> (m == RegisterDefault <==> status != 409 && status < 500)
  {
    match body
    case Parsed(message, error) => MessageOr(message, error, RegisterDefault)
    case _ => if status == 409 then EmailInUse else if status >= 500 then ServerError else RegisterDefault
  }

  /** When the body parses, its own message decides and the status plays no part. */
  lemma ParsedBodyIgnoresStatus(s1: int, s2: int, message: Option<string>, error: Option<string>)
    ensures LoginFailureMessage(s1, Parsed(message, error)) == LoginFailureMessage(s2, Parsed(message, error))
    ensures RegisterFailureMessage(s1, Parsed(message, error)) == RegisterFailureMessage(s2, Parsed(message, error))
  {
  }

  /** `register`: it never touches the session store (this method has no frame to write). */
  method Register(payload: RegisterPayload, outcome: FetchOutcome<()>) returns (r: Result<()>)
    ensures outcome.NetworkFailure? ==> r == Failure(ConnectionError)
    ensures outcome.NotOk? ==> r == Failure(RegisterFailureMessage(outcome.status, outcome.body))
    ensures outcome.Ok? <==> r.Success?
  {
    match outcome {
      case NetworkFailure =>
        return Failure(ConnectionError);
      case NotOk(status, body) =>
        var message := RegisterDefault;
        match body {
          case Parsed(m, e) =>
            message := MessageOr(m, e, message);
          case _ =>
            if status == 409 {
              message := EmailInUse;
            } else if status >= 500 {
              message := ServerError;
            }
        }
        return Failure(message);
      case Ok(_) =>
        return Success(());
    }
  }

  /** A `localStorage` value: plain text, or the JSON text `login` writes for a user. */
  datatype StoredItem = Text(text: string) | UserRecord(user: UserData)

  /** `JSON.stringify({ userId, nome, email })` (string escaping is not modelled). */
  function UserJson(u: UserData): (s: string)
    ensures |s| > 0 && s[0] == '{'
  {
    var id := if u.userId < 0 then "-" + Text.DecimalText(-u.userId) else Text.DecimalText(u.userId);
    "{\"userId\":" + id + ",\"nome\":\"" + u.nome + "\",\"email\":\"" + u.email + "\"}"
  }

  /** The string `localStorage.getItem` returns for a stored item. */
  function ItemText(item: StoredItem): string {
    match item
    case Text(s) => s
    case UserRecord(u) => UserJson(u)
  }

  /** What `getUser` makes of the item under its key: `null` when the key is absent or its
      text is empty; the record `login` wrote; or, for any other text, what `JSON.parse`
      gives, with `parse` standing for `JSON.parse` and `None` for the `null` its `catch`
      returns. */
  function UserOf(item: Option<StoredItem>, parse: string -> Option<UserData>): (u: Option<UserData>)
    ensures item.None? ==> u.None?
    ensures item.Some? && item.value.UserRecord? ==> u == Some(item.value.user)
    ensures item.Some? && item.value.Text? && item.value.text == "" ==> u.None?
    ensures item.Some? && item.value.Text? && item.value.text != "" ==> u == parse(item.value.text)
  {
    match item
    case None => None
    case Some(UserRecord(user)) => Some(user)
    case Some(Text(raw)) => if raw == "" then None else parse(raw)
  }

  /** A user record and its JSON text held as plain text read back as the same user, for a
      `parse` that reads `login`'s JSON back. */
  lemma UserEncodingsAgree(u: UserData, parse: string -> Option<UserData>)
    requires parse(UserJson(u)) == Some(u)
    ensures UserOf(Some(Text(UserJson(u))), parse) == UserOf(Some(UserRecord(u)), parse) == Some(u)
  {
  }

  class AuthClient {
    var storage: map<string, StoredItem>

    constructor(initial: map<string, StoredItem>)
      ensures storage == initial
    {
      storage := initial;
    }

    /** `getToken()`. */
    function GetToken(): (t: Option<string>)
      reads this
      ensures t.Some? <==> TokenKey in storage
      ensures t.Some? ==> t.value == ItemText(storage[TokenKey])
    {
      if TokenKey in storage then Some(ItemText(storage[TokenKey])) else None
    }

    /** `getUser()`, with `JSON.parse` given as `parse`. */
    function GetUser(parse: string -> Option<UserData>): (u: Option<UserData>)
      reads this
      ensures UserKey !in storage ==> u.None?
      ensures UserKey in storage ==> u == UserOf(Some(storage[UserKey]), parse)
    {
      UserOf(if UserKey in storage then Some(storage[UserKey]) else None, parse)
    }

    /** `isAuthenticated()`: `!!getToken()`, so an empty token does not count. */
    predicate IsAuthenticated()
      reads this
      ensures IsAuthenticated() <==> TokenKey in storage && ItemText(storage[TokenKey]) != ""
    {
      var t := GetToken();
      t.Some? && t.value != ""
    }

    /** `login(email, senha)`. */
    method Login(email: string, senha: string, outcome: FetchOutcome<AuthResponse>) returns (r: Result<AuthResponse>)
      modifies this
      ensures !outcome.Ok? ==> storage == old(storage)
      ensures outcome.NetworkFailure? ==> r == Failure(ConnectionError)
      ensures outcome.NotOk? ==> r == Failure(LoginFailureMessage(outcome.status, outcome.body))
      ensures outcome.Ok? ==> r == Success(outcome.response)
      ensures outcome.Ok? ==> storage == old(storage)[TokenKey := Text(outcome.response.token)]
                                           [UserKey := UserRecord(UserData(outcome.response.userId, outcome.response.nome, email))]
      ensures outcome.Ok? ==> forall parse: string -> Option<UserData> ::
        GetUser(parse) == Some(UserData(outcome.response.userId, outcome.response.nome, email))
      ensures outcome.Ok? ==> (IsAuthenticated() <==> outcome.response.token != "")
    {
      match outcome {
        case NetworkFailure =>
          return Failure(ConnectionError);
        case NotOk(status, body) =>
          var message := LoginDefault;
          match body {
            case Parsed(m, e) =>
              message := MessageOr(m, e, message);
            case _ =>
              if status == 401 || status == 403 {
                message := BadCredentials;
              }
          }
          return Failure(message);
        case Ok(data) =>
          storage := storage[TokenKey := Text(data.token)];
          storage := storage[UserKey := UserRecord(UserData(data.userId, data.nome, email))];
          return Success(data);
      }
    }

    /** `logout()`. */
    method Logout()
      modifies this
      ensures storage == old(storage) - {TokenKey, UserKey}
      ensures !IsAuthenticated() && GetToken() == None
      ensures forall parse: string -> Option<UserData> :: GetUser(parse) == None
    {
      storage := storage - {TokenKey};
      storage := storage - {UserKey};
    }
  }
}
