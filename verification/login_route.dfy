/**
 * POST `/api/login`: looks a user up by email, compares the password with the
 * stored bcrypt hash, and sends back the user's public fields. It only reads
 * the user table, so it is a function of it.
 */
module LoginRoute {
  import opened Optional
  import opened Text
  import opened Api
  import opened Store
  import RegisterRoute

  const Required := "Введите email и пароль"
  const InvalidCredentials := "Неверный email или пароль"
  const LoggedIn := "Успешный вход"
  const ServerError := "Ошибка сервера"

  /** The JSON body; a field is `None` when it is missing. */
  datatype Credentials = Credentials(email: Option<string>, password: Option<string>)

  /**
   * The handler's reply for `body` against the user table `users`.
   * `compare(password, hash)` is `bcrypt.compare`.
   */
  function Login(users: seq<UserRow>, body: Option<Credentials>, compare: (string, string) -> bool): (r: Reply<Welcome>)
    ensures r.status == 200 || r.status == 400 || r.status == 401 || r.status == 500
    ensures body.None? ==> r == Reply(500, Failure(ServerError))
    ensures body.Some? && !(Truthy(body.value.email) && Truthy(body.value.password)) ==>
      r == Reply(400, Failure(Required))
    ensures r.status == 401 ==> r.body == Failure(InvalidCredentials)
    ensures body.Some? && Truthy(body.value.email) && Truthy(body.value.password) && r.status != 200 ==>
      r == Reply(401, Failure(InvalidCredentials))
    ensures r.status == 200 <==>
      && body.Some? && Truthy(body.value.email) && Truthy(body.value.password)
      && FindByEmail(users, body.value.email.value).Some?
      && compare(body.value.password.value, FindByEmail(users, body.value.email.value).value.password)
    ensures r.status == 200 ==>
      r.body == Payload(Welcome(LoggedIn, View(FindByEmail(users, body.value.email.value).value)))
  {
    if body.None? then Reply(500, Failure(ServerError))
    else if !Truthy(body.value.email) || !Truthy(body.value.password) then Reply(400, Failure(Required))
    else
      var user := FindByEmail(users, body.value.email.value);
      if user.None? then Reply(401, Failure(InvalidCredentials))
      else if !compare(body.value.password.value, user.value.password) then Reply(401, Failure(InvalidCredentials))
      else Reply(200, Payload(Welcome(LoggedIn, View(user.value))))
  }

  /**
   * With unique emails, login succeeds exactly when some user has that email
   * and the password matches that user's stored hash; the reply then carries
   * that user's public fields.
   */
  lemma LoginSucceedsIff(users: seq<UserRow>, email: string, password: string, compare: (string, string) -> bool)
    requires UniqueEmails(users)
    requires email != "" && password != ""
    ensures var r := Login(users, Some(Credentials(Some(email), Some(password))), compare);
      && (r.status == 200 <==> exists u :: u in users && u.email == email && compare(password, u.password))
      && (r.status == 200 ==> exists u :: u in users && u.email == email && r.body == Payload(Welcome(LoggedIn, View(u))))
  {
    if u :| u in users && u.email == email && compare(password, u.password) {
      FindByEmailUnique(users, u);
    }
  }

  /** An unknown email and a wrong password get the very same reply. */
  lemma UnknownEmailLikeWrongPassword(users: seq<UserRow>, unknown: string, known: string, password: string,
                                      compare: (string, string) -> bool)
    requires unknown != "" && known != "" && password != ""
    requires forall u | u in users :: u.email != unknown
    requires exists u :: u in users && u.email == known
    requires UniqueEmails(users)
    requires forall u | u in users && u.email == known :: !compare(password, u.password)
    ensures Login(users, Some(Credentials(Some(unknown), Some(password))), compare)
         == Login(users, Some(Credentials(Some(known), Some(password))), compare)
         == Reply(401, Failure(InvalidCredentials))
  {
    var u :| u in users && u.email == known;
    FindByEmailUnique(users, u);
  }

  /**
   * Registering `email` with `password` and then logging in with the same
   * pair succeeds and returns the registered user, provided `compare`
   * accepts every password against its own hash.
   */
  lemma RegisterThenLogin(users: seq<UserRow>, email: string, password: string, username: Option<string>,
                          hash: string -> string, compare: (string, string) -> bool, newId: int)
    requires forall p :: compare(p, hash(p))
    requires RegisterRoute.Decide(users, Some(RegisterRoute.RegisterRequest(Some(email), Some(password), username)), hash, newId).Accepted?
    ensures var row := RegisterRoute.Decide(users, Some(RegisterRoute.RegisterRequest(Some(email), Some(password), username)), hash, newId).row;
      Login(users + [row], Some(Credentials(Some(email), Some(password))), compare)
      == Reply(200, Payload(Welcome(LoggedIn, PublicUser(newId, email, row.username))))
  {
    var body := Some(RegisterRoute.RegisterRequest(Some(email), Some(password), username));
    RegisterRoute.AcceptedIsFoundByEmail(users, body, hash, newId);
  }
}
