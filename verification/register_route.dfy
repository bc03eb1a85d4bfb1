/**
 * POST `/api/register`: checks that email and password are given, refuses an
 * email that is already registered, and stores a new user whose password is
 * the bcrypt hash of the given one.
 */
module RegisterRoute {
  import opened Optional
  import opened Text
  import opened Api
  import opened Store

  const Required := "Email и пароль обязательны"
  const AlreadyExists := "Пользователь с таким email уже существует"
  const Created := "Пользователь создан"
  const ServerError := "Ошибка сервера при регистрации"

  /** The JSON body; a field is `None` when it is missing. */
  datatype RegisterRequest = RegisterRequest(email: Option<string>, password: Option<string>, username: Option<string>)

  /** What the handler decides: a refusal, or the row to insert together with the reply. */
  datatype Registration = Refused(reply: Reply<Welcome>) | Accepted(row: UserRow, reply: Reply<Welcome>)

  /** `username || email.split('@')[0]`. */
  function UsernameFor(username: Option<string>, email: string): (n: string)
    ensures Truthy(username) ==> n == username.value
    ensures !Truthy(username) ==> n <= email && '@' !in n && (|n| < |email| ==> email[|n|] == '@')
  {
    if Truthy(username) then username.value else BeforeFirst(email, '@')
  }

  /**
   * The outcome of a registration against the user table `users`. `hash` is
   * `bcrypt.hash(_, 10)` for this call (bcrypt salts, so it may differ from
   * call to call) and `newId` the id the database assigns; an id that is
   * already taken makes the insert fail.
   */
  function Decide(users: seq<UserRow>, body: Option<RegisterRequest>, hash: string -> string, newId: int): (r: Registration)
    ensures body.None? ==> r == Refused(Reply(500, Failure(ServerError)))
    ensures body.Some? && !(Truthy(body.value.email) && Truthy(body.value.password)) ==>
      r == Refused(Reply(400, Failure(Required)))
    ensures (body.Some? && Truthy(body.value.email) && Truthy(body.value.password)
             && FindByEmail(users, body.value.email.value).Some?) ==>
      r == Refused(Reply(409, Failure(AlreadyExists)))
    ensures (body.Some? && Truthy(body.value.email) && Truthy(body.value.password)
             && FindByEmail(users, body.value.email.value).None? && FindById(users, newId).Some?) ==>
      r == Refused(Reply(500, Failure(ServerError)))
    ensures r.reply.status == 409 <==>
      body.Some? && Truthy(body.value.email) && Truthy(body.value.password) && FindByEmail(users, body.value.email.value).Some?
    ensures r.Accepted? <==>
      && body.Some? && Truthy(body.value.email) && Truthy(body.value.password)
      && FindByEmail(users, body.value.email.value).None? && FindById(users, newId).None?
    ensures r.Refused? ==> r.reply.status != 201 && r.reply.body.Failure?
    ensures r.Accepted? ==>
      && r.row.id == newId
      && r.row.email == body.value.email.value
      && r.row.password == hash(body.value.password.value)
      && r.row.username == UsernameFor(body.value.username, body.value.email.value)
      && r.reply == Reply(201, Payload(Welcome(Created, View(r.row))))
  {
    if body.None? then Refused(Reply(500, Failure(ServerError)))
    else if !Truthy(body.value.email) || !Truthy(body.value.password) then Refused(Reply(400, Failure(Required)))
    else
      var email := body.value.email.value;
      if FindByEmail(users, email).Some? then Refused(Reply(409, Failure(AlreadyExists)))
      else if FindById(users, newId).Some? then Refused(Reply(500, Failure(ServerError)))
      else
        var row := UserRow(newId, email, UsernameFor(body.value.username, email), hash(body.value.password.value));
        Accepted(row, Reply(201, Payload(Welcome(Created, View(row)))))
  }

  /** The handler: decides, then inserts the new user when accepted. */
  method Post(db: Database, body: Option<RegisterRequest>, hash: string -> string, newId: int) returns (r: Reply<Welcome>)
    requires db.Valid()
    modifies db
    ensures db.Valid()
    ensures db.chats == old(db.chats)
    ensures var d := Decide(old(db.users), body, hash, newId);
      && r == d.reply
      && db.users == (if d.Accepted? then old(db.users) + [d.row] else old(db.users))
  {
    var d := Decide(db.users, body, hash, newId);
    if d.Accepted? {
      AppendUserKeepsUnique(db.users, d.row);
      forall c | c in db.chats ensures FindById(db.users + [d.row], c.userId).Some? {
        FindByIdAppend(db.users, [d.row], c.userId);
      }
      db.users := db.users + [d.row];
    }
    r := d.reply;
  }

  /** A successful registration adds exactly one user, and finding it by its email gives it back. */
  lemma {:induction false} AcceptedIsFoundByEmail(users: seq<UserRow>, body: Option<RegisterRequest>, hash: string -> string, newId: int)
    requires Decide(users, body, hash, newId).Accepted?
    ensures var row := Decide(users, body, hash, newId).row;
      |users + [row]| == |users| + 1 && FindByEmail(users + [row], row.email) == Some(row)
  {
    var row := Decide(users, body, hash, newId).row;
    FindByEmailAppendFresh(users, row);
  }
}
