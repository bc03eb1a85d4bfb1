/** The JSON replies the route handlers send: a status code and either an error message or data. */
module Api {

  datatype Body<+T> = Failure(message: string) | Payload(value: T)

  datatype Reply<+T> = Reply(status: int, body: Body<T>)
}

/**
 * The database behind the route handlers, as in-memory tables. A row of
 * `users` is a User record and a row of `chats` a Chat record; the unique
 * and foreign-key constraints of the schema are the invariant `Valid`.
 * A create that would break one of them fails, which the handlers report
 * as a server error.
 */
module Store {
  import opened Optional

  datatype UserRow = UserRow(id: int, email: string, username: string, password: string)

  datatype ChatRow = ChatRow(id: string, userId: int, title: string, createdAt: int)

  /** The fields of a user a handler may send back: never the stored password hash. */
  datatype PublicUser = PublicUser(id: int, email: string, username: string)

  /** The body of a successful registration or login: a message and the public fields of the user. */
  datatype Welcome = Welcome(message: string, user: PublicUser)

  function View(u: UserRow): (v: PublicUser)
    ensures v.id == u.id && v.email == u.email && v.username == u.username
  {
    PublicUser(u.id, u.email, u.username)
  }

  /** A value an `Int` column accepts: a signed 32-bit integer. */
  predicate IsInt4(v: int)
  {
    -0x8000_0000 <= v < 0x8000_0000
  }

  /** `findUnique({ where: { email } })`: the first user with that email. */
  function FindByEmail(users: seq<UserRow>, email: string): (r: Option<UserRow>)
    ensures r.Some? ==> r.value in users && r.value.email == email
    ensures r.None? <==> forall u | u in users :: u.email != email
  {
    if users == [] then None
    else if users[0].email == email then Some(users[0])
    else FindByEmail(users[1..], email)
  }

  /** `findUnique({ where: { id } })`: the first user with that id. */
  function FindById(users: seq<UserRow>, id: int): (r: Option<UserRow>)
    ensures r.Some? ==> r.value in users && r.value.id == id
    ensures r.None? <==> forall u | u in users :: u.id != id
  {
    if users == [] then None
    else if users[0].id == id then Some(users[0])
    else FindById(users[1..], id)
  }

  predicate UniqueEmails(users: seq<UserRow>)
  {
    forall i, j | 0 <= i < j < |users| :: users[i].email != users[j].email
  }

  predicate UniqueUserIds(users: seq<UserRow>)
  {
    forall i, j | 0 <= i < j < |users| :: users[i].id != users[j].id
  }

  predicate UniqueChatIds(chats: seq<ChatRow>)
  {
    forall i, j | 0 <= i < j < |chats| :: chats[i].id != chats[j].id
  }

  predicate ChatIdTaken(chats: seq<ChatRow>, id: string)
  {
    exists c | c in chats :: c.id == id
  }

  /** Every chat belongs to a user that exists (the foreign key of `Chat.userId`). */
  predicate OwnersExist(users: seq<UserRow>, chats: seq<ChatRow>)
  {
    forall c | c in chats :: FindById(users, c.userId).Some?
  }

  /** With unique emails, the user `findUnique` returns is the only one with that email. */
  lemma {:induction false} FindByEmailUnique(users: seq<UserRow>, u: UserRow)
    requires UniqueEmails(users)
    requires u in users
    ensures FindByEmail(users, u.email) == Some(u)
  {
    if users[0] != u {
      assert users[0].email != u.email by {
        var k :| 0 <= k < |users| && users[k] == u;
      }
      assert UniqueEmails(users[1..]) by {
        forall i, j | 0 <= i < j < |users[1..]| ensures users[1..][i].email != users[1..][j].email {
          assert users[1..][i] == users[i + 1] && users[1..][j] == users[j + 1];
        }
      }
      FindByEmailUnique(users[1..], u);
    }
  }

  /** Appending a row with a fresh id and a fresh email keeps both unique. */
  lemma AppendUserKeepsUnique(users: seq<UserRow>, row: UserRow)
    requires UniqueEmails(users) && UniqueUserIds(users)
    requires FindByEmail(users, row.email).None? && FindById(users, row.id).None?
    ensures UniqueEmails(users + [row]) && UniqueUserIds(users + [row])
  {
    forall i | 0 <= i < |users| ensures users[i].email != row.email && users[i].id != row.id {
      assert users[i] in users;
    }
  }

  /** Looking up the email of a row appended after rows without that email finds that row. */
  lemma {:induction false} FindByEmailAppendFresh(users: seq<UserRow>, row: UserRow)
    requires FindByEmail(users, row.email).None?
    ensures FindByEmail(users + [row], row.email) == Some(row)
  {
    if users != [] {
      assert (users + [row])[1..] == users[1..] + [row];
      FindByEmailAppendFresh(users[1..], row);
    }
  }

  /** A user already found by id stays found after rows are appended. */
  lemma FindByIdAppend(users: seq<UserRow>, extra: seq<UserRow>, id: int)
    requires FindById(users, id).Some?
    ensures FindById(users + extra, id).Some?
  {
    var u := FindById(users, id).value;
    assert u in users + extra;
  }

  class Database {
    var users: seq<UserRow>
    var chats: seq<ChatRow>

    /** The constraints of the schema: unique user ids and emails, unique chat ids, existing chat owners. */
    ghost predicate Valid()
      reads this
    {
      && UniqueUserIds(users)
      && UniqueEmails(users)
      && UniqueChatIds(chats)
      && OwnersExist(users, chats)
    }

    constructor ()
      ensures Valid() && users == [] && chats == []
    {
      users := [];
      chats := [];
    }
  }
}
