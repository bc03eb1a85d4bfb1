/**
 * `/api/chats`: GET lists a user's chats, newest first, as `{id, title}`;
 * POST makes sure the user exists (creating a placeholder user when not)
 * and creates a chat for it.
 */
module ChatsRoute {
  import opened Optional
  import opened Text
  import opened Api
  import opened Store

  const UserIdRequired := "User ID required"
  const FetchError := "Error fetching chats"
  const InvalidUserId := "Invalid User ID"
  const CreateError := "Error creating chat"
  const DefaultTitle := "Новый чат"
  const PlaceholderPassword := "password_placeholder"
  const EmailDomain := "@example.com"

  /** What GET sends for each chat: its id and title. */
  datatype ChatSummary = ChatSummary(id: string, title: string)

  function Summary(c: ChatRow): ChatSummary
  {
    ChatSummary(c.id, c.title)
  }

  function Summaries(rows: seq<ChatRow>): (r: seq<ChatSummary>)
    ensures |r| == |rows|
    ensures forall i | 0 <= i < |rows| :: r[i] == Summary(rows[i])
  {
    seq(|rows|, i requires 0 <= i < |rows| => Summary(rows[i]))
  }

  /** `where: { userId }`: the chats owned by `uid`, in table order. */
  function OwnedBy(chats: seq<ChatRow>, uid: int): (r: seq<ChatRow>)
    ensures |r| <= |chats|
    ensures forall c :: c in r <==> c in chats && c.userId == uid
    ensures multiset(r) <= multiset(chats)
  {
    if chats == [] then []
    else
      var rest := OwnedBy(chats[1..], uid);
      assert chats == [chats[0]] + chats[1..];
      if chats[0].userId == uid then [chats[0]] + rest else rest
  }

  /** `orderBy: { createdAt: 'desc' }` holds of `s`. */
  predicate NewestFirst(s: seq<ChatRow>)
  {
    forall i, j | 0 <= i < j < |s| :: s[i].createdAt >= s[j].createdAt
  }

  /** Puts `c` into a list that is newest first, keeping it newest first. */
  function InsertNewest(c: ChatRow, s: seq<ChatRow>): (r: seq<ChatRow>)
    requires NewestFirst(s)
    ensures NewestFirst(r)
    ensures multiset(r) == multiset(s) + multiset{c}
    ensures |r| == |s| + 1
    ensures r != [] && (r[0] == c || (s != [] && r[0] == s[0]))
  {
    if s == [] || s[0].createdAt <= c.createdAt then [c] + s
    else
      var rest := InsertNewest(c, s[1..]);
      assert s == [s[0]] + s[1..];
      [s[0]] + rest
  }

  /** The rows of `s` ordered newest first. */
  function SortNewestFirst(s: seq<ChatRow>): (r: seq<ChatRow>)
    ensures NewestFirst(r)
    ensures multiset(r) == multiset(s)
  {
    if s == [] then []
    else
      assert s == [s[0]] + s[1..];
      InsertNewest(s[0], SortNewestFirst(s[1..]))
  }

  /**
   * `list` is what the query returns for `uid`: the summaries of some
   * ordering of exactly the chats `uid` owns, newest first.
   */
  ghost predicate ListsNewestFirst(list: seq<ChatSummary>, chats: seq<ChatRow>, uid: int)
  {
    exists rows: seq<ChatRow> ::
      && multiset(rows) == multiset(OwnedBy(chats, uid))
      && NewestFirst(rows)
      && list == Summaries(rows)
  }

  /** The filter value `parseInt(userId)` gives is one the `userId` column accepts: not NaN, within 32 bits. */
  predicate UsableId(parsed: Option<int>)
  {
    parsed.Some? && IsInt4(parsed.value)
  }

  /**
   * GET `/api/chats?userId=...`. `userId` is the query parameter (`None`
   * when absent). A NaN or out-of-range filter makes the query fail.
   */
  function Get(chats: seq<ChatRow>, userId: Option<string>): (r: Reply<seq<ChatSummary>>)
    ensures r.status == 200 || r.status == 400 || r.status == 500
    ensures r.status == 400 <==> !Truthy(userId)
    ensures r.status == 400 ==> r.body == Failure(UserIdRequired)
    ensures r.status == 500 <==> Truthy(userId) && !UsableId(ParseInt(userId.value))
    ensures r.status == 500 ==> r.body == Failure(FetchError)
    ensures r.status == 200 ==>
      r.body.Payload? && ListsNewestFirst(r.body.value, chats, ParseInt(userId.value).value)
  {
    if !Truthy(userId) then Reply(400, Failure(UserIdRequired))
    else
      var parsed := ParseInt(userId.value);
      if !UsableId(parsed) then Reply(500, Failure(FetchError))
      else
        var rows := SortNewestFirst(OwnedBy(chats, parsed.value));
        assert ListsNewestFirst(Summaries(rows), chats, parsed.value);
        Reply(200, Payload(Summaries(rows)))
  }

  /** A chat is listed exactly when the user owns it. */
  lemma ListedIffOwned(list: seq<ChatSummary>, chats: seq<ChatRow>, uid: int, s: ChatSummary)
    requires ListsNewestFirst(list, chats, uid)
    ensures s in list <==> exists c :: c in chats && c.userId == uid && Summary(c) == s
  {
    var rows: seq<ChatRow> :| multiset(rows) == multiset(OwnedBy(chats, uid)) && NewestFirst(rows) && list == Summaries(rows);
    SameElements(rows, OwnedBy(chats, uid));
    InSummaries(rows, s);
  }

  /** A summary is listed exactly when some listed row has it. */
  lemma InSummaries(rows: seq<ChatRow>, s: ChatSummary)
    ensures s in Summaries(rows) <==> exists c :: c in rows && Summary(c) == s
  {
    var list := Summaries(rows);
    if s in list {
      var i :| 0 <= i < |list| && list[i] == s;
      assert rows[i] in rows;
    }
    if c :| c in rows && Summary(c) == s {
      var i :| 0 <= i < |rows| && rows[i] == c;
      assert list[i] == s;
    }
  }

  /** Two sequences with the same multiset have the same elements. */
  lemma SameElements(a: seq<ChatRow>, b: seq<ChatRow>)
    requires multiset(a) == multiset(b)
    ensures forall c :: c in a <==> c in b
  {
    forall c ensures c in a <==> c in b {
      assert c in a <==> c in multiset(a);
      assert c in b <==> c in multiset(b);
    }
  }

  /** The user `upsert` creates for an id with no user. */
  function Placeholder(uid: int): (u: UserRow)
    ensures u.id == uid && u.password == PlaceholderPassword
    ensures |u.email| == 4 + |ShowInt(uid)| + |EmailDomain|
    ensures u.email[..4] == "user" && u.email[4..] == ShowInt(uid) + EmailDomain
    ensures |u.username| == 5 + |ShowInt(uid)| && u.username[..5] == "User " && u.username[5..] == ShowInt(uid)
  {
    UserRow(uid, "user" + (ShowInt(uid) + EmailDomain), "User " + ShowInt(uid), PlaceholderPassword)
  }

  /** The id reads back with `parseInt` from the placeholder's email, after `user`, and from its name, after `User `. */
  lemma PlaceholderIdReadsBack(uid: int)
    ensures ParseInt(Placeholder(uid).email[4..]) == Some(uid)
    ensures ParseInt(Placeholder(uid).username[5..]) == Some(uid)
  {
    ParseShowIntThen(uid, EmailDomain);
    ParseShowInt(uid);
  }

  /** Placeholders of different ids never share an email: the id can be read back from it. */
  lemma PlaceholderEmailsDistinct(a: int, b: int)
    requires a != b
    ensures Placeholder(a).email != Placeholder(b).email
  {
    PlaceholderIdReadsBack(a);
    PlaceholderIdReadsBack(b);
  }

  /** `title || 'Новый чат'`. */
  function ChatTitle(title: Option<string>): (t: string)
    ensures t != ""
    ensures Truthy(title) ==> t == title.value
    ensures !Truthy(title) ==> t == DefaultTitle
  {
    if Truthy(title) then title.value else DefaultTitle
  }

  /** The JSON body of POST: `userId` as the string `parseInt` reads, and an optional title. */
  datatype ChatRequest = ChatRequest(userId: string, title: Option<string>)

  /**
   * The user table after `upsert` of `uid`: unchanged when the id exists,
   * one placeholder user more otherwise; `None` when creating it would break
   * the unique email constraint.
   */
  function Upsert(users: seq<UserRow>, uid: int): (r: Option<seq<UserRow>>)
    ensures FindById(users, uid).Some? ==> r == Some(users)
    ensures r.None? <==> FindById(users, uid).None? && FindByEmail(users, Placeholder(uid).email).Some?
    ensures r.Some? ==> users <= r.value && |r.value| <= |users| + 1 && FindById(r.value, uid).Some?
    ensures FindById(users, uid).None? && r.Some? ==> r.value == users + [Placeholder(uid)]
  {
    if FindById(users, uid).Some? then Some(users)
    else if FindByEmail(users, Placeholder(uid).email).Some? then None
    else Some(users + [Placeholder(uid)])
  }

  /**
   * POST `/api/chats`. `body` is `None` when the request body does not
   * parse as JSON or is `null`; any other body is given with `userId` as
   * the text `parseInt` reads (`"undefined"` when the field is missing).
   * `newChatId` and `now` are the id and creation time the database gives
   * the new chat.
   */
  method Post(db: Database, body: Option<ChatRequest>, newChatId: string, now: int) returns (r: Reply<ChatRow>)
    requires db.Valid()
    modifies db
    ensures db.Valid()
    ensures r.status == 200 || r.status == 400 || r.status == 500
    ensures r.status == 400 <==> body.Some? && ParseInt(body.value.userId).None?
    ensures r.status == 400 ==> r.body == Failure(InvalidUserId)
    ensures r.status == 500 ==> r.body == Failure(CreateError)
    ensures r.status != 200 ==> db.chats == old(db.chats)
    ensures body.None? || !UsableId(ParseInt(body.value.userId)) ==> r.status != 200 && db.users == old(db.users)
    ensures body.Some? && UsableId(ParseInt(body.value.userId)) ==>
      var uid := ParseInt(body.value.userId).value;
      var upserted := Upsert(old(db.users), uid);
      && (upserted.None? ==> r.status == 500 && db.users == old(db.users))
      && (upserted.Some? ==> db.users == upserted.value)
      && (r.status == 200 <==> upserted.Some? && !ChatIdTaken(old(db.chats), newChatId))
      && (r.status == 200 ==>
            var chat := ChatRow(newChatId, uid, ChatTitle(body.value.title), now);
            db.chats == old(db.chats) + [chat] && r.body == Payload(chat))
  {
    if body.None? {
      return Reply(500, Failure(CreateError));
    }
    var parsed := ParseInt(body.value.userId);
    if parsed.None? {
      return Reply(400, Failure(InvalidUserId));
    }
    var uid := parsed.value;
    if !IsInt4(uid) {
      return Reply(500, Failure(CreateError));
    }
    // upsert: keep an existing user, otherwise create the placeholder
    var upserted := Upsert(db.users, uid);
    if upserted.None? {
      return Reply(500, Failure(CreateError));
    }
    UpsertKeepsConstraints(db.users, db.chats, uid);
    db.users := upserted.value;
    // create the chat
    if exists c | c in db.chats :: c.id == newChatId {
      return Reply(500, Failure(CreateError));
    }
    var chat := ChatRow(newChatId, uid, ChatTitle(body.value.title), now);
    AddChatKeepsConstraints(db.users, db.chats, chat);
    db.chats := db.chats + [chat];
    return Reply(200, Payload(chat));
  }

  /** A successful upsert keeps the user constraints and the chat owners, and `uid` then exists. */
  lemma UpsertKeepsConstraints(users: seq<UserRow>, chats: seq<ChatRow>, uid: int)
    requires UniqueUserIds(users) && UniqueEmails(users) && OwnersExist(users, chats)
    requires Upsert(users, uid).Some?
    ensures var u := Upsert(users, uid).value;
      UniqueUserIds(u) && UniqueEmails(u) && OwnersExist(u, chats) && FindById(u, uid).Some?
  {
    if FindById(users, uid).None? {
      var placeholder := Placeholder(uid);
      AppendUserKeepsUnique(users, placeholder);
      assert placeholder in users + [placeholder];
      forall c | c in chats ensures FindById(users + [placeholder], c.userId).Some? {
        FindByIdAppend(users, [placeholder], c.userId);
      }
    }
  }

  /** Adding a chat with a fresh id for an existing user keeps the chat constraints. */
  lemma AddChatKeepsConstraints(users: seq<UserRow>, chats: seq<ChatRow>, chat: ChatRow)
    requires UniqueChatIds(chats) && OwnersExist(users, chats)
    requires !ChatIdTaken(chats, chat.id) && FindById(users, chat.userId).Some?
    ensures UniqueChatIds(chats + [chat]) && OwnersExist(users, chats + [chat])
  {
    forall i | 0 <= i < |chats| ensures chats[i].id != chat.id {
      assert chats[i] in chats;
    }
  }
}
