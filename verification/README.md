# TestOps Copilot: chat turn and chat/user handlers

This project is a Dafny model of the core of the TestOps Copilot MVP. It has
two parts.

- **The `Home` page** (`page.dfy`, module `Page`). It is the client state
  machine: the application phase, the signed-in user, the conversation, the
  chat list and the code panel. Its handlers are methods of the class
  `Home`, whose fields are the React state slices.
  - A chat turn (`handleSendMessage`) first shows the user's message. It
    then takes up to four steps, numbered here and in the model as in the
    source:
    1. It creates a chat when none is active.
    2. It saves the user's message.
    3. It asks the generation endpoint for test cases. On an ok reply it
       shows the reply and opens the code panel on the JSON.
    4. It saves the reply.
  - An error thrown by any step is shown last, as one more assistant
    message. So the error of a failed reply save comes after the reply.
  - Every network call of the turn is an outcome passed in (`Outcomes`).
    The turn returns the requests it sent, in order.
  - The pure functions `TurnRequests` and `TurnReplies` specify a turn.
    The lemmas beside them state what the turn promises.
- **The server routes**, over an in-memory database (`store.dfy`, class
  `Store.Database`). The database holds a user table and a chat table.
  Its invariant `Valid` holds the schema's constraints: unique user ids,
  unique emails, unique chat ids, and an existing owner for every chat.
  - `GET /api/chats` lists a user's chats, newest first, as `{id, title}`.
    It only reads the database, so it is a function (`ChatsRoute.Get`).
  - `POST /api/chats` upserts a placeholder user and creates a chat
    (`ChatsRoute.Post`).
  - `POST /api/register` checks the input, refuses a duplicate email and
    inserts a user with a hashed password (`RegisterRoute.Decide`,
    `RegisterRoute.Post`).
  - `POST /api/login` looks the user up and compares the password. It only
    reads the user table, so it is a function (`LoginRoute.Login`).

`text.dfy` models the JavaScript string operations these handlers rely on:

- blank after `trim()`;
- `slice(0, n)`;
- `split('@')[0]`;
- truthiness of an optional field;
- rendering an integer in a template literal;
- `parseInt`.

`parseInt` returns `None` where JavaScript gives `NaN`.

bcrypt's `hash` and `compare` are function parameters. The lemma that
relates registration and login requires `compare(p, hash(p))` for every `p`.
Values the database or the clock produce are parameters too: a new user id,
a new chat id, and `createdAt`.

A Prisma call that fails is modelled by the constraint it breaks:

- A unique-constraint violation fails the create.
- A `where` filter that is `NaN` or outside the 32-bit `Int` column fails the
  query.

Each such failure yields the handler's 500 reply.

## Model

| member | source | states |
|---|---|---|
| Text.BlankIffTrimmedEmpty | app/page.tsx:158 | a message is blank (`!content.trim()`) exactly when nothing is left after its leading whitespace is skipped |
| Text.TrimStart | app/page.tsx:158 | drops exactly the leading whitespace characters: the result is a suffix, everything dropped is whitespace, and the first character left is not |
| Text.Truthy | app/api/login/route.ts:9 | JavaScript truthiness of an optional string field: only a missing value and the empty string are falsy (also `!userId`, `title \|\|` and `chatIdForSave` at app/api/chats/route.ts:9 and 55, app/page.tsx:175, 193 and 239) |
| Text.Take | app/page.tsx:176 | `content.slice(0, 30)` is a prefix of the content, of length min(length, 30) |
| Text.BeforeFirst | app/api/register/route.ts:36 | `split('@')[0]` is a prefix of the email without `@`, followed by `@` in the email when it is shorter |
| Text.ShowNat | app/page.tsx:221 | `${n}` for a natural number: a non-empty run of decimal digits with no leading zero |
| Text.ShowInt | app/api/chats/route.ts:45-46 | `${i}` for an integer (also `${response.status}` at app/page.tsx:213): non-empty, starting with `-` exactly when the integer is negative, and with no leading whitespace |
| Text.ValueOfShowNat | app/page.tsx:221 | the digits `${n}` renders, read in base 10, are `n` |
| Text.ParseInt | app/api/chats/route.ts:33 | `parseInt(s)` with no radix: NaN when the first character after leading whitespace is neither a sign nor a digit; a negative result only after a leading `-` |
| Text.ParseUnsigned | app/api/chats/route.ts:33 | the unsigned part of `parseInt`: a number is read only from text that starts with a digit |
| Text.UnsignedHexThen | app/api/chats/route.ts:33 | a `0x` or `0X` prefix switches to base 16: the prefix, a run of hexadecimal digits and text that starts with no hexadecimal digit read as the run's base-16 value |
| Text.ParseShowInt | app/api/chats/route.ts:33 | `parseInt` of a rendered integer gives back that integer |
| Text.ParseShowIntThen | app/page.tsx:213 | `parseInt` of a rendered integer followed by text that starts with neither a digit nor `x`/`X` reads the integer back |
| Text.ParseShowNatThen | app/page.tsx:221 | `parseInt` of a rendered count followed by text that starts with neither a digit nor `x`/`X` reads the count back; the `x`/`X` exclusion keeps a rendered `0` from turning into a `0x` prefix |
| Store.FindByEmail | app/api/login/route.ts:16-18 | `findUnique` by email returns a user with that email, and returns none exactly when no user has it |
| Store.FindById | app/api/chats/route.ts:40-41 | `findUnique` by id returns a user with that id, and returns none exactly when no user has it |
| Store.FindByEmailUnique | app/api/login/route.ts:16-18 | with unique emails the user found by an email is the only user with it |
| ChatsRoute.OwnedBy | app/api/chats/route.ts:15 | `where: { userId }` keeps exactly the chats of that user, and takes nothing from elsewhere (sub-multiset) |
| ChatsRoute.Summaries | app/api/chats/route.ts:17 | `select: { id: true, title: true }`: one `{id, title}` per row, in the rows' order |
| ChatsRoute.SortNewestFirst | app/api/chats/route.ts:16 | `orderBy: { createdAt: 'desc' }` gives a permutation that is newest first |
| ChatsRoute.Get | app/api/chats/route.ts:5-24 | status 400 `User ID required` exactly when the parameter is missing or empty; 500 `Error fetching chats` exactly when `parseInt` is NaN or outside Int; on 200 the body is the `{id, title}` of a newest-first ordering of exactly the user's chats |
| ChatsRoute.ListedIffOwned | app/api/chats/route.ts:14-18 | a `{id, title}` is listed exactly when it belongs to a chat of that user |
| ChatsRoute.ChatTitle | app/api/chats/route.ts:55 | `title \|\| 'Новый чат'` is the given title when it is non-empty, `Новый чат` when it is missing or empty, and is never empty |
| ChatsRoute.Placeholder | app/api/chats/route.ts:43-48 | the user `upsert` creates has the requested id, the email `user<uid>@example.com`, the name `User <uid>` and the placeholder password |
| ChatsRoute.PlaceholderIdReadsBack | app/api/chats/route.ts:45-46 | the id reads back with `parseInt` from the placeholder's email after `user` and from its name after `User ` |
| ChatsRoute.Upsert | app/api/chats/route.ts:40-49 | an existing id leaves the user table as it is; otherwise the upsert fails exactly when the placeholder's email is already taken, and succeeds by appending exactly `Placeholder(uid)` |
| ChatsRoute.PlaceholderEmailsDistinct | app/api/chats/route.ts:42-47 | the placeholder users of two different ids get different emails (`user<uid>@example.com`), so two placeholders never clash on the unique email |
| ChatsRoute.Post | app/api/chats/route.ts:27-64 | 400 `Invalid User ID` exactly when `parseInt` is NaN, and then nothing changes; the user table becomes the upsert's result (unchanged for an existing id, one placeholder more otherwise); 200 exactly when the upsert succeeds and the chat id is fresh, adding exactly that one chat, owned by the id, titled as `ChatTitle`; otherwise 500 `Error creating chat` and no chat; the constraints are kept |
| ChatsRoute.UpsertKeepsConstraints | app/api/chats/route.ts:40-49 | a successful upsert keeps ids and emails unique and every chat owner present, and the id then exists |
| ChatsRoute.AddChatKeepsConstraints | app/api/chats/route.ts:52-57 | a chat with a fresh id for an existing user keeps chat ids unique and owners present |
| RegisterRoute.UsernameFor | app/api/register/route.ts:36 | `username \|\| email.split('@')[0]`: the given username when non-empty, otherwise the part of the email before its first `@` |
| RegisterRoute.Decide | app/api/register/route.ts:5-51 | 500 for an unreadable body; 400 when email or password is missing or empty; 409 exactly when the email is registered; 500 when the email is free but the id is taken; a user is accepted exactly when none of these holds and the id is free; the stored password is `hash(password)`; the 201 reply carries only id, email and username |
| RegisterRoute.Post | app/api/register/route.ts:32-43 | the reply is the decision's; an accepted registration appends exactly its one row, a refused one changes no user; chats never change; the constraints are kept |
| RegisterRoute.AcceptedIsFoundByEmail | app/api/register/route.ts:32-38 | after a registration the table has one user more, and looking up the email finds the new user |
| LoginRoute.Login | app/api/login/route.ts:5-47 | 400 when email or password is missing or empty; every well-formed request that does not succeed gets 401 with the same message; 200 exactly when a user with the email exists and `compare(password, storedHash)` holds, with only that user's id, email and username |
| LoginRoute.LoginSucceedsIff | app/api/login/route.ts:16-29 | with unique emails, login succeeds exactly when some user has that email and a matching password, and returns that user |
| LoginRoute.UnknownEmailLikeWrongPassword | app/api/login/route.ts:20-29 | an unknown email and a wrong password give the identical 401 reply |
| LoginRoute.RegisterThenLogin | app/api/login/route.ts:25 | registering an email and password and then logging in with them returns the new user, when `compare(p, hash(p))` holds |
| Page.SaveTarget | app/page.tsx:171-185 | `chatIdForSave` is the active chat unless the turn creates one; an ok creation makes it the new chat's id; a creation that fails leaves it unknown |
| Page.ServerError | app/page.tsx:213 | the thrown message is `Server Error: ` followed by the rendered status, a space and the error text |
| Page.ServerErrorStatus | app/page.tsx:213 | `parseInt` of what follows `Server Error: ` reads back the HTTP status |
| Page.ErrorContent | app/page.tsx:251 | the error message is the prefix `⚠️ Ошибка: ` followed by the error text |
| Page.AssistantContent | app/page.tsx:224 | the reply text comes first, then two line breaks and the opening fence of a `json` code block, then the formatted JSON, then a line break and the closing fence, with nothing else |
| Page.ReplyText | app/page.tsx:219-222 | the default text `Генерация завершена. Результат:` without a `test_cases` array; with one, a text that starts with `Сгенерировано ` and ends with ` тест-кейсов.` |
| Page.ReplyTextCount | app/page.tsx:221 | with a `test_cases` array of length N, N reads back with `parseInt` from what follows `Сгенерировано ` |
| Page.CaughtError | app/page.tsx:173-254 | the turn catches no error exactly when the generation request was sent and answered ok |
| Page.TurnReplies | app/page.tsx:219-254 | the assistant messages of a non-blank turn: the reply shown on success, then the last error if one was caught; one or two of them (`TurnRepliesShape` states the rest) |
| Page.TurnRepliesShape | app/page.tsx:219-254 | a turn shows one or two assistant messages. On success the first is the reply; otherwise it is `⚠️ Ошибка: ` with the error of the chat creation, the user-message save, or the generation (`Server Error: <status> <text>`). A second message, the error, comes exactly when the reply save threw after a success |
| Page.TurnRequests | app/page.tsx:175-244 | the requests of a non-blank turn, in order: the chat creation, the user-message save, the generation and the reply save, each when its condition holds; at most four (`TurnRequestsShape`, `TurnRequestsOrder` and `TurnSaves` state the rest) |
| Page.TurnRequestsShape | app/page.tsx:175-244 | a chat creation is requested first, and only when no chat is known and a user is signed in, titled with the first 30 characters; the generation is requested once, exactly when no earlier error was thrown |
| Page.TurnRequestsOrder | app/page.tsx:192-244 | every generation request carries the message's content, and it sits between the saves: a save before it is the user's message, a save after it is the reply |
| Page.TurnSaves | app/page.tsx:193-244 | at most two saves, the user message before the reply. Nothing is saved without a known chat or after a throwing creation. The reply is saved, with the content shown, exactly when the generation succeeded |
| Page.Restore | app/page.tsx:83-95 | the loaded messages are shown in order with their role and content |
| Page.Home.constructor | app/page.tsx:56-71 | the initial value of every state slice |
| Page.Home.LoginSuccess | app/page.tsx:99-108 | the phase becomes loading. A record with a non-zero id sets the name, the user id and the loaded chat list. A string sets only the name, and anything else sets the name `User` |
| Page.Home.LoadingComplete | app/page.tsx:110-112 | only the phase changes, to app |
| Page.Home.Logout | app/page.tsx:114-124 | clears the conversation, the code, the active chat, the thinking flag, the sidebar and the user id, and returns to auth; the chat list, the name and the file name stay |
| Page.Home.NewChat | app/page.tsx:126-133 | clears the conversation, the code, the active chat and the thinking flag; the user, the chat list, the phase and the sidebar stay |
| Page.Home.SelectChat | app/page.tsx:135-141 | makes the chat active, shows its loaded messages (none when loading failed) and closes the sidebar |
| Page.Home.CloseChat | app/page.tsx:143-147 | closes the chat view and the code panel |
| Page.Home.OpenChat | app/page.tsx:149-153 | reopens the chat view exactly when it has messages |
| Page.Home.SendMessage | app/page.tsx:157-258 | a blank message without files changes no state and sends nothing. Otherwise the messages become the old ones, then the user's message, then `TurnReplies`. The requests are `TurnRequests`. A created chat becomes active and first in the list. On success the code panel opens on `generated_tests.json` with the JSON; on failure the panel, code and file name stay. `isThinking` ends false |
| Page.Home.Turn | app/page.tsx:159-257 | a non-blank turn: the new state and the requests are those `SendMessage` states, and the invariant is kept |
| Page.Home.BeginTurn | app/page.tsx:158-198 | shows the user's message with `isThinking` set, creates the chat when needed, and saves the user message; it ends with the chat to save to and the error thrown so far |
| Page.Home.FinishTurn | app/page.tsx:201-257 | takes steps 3 and 4: sends the generation and reply-save requests, appends `TurnReplies`, updates the code panel only on success, and clears `isThinking` |
| Page.Home.ShowUserMessage | app/page.tsx:159-168 | marks the chat started and thinking, and appends exactly the user's message with its attachments |
| Page.Home.EnsureChat | app/page.tsx:175-189 | requests a chat only without a known chat and with a user; only an ok reply makes it active and puts it first in the list |
| Page.Home.SaveUserMessage | app/page.tsx:192-198 | saves the user message exactly when no error was thrown and the chat id is known; a thrown save becomes the turn's error |
| Page.Home.GenerateReply | app/page.tsx:201-244 | unless an error came first, requests the generation; on an ok reply shows it, fills and opens the code panel, and saves the same content when the chat is known |
| Page.Home.ShowError | app/page.tsx:246-257 | appends the `⚠️ Ошибка: ` message exactly when an error was caught, and ends thinking |

## Left out

- Rendering, the typewriter timer, autoscroll and every other UI effect of
  the page are not modelled. Neither are the other UI components.
- The sign-in form calls the login handler twice: first with a display
  name, then with the user record. `Page.LoginArg` covers both shapes.
  The form itself is not part of this model.
- Message ids (`Date.now()`), the `isStreaming` flag and `File` contents
  are not modelled. Attachments keep only their name.
- `loadChats` and `loadMessages` are asynchronous. Their results
  (`loaded`) are parameters applied in the same step. A later
  interleaving with other handlers is not modelled.
- Turns are atomic: overlapping turns and a second submission during a
  turn are concurrency.
- `JSON.stringify(data, null, 2)` is the opaque string `formatted`.
  `test_cases` is reduced to its length when it is an array.
- A `null` response body, or a body that does not parse, counts as a
  thrown generation request.
- Network failures other than a thrown `fetch` are not modelled. So are
  database outages other than the constraint and range failures described
  above. A `user.username` that is missing from the login record is not
  modelled either.
- Text.Take: characters are Unicode scalar values; JavaScript's `slice`
  counts UTF-16 code units, so a title cut inside a surrogate pair is not
  modelled.
- JSON fields are modelled as optional strings: `email`, `password` and
  `username` of the register and login bodies, and `title` of the chats
  POST body. A truthy value of another JSON type (a number, say) passes the
  `!email || !password` and `title || …` checks in the source and then
  makes the Prisma query or `bcrypt` throw, which gives the handler's 500.
  The model cannot express such a value.
- Text.ParseInt: integers are exact. JavaScript's floating-point
  precision for very long digit runs is not modelled. It does not matter
  here, since every such value already fails the 32-bit `Int` range check.
- ChatsRoute.SortNewestFirst: chats with equal `createdAt` may come back in
  any order, so `Get` states only that some newest-first ordering is
  returned. The model's own tie order is one of them.
- bcrypt is not modelled: `hash` and `compare` are parameters.
- Concurrent registrations of the same email are not modelled. Neither is
  the database's own race resolution.
