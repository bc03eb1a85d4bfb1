/**
 * The `Home` page: the application phase, the signed-in user, the visible
 * conversation, the chat list and the code panel, and the handlers that
 * change them. A chat turn (`SendMessage`) creates a chat when needed, saves
 * the user's message, asks the generation endpoint for test cases, shows
 * the reply or the error, and saves the reply. Each network call is an
 * outcome passed in; the requests the turn issues are returned in order.
 */
module Page {
  import opened Optional
  import opened Text

  datatype Phase = Auth | Loading | App

  datatype Role = User | Assistant

  /** A file attached to a user message; only carried along. */
  datatype Attachment = Attachment(name: string)

  datatype Message = Message(role: Role, content: string, files: seq<Attachment>)

  /** An entry of the chat list: `{id, title}`. */
  datatype ChatSession = ChatSession(id: string, title: string)

  /** A message as `/api/chats/<id>` returns it, of which the page keeps role and content. */
  datatype StoredMessage = StoredMessage(role: Role, content: string)

  /** What the sign-in form passes to `onLoginSuccess`: a display name, or a user record. */
  datatype LoginArg = DisplayName(name: string) | UserRecord(id: int, username: string)

  /** POST `/api/chats`: the fetch rejects, the reply is not ok, or it is ok with the new chat. */
  datatype CreateOutcome = CreateThrew(error: string) | CreateRefused | CreateOk(chat: ChatSession)

  /** POST `/api/chats/<id>`: its reply is not inspected, only a rejected fetch matters. */
  datatype SaveOutcome = Saved | SaveThrew(error: string)

  /**
   * POST `/api/generation/ui/full`: the fetch (or reading its body) rejects;
   * the reply is not ok, with its status and text; or it is ok, with
   * `JSON.stringify(data, null, 2)` and the length of `data.test_cases` when
   * that is an array.
   */
  datatype GenOutcome =
    | GenThrew(error: string)
    | GenFailed(status: int, text: string)
    | GenOk(formatted: string, testCases: Option<nat>)

  /** How each network call of one turn ends; a call the turn does not make is ignored. */
  datatype Outcomes = Outcomes(create: CreateOutcome, saveUser: SaveOutcome, gen: GenOutcome, saveReply: SaveOutcome)

  /** A request a turn sends. */
  datatype Request =
    | CreateChat(userId: int, title: string)
    | SaveMessage(chatId: string, role: Role, content: string)
    | Generate(requirements: string)

  const TitleLength := 30
  const GeneratedFileName := "generated_tests.json"
  const DefaultReply := "Генерация завершена. Результат:"
  const CountPrefix := "Сгенерировано "
  const CountSuffix := " тест-кейсов."
  const ErrorPrefix := "⚠️ Ошибка: "
  const ServerErrorPrefix := "Server Error: "
  const FencePrefix := "\n\n```json\n"
  const FenceSuffix := "\n```"
  const DefaultName := "User"

  /** The turn asks for a new chat: no chat is active and a user is signed in. */
  predicate WillCreate(active: Option<string>, userId: Option<int>)
  {
    !Truthy(active) && userId.Some?
  }

  /** The chat the turn saves messages to (`chatIdForSave` after the chat step). */
  function SaveTarget(active: Option<string>, userId: Option<int>, o: Outcomes): (t: Option<string>)
    ensures WillCreate(active, userId) && o.create.CreateOk? ==> t == Some(o.create.chat.id)
    ensures WillCreate(active, userId) && !o.create.CreateOk? ==> !Truthy(t)
    ensures !WillCreate(active, userId) ==> t == active
  {
    if WillCreate(active, userId) && o.create.CreateOk? then Some(o.create.chat.id) else active
  }

  /** The error thrown before the generation request, if any: by the chat creation or by saving the user message. */
  function EarlyError(active: Option<string>, userId: Option<int>, o: Outcomes): Option<string>
  {
    if WillCreate(active, userId) && o.create.CreateThrew? then Some(o.create.error)
    else if Truthy(SaveTarget(active, userId, o)) && o.saveUser.SaveThrew? then Some(o.saveUser.error)
    else None
  }

  /** The generation request was sent and answered ok. */
  predicate Succeeded(active: Option<string>, userId: Option<int>, o: Outcomes)
  {
    EarlyError(active, userId, o).None? && o.gen.GenOk?
  }

  /** `Server Error: <status> <text>`. */
  function ServerError(status: int, text: string): (m: string)
    ensures |m| > |ServerErrorPrefix| && m[..|ServerErrorPrefix|] == ServerErrorPrefix
    ensures m[|ServerErrorPrefix|..] == ShowInt(status) + (" " + text)
  {
    ServerErrorPrefix + (ShowInt(status) + (" " + text))
  }

  /** `parseInt` of what follows `Server Error: ` reads back the HTTP status. */
  lemma ServerErrorStatus(status: int, text: string)
    ensures ParseInt(ServerError(status, text)[|ServerErrorPrefix|..]) == Some(status)
  {
    ParseShowIntThen(status, " " + text);
  }

  /** The content of the assistant message that reports an error. */
  function ErrorContent(message: string): (c: string)
    ensures |c| == |ErrorPrefix| + |message|
    ensures c[..|ErrorPrefix|] == ErrorPrefix && c[|ErrorPrefix|..] == message
  {
    ErrorPrefix + message
  }

  /** The first line of a successful reply. */
  function ReplyText(testCases: Option<nat>): (r: string)
    ensures testCases.None? ==> r == DefaultReply
    ensures testCases.Some? ==>
      && |CountPrefix| + |CountSuffix| < |r|
      && r[..|CountPrefix|] == CountPrefix
      && r[|r| - |CountSuffix|..] == CountSuffix
  {
    if testCases.Some? then CountPrefix + ShowNat(testCases.value) + CountSuffix else DefaultReply
  }

  /**
   * With a `test_cases` array of length `n`, `parseInt` of what follows the
   * prefix `Сгенерировано ` reads `n` back.
   */
  lemma ReplyTextCount(testCases: Option<nat>)
    ensures testCases.Some? ==> ParseInt(ReplyText(testCases)[|CountPrefix|..]) == Some(testCases.value)
  {
    if testCases.Some? {
      var r := ReplyText(testCases);
      var digits := ShowNat(testCases.value);
      assert r[|CountPrefix|..] == digits + CountSuffix;
      ParseShowNatThen(testCases.value, CountSuffix);
    }
  }

  /** The reply text followed by the formatted JSON in a fenced `json` block. */
  function AssistantContent(replyText: string, formatted: string): (c: string)
    ensures |c| == |replyText| + |FencePrefix| + |formatted| + |FenceSuffix|
    ensures c[..|replyText|] == replyText
    ensures c[|replyText|..|replyText| + |FencePrefix|] == FencePrefix
    ensures c[|replyText| + |FencePrefix|..|replyText| + |FencePrefix| + |formatted|] == formatted
    ensures c[|c| - |FenceSuffix|..] == FenceSuffix
  {
    replyText + FencePrefix + formatted + FenceSuffix
  }

  /** The content of the assistant message of a successful generation. */
  function SuccessContent(gen: GenOutcome): string
    requires gen.GenOk?
  {
    AssistantContent(ReplyText(gen.testCases), gen.formatted)
  }

  /** The message of the error the turn catches, if any. */
  function CaughtError(active: Option<string>, userId: Option<int>, o: Outcomes): (e: Option<string>)
    ensures e.None? <==> Succeeded(active, userId, o)
  {
    if EarlyError(active, userId, o).Some? then EarlyError(active, userId, o)
    else match o.gen
      case GenThrew(error) => Some(error)
      case GenFailed(status, text) => Some(ServerError(status, text))
      case GenOk(_, _) => None
  }

  /** The error shown last in a turn: the one caught, or the failed save of a successful reply. */
  function FinalError(active: Option<string>, userId: Option<int>, o: Outcomes): (e: Option<string>)
    ensures !Succeeded(active, userId, o) ==> e == CaughtError(active, userId, o) && e.Some?
    ensures Succeeded(active, userId, o) ==>
      e == if Truthy(SaveTarget(active, userId, o)) && o.saveReply.SaveThrew? then Some(o.saveReply.error) else None
  {
    if !Succeeded(active, userId, o) then CaughtError(active, userId, o)
    else if Truthy(SaveTarget(active, userId, o)) && o.saveReply.SaveThrew? then Some(o.saveReply.error)
    else None
  }

  /** The reply a turn shows: one message when the generation succeeded. */
  function ShownReply(active: Option<string>, userId: Option<int>, o: Outcomes): seq<Message>
  {
    if Succeeded(active, userId, o) then [Message(Assistant, SuccessContent(o.gen), [])] else []
  }

  /** The error message a turn shows last, if any. */
  function ShownError(caught: Option<string>): seq<Message>
  {
    if caught.Some? then [Message(Assistant, ErrorContent(caught.value), [])] else []
  }

  /** The assistant messages a non-blank turn appends after the user's message. */
  function TurnReplies(active: Option<string>, userId: Option<int>, o: Outcomes): (r: seq<Message>)
    ensures 1 <= |r| <= 2
  {
    ShownReply(active, userId, o) + ShownError(FinalError(active, userId, o))
  }

  /**
   * A turn shows one or two assistant messages: the error caught, or the
   * successful reply, followed by the error of its save when that threw.
   */
  lemma TurnRepliesShape(active: Option<string>, userId: Option<int>, o: Outcomes)
    ensures var r := TurnReplies(active, userId, o);
      && 1 <= |r| <= 2
      && (forall i | 0 <= i < |r| :: r[i].role == Assistant && r[i].files == [])
      && (|r| == 2 <==> Succeeded(active, userId, o) && Truthy(SaveTarget(active, userId, o)) && o.saveReply.SaveThrew?)
      && (Succeeded(active, userId, o) ==> r[0].content == SuccessContent(o.gen))
      && (|r| == 2 ==> r[1].content == ErrorContent(o.saveReply.error))
      && (EarlyError(active, userId, o).Some? ==> r[0].content == ErrorContent(EarlyError(active, userId, o).value))
      && (EarlyError(active, userId, o).None? && o.gen.GenThrew? ==> r[0].content == ErrorContent(o.gen.error))
      && (EarlyError(active, userId, o).None? && o.gen.GenFailed? ==>
            r[0].content == ErrorContent(ServerError(o.gen.status, o.gen.text)))
  {
  }

  /** The save requests among `r`, in order. */
  function SavesOf(r: seq<Request>): (s: seq<Request>)
    ensures |s| <= |r|
    ensures forall i | 0 <= i < |s| :: s[i].SaveMessage?
  {
    if r == [] then []
    else (if r[0].SaveMessage? then [r[0]] else []) + SavesOf(r[1..])
  }

  lemma {:induction false} SavesOfAppend(a: seq<Request>, b: seq<Request>)
    ensures SavesOf(a + b) == SavesOf(a) + SavesOf(b)
  {
    if a == [] {
      assert a + b == b;
    } else {
      assert (a + b)[0] == a[0];
      assert (a + b)[1..] == a[1..] + b;
      SavesOfAppend(a[1..], b);
    }
  }

  /**
   * The requests a non-blank turn sends, in order: the chat creation when
   * there is no active chat and a user is signed in, then the user message
   * save when a chat id is known, then the generation, then the reply save.
   * A rejected fetch stops the sequence.
   */
  function TurnRequests(active: Option<string>, userId: Option<int>, content: string, o: Outcomes): (r: seq<Request>)
    ensures |r| <= 4
  {
    CreateRequests(active, userId, content) + UserSaveRequests(active, userId, content, o) + ReplyRequests(active, userId, content, o)
  }

  /**
   * The chat creation comes first and only when there is no known chat and a
   * user is signed in, titled with the first 30 characters of the message;
   * the generation is requested once, exactly when no error came before it.
   */
  lemma TurnRequestsShape(active: Option<string>, userId: Option<int>, content: string, o: Outcomes)
    ensures var r := TurnRequests(active, userId, content, o);
      && (WillCreate(active, userId) <==> r != [] && r[0].CreateChat?)
      && (WillCreate(active, userId) ==> r[0] == CreateChat(userId.value, Take(content, TitleLength)))
      && (forall i | 0 < i < |r| :: !r[i].CreateChat?)
      && (Generate(content) in r <==> EarlyError(active, userId, o).None?)
      && (forall i, j | 0 <= i < j < |r| :: !(r[i].Generate? && r[j].Generate?))
  {
    var c := CreateRequests(active, userId, content);
    var u := UserSaveRequests(active, userId, content, o);
    var p := ReplyRequests(active, userId, content, o);
    var r := TurnRequests(active, userId, content, o);
    var at := |c| + |u|;
    assert r == c + u + p;
    // the user-message save and the reply save are no creations and no generations
    forall i | |c| <= i < |r| && i != at ensures r[i].SaveMessage? {
      if i > at {
        assert r[i] == p[i - at];
      } else {
        assert r[i] == u[i - |c|];
      }
    }
    if p != [] {
      assert r[at] == p[0] == Generate(content);
    }
  }

  /**
   * The generation, always of the message's content, sits between the two
   * saves: a save before it is the user's message, a save after it is the
   * reply.
   */
  lemma TurnRequestsOrder(active: Option<string>, userId: Option<int>, content: string, o: Outcomes)
    ensures var r := TurnRequests(active, userId, content, o);
      forall i, j | 0 <= i < |r| && 0 <= j < |r| && r[i].SaveMessage? && r[j].Generate? :: (r[i].role == User <==> i < j)
    ensures var r := TurnRequests(active, userId, content, o);
      forall j | 0 <= j < |r| && r[j].Generate? :: r[j] == Generate(content)
  {
    var c := CreateRequests(active, userId, content);
    var u := UserSaveRequests(active, userId, content, o);
    var p := ReplyRequests(active, userId, content, o);
    var r := TurnRequests(active, userId, content, o);
    var at := |c| + |u|;
    assert r == c + u + p;
    assert forall k | 0 <= k < |c| :: r[k] == c[k];
    forall j | 0 <= j < |r| && r[j].Generate? ensures r[j] == Generate(content) {
      assert j >= at && r[j] == p[j - at] && j == at;
    }
    forall i, j | 0 <= i < |r| && 0 <= j < |r| && r[i].SaveMessage? && r[j].Generate?
      ensures r[i].role == User <==> i < j
    {
      // only step 3 generates, and it comes first among steps 3 and 4
      assert j >= at && r[j] == p[j - at] && j == at;
      if i >= at {
        assert r[i] == p[i - at] && i > at;
      } else if i >= |c| {
        assert r[i] == u[i - |c|];
      }
    }
  }

  /** Step 1: the chat creation, when there is no known chat and a user is signed in. */
  function CreateRequests(active: Option<string>, userId: Option<int>, content: string): seq<Request>
  {
    if WillCreate(active, userId) then [CreateChat(userId.value, Take(content, TitleLength))] else []
  }

  /** Step 2: the user message save, to a known chat, unless the creation threw. */
  function UserSaveRequests(active: Option<string>, userId: Option<int>, content: string, o: Outcomes): seq<Request>
  {
    var target := SaveTarget(active, userId, o);
    if !(WillCreate(active, userId) && o.create.CreateThrew?) && Truthy(target)
    then [SaveMessage(target.value, User, content)] else []
  }

  /** Steps 3 and 4: the generation unless an error came first, and the reply save after an ok reply to a known chat. */
  function ReplyRequests(active: Option<string>, userId: Option<int>, content: string, o: Outcomes): seq<Request>
  {
    var target := SaveTarget(active, userId, o);
    if EarlyError(active, userId, o).Some? then []
    else [Generate(content)]
         + (if Truthy(target) && o.gen.GenOk? then [SaveMessage(target.value, Assistant, SuccessContent(o.gen))] else [])
  }

  /**
   * The messages a turn saves: the user's message first and the reply
   * second, both to the chat the turn knows. Nothing is saved without a
   * known chat, the user message is saved unless the chat creation threw,
   * and the reply is saved, with the content `TurnReplies` shows first,
   * exactly when the generation succeeded.
   */
  lemma TurnSaves(active: Option<string>, userId: Option<int>, content: string, o: Outcomes)
    ensures var saves := SavesOf(TurnRequests(active, userId, content, o)); var target := SaveTarget(active, userId, o);
      && |saves| <= 2
      && (saves != [] <==> Truthy(target) && !(WillCreate(active, userId) && o.create.CreateThrew?))
      && (saves != [] ==> saves[0] == SaveMessage(target.value, User, content))
      && (|saves| == 2 <==> Truthy(target) && Succeeded(active, userId, o))
      && (|saves| == 2 ==> saves[1] == SaveMessage(target.value, Assistant, SuccessContent(o.gen)))
  {
    SavesOfTurn(active, userId, content, o);
  }

  /** The saves of a turn: those of step 2, then the reply save of a successful generation to a known chat. */
  lemma SavesOfTurn(active: Option<string>, userId: Option<int>, content: string, o: Outcomes)
    ensures var target := SaveTarget(active, userId, o);
      SavesOf(TurnRequests(active, userId, content, o)) ==
      UserSaveRequests(active, userId, content, o)
      + (if Succeeded(active, userId, o) && Truthy(target) then [SaveMessage(target.value, Assistant, SuccessContent(o.gen))] else [])
  {
    var c := CreateRequests(active, userId, content);
    var u := UserSaveRequests(active, userId, content, o);
    var p := ReplyRequests(active, userId, content, o);
    SavesOfAtMostOne(c);
    SavesOfAtMostOne(u);
    SavesOfThree(c, u, p);
    SavesOfReply(active, userId, content, o);
  }

  /** With no save in `c` and only saves in `u`, the saves of `c + u + p` are `u` and those of `p`. */
  lemma SavesOfThree(c: seq<Request>, u: seq<Request>, p: seq<Request>)
    requires SavesOf(c) == [] && SavesOf(u) == u
    ensures SavesOf(c + u + p) == u + SavesOf(p)
  {
    SavesOfAppend(c + u, p);
    SavesOfAppend(c, u);
    assert SavesOf(c) + SavesOf(u) == u;
  }

  /** The only save among steps 3 and 4 is the reply save. */
  lemma SavesOfReply(active: Option<string>, userId: Option<int>, content: string, o: Outcomes)
    ensures var target := SaveTarget(active, userId, o);
      SavesOf(ReplyRequests(active, userId, content, o)) ==
      if Succeeded(active, userId, o) && Truthy(target) then [SaveMessage(target.value, Assistant, SuccessContent(o.gen))] else []
  {
    var p := ReplyRequests(active, userId, content, o);
    if p != [] {
      var tail := p[1..];
      assert p == [p[0]] + tail;
      SavesOfAppend([p[0]], tail);
      SavesOfAtMostOne([p[0]]);
      SavesOfAtMostOne(tail);
    }
  }

  lemma SavesOfAtMostOne(r: seq<Request>)
    requires |r| <= 1
    ensures SavesOf(r) == if r != [] && r[0].SaveMessage? then r else []
  {
    if r != [] {
      assert r[1..] == [];
    }
  }

  /** The messages `/api/chats/<id>` returned, as the page shows them. */
  function Restore(stored: seq<StoredMessage>): (r: seq<Message>)
    ensures |r| == |stored|
    ensures forall i | 0 <= i < |r| :: r[i] == Message(stored[i].role, stored[i].content, [])
  {
    seq(|stored|, i requires 0 <= i < |stored| => Message(stored[i].role, stored[i].content, []))
  }

  class Home {
    var appPhase: Phase
    var username: string
    var userId: Option<int>
    var isChatStarted: bool
    var isCodePanelOpen: bool
    var isThinking: bool
    var isSidebarOpen: bool
    var messages: seq<Message>
    var activeChatId: Option<string>
    var chatHistory: seq<ChatSession>
    var currentCode: string
    var currentFileName: string

    /**
     * Between handler calls no turn is in progress, an open code panel shows
     * the generated file, and no user id is kept on the sign-in screen.
     */
    ghost predicate Valid()
      reads this
    {
      && !isThinking
      && (isCodePanelOpen ==> currentFileName == GeneratedFileName)
      && (appPhase == Auth ==> userId.None?)
    }

    /** The initial state of every slice. */
    constructor ()
      ensures Valid()
      ensures appPhase == Auth && username == DefaultName && userId.None?
      ensures !isChatStarted && !isCodePanelOpen && !isThinking && !isSidebarOpen
      ensures messages == [] && activeChatId.None? && chatHistory == []
      ensures currentCode == "" && currentFileName == ""
    {
      appPhase := Auth;
      username := DefaultName;
      userId := None;
      isChatStarted := false;
      isCodePanelOpen := false;
      isThinking := false;
      isSidebarOpen := false;
      messages := [];
      activeChatId := None;
      chatHistory := [];
      currentCode := "";
      currentFileName := "";
    }

    /**
     * `handleLoginSuccess`. A record with a non-zero id sets the name and
     * the user id and loads the user's chats (`loaded` is the list GET
     * `/api/chats` returned, `None` when that failed); anything else only
     * sets the name. The phase always becomes `Loading`.
     */
    method LoginSuccess(user: LoginArg, loaded: Option<seq<ChatSession>>)
      requires Valid()
      modifies this
      ensures Valid()
      ensures appPhase == Loading
      ensures user.UserRecord? && user.id != 0 ==>
        && username == user.username && userId == Some(user.id)
        && chatHistory == (if loaded.Some? then loaded.value else old(chatHistory))
      ensures !(user.UserRecord? && user.id != 0) ==>
        && username == (if user.DisplayName? then user.name else DefaultName)
        && userId == old(userId) && chatHistory == old(chatHistory)
      ensures messages == old(messages) && activeChatId == old(activeChatId)
      ensures isChatStarted == old(isChatStarted) && isCodePanelOpen == old(isCodePanelOpen)
      ensures isSidebarOpen == old(isSidebarOpen)
      ensures currentCode == old(currentCode) && currentFileName == old(currentFileName)
    {
      if user.UserRecord? && user.id != 0 {
        username := user.username;
        userId := Some(user.id);
        if loaded.Some? {
          chatHistory := loaded.value;
        }
      } else {
        username := if user.DisplayName? then user.name else DefaultName;
      }
      appPhase := Loading;
    }

    /** `handleLoadingComplete`: only the phase changes, to `App`. */
    method LoadingComplete()
      requires Valid()
      modifies this`appPhase
      ensures Valid()
      ensures appPhase == App
    {
      appPhase := App;
    }

    /**
     * `handleLogout`: closes the chat and the code panel, clears the
     * conversation, the code, the active chat, the sidebar and the user id,
     * and returns to `Auth`. The chat list, the name and the file name stay.
     */
    method Logout()
      requires Valid()
      modifies this
      ensures Valid()
      ensures appPhase == Auth && userId.None?
      ensures !isChatStarted && !isCodePanelOpen && !isThinking && !isSidebarOpen
      ensures messages == [] && currentCode == "" && activeChatId.None?
      ensures chatHistory == old(chatHistory) && username == old(username) && currentFileName == old(currentFileName)
    {
      isChatStarted := false;
      isCodePanelOpen := false;
      messages := [];
      currentCode := "";
      activeChatId := None;
      isThinking := false;
      isSidebarOpen := false;
      userId := None;
      appPhase := Auth;
    }

    /**
     * `handleNewChat`: the same clearing as `Logout` for the conversation,
     * but the user, the phase, the chat list and the sidebar stay.
     */
    method NewChat()
      requires Valid()
      modifies this
      ensures Valid()
      ensures !isChatStarted && !isCodePanelOpen && !isThinking
      ensures messages == [] && currentCode == "" && activeChatId.None?
      ensures userId == old(userId) && chatHistory == old(chatHistory) && appPhase == old(appPhase)
      ensures username == old(username) && isSidebarOpen == old(isSidebarOpen) && currentFileName == old(currentFileName)
    {
      isChatStarted := false;
      isCodePanelOpen := false;
      messages := [];
      currentCode := "";
      activeChatId := None;
      isThinking := false;
    }

    /**
     * `handleSelectChat`: makes `id` the active chat, opens the chat view
     * with the messages `/api/chats/<id>` returned (`loaded`; empty when
     * that failed) and closes the sidebar.
     */
    method SelectChat(id: string, loaded: Option<seq<StoredMessage>>)
      requires Valid()
      modifies this
      ensures Valid()
      ensures activeChatId == Some(id) && isChatStarted && !isSidebarOpen
      ensures messages == (if loaded.Some? then Restore(loaded.value) else [])
      ensures userId == old(userId) && chatHistory == old(chatHistory) && appPhase == old(appPhase)
      ensures username == old(username) && isCodePanelOpen == old(isCodePanelOpen)
      ensures currentCode == old(currentCode) && currentFileName == old(currentFileName)
    {
      activeChatId := Some(id);
      isChatStarted := true;
      messages := [];
      if loaded.Some? {
        messages := Restore(loaded.value);
      }
      isSidebarOpen := false;
    }

    /** `handleCloseChat`: closes the chat view and the code panel; the conversation stays. */
    method CloseChat()
      requires Valid()
      modifies this`isChatStarted, this`isCodePanelOpen
      ensures Valid()
      ensures !isChatStarted && !isCodePanelOpen
    {
      isChatStarted := false;
      isCodePanelOpen := false;
    }

    /** `handleOpenChat`: reopens the chat view when it is closed and has messages. */
    method OpenChat()
      requires Valid()
      modifies this`isChatStarted
      ensures Valid()
      ensures isChatStarted == (old(isChatStarted) || messages != [])
    {
      if !isChatStarted && |messages| > 0 {
        isChatStarted := true;
      }
    }

    /**
     * `handleSendMessage`. A blank message without files changes nothing.
     * Otherwise the user's message is shown, the turn's requests are sent as
     * `TurnRequests` says, the replies of `TurnReplies` are shown after it,
     * and `isThinking`, set before the first request, is false at the end.
     */
    method SendMessage(content: string, files: seq<Attachment>, o: Outcomes) returns (sent: seq<Request>)
      requires Valid()
      modifies this
      ensures Valid()
      ensures IsBlank(content) && files == [] ==> sent == [] && unchanged(this)
      ensures !(IsBlank(content) && files == []) ==> TurnDone(content, files, o, sent)
    {
      if IsBlank(content) && files == [] {
        return [];
      }
      sent := Turn(content, files, o);
    }

    /**
     * What a non-blank turn leaves behind: the user's message followed by
     * `TurnReplies`, the requests of `TurnRequests`, the new chat (if one was
     * created) active and first in the list, and the generated code in an
     * open panel when the generation succeeded. The phase, the user and the
     * sidebar stay.
     */
    twostate predicate TurnDone(content: string, files: seq<Attachment>, o: Outcomes, sent: seq<Request>)
      reads this
    {
      var active, uid := old(activeChatId), old(userId);
      var created := WillCreate(active, uid) && o.create.CreateOk?;
      && messages == old(messages) + [Message(User, content, files)] + TurnReplies(active, uid, o)
      && sent == TurnRequests(active, uid, content, o)
      && isChatStarted && !isThinking
      && activeChatId == (if created then Some(o.create.chat.id) else active)
      && chatHistory == (if created then [o.create.chat] + old(chatHistory) else old(chatHistory))
      && (Succeeded(active, uid, o) ==>
            currentCode == o.gen.formatted && currentFileName == GeneratedFileName && isCodePanelOpen)
      && (!Succeeded(active, uid, o) ==>
            && currentCode == old(currentCode) && currentFileName == old(currentFileName)
            && isCodePanelOpen == old(isCodePanelOpen))
      && appPhase == old(appPhase) && username == old(username) && userId == uid
      && isSidebarOpen == old(isSidebarOpen)
    }

    /** A non-blank turn: the body of `handleSendMessage` after its guard. */
    method Turn(content: string, files: seq<Attachment>, o: Outcomes) returns (sent: seq<Request>)
      requires Valid()
      modifies this`isChatStarted, this`messages, this`isThinking, this`activeChatId, this`chatHistory,
               this`currentCode, this`currentFileName, this`isCodePanelOpen
      ensures Valid()
      ensures TurnDone(content, files, o, sent)
    {
      ghost var active, uid := activeChatId, userId;
      var chatIdForSave, caught, begun := BeginTurn(content, files, o);
      var replied := FinishTurn(active, uid, content, o, chatIdForSave, caught);
      sent := begun + replied;
    }

    /**
     * Steps up to the generation request: show the user's message, create
     * the chat when needed and save the message.
     */
    method BeginTurn(content: string, files: seq<Attachment>, o: Outcomes)
      returns (chatIdForSave: Option<string>, caught: Option<string>, sent: seq<Request>)
      modifies this`isChatStarted, this`messages, this`isThinking, this`activeChatId, this`chatHistory
      ensures var active := old(activeChatId);
        var created := WillCreate(active, userId) && o.create.CreateOk?;
        && isChatStarted && isThinking
        && messages == old(messages) + [Message(User, content, files)]
        && chatIdForSave == SaveTarget(active, userId, o)
        && caught == EarlyError(active, userId, o)
        && sent == CreateRequests(active, userId, content) + UserSaveRequests(active, userId, content, o)
        && activeChatId == (if created then Some(o.create.chat.id) else active)
        && chatHistory == (if created then [o.create.chat] + old(chatHistory) else old(chatHistory))
    {
      ghost var active := activeChatId;
      ShowUserMessage(content, files);
      var created, saved;
      chatIdForSave, caught, created := EnsureChat(content, o);
      caught, saved := SaveUserMessage(active, userId, content, o, chatIdForSave, caught);
      sent := created + saved;
    }

    /** Steps from the generation request on: generate, show and save the reply, show the error. */
    method FinishTurn(ghost active: Option<string>, ghost uid: Option<int>, content: string, o: Outcomes,
                      chatIdForSave: Option<string>, caught: Option<string>)
      returns (sent: seq<Request>)
      requires chatIdForSave == SaveTarget(active, uid, o) && caught == EarlyError(active, uid, o)
      requires isCodePanelOpen ==> currentFileName == GeneratedFileName
      modifies this`messages, this`isThinking, this`currentCode, this`currentFileName, this`isCodePanelOpen
      ensures !isThinking && (isCodePanelOpen ==> currentFileName == GeneratedFileName)
      ensures sent == ReplyRequests(active, uid, content, o)
      ensures messages == old(messages) + TurnReplies(active, uid, o)
      ensures Succeeded(active, uid, o) ==>
        currentCode == o.gen.formatted && currentFileName == GeneratedFileName && isCodePanelOpen
      ensures !Succeeded(active, uid, o) ==>
        && currentCode == old(currentCode) && currentFileName == old(currentFileName)
        && isCodePanelOpen == old(isCodePanelOpen)
    {
      var caughtNow;
      caughtNow, sent := GenerateReply(active, uid, content, o, chatIdForSave, caught);
      ShowError(caughtNow);
    }

    /** The start of a turn: open the chat view, show the user's message and mark the turn in progress. */
    method ShowUserMessage(content: string, files: seq<Attachment>)
      modifies this`isChatStarted, this`messages, this`isThinking
      ensures isChatStarted && isThinking
      ensures messages == old(messages) + [Message(User, content, files)]
    {
      isChatStarted := true;
      messages := messages + [Message(User, content, files)];
      isThinking := true;
    }

    /** The end of a turn: show the error caught, if any, and mark the turn finished. */
    method ShowError(caught: Option<string>)
      modifies this`messages, this`isThinking
      ensures !isThinking
      ensures messages == old(messages) + ShownError(caught)
    {
      if caught.Some? {
        messages := messages + [Message(Assistant, ErrorContent(caught.value), [])];
      }
      isThinking := false;
    }

    /**
     * Step 1 of a turn: with no known active chat and a signed-in user,
     * request a chat titled with the first 30 characters of `content`; an ok
     * reply makes the new chat active and puts it first in the chat list.
     */
    method EnsureChat(content: string, o: Outcomes) returns (chatIdForSave: Option<string>, caught: Option<string>, sent: seq<Request>)
      modifies this`activeChatId, this`chatHistory
      ensures var active := old(activeChatId);
        var created := WillCreate(active, userId) && o.create.CreateOk?;
        && sent == CreateRequests(active, userId, content)
        && caught == (if WillCreate(active, userId) && o.create.CreateThrew? then Some(o.create.error) else None)
        && chatIdForSave == SaveTarget(active, userId, o)
        && activeChatId == (if created then Some(o.create.chat.id) else active)
        && chatHistory == (if created then [o.create.chat] + old(chatHistory) else old(chatHistory))
    {
      chatIdForSave := activeChatId;
      caught := None;
      sent := [];
      if !Truthy(chatIdForSave) && userId.Some? {
        var title := Take(content, TitleLength);
        sent := [CreateChat(userId.value, title)];
        match o.create {
          case CreateThrew(error) =>
            caught := Some(error);
          case CreateRefused =>
          case CreateOk(chat) =>
            chatIdForSave := Some(chat.id);
            activeChatId := Some(chat.id);
            chatHistory := [chat] + chatHistory;
        }
      }
    }

    /** Step 2 of a turn: unless step 1 threw, save the user's message to the chat, when one is known. */
    method SaveUserMessage(ghost active: Option<string>, ghost uid: Option<int>, content: string, o: Outcomes,
                           chatIdForSave: Option<string>, caught: Option<string>)
      returns (caughtNow: Option<string>, sent: seq<Request>)
      requires chatIdForSave == SaveTarget(active, uid, o)
      requires caught == (if WillCreate(active, uid) && o.create.CreateThrew? then Some(o.create.error) else None)
      ensures caughtNow == EarlyError(active, uid, o)
      ensures sent == UserSaveRequests(active, uid, content, o)
    {
      caughtNow, sent := caught, [];
      if caught.None? && Truthy(chatIdForSave) {
        sent := [SaveMessage(chatIdForSave.value, User, content)];
        if o.saveUser.SaveThrew? {
          caughtNow := Some(o.saveUser.error);
        }
      }
    }

    /**
     * Steps 3 and 4 of a turn: unless an error came first, request the
     * generation; on an ok reply show it, put the formatted JSON in the code
     * panel and open it, and save the reply when the chat is known. Returns
     * the error the turn ends with, if any.
     */
    method GenerateReply(ghost active: Option<string>, ghost uid: Option<int>, content: string, o: Outcomes,
                         chatIdForSave: Option<string>, caught: Option<string>)
      returns (caughtNow: Option<string>, sent: seq<Request>)
      requires chatIdForSave == SaveTarget(active, uid, o) && caught == EarlyError(active, uid, o)
      requires isCodePanelOpen ==> currentFileName == GeneratedFileName
      modifies this`messages, this`currentCode, this`currentFileName, this`isCodePanelOpen
      ensures isCodePanelOpen ==> currentFileName == GeneratedFileName
      ensures caughtNow == FinalError(active, uid, o)
      ensures sent == ReplyRequests(active, uid, content, o)
      ensures messages == old(messages) + ShownReply(active, uid, o)
      ensures Succeeded(active, uid, o) ==>
        currentCode == o.gen.formatted && currentFileName == GeneratedFileName && isCodePanelOpen
      ensures !Succeeded(active, uid, o) ==>
        && currentCode == old(currentCode) && currentFileName == old(currentFileName)
        && isCodePanelOpen == old(isCodePanelOpen)
    {
      if caught.Some? {
        return caught, [];
      }
      sent := [Generate(content)];
      caughtNow := None;
      match o.gen {
        case GenThrew(error) =>
          caughtNow := Some(error);
        case GenFailed(status, text) =>
          caughtNow := Some(ServerError(status, text));
        case GenOk(formatted, testCases) =>
          var full := SuccessContent(o.gen);
          messages := messages + [Message(Assistant, full, [])];
          currentCode := formatted;
          currentFileName := GeneratedFileName;
          isCodePanelOpen := true;
          if Truthy(chatIdForSave) {
            sent := sent + [SaveMessage(chatIdForSave.value, Assistant, full)];
            if o.saveReply.SaveThrew? {
              caughtNow := Some(o.saveReply.error);
            }
          }
      }
    }
  }
}
