/**
 * The Telegram side: one incoming message is logged, routed and answered. The bot's
 * own mutable state (last update id, admin roster, sent messages, prompts handed to the
 * chat backend) lives in `TelegramBot`, beside the three objects it drives: the Notion
 * client, the conversation directory and the rate limiter. Everything the outside world
 * answers while one message is handled is an input `World`.
 */
module Bot {
  import opened Wrappers
  import opened Strings
  import opened Config
  import opened FileOperations
  import opened OpenAIIntegration
  import opened Notion

  // ---------------------------------------------------------------------------
  // Small helpers of the main module
  // ---------------------------------------------------------------------------

  /** `is_group_chat`: groups and channels have negative chat ids. */
  predicate IsGroupChat(chatId: int) {
    chatId < 0
  }

  /** `format_message_for_display`: the log line without its newline. */
  function FormatMessageForDisplay(time: string, username: string, message: string, userId: string): (r: string)
    ensures r + "\n" == FormatLine(time, username, userId, message)
    ensures Contains(r, "[ID: " + userId + "]:")
  {
    var a := time + " " + username + " ";
    var b := " --- " + message;
    var r := time + " " + username + " [ID: " + userId + "]: --- " + message;
    assert r == a + ("[ID: " + userId + "]:") + b;
    ContainsMiddle(a, "[ID: " + userId + "]:", b);
    r
  }

  // ---------------------------------------------------------------------------
  // Messages and the outside world
  // ---------------------------------------------------------------------------

  /** The fields of a Telegram message the bot reads; a missing `text` is the empty text. */
  datatype IncomingMessage = IncomingMessage(fromId: Option<int>, firstName: Option<string>, chatId: Option<int>, text: string)

  datatype Update = Update(updateId: int, message: Option<IncomingMessage>)

  /** The notices the bot sends; `Render` spells each out. */
  datatype Notice =
    | GroupRedirect | NotAuthorized | Wait(seconds: real) | UnknownCommand | NoUsers
    | UserNotFound(kind: AdminKind, handle: string) | PrimaryAdminProtected
    | Updated(kind: AdminKind, name: string, bare: string) | UpdateFailed(kind: AdminKind, handle: string)
    | InvalidId | FetchFailed(id: int) | UserCreated(user: TelegramUser, id: int) | CreateFailed(id: int)
    | AdminsRefreshed(count: nat)

  /**
   * What a sent message shows: a free text (a model reply, a chunk of the user listing), the
   * typing indicator, one of the four fixed HTML texts, or a notice.
   */
  datatype Body = Text(text: string) | Typing | Welcome | Help | Status | AdminHelp | Notify(notice: Notice)

  datatype Outgoing = Outgoing(chatId: int, body: Body)

  /** What the chat backend gives back: a reply text (maybe empty), or an exception. */
  datatype BackendResult = Answered(text: string) | Failed

  /** The answers of the outside world during one message: clock, timestamps, Notion, Telegram and the chat backend. */
  datatype World = World(now: real, time: string, replyTime: string,
                         authResponse: QueryResult, handleResponse: QueryResult,
                         rosterResponse: QueryResult, usersResponse: QueryResult,
                         writeSucceeds: bool, chatInfo: Option<TelegramUser>, backend: BackendResult)

  /** Everything that handling a message can change. */
  datatype BotState = BotState(lastUpdateId: int, adminUsers: seq<int>, outbox: seq<Outgoing>, prompts: seq<seq<Turn>>,
                               files: seq<LogFile>, userCache: map<int, AuthRecord>, cacheExpires: map<int, real>,
                               writes: seq<Write>, lastRequest: map<int, real>)

  const BOT_NAME: string := "10x GM AI"
  const BOT_TAG: string := "BOT_ID"
  const NO_REPLY_MESSAGE: string := "I'm experiencing technical difficulties. Please try again."
  const FAILURE_MESSAGE: string := "Something went wrong on my end. Please try rephrasing your message."
  const NO_USERS_MESSAGE: string := "No users found in database."
  const USERS_HEADER: string := "<b>Telegram Users in Database:</b>\n\n"
  const CHUNK_SIZE: nat := 4000

  function SuccessText(k: AdminKind, name: string, bare: string): string {
    if k == Add then "\U{2705} User " + name + " (@" + bare + ") has been given bot access."
    else if k == Remove then "\U{274C} Bot access removed from " + name + " (@" + bare + ")."
    else if k == Activate then "\U{2705} User " + name + " (@" + bare + ") has been activated."
    else if k == Deactivate then "\U{274C} User " + name + " (@" + bare + ") has been deactivated."
    else if k == MakeAdmin then "\U{1F451} " + name + " (@" + bare + ") is now an admin."
    else "\U{1F464} Admin privileges removed from " + name + " (@" + bare + ")."
  }

  /** What a failed handle command says it could not do, before the handle. */
  function FailureVerb(k: AdminKind): string {
    if k == Add || k == Remove then "update user "
    else if k == Activate then "activate user "
    else if k == Deactivate then "deactivate user "
    else if k == MakeAdmin then "make "
    else "remove admin from "
  }

  /** What follows the handle in a failure notice. */
  function FailureTail(k: AdminKind): string {
    if k == MakeAdmin then " an admin. Check logs." else ". Check logs."
  }

  function FailureText(k: AdminKind, handle: string): string {
    "\U{274C} Failed to " + FailureVerb(k) + handle + FailureTail(k)
  }

  /** The answer to a successful `/add_id`: the stripped full name, the handle (or `No handle`) and the id. */
  function CreatedText(u: TelegramUser, id: int): string {
    "\U{2705} Created and activated user: " + Strip(u.firstName.GetOr("") + " " + u.lastName.GetOr(""))
    + " (@" + u.username.GetOr("No handle") + ") - ID: " + IntToString(id)
  }

  /** The exact text of each notice. */
  function Render(n: Notice): string {
    match n
    case GroupRedirect => GROUP_REDIRECT_MESSAGE
    case NotAuthorized => UNAUTHORIZED_MESSAGE
    case Wait(seconds) => "Please wait " + FormatOneDecimal(seconds) + " seconds before your next message."
    case UnknownCommand =>
      "I don't recognize that command. Try /help for available commands, or just send me a message to start our conversation."
    case NoUsers => NO_USERS_MESSAGE
    case UserNotFound(k, handle) =>
      if k == Add then "\U{274C} User " + handle + " not found in database. Use /add_id {user_id} for new users."
      else "\U{274C} User " + handle + " not found in database."
    case PrimaryAdminProtected => "\U{274C} Cannot remove admin privileges from primary admin."
    case Updated(k, name, bare) => SuccessText(k, name, bare)
    case UpdateFailed(k, handle) => FailureText(k, handle)
    case InvalidId => "\U{274C} Invalid user ID. Must be a number."
    case FetchFailed(id) => "\U{274C} Could not fetch user data for ID " + IntToString(id) + ". User may have blocked bot."
    case UserCreated(u, id) => CreatedText(u, id)
    case CreateFailed(id) => "\U{274C} Failed to create user with ID " + IntToString(id) + ". Check logs."
    case AdminsRefreshed(count) => "\U{2705} Admin list refreshed. Current admins: " + NatToString(count)
  }

  /** A notice that a handle was not found quotes the handle as the admin typed it. */
  lemma NotFoundQuotesHandle(k: AdminKind, handle: string)
    ensures Contains(Render(UserNotFound(k, handle)), handle)
  {
    if k == Add {
      ContainsMiddle("\U{274C} User ", handle, " not found in database. Use /add_id {user_id} for new users.");
    } else {
      ContainsMiddle("\U{274C} User ", handle, " not found in database.");
    }
  }

  /** A failed update quotes the handle as the admin typed it. */
  lemma FailureQuotesHandle(k: AdminKind, handle: string)
    ensures Contains(Render(UpdateFailed(k, handle)), handle)
  {
    var pre := "\U{274C} Failed to " + FailureVerb(k);
    assert Render(UpdateFailed(k, handle)) == pre + handle + FailureTail(k);
    ContainsMiddle(pre, handle, FailureTail(k));
  }

  /** A failed fetch of a Telegram user quotes the id. */
  lemma FetchFailedQuotesId(id: int)
    ensures Contains(Render(FetchFailed(id)), IntToString(id))
  {
    var pre := "\U{274C} Could not fetch user data for ID ";
    assert Render(FetchFailed(id)) == pre + IntToString(id) + ". User may have blocked bot.";
    ContainsMiddle(pre, IntToString(id), ". User may have blocked bot.");
  }

  /** A failed creation quotes the id. */
  lemma CreateFailedQuotesId(id: int)
    ensures Contains(Render(CreateFailed(id)), IntToString(id))
  {
    var pre := "\U{274C} Failed to create user with ID ";
    assert Render(CreateFailed(id)) == pre + IntToString(id) + ". Check logs.";
    ContainsMiddle(pre, IntToString(id), ". Check logs.");
  }

  /** The creation notice quotes the id, and the handle (or `No handle`). */
  lemma CreatedQuotesIdAndHandle(u: TelegramUser, id: int)
    ensures Contains(Render(UserCreated(u, id)), IntToString(id))
    ensures Contains(Render(UserCreated(u, id)), u.username.GetOr("No handle"))
  {
    var name := Strip(u.firstName.GetOr("") + " " + u.lastName.GetOr(""));
    var handle := u.username.GetOr("No handle");
    var a := "\U{2705} Created and activated user: " + name + " (@";
    var b := ") - ID: ";
    var digits := IntToString(id);
    assert Render(UserCreated(u, id)) == a + handle + (b + digits);
    ContainsMiddle(a, handle, b + digits);
    assert Render(UserCreated(u, id)) == (a + handle + b) + digits + [];
    ContainsMiddle(a + handle + b, digits, []);
  }

  function Send(s: BotState, chatId: int, body: Body): BotState {
    s.(outbox := s.outbox + [Outgoing(chatId, body)])
  }

  /** The user's message is complete: sender, chat and text are all present and truthy. */
  predicate FieldsPresent(m: IncomingMessage) {
    m.fromId.Some? && m.fromId.value != 0 && m.chatId.Some? && m.chatId.value != 0 && m.text != []
  }

  predicate IsCommandText(text: string) {
    |text| > 0 && text[0] == '/'
  }

  function SenderName(m: IncomingMessage): string {
    m.firstName.GetOr("Unknown")
  }

  /** The line logged for the user's own message. */
  function UserLine(m: IncomingMessage, w: World): string
    requires m.fromId.Some?
  {
    FormatLine(w.time, SenderName(m), DisplayId(m.fromId.value, "USER"), m.text)
  }

  /** The state after the user's line is appended to the file named after the sender. */
  function Logged(s: BotState, m: IncomingMessage, w: World): BotState
    requires m.fromId.Some?
  {
    s.(files := AppendToFile(s.files, FileNameFor(SenderName(m)), UserLine(m, w)))
  }

  // ---------------------------------------------------------------------------
  // Admin commands
  // ---------------------------------------------------------------------------

  datatype AdminKind = Add | Remove | Activate | Deactivate | AddId | MakeAdmin | RemoveAdmin | ShowAdminHelp | RefreshAdmins

  function CommandName(k: AdminKind): string {
    match k
    case Add => "/add"
    case Remove => "/remove"
    case Activate => "/activate"
    case Deactivate => "/deactivate"
    case AddId => "/add_id"
    case MakeAdmin => "/make_admin"
    case RemoveAdmin => "/remove_admin"
    case ShowAdminHelp => "/admin_help"
    case RefreshAdmins => "/refresh_admins"
  }

  /** The commands that need an argument after the command word. */
  predicate NeedsArgument(k: AdminKind) {
    !(k == ShowAdminHelp || k == RefreshAdmins)
  }

  /** The commands that look a user up by handle. */
  predicate IsHandleKind(k: AdminKind) {
    k == Add || k == Remove || k == Activate || k == Deactivate || k == MakeAdmin || k == RemoveAdmin
  }

  /** The `elif` chain of `_handle_admin_command_sync` on the lower-cased command word. */
  function KindNamed(command: string, hasArgument: bool): Option<AdminKind> {
    if command == "/add" && hasArgument then Some(Add)
    else if command == "/remove" && hasArgument then Some(Remove)
    else if command == "/activate" && hasArgument then Some(Activate)
    else if command == "/deactivate" && hasArgument then Some(Deactivate)
    else if command == "/add_id" && hasArgument then Some(AddId)
    else if command == "/make_admin" && hasArgument then Some(MakeAdmin)
    else if command == "/remove_admin" && hasArgument then Some(RemoveAdmin)
    else if command == "/admin_help" then Some(ShowAdminHelp)
    else if command == "/refresh_admins" then Some(RefreshAdmins)
    else None
  }

  /** The command names are pairwise different, so the chain picks a command by its name alone. */
  lemma KindNamedIff(command: string, hasArgument: bool, k: AdminKind)
    ensures KindNamed(command, hasArgument) == Some(k) <==> command == CommandName(k) && (NeedsArgument(k) ==> hasArgument)
  {
    match k
    case Add =>
    case Remove =>
      assert command == "/remove" ==> command != "/add";
    case Activate =>
    case Deactivate =>
    case AddId =>
      assert command == "/add_id" ==> command != "/add";
    case MakeAdmin =>
    case RemoveAdmin =>
      assert command == "/remove_admin" ==> command != "/remove";
    case ShowAdminHelp =>
      assert command == "/admin_help" ==> command != "/add" && command != "/add_id";
    case RefreshAdmins =>
      assert command == "/refresh_admins" ==> command != "/remove" && command != "/remove_admin";
  }

  /** Which admin command a text fires, if any. */
  function ParseAdminCommand(text: string): Option<AdminKind> {
    var parts := SplitWhitespace(text);
    if parts == [] then None else KindNamed(ToLower(parts[0]), |parts| >= 2)
  }

  /**
   * A command fires exactly when the lower-cased first word is its name and, for the
   * seven commands that take one, an argument follows.
   */
  lemma ParseAdminCommandIff(text: string, k: AdminKind)
    ensures ParseAdminCommand(text) == Some(k) <==>
      var parts := SplitWhitespace(text);
      parts != [] && ToLower(parts[0]) == CommandName(k) && (NeedsArgument(k) ==> |parts| >= 2)
  {
    var parts := SplitWhitespace(text);
    if parts != [] {
      KindNamedIff(ToLower(parts[0]), |parts| >= 2, k);
    }
  }

  /** An empty or all-whitespace text is no admin command. */
  lemma BlankTextNoAdminCommand(text: string)
    requires AllSpace(text)
    ensures ParseAdminCommand(text).None?
  {
    SplitWhitespaceEmpty(text);
  }

  /** The second word of the text, the argument of the seven commands that take one. */
  function Argument(text: string): string {
    var parts := SplitWhitespace(text);
    if |parts| >= 2 then parts[1] else ""
  }

  /** The `can_chat_bot`, `active` and `admin` arguments each handle command passes to `update_user_access`. */
  function KindArgs(k: AdminKind): (Option<bool>, Option<bool>, Option<bool>) {
    if k == Add then (Some(true), Some(true), None)
    else if k == Remove then (Some(false), None, None)
    else if k == Activate then (None, Some(true), None)
    else if k == Deactivate then (Some(false), Some(false), None)
    else if k == MakeAdmin then (Some(true), Some(true), Some(true))
    else (None, None, Some(false))
  }

  /** The patch each handle command sends. */
  function KindUpdates(k: AdminKind): seq<FieldUpdate> {
    FieldUpdates(None, KindArgs(k).0, KindArgs(k).1, KindArgs(k).2)
  }

  /** Every handle command sets at least one field, so `update_user_access` always sends its patch. */
  lemma KindUpdatesNonEmpty(k: AdminKind)
    ensures KindUpdates(k) != []
  {
    var (c, a, ad) := KindArgs(k);
    assert c.Some? || a.Some? || ad.Some?;
  }

  /** What one admin command does: the Notion writes, whether the caches are cleared and the roster reloaded, and the one reply. */
  datatype Effect = Effect(writes: seq<Write>, clearCaches: bool, reloadAdmins: bool, reply: Body)

  function Apply(s: BotState, e: Effect, chatId: int, w: World): BotState {
    s.(writes := s.writes + e.writes,
       userCache := if e.clearCaches then map[] else s.userCache,
       cacheExpires := if e.clearCaches then map[] else s.cacheExpires,
       adminUsers := if e.reloadAdmins then AdminUsers(w.rosterResponse) else s.adminUsers,
       outbox := s.outbox + [Outgoing(chatId, e.reply)])
  }

  /** The six handle commands: look the user up, guard the primary admin, patch, answer. */
  function HandleEffect(k: AdminKind, handle: string, w: World): Effect {
    var info := FindByHandle(w.handleResponse, handle);
    if info.None? then Effect([], false, false, Notify(UserNotFound(k, handle)))
    else if k == RemoveAdmin && info.value.telegramUserId == Some(ADMIN_USER_ID) then Effect([], false, false, Notify(PrimaryAdminProtected))
    else PatchEffect(k, handle, info.value, w)
  }

  /** A handle command once the user is found and may be changed: patch, and answer by the outcome. */
  function PatchEffect(k: AdminKind, handle: string, user: UserInfo, w: World): Effect {
    var patch := [Patch(user.notionId, KindUpdates(k))];
    if w.writeSucceeds then Effect(patch, true, k == MakeAdmin || k == RemoveAdmin, Notify(Updated(k, user.name, LStripChar(handle, '@'))))
    else Effect(patch, false, false, Notify(UpdateFailed(k, handle)))
  }

  /** `/add_id`: parse the id, fetch the Telegram user, create the page, answer. */
  function AddIdEffect(argument: string, w: World): Effect {
    match ParseInt(argument)
    case None => Effect([], false, false, Notify(InvalidId))
    case Some(id) =>
      match w.chatInfo
      case None => Effect([], false, false, Notify(FetchFailed(id)))
      case Some(u) =>
        Effect([Create(NewUserFor(u, id))], w.writeSucceeds, false, Notify(if w.writeSucceeds then UserCreated(u, id) else CreateFailed(id)))
  }

  function AdminEffect(k: AdminKind, argument: string, w: World): Effect {
    if k == ShowAdminHelp then Effect([], false, false, AdminHelp)
    else if k == RefreshAdmins then Effect([], false, true, Notify(AdminsRefreshed(|AdminUsers(w.rosterResponse)|)))
    else if k == AddId then AddIdEffect(argument, w)
    else HandleEffect(k, argument, w)
  }

  /** Only `/make_admin`, `/remove_admin` and `/refresh_admins` touch the roster, and then only by reloading it. */
  lemma OnlyRosterCommandsReload(k: AdminKind, argument: string, w: World)
    ensures AdminEffect(k, argument, w).reloadAdmins ==> k == MakeAdmin || k == RemoveAdmin || k == RefreshAdmins
  {
  }

  /** `/add_id` writes at most one page, and clears the caches exactly after a creation that succeeded. */
  lemma AddIdWritesAtMostOne(argument: string, w: World)
    ensures var e := AddIdEffect(argument, w);
      && |e.writes| <= 1
      && (e.clearCaches <==> e.writes != [] && w.writeSucceeds)
  {
    match ParseInt(argument)
    case None =>
    case Some(id) =>
      match w.chatInfo
      case None =>
      case Some(u) =>
        assert AddIdEffect(argument, w).writes == [Create(NewUserFor(u, id))];
  }

  /** A patch once the user is found is one write, and the caches are cleared exactly when it succeeds. */
  lemma PatchWritesOne(k: AdminKind, handle: string, user: UserInfo, w: World)
    ensures var e := PatchEffect(k, handle, user, w);
      |e.writes| == 1 && e.clearCaches == w.writeSucceeds
  {
    if w.writeSucceeds {
      assert PatchEffect(k, handle, user, w).clearCaches;
    }
  }

  /** A handle command writes at most one page, and the caches are cleared exactly after a write that succeeded. */
  lemma HandleWritesAtMostOne(k: AdminKind, handle: string, w: World)
    ensures var e := HandleEffect(k, handle, w);
      && |e.writes| <= 1
      && (e.clearCaches <==> e.writes != [] && w.writeSucceeds)
  {
    var info := FindByHandle(w.handleResponse, handle);
    if info.Some? && !(k == RemoveAdmin && info.value.telegramUserId == Some(ADMIN_USER_ID)) {
      assert HandleEffect(k, handle, w) == PatchEffect(k, handle, info.value, w);
      PatchWritesOne(k, handle, info.value, w);
    }
  }

  /** Every admin command writes at most one page, and the caches are cleared exactly after a write that succeeded. */
  lemma AdminWritesAtMostOne(k: AdminKind, argument: string, w: World)
    ensures var e := AdminEffect(k, argument, w);
      && |e.writes| <= 1
      && (e.clearCaches <==> e.writes != [] && w.writeSucceeds)
  {
    if k == ShowAdminHelp || k == RefreshAdmins {
      var e := AdminEffect(k, argument, w);
      assert e.writes == [] && !e.clearCaches;
    } else if k == AddId {
      AddIdWritesAtMostOne(argument, w);
    } else {
      assert AdminEffect(k, argument, w) == HandleEffect(k, argument, w);
      HandleWritesAtMostOne(k, argument, w);
    }
  }

  /** A handle command writes exactly when the handle is found (and is not the primary admin for `/remove_admin`), and sends the fields the command names. */
  lemma HandleCommandWrites(k: AdminKind, handle: string, w: World)
    requires IsHandleKind(k)
    ensures var e := HandleEffect(k, handle, w);
      var info := FindByHandle(w.handleResponse, handle);
      && (e.writes != [] <==> info.Some? && !(k == RemoveAdmin && info.value.telegramUserId == Some(ADMIN_USER_ID)))
      && (e.writes != [] ==> e.writes == [Patch(info.value.notionId, KindUpdates(k))])
  {
  }

  /** `/remove_admin` aimed at the primary admin sends no patch and leaves the roster as it was. */
  lemma PrimaryAdminNeverDemoted(handle: string, w: World)
    requires var info := FindByHandle(w.handleResponse, handle);
      info.Some? && info.value.telegramUserId == Some(ADMIN_USER_ID)
    ensures AdminEffect(RemoveAdmin, handle, w) == Effect([], false, false, Notify(PrimaryAdminProtected))
  {
  }

  // ---------------------------------------------------------------------------
  // Ordinary commands and the user list
  // ---------------------------------------------------------------------------

  /** One user's entry in the `/users` listing. */
  function UserBlock(u: UserSummary): string {
    var status := if u.canChatBot then "\U{2705} Authorized" else "\U{274C} Not Authorized";
    var handle := if u.telegramHandle.Some? && u.telegramHandle.value != [] then "@" + u.telegramHandle.value else "No handle";
    var id := if u.telegramUserId.Some? && u.telegramUserId.value != 0 then IntToString(u.telegramUserId.value) else "No ID";
    "<b>" + u.name + "</b>\n" + "  Handle: " + handle + "\n" + "  User ID: " + id + "\n" + "  Status: " + status + "\n\n"
  }

  /** A header followed by one block per item, in order. */
  function Listing<T>(header: string, block: T -> string, xs: seq<T>): string {
    if xs == [] then header else Listing(header, block, xs[..|xs| - 1]) + block(xs[|xs| - 1])
  }

  /** A listing starts with its header and holds every item's block. */
  lemma {:induction false} ListingHasEvery<T>(header: string, block: T -> string, xs: seq<T>)
    ensures header <= Listing(header, block, xs)
    ensures forall k :: 0 <= k < |xs| ==> Contains(Listing(header, block, xs), block(xs[k]))
  {
    if xs != [] {
      var init := xs[..|xs| - 1];
      ListingHasEvery(header, block, init);
      var pre, last := Listing(header, block, init), block(xs[|xs| - 1]);
      assert Listing(header, block, xs) == pre + last;
      forall k | 0 <= k < |xs| ensures Contains(pre + last, block(xs[k])) {
        if k < |init| {
          assert xs[k] == init[k];
          ContainsExtendRight(pre, last, block(xs[k]));
        } else {
          assert pre + last == pre + last + [];
          ContainsMiddle(pre, last, []);
        }
      }
    }
  }

  /** The `/users` listing: the header, then one block per user in order. */
  function UsersText(users: seq<UserSummary>): string {
    Listing(USERS_HEADER, UserBlock, users)
  }

  /** The listing starts with the header and holds every user's block. */
  lemma UsersTextHasEveryUser(users: seq<UserSummary>)
    ensures USERS_HEADER <= UsersText(users)
    ensures forall k :: 0 <= k < |users| ==> Contains(UsersText(users), UserBlock(users[k]))
  {
    ListingHasEvery(USERS_HEADER, UserBlock, users);
  }

  /** `[s[i:i+n] for i in range(0, len(s), n)]`. */
  function Chunks(s: string, n: nat): (chunks: seq<string>)
    requires n > 0
    ensures forall k :: 0 <= k < |chunks| ==> 0 < |chunks[k]| <= n
    decreases |s|
  {
    if s == [] then [] else if |s| <= n then [s] else [s[..n]] + Chunks(s[n..], n)
  }

  /** The chunks put back together are the text, and every chunk but the last is full. */
  lemma {:induction false} ChunksConcat(s: string, n: nat)
    requires n > 0
    ensures Concat(Chunks(s, n)) == s
    ensures forall k :: 0 <= k < |Chunks(s, n)| - 1 ==> |Chunks(s, n)[k]| == n
    decreases |s|
  {
    if |s| > n {
      ChunksConcat(s[n..], n);
      assert s == s[..n] + s[n..];
      var rest := Chunks(s[n..], n);
      assert Chunks(s, n) == [s[..n]] + rest;
      assert forall k :: 1 <= k < |Chunks(s, n)| ==> Chunks(s, n)[k] == rest[k - 1];
    } else if s != [] {
      assert Concat([s]) == s + Concat([]);
    }
  }

  /** A non-empty text that fits is one chunk: sending it whole is chunking it. */
  lemma ChunksOfShort(s: string, n: nat)
    requires n > 0 && 0 < |s| <= n
    ensures Chunks(s, n) == [s]
  {
  }

  /** The replies `_send_users_list_sync` sends. */
  function UsersReplies(chatId: int, users: seq<UserSummary>): seq<Outgoing> {
    if users == [] then [Outgoing(chatId, Notify(NoUsers))]
    else
      var message := UsersText(users);
      if |message| > CHUNK_SIZE then
        var chunks := Chunks(message, CHUNK_SIZE);
        seq(|chunks|, k requires 0 <= k < |chunks| => Outgoing(chatId, Text(chunks[k])))
      else [Outgoing(chatId, Text(message))]
  }

  /** The texts of a run of sent messages (a non-text body counts as empty). */
  function Texts(r: seq<Outgoing>): seq<string> {
    seq(|r|, k requires 0 <= k < |r| => if r[k].body.Text? then r[k].body.text else "")
  }

  /** Put together, the texts sent for a non-empty listing are the listing, each at most 4000 characters long. */
  lemma UsersRepliesCoverListing(chatId: int, users: seq<UserSummary>)
    requires users != []
    ensures var r := UsersReplies(chatId, users);
      && (forall k :: 0 <= k < |r| ==> r[k].chatId == chatId && r[k].body.Text? && |r[k].body.text| <= CHUNK_SIZE)
      && Concat(Texts(r)) == UsersText(users)
  {
    var message := UsersText(users);
    UsersTextHasEveryUser(users);
    ChunksConcat(message, CHUNK_SIZE);
    var r := UsersReplies(chatId, users);
    if |message| > CHUNK_SIZE {
      assert Texts(r) == Chunks(message, CHUNK_SIZE);
    } else {
      assert |message| >= |USERS_HEADER|;
      assert Texts(r) == [message];
      assert Concat([message]) == message + Concat([]);
    }
  }

  /** What `_handle_command_sync` sends; `isAdmin` is the sender's roster membership. */
  function CommandReplies(text: string, chatId: int, isAdmin: bool, usersResponse: QueryResult): seq<Outgoing> {
    var parts := SplitWhitespace(text);
    var command := if parts == [] then "" else ToLower(parts[0]);
    if command == "/start" then [Outgoing(chatId, Welcome)]
    else if command == "/help" then [Outgoing(chatId, Help)]
    else if command == "/status" then [Outgoing(chatId, Status)]
    else if command == "/users" && isAdmin then UsersReplies(chatId, Summaries(usersResponse))
    else [Outgoing(chatId, Notify(UnknownCommand))]
  }

  /** The listing goes to admins only; anyone else asking for it is told the command is unknown. */
  lemma UsersListForAdminsOnly(text: string, chatId: int, usersResponse: QueryResult)
    requires var parts := SplitWhitespace(text); parts != [] && ToLower(parts[0]) == "/users"
    ensures CommandReplies(text, chatId, false, usersResponse) == [Outgoing(chatId, Notify(UnknownCommand))]
    ensures CommandReplies(text, chatId, true, usersResponse) == UsersReplies(chatId, Summaries(usersResponse))
  {
  }

  /** A text starting with `/` has a first word, and that word starts with `/`. */
  lemma CommandTextHasCommand(text: string)
    requires IsCommandText(text)
    ensures SplitWhitespace(text) != [] && SplitWhitespace(text)[0][0] == '/'
  {
    FirstToken(text);
  }

  // ---------------------------------------------------------------------------
  // The conversation with the model
  // ---------------------------------------------------------------------------

  /** The text the bot answers with: the backend's reply, or a fixed apology when it is empty or failed. */
  function ReplyText(b: BackendResult): (r: string)
    ensures r != []
    ensures b.Answered? && b.text != [] ==> r == b.text
    ensures b == Answered([]) ==> r == NO_REPLY_MESSAGE
    ensures b.Failed? ==> r == FAILURE_MESSAGE
  {
    match b
    case Answered(text) => if text != [] then text else NO_REPLY_MESSAGE
    case Failed => FAILURE_MESSAGE
  }

  /** The line logged for the bot's reply. */
  function BotLine(w: World): string {
    FormatLine(w.replyTime, BOT_NAME, BOT_TAG, ReplyText(w.backend))
  }

  /** `_process_ai_conversation_sync`: typing notice, history, context, reply logged as the bot, reply sent. */
  function ConversationStep(s: BotState, userId: int, chatId: int, text: string, record: AuthRecord, w: World, persona: string): BotState {
    var recent := RecentMessages(s.files, userId, record.contextLines);
    var context := BuildConversationContext(persona, record.profileText, recent, text);
    s.(prompts := s.prompts + [context],
       files := AppendToFile(s.files, FileNameFor(BOT_NAME), BotLine(w)),
       outbox := s.outbox + [Outgoing(chatId, Typing), Outgoing(chatId, Text(ReplyText(w.backend)))])
  }

  // ---------------------------------------------------------------------------
  // Routing one message
  // ---------------------------------------------------------------------------

  datatype Route = Ignored | AdminCommand(kind: AdminKind) | UserCommand | GroupChat | NotAllowed | Throttled | Conversation

  /** The authorization step that routing performs for the sender, on the caches of `s`. */
  function AuthFor(s: BotState, userId: int, w: World): AuthStep {
    Authorize(s.userCache, s.cacheExpires, userId, w.now, w.authResponse)
  }

  /** The first rule of `_handle_message_sync` that applies. */
  function RouteOf(s: BotState, m: IncomingMessage, w: World, minInterval: real): Route {
    if !FieldsPresent(m) then Ignored
    else
      var userId := m.fromId.value;
      if IsCommandText(m.text) && userId in s.adminUsers && ParseAdminCommand(m.text).Some? then AdminCommand(ParseAdminCommand(m.text).value)
      else if IsCommandText(m.text) then UserCommand
      else if IsGroupChat(m.chatId.value) then GroupChat
      else if !AuthFor(s, userId, w).record.authorized then NotAllowed
      else if !Allows(s.lastRequest, minInterval, userId, w.now) then Throttled
      else Conversation
  }

  /**
   * The tail of `_handle_message_sync` for a private text that is no command, on the state `t`
   * in which the user's line is already logged: authorize, rate-limit, converse.
   */
  function PrivateStep(t: BotState, userId: int, chatId: int, text: string, w: World, persona: string, minInterval: real): BotState {
    var auth := AuthFor(t, userId, w);
    var checked := t.(userCache := auth.cache, cacheExpires := auth.expires);
    if !auth.record.authorized then Send(checked, chatId, Notify(NotAuthorized))
    else if !Allows(t.lastRequest, minInterval, userId, w.now) then
      Send(checked, chatId, Notify(Wait(Remaining(t.lastRequest, minInterval, userId, w.now))))
    else ConversationStep(checked.(lastRequest := t.lastRequest[userId := w.now]), userId, chatId, text, auth.record, w, persona)
  }

  /** Handling one message, as a function of the state before it. */
  function Step(s: BotState, m: IncomingMessage, w: World, persona: string, minInterval: real): BotState {
    if !FieldsPresent(m) then s
    else
      var userId := m.fromId.value;
      var chatId := m.chatId.value;
      var logged := Logged(s, m, w);
      match RouteOf(s, m, w, minInterval)
      case AdminCommand(k) => Apply(logged, AdminEffect(k, Argument(m.text), w), chatId, w)
      case UserCommand => logged.(outbox := logged.outbox + CommandReplies(m.text, chatId, userId in s.adminUsers, w.usersResponse))
      case GroupChat => Send(logged, chatId, Notify(GroupRedirect))
      case Ignored => s
      case _ => PrivateStep(logged, userId, chatId, m.text, w, persona, minInterval)
  }

  /** `Step` on a complete message, one route at a time. */
  lemma StepByRoute(s: BotState, m: IncomingMessage, w: World, persona: string, minInterval: real)
    requires FieldsPresent(m)
    ensures var logged := Logged(s, m, w);
      var chatId := m.chatId.value;
      var route := RouteOf(s, m, w, minInterval);
      var after := Step(s, m, w, persona, minInterval);
      && (route.AdminCommand? ==> after == Apply(logged, AdminEffect(route.kind, Argument(m.text), w), chatId, w))
      && (route == UserCommand ==>
            after == logged.(outbox := logged.outbox + CommandReplies(m.text, chatId, m.fromId.value in s.adminUsers, w.usersResponse)))
      && (route == GroupChat ==> after == Send(logged, chatId, Notify(GroupRedirect)))
      && (route in {NotAllowed, Throttled, Conversation} ==> after == PrivateStep(logged, m.fromId.value, chatId, m.text, w, persona, minInterval))
  {
  }

  /** An incomplete message changes nothing at all. */
  lemma IncompleteMessageIgnored(s: BotState, m: IncomingMessage, w: World, persona: string, minInterval: real)
    requires !FieldsPresent(m)
    ensures RouteOf(s, m, w, minInterval) == Ignored && Step(s, m, w, persona, minInterval) == s
  {
  }

  /** A complete message is never ignored. */
  lemma CompleteMessageRouted(s: BotState, m: IncomingMessage, w: World, minInterval: real)
    requires FieldsPresent(m)
    ensures RouteOf(s, m, w, minInterval) != Ignored
  {
  }

  /**
   * Every complete message is logged under the sender's name before anything else; only a
   * conversation adds one more line, the bot's, to the bot's own file.
   */
  lemma UserLineLoggedFirst(s: BotState, m: IncomingMessage, w: World, persona: string, minInterval: real)
    requires FieldsPresent(m)
    ensures var logged := Logged(s, m, w).files;
      Step(s, m, w, persona, minInterval).files
        == if RouteOf(s, m, w, minInterval) == Conversation then AppendToFile(logged, FileNameFor(BOT_NAME), BotLine(w)) else logged
  {
    StepByRoute(s, m, w, persona, minInterval);
    if RouteOf(s, m, w, minInterval) in {NotAllowed, Throttled, Conversation} {
      PrivateStepFiles(Logged(s, m, w), m.fromId.value, m.chatId.value, m.text, w, persona, minInterval);
    }
  }

  /** The tail of a private message writes the bot's line exactly when the sender is authorized and within the rate limit. */
  lemma PrivateStepFiles(t: BotState, userId: int, chatId: int, text: string, w: World, persona: string, minInterval: real)
    ensures PrivateStep(t, userId, chatId, text, w, persona, minInterval).files
      == if AuthFor(t, userId, w).record.authorized && Allows(t.lastRequest, minInterval, userId, w.now)
         then AppendToFile(t.files, FileNameFor(BOT_NAME), BotLine(w)) else t.files
  {
  }

  /**
   * Only a conversation reaches the chat backend, and a conversation needs a complete private
   * message that is no command, from an authorized sender who passed the rate limit.
   */
  lemma OnlyConversationReachesModel(s: BotState, m: IncomingMessage, w: World, persona: string, minInterval: real)
    ensures RouteOf(s, m, w, minInterval) != Conversation ==> Step(s, m, w, persona, minInterval).prompts == s.prompts
    ensures RouteOf(s, m, w, minInterval) == Conversation ==>
      && FieldsPresent(m) && !IsCommandText(m.text) && m.chatId.value > 0
      && AuthFor(s, m.fromId.value, w).record.authorized
      && Allows(s.lastRequest, minInterval, m.fromId.value, w.now)
      && |Step(s, m, w, persona, minInterval).prompts| == |s.prompts| + 1
  {
    if FieldsPresent(m) {
      StepByRoute(s, m, w, persona, minInterval);
    }
  }

  /**
   * The prompt of a conversation carries the sender's profile and, as history, the last
   * `context_lines` entries of the sender's log, which already holds the message being answered.
   */
  lemma ConversationPrompt(s: BotState, m: IncomingMessage, w: World, persona: string, minInterval: real)
    requires RouteOf(s, m, w, minInterval) == Conversation
    ensures var record := AuthFor(s, m.fromId.value, w).record;
      var history := RecentMessages(Logged(s, m, w).files, m.fromId.value, record.contextLines);
      Step(s, m, w, persona, minInterval).prompts
        == s.prompts + [BuildConversationContext(persona, record.profileText, history, m.text)]
  {
    StepByRoute(s, m, w, persona, minInterval);
  }

  /**
   * With the sender's log in the file named after them (or no log yet), the newest history
   * entry the model sees is the message it is answering.
   */
  lemma PromptEndsWithOwnMessage(s: BotState, m: IncomingMessage, w: World, persona: string, minInterval: real)
    requires RouteOf(s, m, w, minInterval) == Conversation
    requires WellFormed(s.files)
    requires '\n' !in w.time && '\n' !in SenderName(m) && '\n' !in m.text
    requires var before := ResolveIndex(s.files, m.fromId.value);
      before.None? || before.value == IndexOfName(s.files, FileNameFor(SenderName(m)))
    ensures var record := AuthFor(s, m.fromId.value, w).record;
      var history := RecentMessages(Logged(s, m, w).files, m.fromId.value, record.contextLines);
      record.contextLines > 0 ==> history != [] && history[|history| - 1] == Strip(UserLine(m, w))
  {
    var userId := m.fromId.value;
    var record := AuthFor(s, userId, w).record;
    var name := FileNameFor(SenderName(m));
    RecentAfterOwnLine(s.files, w.time, SenderName(m), userId, m.text, record.contextLines);
    var entries := LogEntries(ReadLines(ContentOf(s.files, name))) + [Strip(UserLine(m, w))];
    if record.contextLines > 0 {
      assert Window(entries, record.contextLines) == entries[|entries| - Min(record.contextLines, |entries|)..];
    }
  }

  /**
   * For a message of two lines, the newest history entry the model sees is the first line of
   * the message alone: the second line, lacking `ID:`, is dropped by the history filter.
   */
  lemma PromptEndsWithFirstLine(s: BotState, m: IncomingMessage, w: World, persona: string, minInterval: real,
                                first: string, second: string)
    requires RouteOf(s, m, w, minInterval) == Conversation
    requires WellFormed(s.files)
    requires '\n' !in w.time && '\n' !in SenderName(m)
    requires m.text == first + "\n" + second && '\n' !in first && '\n' !in second && !Contains(second, "ID:")
    requires var before := ResolveIndex(s.files, m.fromId.value);
      before.None? || before.value == IndexOfName(s.files, FileNameFor(SenderName(m)))
    ensures var record := AuthFor(s, m.fromId.value, w).record;
      var history := RecentMessages(Logged(s, m, w).files, m.fromId.value, record.contextLines);
      record.contextLines > 0 ==>
        history != [] && history[|history| - 1] == Strip(FormatLine(w.time, SenderName(m), DisplayId(m.fromId.value, "USER"), first))
  {
    var userId := m.fromId.value;
    var record := AuthFor(s, userId, w).record;
    var name := FileNameFor(SenderName(m));
    RecentAfterTwoLineMessage(s.files, w.time, SenderName(m), userId, first, second, record.contextLines);
    var entries := LogEntries(ReadLines(ContentOf(s.files, name)))
      + [Strip(FormatLine(w.time, SenderName(m), DisplayId(userId, "USER"), first))];
    if record.contextLines > 0 {
      assert Window(entries, record.contextLines) == entries[|entries| - Min(record.contextLines, |entries|)..];
    }
  }

  /**
   * The bot's reply is logged to `10x GM AI.txt` with the tag `BOT_ID`. Unless the reply text
   * itself quotes the sender's marker, it is not part of the sender's history afterwards: the
   * sender's lookups read what they read right after the user's line was logged.
   */
  lemma ReplyStaysOutOfHistory(s: BotState, m: IncomingMessage, w: World, persona: string, minInterval: real, n: int)
    requires RouteOf(s, m, w, minInterval) == Conversation
    requires WellFormed(s.files)
    requires '[' !in w.replyTime && !Contains(ReplyText(w.backend), Marker(m.fromId.value))
    requires var logged := Logged(s, m, w).files;
      var i := ResolveIndex(logged, m.fromId.value);
      i.Some? ==> logged[i.value].name != FileNameFor(BOT_NAME)
    ensures var after := Step(s, m, w, persona, minInterval).files;
      && RecentMessages(after, m.fromId.value, n) == RecentMessages(Logged(s, m, w).files, m.fromId.value, n)
      && ConversationLength(after, m.fromId.value) == ConversationLength(Logged(s, m, w).files, m.fromId.value)
  {
    var logged := Logged(s, m, w).files;
    assert Step(s, m, w, persona, minInterval).files == AppendToFile(logged, FileNameFor(BOT_NAME), BotLine(w)) by {
      UserLineLoggedFirst(s, m, w, persona, minInterval);
    }
    assert WellFormed(logged) by {
      AppendKeepsWellFormed(s.files, FileNameFor(SenderName(m)), UserLine(m, w));
    }
    ReplyNotInUserHistory(logged, w.replyTime, m.fromId.value, ReplyText(w.backend), n);
  }

  /** A message in a group that is no command gets the redirect notice, and Notion is not asked. */
  lemma GroupMessageRedirected(s: BotState, m: IncomingMessage, w: World, persona: string, minInterval: real)
    requires FieldsPresent(m) && !IsCommandText(m.text) && IsGroupChat(m.chatId.value)
    ensures RouteOf(s, m, w, minInterval) == GroupChat
    ensures Step(s, m, w, persona, minInterval) == Send(Logged(s, m, w), m.chatId.value, Notify(GroupRedirect))
  {
    StepByRoute(s, m, w, persona, minInterval);
  }

  /** An unauthorized sender of a private message gets the access notice and nothing else. */
  lemma UnauthorizedSenderNotified(s: BotState, m: IncomingMessage, w: World, persona: string, minInterval: real)
    requires RouteOf(s, m, w, minInterval) == NotAllowed
    ensures var after := Step(s, m, w, persona, minInterval);
      && after.outbox == s.outbox + [Outgoing(m.chatId.value, Notify(NotAuthorized))]
      && after.prompts == s.prompts && after.lastRequest == s.lastRequest && after.writes == s.writes
      && after.files == Logged(s, m, w).files
  {
    StepByRoute(s, m, w, persona, minInterval);
  }

  /** A sender over the rate limit is told a positive number of seconds to wait, and the limiter keeps its record. */
  lemma ThrottledSenderWaits(s: BotState, m: IncomingMessage, w: World, persona: string, minInterval: real)
    requires RouteOf(s, m, w, minInterval) == Throttled
    ensures var wait := Remaining(s.lastRequest, minInterval, m.fromId.value, w.now);
      && wait > 0.0
      && Step(s, m, w, persona, minInterval).outbox == s.outbox + [Outgoing(m.chatId.value, Notify(Wait(wait)))]
      && Step(s, m, w, persona, minInterval).lastRequest == s.lastRequest
  {
    StepByRoute(s, m, w, persona, minInterval);
  }

  /** A roster that starts with the primary admin and has no duplicates stays so through every message. */
  lemma StepKeepsRoster(s: BotState, m: IncomingMessage, w: World, persona: string, minInterval: real)
    requires |s.adminUsers| >= 1 && s.adminUsers[0] == ADMIN_USER_ID && NoDuplicates(s.adminUsers)
    ensures var ids := Step(s, m, w, persona, minInterval).adminUsers;
      |ids| >= 1 && ids[0] == ADMIN_USER_ID && NoDuplicates(ids)
  {
    if FieldsPresent(m) {
      var logged := Logged(s, m, w);
      var chatId := m.chatId.value;
      match RouteOf(s, m, w, minInterval)
      case AdminCommand(k) =>
        var e := AdminEffect(k, Argument(m.text), w);
        assert Step(s, m, w, persona, minInterval) == Apply(logged, e, chatId, w);
      case UserCommand =>
      case GroupChat =>
      case Ignored =>
      case _ =>
        assert Step(s, m, w, persona, minInterval) == PrivateStep(logged, m.fromId.value, chatId, m.text, w, persona, minInterval);
        PrivateStepKeepsRoster(logged, m.fromId.value, chatId, m.text, w, persona, minInterval);
    }
  }

  /** Authorization, rate limiting and conversation never touch the roster. */
  lemma PrivateStepKeepsRoster(t: BotState, userId: int, chatId: int, text: string, w: World, persona: string, minInterval: real)
    ensures PrivateStep(t, userId, chatId, text, w, persona, minInterval).adminUsers == t.adminUsers
  {
  }

  /** Every message keeps every log ending with a complete line. */
  lemma StepKeepsWellFormed(s: BotState, m: IncomingMessage, w: World, persona: string, minInterval: real)
    requires WellFormed(s.files)
    ensures WellFormed(Step(s, m, w, persona, minInterval).files)
  {
    if FieldsPresent(m) {
      var logged := Logged(s, m, w);
      AppendKeepsWellFormed(s.files, FileNameFor(SenderName(m)), UserLine(m, w));
      UserLineLoggedFirst(s, m, w, persona, minInterval);
      AppendKeepsWellFormed(logged.files, FileNameFor(BOT_NAME), BotLine(w));
    }
  }

  // ---------------------------------------------------------------------------
  // Polling
  // ---------------------------------------------------------------------------

  /** The `offset` sent to `getUpdates`: one past the last update seen, once there is one. */
  function NextOffset(lastUpdateId: int): Option<int> {
    if lastUpdateId != 0 then Some(lastUpdateId + 1) else None
  }

  /** `last_update_id` after a batch: the id of its last element, or unchanged for an empty batch. */
  function LastIdAfter(lastUpdateId: int, batch: seq<Update>): int {
    if batch != [] then batch[|batch| - 1].updateId else lastUpdateId
  }

  /** After a non-empty batch whose last id is not zero, the next poll asks for the updates after it; an empty batch asks again from the same point. */
  lemma OffsetFollowsBatch(lastUpdateId: int, batch: seq<Update>)
    ensures batch != [] && batch[|batch| - 1].updateId != 0 ==>
      NextOffset(LastIdAfter(lastUpdateId, batch)) == Some(batch[|batch| - 1].updateId + 1)
    ensures batch == [] ==> NextOffset(LastIdAfter(lastUpdateId, batch)) == NextOffset(lastUpdateId)
  {
  }

  /** `_process_update_sync`: an update without a message is skipped. */
  function ProcessUpdate(s: BotState, u: Update, w: World, persona: string, minInterval: real): BotState {
    if u.message.Some? then Step(s, u.message.value, w, persona, minInterval) else s
  }

  /** The updates of one batch, handled in order, each with the world it met. */
  function ProcessAll(s: BotState, updates: seq<Update>, worlds: seq<World>, persona: string, minInterval: real): BotState
    requires |worlds| == |updates|
  {
    if updates == [] then s
    else
      var n := |updates| - 1;
      ProcessUpdate(ProcessAll(s, updates[..n], worlds[..n], persona, minInterval), updates[n], worlds[n], persona, minInterval)
  }

  /** Handling a batch keeps the roster invariant and every log well formed. */
  lemma {:induction false} ProcessAllKeepsInvariants(s: BotState, updates: seq<Update>, worlds: seq<World>, persona: string, minInterval: real)
    requires |worlds| == |updates|
    requires |s.adminUsers| >= 1 && s.adminUsers[0] == ADMIN_USER_ID && NoDuplicates(s.adminUsers)
    requires WellFormed(s.files)
    ensures var after := ProcessAll(s, updates, worlds, persona, minInterval);
      && |after.adminUsers| >= 1 && after.adminUsers[0] == ADMIN_USER_ID && NoDuplicates(after.adminUsers)
      && WellFormed(after.files)
  {
    if updates != [] {
      var n := |updates| - 1;
      ProcessAllKeepsInvariants(s, updates[..n], worlds[..n], persona, minInterval);
      var before := ProcessAll(s, updates[..n], worlds[..n], persona, minInterval);
      if updates[n].message.Some? {
        StepKeepsRoster(before, updates[n].message.value, worlds[n], persona, minInterval);
        StepKeepsWellFormed(before, updates[n].message.value, worlds[n], persona, minInterval);
      }
    }
  }

  // ---------------------------------------------------------------------------
  // The bot
  // ---------------------------------------------------------------------------

  class TelegramBot {
    const notion: NotionClient
    const store: ConversationDir
    const limiter: RateLimiter
    /** The persona text the system prompt starts with. */
    const persona: string
    var lastUpdateId: int
    var adminUsers: seq<int>
    /** Every message sent, oldest first. */
    var outbox: seq<Outgoing>
    /** Every conversation handed to the chat backend, oldest first. */
    var prompts: seq<seq<Turn>>

    function Snapshot(): BotState
      reads this, notion, store, limiter
    {
      BotState(lastUpdateId, adminUsers, outbox, prompts, store.files, notion.userCache, notion.cacheExpires, notion.writes, limiter.lastRequest)
    }

    /** A new bot loads its roster and starts with no update seen; its limiter is the shared one built with the default interval. */
    constructor (notion: NotionClient, store: ConversationDir, limiter: RateLimiter, persona: string, rosterResponse: QueryResult)
      requires limiter.minInterval == DEFAULT_MIN_INTERVAL
      ensures this.limiter.minInterval == 2.0
      ensures this.notion == notion && this.store == store && this.limiter == limiter && this.persona == persona
      ensures lastUpdateId == 0 && adminUsers == AdminUsers(rosterResponse) && outbox == [] && prompts == []
    {
      this.notion := notion;
      this.store := store;
      this.limiter := limiter;
      this.persona := persona;
      lastUpdateId := 0;
      outbox := [];
      prompts := [];
      new;
      adminUsers := notion.GetAdminUsers(rosterResponse);
    }

    /** `_is_admin_user`. */
    method IsAdminUser(userId: int) returns (isAdmin: bool)
      ensures isAdmin <==> userId in adminUsers
      ensures |adminUsers| >= 1 && adminUsers[0] == ADMIN_USER_ID && userId == ADMIN_USER_ID ==> isAdmin
    {
      isAdmin := userId in adminUsers;
    }

    /** `_get_updates`: `response` is the `result` list of an ok answer, `None` for any failure. */
    method GetUpdates(response: Option<seq<Update>>) returns (offset: Option<int>, updates: seq<Update>)
      modifies this
      ensures offset == NextOffset(old(lastUpdateId))
      ensures updates == response.GetOr([])
      ensures Snapshot() == old(Snapshot()).(lastUpdateId := LastIdAfter(old(lastUpdateId), updates))
    {
      offset := if lastUpdateId != 0 then Some(lastUpdateId + 1) else None;
      if response.None? {
        return offset, [];
      }
      updates := response.value;
      if updates != [] {
        lastUpdateId := updates[|updates| - 1].updateId;
      }
    }

    /** The loop of `start_polling` over one batch. */
    method ProcessUpdates(updates: seq<Update>, worlds: seq<World>)
      requires |worlds| == |updates|
      modifies this, notion, store, limiter
      ensures Snapshot() == ProcessAll(old(Snapshot()), updates, worlds, persona, limiter.minInterval)
    {
      var i := 0;
      while i < |updates|
        invariant 0 <= i <= |updates|
        invariant Snapshot() == ProcessAll(old(Snapshot()), updates[..i], worlds[..i], persona, limiter.minInterval)
      {
        ghost var before := Snapshot();
        assert updates[..i + 1][..i] == updates[..i];
        assert worlds[..i + 1][..i] == worlds[..i];
        assert ProcessAll(old(Snapshot()), updates[..i + 1], worlds[..i + 1], persona, limiter.minInterval)
          == ProcessUpdate(before, updates[i], worlds[i], persona, limiter.minInterval);
        if updates[i].message.Some? {
          HandleMessage(updates[i].message.value, worlds[i]);
        }
        i := i + 1;
      }
      assert updates[..i] == updates;
      assert worlds[..i] == worlds;
    }

    /** `_handle_message_sync`. */
    method HandleMessage(m: IncomingMessage, w: World)
      modifies this, notion, store, limiter
      ensures Snapshot() == Step(old(Snapshot()), m, w, persona, limiter.minInterval)
    {
      if !(m.fromId.Some? && m.fromId.value != 0 && m.chatId.Some? && m.chatId.value != 0 && m.text != []) {
        return;
      }
      ghost var s := Snapshot();
      ghost var mi := limiter.minInterval;
      var userId := m.fromId.value;
      var chatId := m.chatId.value;
      var text := m.text;
      var username := m.firstName.GetOr("Unknown");
      store.SaveConversation(userId, username, text, "USER", w.time);
      ghost var logged := Logged(s, m, w);
      StepByRoute(s, m, w, persona, mi);
      assert Snapshot() == logged;
      var isCommand := |text| > 0 && text[0] == '/';
      if isCommand && userId in adminUsers {
        var kind := ParseAdminCommand(text);
        if kind.Some? {
          assert RouteOf(s, m, w, mi) == AdminCommand(kind.value);
          HandleAdminCommand(kind.value, Argument(text), chatId, w);
          return;
        }
      }
      if isCommand {
        assert RouteOf(s, m, w, mi) == UserCommand;
        HandleCommand(text, chatId, userId, w);
        return;
      }
      if chatId < 0 {
        assert RouteOf(s, m, w, mi) == GroupChat;
        outbox := outbox + [Outgoing(chatId, Notify(GroupRedirect))];
        return;
      }
      assert RouteOf(s, m, w, mi) in {NotAllowed, Throttled, Conversation};
      HandlePrivateMessage(userId, chatId, text, w);
    }

    /** The authorization, rate-limit and conversation tail of `_handle_message_sync`. */
    method HandlePrivateMessage(userId: int, chatId: int, text: string, w: World)
      modifies this, notion, store, limiter
      ensures Snapshot() == PrivateStep(old(Snapshot()), userId, chatId, text, w, persona, limiter.minInterval)
    {
      var record, queried := notion.GetUserAuthorization(userId, w.now, w.authResponse);
      if !record.authorized {
        outbox := outbox + [Outgoing(chatId, Notify(NotAuthorized))];
        return;
      }
      var allowed, wait := limiter.CanMakeRequest(userId, w.now);
      if !allowed {
        outbox := outbox + [Outgoing(chatId, Notify(Wait(wait)))];
        return;
      }
      ProcessAiConversation(userId, chatId, text, record, w);
    }

    /** `_process_ai_conversation_sync`. */
    method ProcessAiConversation(userId: int, chatId: int, text: string, record: AuthRecord, w: World)
      modifies this, store
      ensures Snapshot() == ConversationStep(old(Snapshot()), userId, chatId, text, record, w, persona)
    {
      ghost var s := Snapshot();
      outbox := outbox + [Outgoing(chatId, Typing)];
      var recent := store.GetRecentMessages(userId, record.contextLines);
      assert recent == RecentMessages(s.files, userId, record.contextLines);
      var conversation := BuildConversationContext(persona, record.profileText, recent, text);
      prompts := prompts + [conversation];
      var reply := match w.backend
        case Answered(t) => if t != [] then t else NO_REPLY_MESSAGE
        case Failed => FAILURE_MESSAGE;
      assert reply == ReplyText(w.backend);
      assert DisplayId(userId, BOT_TAG) == BOT_TAG;
      store.SaveConversation(userId, BOT_NAME, reply, BOT_TAG, w.replyTime);
      assert store.files == AppendToFile(s.files, FileNameFor(BOT_NAME), BotLine(w));
      outbox := outbox + [Outgoing(chatId, Text(reply))];
      assert outbox == s.outbox + [Outgoing(chatId, Typing), Outgoing(chatId, Text(ReplyText(w.backend)))];
    }

    /** `_handle_admin_command_sync` once a command has fired. */
    method HandleAdminCommand(k: AdminKind, argument: string, chatId: int, w: World)
      modifies this, notion
      ensures Snapshot() == Apply(old(Snapshot()), AdminEffect(k, argument, w), chatId, w)
    {
      if k == ShowAdminHelp {
        outbox := outbox + [Outgoing(chatId, AdminHelp)];
      } else if k == RefreshAdmins {
        var ids := notion.GetAdminUsers(w.rosterResponse);
        adminUsers := ids;
        outbox := outbox + [Outgoing(chatId, Notify(AdminsRefreshed(|ids|)))];
      } else if k == AddId {
        AddById(argument, chatId, w);
      } else {
        ManageByHandle(k, argument, chatId, w);
      }
    }

    /** `_admin_add_user_sync` and its five siblings. */
    method ManageByHandle(k: AdminKind, handle: string, chatId: int, w: World)
      requires IsHandleKind(k)
      modifies this, notion
      ensures Snapshot() == Apply(old(Snapshot()), HandleEffect(k, handle, w), chatId, w)
    {
      var info := notion.FindUserByHandle(handle, w.handleResponse);
      if info.None? {
        assert HandleEffect(k, handle, w) == Effect([], false, false, Notify(UserNotFound(k, handle)));
        outbox := outbox + [Outgoing(chatId, Notify(UserNotFound(k, handle)))];
        return;
      }
      var user := info.value;
      if k == RemoveAdmin && user.telegramUserId == Some(ADMIN_USER_ID) {
        assert HandleEffect(k, handle, w) == Effect([], false, false, Notify(PrimaryAdminProtected));
        outbox := outbox + [Outgoing(chatId, Notify(PrimaryAdminProtected))];
        return;
      }
      assert HandleEffect(k, handle, w) == PatchEffect(k, handle, user, w);
      PatchUser(k, handle, user, chatId, w);
    }

    /** The patch and the answer of a handle command once the user is found. */
    method PatchUser(k: AdminKind, handle: string, user: UserInfo, chatId: int, w: World)
      modifies this, notion
      ensures Snapshot() == Apply(old(Snapshot()), PatchEffect(k, handle, user, w), chatId, w)
    {
      var (canChatBot, active, admin) := KindArgs(k);
      KindUpdatesNonEmpty(k);
      var success := notion.UpdateUserAccess(user.notionId, None, canChatBot, active, admin, w.writeSucceeds);
      if success {
        if k == MakeAdmin || k == RemoveAdmin {
          var ids := notion.GetAdminUsers(w.rosterResponse);
          adminUsers := ids;
        }
        outbox := outbox + [Outgoing(chatId, Notify(Updated(k, user.name, LStripChar(handle, '@'))))];
      } else {
        outbox := outbox + [Outgoing(chatId, Notify(UpdateFailed(k, handle)))];
      }
    }

    /** `_admin_add_by_id_sync`. */
    method AddById(argument: string, chatId: int, w: World)
      modifies this, notion
      ensures Snapshot() == Apply(old(Snapshot()), AddIdEffect(argument, w), chatId, w)
    {
      var parsed := ParseInt(argument);
      if parsed.None? {
        outbox := outbox + [Outgoing(chatId, Notify(InvalidId))];
        return;
      }
      var id := parsed.value;
      if w.chatInfo.None? {
        outbox := outbox + [Outgoing(chatId, Notify(FetchFailed(id)))];
        return;
      }
      var user := w.chatInfo.value;
      var success, created := notion.CreateUserFromTelegramData(user, id, w.writeSucceeds);
      if success {
        outbox := outbox + [Outgoing(chatId, Notify(UserCreated(user, id)))];
      } else {
        outbox := outbox + [Outgoing(chatId, Notify(CreateFailed(id)))];
      }
    }

    /** `_handle_command_sync`. */
    method HandleCommand(text: string, chatId: int, userId: int, w: World)
      modifies this
      ensures Snapshot() == old(Snapshot()).(outbox := old(outbox) + CommandReplies(text, chatId, userId in old(adminUsers), w.usersResponse))
    {
      var parts := SplitWhitespace(text);
      var command := if parts == [] then "" else ToLower(parts[0]);
      if command == "/start" {
        outbox := outbox + [Outgoing(chatId, Welcome)];
      } else if command == "/help" {
        outbox := outbox + [Outgoing(chatId, Help)];
      } else if command == "/status" {
        outbox := outbox + [Outgoing(chatId, Status)];
      } else if command == "/users" && userId in adminUsers {
        var users := notion.GetAllTelegramUsernames(w.usersResponse);
        var replies := UsersListReplies(chatId, users);
        outbox := outbox + replies;
      } else {
        outbox := outbox + [Outgoing(chatId, Notify(UnknownCommand))];
      }
    }

    /** `_send_users_list_sync`: build the listing, then send it whole or in chunks. */
    method UsersListReplies(chatId: int, users: seq<UserSummary>) returns (replies: seq<Outgoing>)
      ensures replies == UsersReplies(chatId, users)
    {
      if users == [] {
        return [Outgoing(chatId, Notify(NoUsers))];
      }
      var message := USERS_HEADER;
      var i := 0;
      while i < |users|
        invariant 0 <= i <= |users|
        invariant message == UsersText(users[..i])
      {
        assert users[..i + 1][..i] == users[..i];
        message := message + UserBlock(users[i]);
        i := i + 1;
      }
      assert users[..i] == users;
      if |message| > CHUNK_SIZE {
        var chunks := Chunks(message, CHUNK_SIZE);
        replies := seq(|chunks|, k requires 0 <= k < |chunks| => Outgoing(chatId, Text(chunks[k])));
      } else {
        replies := [Outgoing(chatId, Text(message))];
      }
    }
  }
}
