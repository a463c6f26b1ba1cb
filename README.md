# 10x Output General Manager — a verified model of the bot core

The system is a Telegram bot that puts a chat model in front of a company's employees.
Every message it receives is appended to a per-author text log. Commands and group
messages are answered directly. A private message from an employee whose Notion page
grants access, and who is within the per-user rate limit, is answered by the model.
The model's prompt holds a persona, a profile built from the employee's Notion page and
the last lines of that employee's log. Administrators on a roster loaded from Notion
manage access with slash commands. These commands patch or create Notion pages.

The model has seven modules, following the program's files:

- `Wrappers` (`wrappers.dfy`): the `Option` type.
- `Strings` (`strings.dfy`): the Python `str` operations the core relies on.
  - `strip`, `lstrip`, `split()`, `split('\n')`, `join`, `readlines` and `lower`;
  - `str(int)`, `int(str)` and `:.1f`.
- `Config` (`config.dfy`): the configuration constants the core reads.
- `FileOperations` (`file_operations.dfy`): the conversation store.
  - The `conversations` directory is a sequence of `(name, content)` files in listing order, held by the class `ConversationDir`.
  - Lookups find a user's log by content: the first `.txt` file holding `[ID: <id>]:`.
- `OpenAIIntegration` (`openai_integration.dfy`): the two-turn context handed to the chat backend, and the class `RateLimiter`.
- `Notion` (`notion.dfy`): Notion page properties and the profile text built from them.
  - The class `NotionClient` holds its authorization cache (records and expiry times) and a log of the write requests it has sent.
  - Also here: the admin roster, handle lookup, access patches, user creation and the user listing.
- `Bot` (`bot.dfy`): the bot itself.
  - Routing of one message (`Step`), the nine admin commands (`Effect`), the ordinary commands, the chunked user listing and polling.
  - The class `TelegramBot` holds the last update id, the roster, every message sent (`outbox`) and every prompt handed to the backend (`prompts`).

**How the state-changing code is checked.** Each state-changing method is proved equal to a pure function of the state before it:

- `TelegramBot.HandleMessage` ends in `Snapshot() == Step(old(Snapshot()), …)`;
- `ConversationDir.SaveConversation` ends in `files == AppendToFile(old(files), …)`.

The properties of the bot are lemmas about those functions.

**Inputs from outside.** Everything the outside world answers while a message is handled is an input, the `World` datatype:

- the clock and the two log timestamps;
- the four Notion query outcomes;
- whether a Notion write succeeds;
- the `getChat` answer;
- the chat backend's reply.

**Two consequences of finding logs by content.** Lookups search file contents for the user's marker `[ID: <id>]:`; file names play no part.

- *Bot replies go to a separate log.* A bot reply is saved with author name `10x GM AI` and tag `BOT_ID`, so it lands in `10x GM AI.txt`.
  - A reply whose text does not quote the sender's marker leaves the sender's history and conversation length as they were (`Bot.ReplyStaysOutOfHistory`).
  - So the history in later prompts holds only the user's own messages, never the bot's answers, although the `/help` text (k2_notion_general_manager.py:1217) tells users the bot remembers the conversation.
  - A reply that does quote the marker, for instance by repeating a history line, brings the marker into `10x GM AI.txt`.
  - If that file is listed before the user's own log, or the user has none, every later lookup for the user reads `10x GM AI.txt` (`FileOperations.ReplyWithMarkerTakesOverLog`).
- *Archived logs stay searchable.* Archiving only renames the file, and the new name still ends in `.txt`.
  - So the archived log is still the user's log for every lookup (`FileOperations.ArchiveKeepsHistory`).
- *A message of several lines reaches the history only in part.* Each line of the message becomes a line of the log, and the history filter keeps only lines holding `ID:`.
  - For a two-line message, the history gains the first line alone (`FileOperations.RecentAfterTwoLineMessage`, `Bot.PromptEndsWithFirstLine`).

## Model

| member | source | states |
|---|---|---|
| Strings.LStripSpec | file_operations.py:17 | `lstrip` removes exactly the leading whitespace: the result is a suffix, starts with a non-space, and everything cut is whitespace |
| Strings.RStripSpec | file_operations.py:17 | `rstrip` removes exactly the trailing whitespace: the result is a prefix, ends with a non-space, and everything cut is whitespace |
| Strings.StripEmptyIff | file_operations.py:18 | `strip()` gives the empty text exactly when the text is all whitespace |
| Strings.JoinSplit | file_operations.py:161 | splitting a text at a character and joining the pieces with it gives the text back |
| Strings.SplitJoin | openai_integration.py:89 | joining newline-free lines with `\n` and splitting at `\n` gives the lines back |
| Strings.ReadLinesConcat | file_operations.py:90 | the lines `readlines` returns, put back together, are the file's content |
| Strings.SplitWhitespace | k2_notion_general_manager.py:759 | `split()` yields only non-empty tokens |
| Strings.SplitWhitespaceEmpty | k2_notion_general_manager.py:759-761 | `split()` yields no token exactly when the text is all whitespace |
| Strings.FirstToken | k2_notion_general_manager.py:1115 | a text starting with a non-space has a first token, starting with that character |
| Strings.ToLowerIdempotent | k2_notion_general_manager.py:763 | lower-casing twice is lower-casing once |
| Strings.IntToString | file_operations.py:68 | `str(int)` is a non-empty run of digits, with an optional leading `-` |
| Strings.ParseIntToString | k2_notion_general_manager.py:948 | `int(str(i)) == i` for every integer |
| Strings.RoundHalfEven | k2_notion_general_manager.py:672 | the rounding behind `:.1f` gives an integer nearest to its argument, and at a tie, where both neighbours are half a unit away, the even one |
| FileOperations.ReplaceForbidden | file_operations.py:15 | each forbidden character (`<`, `>`, `:`, `"`, `/`, `\`, the vertical bar, `?`, `*`) becomes `_`, every other character is kept, and the length is unchanged |
| FileOperations.StripKeepsClean | file_operations.py:17 | stripping a name with no forbidden character leaves none |
| FileOperations.SanitizeFilename | file_operations.py:12-18 | the sanitized name is never empty, holds at most 50 characters and has no forbidden character |
| FileOperations.SanitizeKeepsCleanName | file_operations.py:12-18 | a name that is already clean, unpadded and at most 50 characters long is kept as it is |
| FileOperations.SanitizeBlankName | file_operations.py:18 | an empty or all-whitespace name becomes `unknown_user` |
| FileOperations.UserLineCarriesMarker | file_operations.py:41-42 | a line logged with author id `USER` carries the marker `[ID: <user id>]:` lookups search for |
| FileOperations.BotLineCarriesNoMarker | file_operations.py:41-42 | a line logged with tag `BOT_ID` carries a user's marker only when its text does (time and author hold no `[`) |
| FileOperations.ContainsBeforeNewline | file_operations.py:78 | a newline-free marker in a text followed by a newline is in the text |
| FileOperations.ResolveIndex | file_operations.py:70-82 | the resolved log is the first `.txt` file, in listing order, holding the marker; none when no file does |
| FileOperations.IndexOfName | file_operations.py:34 | the index of the first file of a name, or the listing's length when there is none |
| FileOperations.AppendToFile | file_operations.py:45-46 | appending grows the named file by exactly the line, creates a missing file at the end, and changes no other file |
| FileOperations.AppendKeepsWellFormed | file_operations.py:42-46 | appending a text that ends in a newline keeps every file ending with a complete line |
| FileOperations.ContainsAcrossLine | file_operations.py:78 | a newline-free marker found in a log plus an appended line is in the old log or in the line |
| FileOperations.MarkerHasNoNewline | file_operations.py:78 | the marker holds no newline |
| FileOperations.ResolveAfterAppend | file_operations.py:20-49 | where a user's log is after one append: unchanged for an unmarked line or a non-`.txt` name, otherwise the appended file unless an earlier file already matched |
| FileOperations.ResolveAfterForeignAppend | file_operations.py:20-49 | an append that brings no marker into a `.txt` file leaves the user's log where it was |
| FileOperations.ResolveAfterLaterAppend | file_operations.py:20-49 | an append to a file listed after the user's log leaves the log where it was |
| FileOperations.ResolveAfterFirstMatch | file_operations.py:20-49 | an append bringing the marker into a `.txt` file with no earlier match makes that file the user's log |
| FileOperations.AppendedFileMatches | file_operations.py:72-80 | after an append, the appended file matches exactly when it did before or the line brings the marker; the other files keep their match |
| FileOperations.ResolveUnique | file_operations.py:72-80 | the resolution is the unique first match, so it is fixed by which files match |
| FileOperations.LogEntries | file_operations.py:93 | there are as many entries as lines that are non-blank and hold `ID:` |
| FileOperations.LogEntriesInOrder | file_operations.py:93 | the entries are those lines stripped, each once and in file order: entry line `k` is at the position counting the entry lines before it |
| FileOperations.Window | file_operations.py:95 | `xs[-n:]`: the last `n` for `n > 0`, everything for `n == 0`, all but the first `-n` for `n < 0` |
| FileOperations.WindowOfAppended | file_operations.py:95 | once at least `n` newer items follow the older ones, the window is the last `n` of the newer ones |
| FileOperations.NonBlankCount | file_operations.py:162 | the count is the number of indices whose line is non-blank after `strip()` |
| FileOperations.NoLogNoHistory | file_operations.py:84-86 | a user with no log has no history and a conversation length of zero |
| FileOperations.FormatLineOneLine | file_operations.py:42 | a log line built from newline-free parts is exactly one complete line |
| FileOperations.FormatLineIsEntry | file_operations.py:42 | every log line passes the history filter (non-blank and holding `ID:`) |
| FileOperations.UserLineShape | file_operations.py:41-42 | a user's newline-free line is one complete line, passes the filter and carries the user's marker |
| FileOperations.ResolveAfterMarkedAppend | file_operations.py:20-49 | appending a marked line to a `.txt` file that is the user's log, or when there is none, makes that file the log |
| FileOperations.HistoryAfterUnmarkedAppend | file_operations.py:20-49 | appending an unmarked line to another file keeps the user's log, history and length |
| FileOperations.RecentAfterOwnLine | file_operations.py:51-101 | after saving a user's one-line message to the file named after them, their history is the old entries plus the new line's stripped form, windowed |
| FileOperations.FormatLineTwoLines | file_operations.py:42 | a text with a newline inside is logged as its first line, complete, followed by the rest |
| FileOperations.TwoLineEntries | file_operations.py:90-93 | after a complete text, an entry line and a line without `ID:` add just the entry |
| FileOperations.RecentAfterTwoLineMessage | file_operations.py:51-101 | after saving a two-line message whose second line lacks `ID:`, the history gains only the first line, stripped |
| FileOperations.ReplyNotInUserHistory | file_operations.py:20-49 | a bot reply logged as `10x GM AI` with `BOT_ID`, whose text does not quote the user's marker, leaves the history and length of a user whose log is another file as they were |
| FileOperations.ReplyWithMarkerTakesOverLog | file_operations.py:20-82 | a reply whose text quotes the user's marker makes its author's file the user's log when that file is listed before the user's log or the user has none |
| FileOperations.ArchivedName | file_operations.py:186-188 | the archived name still ends in `.txt` |
| FileOperations.ArchiveKeepsHistory | file_operations.py:170-197 | an archived log stays the user's log: the same resolution, history and length as before |
| FileOperations.ConversationDir.constructor | file_operations.py:7-10 | the directory starts with the files given |
| FileOperations.ConversationDir.SaveConversation | file_operations.py:20-49 | the directory becomes the old one with the formatted line appended to `<sanitized author>.txt` |
| FileOperations.ConversationDir.FindLog | file_operations.py:70-82 | the scan returns the resolved log of the user |
| FileOperations.ConversationDir.GetRecentMessages | file_operations.py:51-101 | returns the windowed, filtered, stripped lines of the resolved log; nothing without a log |
| FileOperations.ConversationDir.ConversationExists | file_operations.py:121-143 | true exactly when the user has a log |
| FileOperations.ConversationDir.GetConversationLength | file_operations.py:145-168 | the non-blank lines of the resolved log; zero without a log |
| FileOperations.ConversationDir.ArchiveConversation | file_operations.py:170-197 | renames the resolved log in place and returns whether there was one; no change without one |
| OpenAIIntegration.BuildConversationContext | openai_integration.py:99-103 | two turns: the system turn holding the system text (persona, profile section, history section, instructions), then the user's message verbatim |
| OpenAIIntegration.SystemContentLayout | openai_integration.py:83-86 | the system text starts with the persona, the profile header follows at once, and the profile section can be read back right after it |
| OpenAIIntegration.ProfilePlaceholderIff | openai_integration.py:86 | the profile placeholder appears exactly when the profile is blank (or is that very text) |
| OpenAIIntegration.ProfileVerbatim | openai_integration.py:86 | a non-blank profile is passed through unchanged |
| OpenAIIntegration.HistoryRecoverable | openai_integration.py:89 | the history section splits back at newlines into exactly the history lines, in order |
| OpenAIIntegration.NoHistoryPlaceholder | openai_integration.py:88-89 | with no history, the placeholder stands right under the history header |
| OpenAIIntegration.WaitTime | openai_integration.py:128-133 | the wait is never negative, at least the remaining interval, and either zero or exactly that interval |
| OpenAIIntegration.WaitZeroIffAllowed | openai_integration.py:117-133 | the wait is zero exactly when a request would be allowed |
| OpenAIIntegration.SecondRequestRefused | openai_integration.py:122-125 | after an allowed request at `t`, the same user is refused until `t + min_interval`, with a positive wait |
| OpenAIIntegration.OtherUsersUnaffected | openai_integration.py:125 | recording one user's request changes neither gate nor wait for another user |
| OpenAIIntegration.RateLimiter.constructor | openai_integration.py:113-115 | starts with the given interval, 2 seconds when none is given, and no user seen |
| OpenAIIntegration.RateLimiter.CanMakeRequest | openai_integration.py:117-126 | allowed exactly when the interval has passed; an allow records `now` and returns wait 0, a deny changes nothing and returns the positive remaining wait |
| OpenAIIntegration.RateLimiter.GetWaitTime | openai_integration.py:128-133 | read-only; returns the non-negative wait |
| Notion.Get | k2_notion_general_manager.py:222-229 | a property found is one of the page's, under that name; none found means no property has the name |
| Notion.NonEmpty | k2_notion_general_manager.py:274-288 | the non-empty items, all of them and nothing else |
| Notion.NonEmptyInOrder | k2_notion_general_manager.py:274-288 | in order and with repeats: one text per non-empty item, item `k` at the position counting the non-empty items before it |
| Notion.JoinNonEmptyIff | k2_notion_general_manager.py:274-288 | joining non-empty texts is empty exactly when there are none |
| Notion.ExtractTextEmptyIff | k2_notion_general_manager.py:269-305 | a rich text, title or multi-select shows nothing exactly when all its items are empty |
| Notion.ExtractNumberRoundTrip | k2_notion_general_manager.py:269-305 | a number shows as non-empty decimal text that parses back to it |
| Notion.ExtractCheckboxShows | k2_notion_general_manager.py:269-305 | a checkbox always shows, as `True` exactly when ticked |
| Notion.ProfilePartsSound | k2_notion_general_manager.py:232-246 | every profile line comes from a non-system property that shows text, as `name: text` |
| Notion.ProfilePartsComplete | k2_notion_general_manager.py:232-246 | every non-system property that shows text has its line in the profile |
| Notion.SystemFieldIgnored | k2_notion_general_manager.py:233-240 | a system field never changes the profile, whatever it holds |
| Notion.AdminFlagInProfile | k2_notion_general_manager.py:233-244 | the `admin` checkbox is not a system field, so it always ends up in the profile as `admin: True/False` |
| Notion.ContextLines | k2_notion_general_manager.py:229-251 | the context window is never zero, for the integer settings the model admits |
| Notion.ContextLinesValue | k2_notion_general_manager.py:229-251 | a stored non-zero `context_lines` number is the window; a zero, empty, missing or non-number setting gives the default of 20 |
| Notion.RecordGrantsOnlyByCheckbox | k2_notion_general_manager.py:228-253 | a record grants access exactly when `can_chat_bot` is a ticked checkbox |
| Notion.HitServedFromCache | k2_notion_general_manager.py:192-198 | an unexpired entry answers without a query and changes nothing |
| Notion.FailClosed | k2_notion_general_manager.py:213-218 | no response or no results denies, and the denial is cached for 300 seconds |
| Notion.ExceptionFallsBack | k2_notion_general_manager.py:262-267 | an exception returns the cached record, expired or not, and denies a user never cached, caching nothing |
| Notion.GrantRequiresRecord | k2_notion_general_manager.py:179-267 | access is granted only by a ticked checkbox on the first result page, fresh or from the cache |
| Notion.FetchedRecordIsCached | k2_notion_general_manager.py:192-257 | a record fetched at `now` is served unchanged and without a query until `now + 300` |
| Notion.Roster | k2_notion_general_manager.py:356-385 | the roster starts with the primary admin and has no duplicates |
| Notion.RosterMembers | k2_notion_general_manager.py:356-385 | an id is on the roster exactly when it is the primary admin or a non-zero `telegram_user_id` of a result page |
| Notion.AdminUsers | k2_notion_general_manager.py:356-385 | without a usable response, the roster is only the primary admin |
| Notion.HandleMatchNormalises | k2_notion_general_manager.py:399-420 | matching ignores a leading `@` on the handle looked up and its letter case |
| Notion.LStripLower | k2_notion_general_manager.py:420 | stripping `@` commutes with lower-casing |
| Notion.FirstHandleMatch | k2_notion_general_manager.py:414-425 | the index of the first page whose stored handle matches, or the page count |
| Notion.FindByHandle | k2_notion_general_manager.py:387-438 | a user found has a stored handle that matches the one looked up |
| Notion.FindByHandleNoneIff | k2_notion_general_manager.py:387-438 | nothing is found exactly when no page carries a matching handle |
| Notion.UpdateForAppend | k2_notion_general_manager.py:451-467 | the first update of a field in two joined patches is the first part's, if any |
| Notion.UpdateForFour | k2_notion_general_manager.py:451-467 | the same for four joined patch parts |
| Notion.FieldUpdatesExact | k2_notion_general_manager.py:451-470 | a patch sets exactly the fields whose argument was given, each once and to that argument; it is empty exactly when no argument was given |
| Notion.NewUserShape | k2_notion_general_manager.py:488-538 | a created user is active, can chat, is not an admin, has an unpadded name, and has an `@` handle exactly when Telegram gave a username |
| Notion.NewUserUnknownName | k2_notion_general_manager.py:503-505 | a user with no name on Telegram is created as `Unknown` |
| Notion.Summaries | k2_notion_general_manager.py:307-354 | one row per result page, row `k` summarising page `k`; none without a usable response |
| Notion.NotionClient.constructor | k2_notion_general_manager.py:138-151 | empty caches and no writes |
| Notion.NotionClient.GetUserAuthorization | k2_notion_general_manager.py:179-267 | the record, whether Notion was queried and the new caches are those of `Authorize`; no write is sent |
| Notion.NotionClient.CollectProfileParts | k2_notion_general_manager.py:232-246 | the loop produces the profile lines `ProfileParts` describes |
| Notion.NotionClient.GetAdminUsers | k2_notion_general_manager.py:356-385 | returns the roster of the response, headed by the primary admin and without duplicates |
| Notion.NotionClient.FindUserByHandle | k2_notion_general_manager.py:387-438 | returns the first page in response order whose handle matches |
| Notion.NotionClient.UpdateUserAccess | k2_notion_general_manager.py:440-486 | with nothing to set, no request and `false`; otherwise the patch is sent and the result is its outcome; a success clears both caches, a failure keeps them |
| Notion.NotionClient.CreateUserFromTelegramData | k2_notion_general_manager.py:488-538 | sends the new page for the Telegram user; a success clears both caches |
| Notion.NotionClient.GetAllTelegramUsernames | k2_notion_general_manager.py:307-354 | one summary per result page, in order; none without a usable response |
| Bot.FormatMessageForDisplay | k2_notion_general_manager.py:125-129 | the display text is the log line without its newline and carries the `[ID: …]:` tag (nothing in the program calls this function) |
| Bot.NotFoundQuotesHandle | k2_notion_general_manager.py:843-845 | a not-found notice quotes the handle as typed |
| Bot.FailureQuotesHandle | k2_notion_general_manager.py:839-843 | a failed-update notice quotes the handle as typed |
| Bot.FetchFailedQuotesId | k2_notion_general_manager.py:968 | a failed fetch quotes the id |
| Bot.CreateFailedQuotesId | k2_notion_general_manager.py:966 | a failed creation quotes the id |
| Bot.CreatedQuotesIdAndHandle | k2_notion_general_manager.py:960-963 | the creation notice quotes the id and the username (or `No handle`) |
| Bot.KindNamedIff | k2_notion_general_manager.py:763-800 | the command chain picks a command exactly by its name, with an argument where one is needed |
| Bot.ParseAdminCommandIff | k2_notion_general_manager.py:758-802 | a text fires an admin command exactly when its first word, lower-cased, names it and an argument follows where one is needed |
| Bot.BlankTextNoAdminCommand | k2_notion_general_manager.py:759-761 | a blank text fires no admin command |
| Bot.KindUpdatesNonEmpty | k2_notion_general_manager.py:833-837 | every handle command sets at least one field, so its patch is always sent |
| Bot.OnlyRosterCommandsReload | k2_notion_general_manager.py:1089-1094 | only `/make_admin`, `/remove_admin` and `/refresh_admins` reload the roster |
| Bot.AddIdWritesAtMostOne | k2_notion_general_manager.py:937-974 | `/add_id` writes at most one page and clears the caches exactly after a successful creation |
| Bot.PatchWritesOne | k2_notion_general_manager.py:1030-1041 | a patch of a found user is one write, and the caches are cleared exactly when it succeeds |
| Bot.HandleWritesAtMostOne | k2_notion_general_manager.py:804-1045 | a handle command writes at most one page and clears the caches exactly after a successful write |
| Bot.AdminWritesAtMostOne | k2_notion_general_manager.py:749-1094 | every admin command writes at most one page and clears the caches exactly after a successful write |
| Bot.HandleCommandWrites | k2_notion_general_manager.py:804-1045 | a handle command writes exactly when the user is found (and, for `/remove_admin`, is not the primary admin), patching the fields that command names |
| Bot.PrimaryAdminNeverDemoted | k2_notion_general_manager.py:1023-1028 | `/remove_admin` aimed at the primary admin sends no patch, keeps the roster and answers with the protection notice |
| Bot.ListingHasEvery | k2_notion_general_manager.py:1142-1152 | a header followed by one block per item, in order, starts with the header and contains every item's block |
| Bot.UsersTextHasEveryUser | k2_notion_general_manager.py:1142-1152 | the listing starts with its header and holds every user's block |
| Bot.Chunks | k2_notion_general_manager.py:1157 | every chunk is non-empty and at most the chunk size |
| Bot.ChunksConcat | k2_notion_general_manager.py:1157 | the chunks put back together are the text, and all but the last are full |
| Bot.ChunksOfShort | k2_notion_general_manager.py:1156-1161 | a non-empty text that fits is a single chunk |
| Bot.UsersRepliesCoverListing | k2_notion_general_manager.py:1134-1161 | the texts sent for a non-empty listing, joined, are the listing, each at most 4000 characters and to the same chat |
| Bot.UsersListForAdminsOnly | k2_notion_general_manager.py:1111-1128 | `/users` sends the listing to an admin and the unknown-command notice to anyone else |
| Bot.CommandTextHasCommand | k2_notion_general_manager.py:1115 | a text starting with `/` has a first word, and it starts with `/` |
| Bot.ReplyText | k2_notion_general_manager.py:709-745 | the answer is never empty: the backend's reply, or the fixed apology when it is empty or the conversation failed |
| Bot.IncompleteMessageIgnored | k2_notion_general_manager.py:636-637 | a message without sender, chat or text changes nothing |
| Bot.CompleteMessageRouted | k2_notion_general_manager.py:636-676 | a complete message is always handled |
| Bot.UserLineLoggedFirst | k2_notion_general_manager.py:639-676 | every complete message is logged under the sender's name first; only a conversation adds one more line, the bot's |
| Bot.PrivateStepFiles | k2_notion_general_manager.py:660-676 | the private tail writes the bot's line exactly when the sender is authorized and within the rate limit |
| Bot.OnlyConversationReachesModel | k2_notion_general_manager.py:627-747 | only a complete, private, non-command message from an authorized sender within the limit reaches the backend, and then once |
| Bot.ConversationPrompt | k2_notion_general_manager.py:692-705 | the prompt holds the persona, the sender's profile, the last `context_lines` entries of the sender's log, and the message |
| Bot.PromptEndsWithOwnMessage | k2_notion_general_manager.py:639-693 | for a message, sender name and time without newlines, when the sender's log is the file named after them (or they have none), the newest history entry is the message being answered |
| Bot.PromptEndsWithFirstLine | k2_notion_general_manager.py:639-693 | for a two-line message whose second line lacks `ID:`, under the same conditions, the newest history entry is the message's first line only |
| Bot.ReplyStaysOutOfHistory | k2_notion_general_manager.py:709-745 | a bot reply that does not quote the sender's marker does not show in the sender's later history or conversation length |
| Bot.GroupMessageRedirected | k2_notion_general_manager.py:654-658 | a group message that is no command gets the redirect notice, and Notion is not asked |
| Bot.UnauthorizedSenderNotified | k2_notion_general_manager.py:660-666 | an unauthorized sender gets the access notice only: no prompt, no rate-limit record, no write, no reply logged |
| Bot.ThrottledSenderWaits | k2_notion_general_manager.py:668-673 | a rate-limited sender is told a positive wait, and the limiter keeps its record |
| Bot.StepKeepsRoster | k2_notion_general_manager.py:627-676 | a roster headed by the primary admin without duplicates stays so through every message |
| Bot.PrivateStepKeepsRoster | k2_notion_general_manager.py:660-676 | authorization, rate limiting and conversation never touch the roster |
| Bot.StepKeepsWellFormed | k2_notion_general_manager.py:627-747 | every message keeps every log ending with a complete line |
| Bot.OffsetFollowsBatch | k2_notion_general_manager.py:599-614 | after a batch ending in a non-zero id the next poll asks for the updates after it; an empty batch asks again from the same point |
| Bot.ProcessAllKeepsInvariants | k2_notion_general_manager.py:566-597 | a whole batch keeps both the roster invariant and well-formed logs |
| Bot.TelegramBot.constructor | k2_notion_general_manager.py:547-564 | the bot starts with the roster loaded from Notion, no update seen, nothing sent; its limiter is the shared `RateLimiter()` (openai_integration.py:136), so its interval is 2 seconds |
| Bot.TelegramBot.IsAdminUser | k2_notion_general_manager.py:1130-1132 | true exactly for roster members |
| Bot.TelegramBot.GetUpdates | k2_notion_general_manager.py:599-617 | sends the offset after the last update seen, returns the batch (nothing on failure), and records its last id |
| Bot.TelegramBot.ProcessUpdates | k2_notion_general_manager.py:566-625 | handles each update of a batch in order; the new state is `ProcessAll` of the old |
| Bot.TelegramBot.HandleMessage | k2_notion_general_manager.py:627-676 | the new state is `Step` of the old |
| Bot.TelegramBot.HandlePrivateMessage | k2_notion_general_manager.py:660-676 | the new state is `PrivateStep` of the old |
| Bot.TelegramBot.ProcessAiConversation | k2_notion_general_manager.py:678-747 | the new state is `ConversationStep` of the old |
| Bot.TelegramBot.HandleAdminCommand | k2_notion_general_manager.py:749-802 | the new state is the old one with the command's `AdminEffect` applied |
| Bot.TelegramBot.ManageByHandle | k2_notion_general_manager.py:804-935 | the new state is the old one with the handle command's effect applied |
| Bot.TelegramBot.PatchUser | k2_notion_general_manager.py:829-847 | the new state is the old one with the patch effect applied |
| Bot.TelegramBot.AddById | k2_notion_general_manager.py:937-974 | the new state is the old one with the `/add_id` effect applied |
| Bot.TelegramBot.HandleCommand | k2_notion_general_manager.py:1111-1128 | only the outbox changes, by the command's replies |
| Bot.TelegramBot.UsersListReplies | k2_notion_general_manager.py:1134-1165 | returns the replies `UsersReplies` describes |

## Left out

- HTTP and the Telegram, Notion and OpenAI wire formats: every answer of the outside world is an input (`QueryResult`, `World`).
  - `_make_request` and `_get_telegram_user_info` are not modelled beyond their outcome.
  - `chat_with_openai` is an input too. It yields a text, including its own fallback texts, or `Failed` when the conversation code raises.
- `start_polling` beyond one batch: the `running` flag, `stop`, the five-second back-off, `KeyboardInterrupt`, and `GMBotApp` with its health server and signals.
  - These are process control and timing.
- Logging and correlation ids, and the `DEBUG` prints: no effect on state.
- Clocks: the time of a request and the log and archive timestamps are inputs.
  - Chicago-time formatting, `strftime` and `time.time()` are not modelled.
- Floating point: time is a real number.
  - `:.1f` is modelled as round-half-even on exact reals.
  - Binary floating-point rounding at the half is not modelled.
- Directory listing order is the order of the sequence, and a new file is added at the end.
  - `os.listdir` promises no order.
  - A file that cannot be read is not modelled (the source skips it).
- FileOperations.ConversationDir.SaveConversation: the write is taken to succeed.
  - When opening or writing the file fails, the source reports the error and carries on with the log unchanged (file_operations.py:44-49); the model always appends.
- FileOperations.ConversationDir.ArchiveConversation: the rename is taken to succeed.
  - When it fails, the source goes on to the next matching file (file_operations.py:192-193); the model does not follow it there.
  - When a file with the archive name already exists, `os.rename` replaces it (file_operations.py:189); the model keeps both entries, so the listing can hold two files of that name.
- Strings.ReadLines and FileOperations.ConversationLength: line endings are read as stored.
  - Python reads the logs in text mode, which turns `\r\n` and a lone `\r` into `\n` (file_operations.py:90 and 159).
  - A message or name holding `\r` is therefore split differently by the source.
- `ensure_conversations_dir` and `read_file`.
  - The directory is assumed to exist.
  - `read_file` is unused by the core.
- Encodings: texts are sequences of characters.
  - Letter case: `lower()` is modelled for ASCII letters only.
- Strings.ParseInt: Python's `int()` also accepts surrounding whitespace and decimal digits outside ASCII.
  - The argument comes from `split()`, so it has no whitespace.
  - Only the digits `0` to `9` are modelled.
- Notion numbers are integers; fractional values are not modelled.
- Notion.ContextLines: a fractional `context_lines` such as 0.5 or -0.5 is truthy, and `int()` truncates it to 0 (k2_notion_general_manager.py:251).
  - `get_recent_messages(user_id, 0)` then takes `user_messages[-0:]`, the whole history (file_operations.py:95).
  - The model has integer settings only, so its window is never zero; this whole-history case is not modelled.
  - A `date` property is a dictionary in Notion; the model treats it as a text and does not spell out Python's `repr` of the dictionary.
- The usage messages of the admin handlers (`Usage: /add @username` and the rest) cannot be reached.
  - The command chain only dispatches with an argument present, so these messages are not modelled.
- The welcome, help, status and admin-help texts, and the typing indicator, are fixed bodies (`Welcome`, `Help`, `Status`, `AdminHelp`, `Typing`); their HTML is not spelled out.
  - The status text's uptime is not modelled.
- After its reply, `_refresh_admin_list_sync` repeats the body of `_handle_command_sync`. That code refers to an undefined `message` and raises.
  - The nearest `except`, in `_process_update_sync`, swallows the exception, so observably the command ends after its reply. The model ends it there.
- The `entities` loop of `/add` has no effect and is not modelled.
- Exceptions inside the admin handlers and the users listing: their messages quote Python exception texts, so they are not modelled.
  - These are `❌ Error processing user ID …` and `Error retrieving users list.`.
  - A failed Notion write is modelled as a `false` outcome.
- Transport failures of `send_message` and `send_typing`: a sent message is appended to `outbox`.
- `MESSAGE_RATE_LIMIT` is not read by the core: the limiter is built with its default interval (`DEFAULT_MIN_INTERVAL`, 2 seconds), which the bot's constructor requires of its limiter.
- `Notion.NotionClient.GetUserAuthorization` takes the time `now` as an input.
  - The Notion query filter (`active` and `telegram_user_id`) is applied by Notion, so the response is an input.
