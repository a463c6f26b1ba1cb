/**
 * The conversation store: one append-only text file per author name in the
 * `conversations` directory, each line `<time> <author> [ID: <id>]: --- <text>`.
 * A user's log is found by content, not by name: it is the first `.txt` file,
 * in listing order, whose text holds the marker `[ID: <user id>]:`.
 *
 * The directory is a sequence of files in listing order. A file created by an
 * append goes at the end of the listing; a rename keeps its place.
 */
module FileOperations {
  import opened Wrappers
  import opened Strings

  // ---------------------------------------------------------------------------
  // File names
  // ---------------------------------------------------------------------------

  /** Characters replaced by `_` in a file name. */
  predicate IsForbidden(c: char) {
    c == '<' || c == '>' || c == ':' || c == '"' || c == '/' || c == '\\' || c == '|' || c == '?' || c == '*'
  }

  const FALLBACK_NAME: string := "unknown_user"
  const MAX_NAME_LENGTH: nat := 50

  /** No character of `s` is forbidden in a file name. */
  predicate Clean(s: string) {
    forall k :: 0 <= k < |s| ==> !IsForbidden(s[k])
  }

  function ReplaceForbidden(s: string): (r: string)
    ensures |r| == |s| && Clean(r)
    ensures forall k :: 0 <= k < |s| ==> r[k] == if IsForbidden(s[k]) then '_' else s[k]
  {
    seq(|s|, k requires 0 <= k < |s| => if IsForbidden(s[k]) then '_' else s[k])
  }

  /** `s.strip()` is a slice of `s`, so it keeps `s` clean. */
  lemma StripKeepsClean(s: string)
    requires Clean(s)
    ensures Clean(Strip(s))
  {
    var r := RStrip(s);
    var t := LStrip(r);
    RStripSpec(s);
    LStripSpec(r);
    forall k | 0 <= k < |t| ensures !IsForbidden(t[k]) {
      assert t[k] == r[|r| - |t| + k] == s[|r| - |t| + k];
    }
  }

  /** `sanitize_filename`: a non-empty name of at most 50 characters with no forbidden character. */
  function SanitizeFilename(name: string): (r: string)
    ensures r != []
    ensures |r| <= MAX_NAME_LENGTH
    ensures Clean(r)
  {
    var clean := ReplaceForbidden(name);
    var t := Strip(clean);
    StripKeepsClean(clean);
    var cut := if |t| <= MAX_NAME_LENGTH then t else t[..MAX_NAME_LENGTH];
    assert Clean(cut);
    if cut == [] then FALLBACK_NAME else cut
  }

  /** A name that is already clean (no forbidden character, no edge whitespace, 1 to 50 characters) is kept as it is. */
  lemma SanitizeKeepsCleanName(name: string)
    requires 0 < |name| <= MAX_NAME_LENGTH
    requires Clean(name)
    requires !IsSpace(name[0]) && !IsSpace(name[|name| - 1])
    ensures SanitizeFilename(name) == name
  {
    assert ReplaceForbidden(name) == name;
    assert RStrip(name) == name;
    assert LStrip(name) == name;
  }

  /** An empty or all-whitespace author name falls back to `unknown_user`. */
  lemma SanitizeBlankName(name: string)
    requires AllSpace(name)
    ensures SanitizeFilename(name) == FALLBACK_NAME
  {
    var r := ReplaceForbidden(name);
    assert AllSpace(r) by {
      forall k | 0 <= k < |r| ensures IsSpace(r[k]) {
        assert IsSpace(name[k]);
      }
    }
    StripEmptyIff(r);
  }

  /** The file an author's messages are appended to, relative to the directory. */
  function FileNameFor(authorName: string): string {
    SanitizeFilename(authorName) + ".txt"
  }

  // ---------------------------------------------------------------------------
  // Log lines
  // ---------------------------------------------------------------------------

  /** The id shown in a log line: the user's number for `"USER"`, otherwise the role tag itself. */
  function DisplayId(userId: int, authorId: string): string {
    if authorId == "USER" then IntToString(userId) else authorId
  }

  /** One log line as written to the file, with its newline. */
  function FormatLine(time: string, authorName: string, displayId: string, content: string): string {
    time + " " + authorName + " [ID: " + displayId + "]: --- " + content + "\n"
  }

  /** The text searched for to find a user's log. */
  function Marker(userId: int): string {
    "[ID: " + IntToString(userId) + "]:"
  }

  /** A line logged for a `"USER"` author carries that user's marker. */
  lemma UserLineCarriesMarker(time: string, authorName: string, userId: int, content: string)
    ensures Contains(FormatLine(time, authorName, DisplayId(userId, "USER"), content), Marker(userId))
  {
    var a := time + " " + authorName + " ";
    var b := " --- " + content + "\n";
    assert FormatLine(time, authorName, DisplayId(userId, "USER"), content) == a + Marker(userId) + b;
    ContainsMiddle(a, Marker(userId), b);
  }

  /**
   * A line logged with the role tag `"BOT_ID"` carries a user's marker only when its text
   * does: the time and the author name hold no `[`, the `[` of `[ID: BOT_ID]:` cannot
   * start a marker since no user id starts with `B`, and a marker, having no newline,
   * cannot run past the text into the final `\n`.
   */
  lemma BotLineCarriesNoMarker(time: string, authorName: string, botUser: int, content: string, userId: int)
    requires '[' !in time && '[' !in authorName && !Contains(content, Marker(userId))
    ensures !Contains(FormatLine(time, authorName, DisplayId(botUser, "BOT_ID"), content), Marker(userId))
  {
    var m := Marker(userId);
    var a := time + " " + authorName + " ";
    var tag := "ID: BOT_ID]: --- ";
    var b := "[" + (tag + (content + "\n"));
    assert DisplayId(botUser, "BOT_ID") == "BOT_ID";
    BotLineLayout(time, authorName, content);
    assert |m| > 5 && m[0] == '[' && m[5] != 'B' by {
      assert m == "[ID: " + IntToString(userId) + "]:";
    }
    assert '[' !in a && '[' !in tag;
    ContainsSkipPrefix(a, b, m);
    assert b[5] == 'B' && b[1..] == tag + (content + "\n");
    assert !(m <= b);
    ContainsSkipPrefix(tag, content + "\n", m);
    MarkerHasNoNewline(userId);
    ContainsBeforeNewline(content, m);
  }

  /** A bot line split at its only `[`. */
  lemma BotLineLayout(time: string, authorName: string, content: string)
    ensures FormatLine(time, authorName, "BOT_ID", content)
      == (time + " " + authorName + " ") + ("[" + ("ID: BOT_ID]: --- " + (content + "\n")))
  {
  }

  /** A pattern without a newline that occurs in `s + "\n"` occurs in `s`. */
  lemma {:induction false} ContainsBeforeNewline(s: string, p: string)
    requires '\n' !in p
    ensures Contains(s + "\n", p) ==> Contains(s, p)
    decreases |s|
  {
    var t := s + "\n";
    assert t[|s|] == '\n';
    if p <= t {
      assert |p| <= |s|;
      assert p <= s;
    } else if s != [] {
      assert t[1..] == s[1..] + "\n";
      ContainsBeforeNewline(s[1..], p);
    }
  }

  // ---------------------------------------------------------------------------
  // The directory
  // ---------------------------------------------------------------------------

  datatype LogFile = LogFile(name: string, content: string)

  /** Whether `f` is the log of `userId`: a `.txt` file holding the user's marker. */
  predicate MatchesUser(f: LogFile, userId: int) {
    EndsWith(f.name, ".txt") && Contains(f.content, Marker(userId))
  }

  /** The log every lookup for `userId` uses: the first matching file in listing order. */
  function ResolveIndex(files: seq<LogFile>, userId: int): (r: Option<nat>)
    ensures r.Some? ==> r.value < |files| && MatchesUser(files[r.value], userId)
    ensures r.Some? ==> forall j :: 0 <= j < r.value ==> !MatchesUser(files[j], userId)
    ensures r.None? ==> forall j :: 0 <= j < |files| ==> !MatchesUser(files[j], userId)
  {
    if files == [] then None
    else if MatchesUser(files[0], userId) then Some(0)
    else match ResolveIndex(files[1..], userId)
      case None => None
      case Some(i) => Some(i + 1)
  }

  /** Every file ends with a complete line, as every file written only by `SaveConversation` does. */
  predicate WellFormed(files: seq<LogFile>) {
    forall j :: 0 <= j < |files| ==> EndsLine(files[j].content)
  }

  /** Index of the first file called `name`, or `|files|` when there is none. */
  function IndexOfName(files: seq<LogFile>, name: string): (i: nat)
    ensures i <= |files|
    ensures i < |files| ==> files[i].name == name
    ensures forall j :: 0 <= j < i ==> files[j].name != name
  {
    if files == [] then 0 else if files[0].name == name then 0 else 1 + IndexOfName(files[1..], name)
  }

  /** What the file called `name` holds; a missing file holds nothing. */
  function ContentOf(files: seq<LogFile>, name: string): string {
    var i := IndexOfName(files, name);
    if i < |files| then files[i].content else ""
  }

  /**
   * Opening `name` for append and writing `line`: the file's content grows by exactly
   * `line` (a missing file is created at the end of the listing), and no other file changes.
   */
  function AppendToFile(files: seq<LogFile>, name: string, line: string): (r: seq<LogFile>)
    ensures var i := IndexOfName(files, name);
      && |r| == (if i < |files| then |files| else |files| + 1)
      && r[i] == LogFile(name, ContentOf(files, name) + line)
      && forall j :: 0 <= j < |files| && j != i ==> r[j] == files[j]
  {
    var i := IndexOfName(files, name);
    if i < |files| then files[i := LogFile(name, files[i].content + line)]
    else files + [LogFile(name, line)]
  }

  /** Appending a text that ends with a newline keeps every file ending with a complete line. */
  lemma AppendKeepsWellFormed(files: seq<LogFile>, name: string, line: string)
    requires WellFormed(files) && line != [] && line[|line| - 1] == '\n'
    ensures WellFormed(AppendToFile(files, name, line))
  {
    var r := AppendToFile(files, name, line);
    var i := IndexOfName(files, name);
    forall j | 0 <= j < |r| ensures EndsLine(r[j].content) {
      if j == i {
        assert r[j].content[|r[j].content| - 1] == line[|line| - 1];
      }
    }
  }

  /** Every prefix of `c + l` that reaches past the end of the line `c` holds a newline. */
  lemma LongPrefixHasNewline(c: string, l: string)
    requires c != [] && EndsLine(c)
    ensures forall k :: |c| <= k <= |c| + |l| ==> '\n' in (c + l)[..k]
  {
    forall k | |c| <= k <= |c| + |l| ensures '\n' in (c + l)[..k] {
      assert (c + l)[..k][|c| - 1] == '\n';
    }
  }

  /** An occurrence of a newline-free pattern in `c + l`, where `c` ends a line, lies in `c` or in `l`. */
  lemma {:induction false} ContainsAcrossLine(c: string, l: string, p: string)
    requires EndsLine(c) && '\n' !in p
    requires Contains(c + l, p)
    ensures Contains(c, p) || Contains(l, p)
    decreases |c|
  {
    if c == [] {
      assert c + l == l;
    } else if p <= c + l {
      LongPrefixHasNewline(c, l);
      assert (c + l)[..|p|] == p;
      assert p <= c;
    } else {
      assert (c + l)[1..] == c[1..] + l;
      assert EndsLine(c[1..]);
      ContainsAcrossLine(c[1..], l, p);
      if Contains(c[1..], p) {
        assert Contains(c, p);
      }
    }
  }

  lemma MarkerHasNoNewline(userId: int)
    ensures '\n' !in Marker(userId)
  {
    var d := IntToString(userId);
    assert Marker(userId) == "[ID: " + d + "]:";
    forall k | 0 <= k < |Marker(userId)| ensures Marker(userId)[k] != '\n' {
      if 5 <= k < 5 + |d| {
        assert Marker(userId)[k] == d[k - 5];
      }
    }
  }

  /**
   * Where a user's log is after an append of one line to the file `name`. A line without
   * the user's marker leaves the resolution as it was; a line with it makes `name` the
   * log unless an earlier file already was.
   */
  lemma ResolveAfterAppend(files: seq<LogFile>, name: string, line: string, userId: int)
    requires WellFormed(files)
    ensures var r := AppendToFile(files, name, line);
      var j := IndexOfName(files, name);
      var before := ResolveIndex(files, userId);
      ResolveIndex(r, userId) ==
        if !Contains(line, Marker(userId)) || !EndsWith(name, ".txt") then before
        else if before.Some? && before.value < j then before
        else Some(j)
  {
    var m := Marker(userId);
    var before := ResolveIndex(files, userId);
    if !Contains(line, m) || !EndsWith(name, ".txt") {
      ResolveAfterForeignAppend(files, name, line, userId);
    } else if before.Some? && before.value < IndexOfName(files, name) {
      ResolveAfterLaterAppend(files, name, line, userId);
    } else {
      ResolveAfterFirstMatch(files, name, line, userId);
    }
  }

  /** An append that does not bring the marker into a `.txt` file changes no match, so the resolution stays. */
  lemma ResolveAfterForeignAppend(files: seq<LogFile>, name: string, line: string, userId: int)
    requires WellFormed(files)
    requires !Contains(line, Marker(userId)) || !EndsWith(name, ".txt")
    ensures ResolveIndex(AppendToFile(files, name, line), userId) == ResolveIndex(files, userId)
  {
    var r := AppendToFile(files, name, line);
    var j := IndexOfName(files, name);
    var before := ResolveIndex(files, userId);
    AppendedFileMatches(files, name, line, userId);
    ResolveUnique(r, userId);
    forall k | 0 <= k < |r| ensures MatchesUser(r[k], userId) <==> k < |files| && MatchesUser(files[k], userId) {
      if k == j && j == |files| {
        assert !Contains(ContentOf(files, name), Marker(userId));
      }
    }
    if before.Some? {
      assert MatchesUser(r[before.value], userId);
    }
  }

  /** An append to a file listed after the user's log leaves the log where it was. */
  lemma ResolveAfterLaterAppend(files: seq<LogFile>, name: string, line: string, userId: int)
    requires WellFormed(files)
    requires ResolveIndex(files, userId).Some? && ResolveIndex(files, userId).value < IndexOfName(files, name)
    ensures ResolveIndex(AppendToFile(files, name, line), userId) == ResolveIndex(files, userId)
  {
    var r := AppendToFile(files, name, line);
    var before := ResolveIndex(files, userId);
    ResolveUnique(r, userId);
    assert r[before.value] == files[before.value];
    assert MatchesUser(r[before.value], userId);
  }

  /** An append bringing the marker into a `.txt` file with no earlier match makes that file the log. */
  lemma ResolveAfterFirstMatch(files: seq<LogFile>, name: string, line: string, userId: int)
    requires WellFormed(files)
    requires Contains(line, Marker(userId)) && EndsWith(name, ".txt")
    requires var before := ResolveIndex(files, userId);
      !(before.Some? && before.value < IndexOfName(files, name))
    ensures ResolveIndex(AppendToFile(files, name, line), userId) == Some(IndexOfName(files, name))
  {
    var r := AppendToFile(files, name, line);
    var j := IndexOfName(files, name);
    assert MatchesUser(r[j], userId) by {
      AppendedFileMatches(files, name, line, userId);
    }
    forall k | 0 <= k < j ensures !MatchesUser(r[k], userId) {
      assert r[k] == files[k];
    }
    ResolveUnique(r, userId);
  }

  /** The appended file matches exactly when it did before or the line brings the marker; the other files keep their match. */
  lemma AppendedFileMatches(files: seq<LogFile>, name: string, line: string, userId: int)
    requires WellFormed(files)
    ensures var r := AppendToFile(files, name, line);
      var j := IndexOfName(files, name);
      var m := Marker(userId);
      && (MatchesUser(r[j], userId) <==> EndsWith(name, ".txt") && (Contains(ContentOf(files, name), m) || Contains(line, m)))
      && (j < |files| ==> (MatchesUser(files[j], userId) <==> EndsWith(name, ".txt") && Contains(ContentOf(files, name), m)))
      && (j == |files| ==> !Contains(ContentOf(files, name), m))
  {
    var m := Marker(userId);
    var c := ContentOf(files, name);
    MarkerHasNoNewline(userId);
    assert EndsLine(c);
    if Contains(c + line, m) {
      ContainsAcrossLine(c, line, m);
    }
    if Contains(c, m) { ContainsExtendRight(c, line, m); }
    if Contains(line, m) { ContainsExtendLeft(c, line, m); }
    assert m[0] == '[';
  }

  /** The resolution is the unique first match, so it is fixed by which files match. */
  lemma ResolveUnique(files: seq<LogFile>, userId: int)
    ensures forall i :: (0 <= i < |files| && MatchesUser(files[i], userId)
                         && (forall j :: 0 <= j < i ==> !MatchesUser(files[j], userId)))
                        ==> ResolveIndex(files, userId) == Some(i)
    ensures (forall j :: 0 <= j < |files| ==> !MatchesUser(files[j], userId))
      ==> ResolveIndex(files, userId) == None
  {
    var r := ResolveIndex(files, userId);
    forall i | 0 <= i < |files| && MatchesUser(files[i], userId) && (forall j :: 0 <= j < i ==> !MatchesUser(files[j], userId))
      ensures r == Some(i)
    {
      assert r.Some?;
      assert !(r.value < i);
      assert !(i < r.value);
    }
    if r.Some? {
      assert MatchesUser(files[r.value], userId);
    }
  }

  // ---------------------------------------------------------------------------
  // Reading a log back
  // ---------------------------------------------------------------------------

  /** The lines `get_recent_messages` keeps: non-blank and holding `ID:`. */
  predicate IsEntry(line: string) {
    Strip(line) != [] && Contains(line, "ID:")
  }

  /** `[line.strip() for line in lines if line.strip() and "ID:" in line]`. */
  function LogEntries(lines: seq<string>): (r: seq<string>)
    ensures |r| == CountWhere(lines, IsEntry, |lines|)
  {
    if lines == [] then CountWhereNone(lines, IsEntry, 0); []
    else
      var last := lines[|lines| - 1];
      CountWherePrefix(lines[..|lines| - 1], lines, IsEntry);
      CountWhereStep(lines, IsEntry, |lines| - 1);
      LogEntries(lines[..|lines| - 1]) + (if IsEntry(last) then [Strip(last)] else [])
  }

  /**
   * The entries are the stripped entry lines, each once and in file order: the entry line
   * `lines[k]` is the entry numbered by how many entry lines come before it.
   */
  lemma {:induction false} LogEntriesInOrder(lines: seq<string>)
    ensures forall k :: 0 <= k < |lines| && IsEntry(lines[k]) ==>
      CountWhere(lines, IsEntry, k) < |LogEntries(lines)| && LogEntries(lines)[CountWhere(lines, IsEntry, k)] == Strip(lines[k])
  {
    if lines != [] {
      var init := lines[..|lines| - 1];
      LogEntriesInOrder(init);
      CountWherePrefix(init, lines, IsEntry);
      forall k | 0 <= k < |lines| && IsEntry(lines[k])
        ensures CountWhere(lines, IsEntry, k) < |LogEntries(lines)| && LogEntries(lines)[CountWhere(lines, IsEntry, k)] == Strip(lines[k])
      {
        if k < |init| {
          assert init[k] == lines[k];
        }
      }
    }
  }

  lemma LogEntriesAppend(lines: seq<string>, line: string)
    ensures LogEntries(lines + [line]) == LogEntries(lines) + (if IsEntry(line) then [Strip(line)] else [])
  {
    assert (lines + [line])[..|lines|] == lines;
  }

  function Min(a: int, b: int): int {
    if a <= b then a else b
  }

  /** Python's `xs[-n:]`: the last `n` for `n > 0`, everything for `n == 0`, all but the first `-n` for `n < 0`. */
  function Window<T>(xs: seq<T>, n: int): (r: seq<T>)
    ensures n > 0 ==> |r| == Min(n, |xs|) && r == xs[|xs| - |r|..]
    ensures n == 0 ==> r == xs
    ensures n < 0 ==> r == xs[Min(-n, |xs|)..]
  {
    if n > 0 then (if n >= |xs| then xs else xs[|xs| - n..])
    else if n == 0 then xs
    else (if -n >= |xs| then [] else xs[-n..])
  }

  /** Once at least `n > 0` items follow the older ones, the window of `n` is the last `n` of the newer ones. */
  lemma WindowOfAppended<T>(older: seq<T>, newer: seq<T>, n: int)
    requires 0 < n <= |newer|
    ensures Window(older + newer, n) == newer[|newer| - n..]
  {
    assert (older + newer)[|older + newer| - n..] == newer[|newer| - n..];
  }

  /** What `get_recent_messages(user_id, n)` returns for the directory `files`. */
  function RecentMessages(files: seq<LogFile>, userId: int, n: int): seq<string> {
    match ResolveIndex(files, userId)
    case None => []
    case Some(i) => Window(LogEntries(ReadLines(files[i].content)), n)
  }

  /** A line `line.strip()` keeps something of. */
  predicate NonBlank(line: string) {
    Strip(line) != []
  }

  /** `len([line for line in lines if line.strip()])`: the number of indices of non-blank lines. */
  function NonBlankCount(lines: seq<string>): (n: nat)
    ensures n == CountWhere(lines, NonBlank, |lines|)
  {
    if lines == [] then CountWhereNone(lines, NonBlank, 0); 0
    else
      var init := lines[..|lines| - 1];
      CountWherePrefix(init, lines, NonBlank);
      CountWhereStep(lines, NonBlank, |init|);
      NonBlankCount(init) + (if NonBlank(lines[|lines| - 1]) then 1 else 0)
  }

  /** What `get_conversation_length(user_id)` returns for the directory `files`. */
  function ConversationLength(files: seq<LogFile>, userId: int): nat {
    match ResolveIndex(files, userId)
    case None => 0
    case Some(i) => NonBlankCount(SplitOn(files[i].content, '\n'))
  }

  /** A user without a log has no history and a conversation length of zero. */
  lemma NoLogNoHistory(files: seq<LogFile>, userId: int, n: int)
    requires ResolveIndex(files, userId).None?
    ensures RecentMessages(files, userId, n) == [] && ConversationLength(files, userId) == 0
  {
  }

  /** A log line whose parts hold no newline is one complete line. */
  lemma FormatLineOneLine(time: string, authorName: string, displayId: string, content: string)
    requires '\n' !in time && '\n' !in authorName && '\n' !in displayId && '\n' !in content
    ensures IsOneLine(FormatLine(time, authorName, displayId, content))
  {
    var line := FormatLine(time, authorName, displayId, content);
    var body := time + " " + authorName + " [ID: " + displayId + "]: --- " + content;
    assert line == body + "\n";
    assert line[..|line| - 1] == body;
  }

  /** Every log line is kept by the history filter: it has a non-space character and contains `ID:`. */
  lemma FormatLineIsEntry(time: string, authorName: string, displayId: string, content: string)
    ensures IsEntry(FormatLine(time, authorName, displayId, content))
  {
    var line := FormatLine(time, authorName, displayId, content);
    var a := time + " " + authorName + " [";
    var b := " " + displayId + "]: --- " + content + "\n";
    assert line == a + "ID:" + b;
    ContainsMiddle(a, "ID:", b);
    StripEmptyIff(line);
    assert !IsSpace(line[|a| - 1]);
  }

  /** A user's line without newlines inside is one complete line, kept by the history filter, and carries the user's marker. */
  lemma UserLineShape(time: string, authorName: string, userId: int, content: string)
    requires '\n' !in time && '\n' !in authorName && '\n' !in content
    ensures var line := FormatLine(time, authorName, DisplayId(userId, "USER"), content);
      IsOneLine(line) && IsEntry(line) && Contains(line, Marker(userId))
  {
    var d := DisplayId(userId, "USER");
    UserLineCarriesMarker(time, authorName, userId, content);
    MarkerHasNoNewline(userId);
    assert '\n' !in d by {
      assert Marker(userId)[5..5 + |d|] == d;
      assert forall k :: 0 <= k < |d| ==> d[k] == Marker(userId)[k + 5];
    }
    FormatLineOneLine(time, authorName, d, content);
    FormatLineIsEntry(time, authorName, d, content);
  }

  /** Appending a line with the user's marker to a `.txt` file that is the user's log, or when the user has none, makes that file the log. */
  lemma ResolveAfterMarkedAppend(files: seq<LogFile>, name: string, line: string, userId: int)
    requires WellFormed(files) && EndsWith(name, ".txt") && Contains(line, Marker(userId))
    requires var before := ResolveIndex(files, userId);
      before.None? || before.value == IndexOfName(files, name)
    ensures ResolveIndex(AppendToFile(files, name, line), userId) == Some(IndexOfName(files, name))
  {
    ResolveAfterAppend(files, name, line, userId);
  }

  /** Appending a line without the user's marker to a file other than the user's log leaves their history and its length as they were. */
  lemma HistoryAfterUnmarkedAppend(files: seq<LogFile>, name: string, line: string, userId: int, n: int)
    requires WellFormed(files) && !Contains(line, Marker(userId))
    requires ResolveIndex(files, userId).Some? ==> files[ResolveIndex(files, userId).value].name != name
    ensures var after := AppendToFile(files, name, line);
      && ResolveIndex(after, userId) == ResolveIndex(files, userId)
      && RecentMessages(after, userId, n) == RecentMessages(files, userId, n)
      && ConversationLength(after, userId) == ConversationLength(files, userId)
  {
    ResolveAfterAppend(files, name, line, userId);
    var after := AppendToFile(files, name, line);
    if ResolveIndex(files, userId).Some? {
      var i := ResolveIndex(files, userId).value;
      assert i != IndexOfName(files, name);
      assert after[i] == files[i];
    }
  }

  /**
   * Saving a user's message and reading back: the line lands in the log their lookups
   * resolve to, as its newest entry. Holds when the user had no log yet or when their log
   * is the file named after them.
   */
  lemma RecentAfterOwnLine(files: seq<LogFile>, time: string, authorName: string, userId: int, content: string, n: int)
    requires WellFormed(files)
    requires '\n' !in time && '\n' !in authorName && '\n' !in content
    requires var before := ResolveIndex(files, userId);
      before.None? || before.value == IndexOfName(files, FileNameFor(authorName))
    ensures var line := FormatLine(time, authorName, DisplayId(userId, "USER"), content);
      var name := FileNameFor(authorName);
      RecentMessages(AppendToFile(files, name, line), userId, n)
        == Window(LogEntries(ReadLines(ContentOf(files, name))) + [Strip(line)], n)
  {
    var line := FormatLine(time, authorName, DisplayId(userId, "USER"), content);
    var name := FileNameFor(authorName);
    UserLineShape(time, authorName, userId, content);
    ResolveAfterMarkedAppend(files, name, line, userId);
    var c := ContentOf(files, name);
    ReadLinesAppendLine(c, line);
    LogEntriesAppend(ReadLines(c), line);
  }

  /**
   * A message of two lines is saved as two lines of the log, and only the first, which
   * carries `ID:`, is kept by the history filter: the second joins the history only if it
   * happens to hold `ID:` itself.
   */
  lemma RecentAfterTwoLineMessage(files: seq<LogFile>, time: string, authorName: string, userId: int,
                                  first: string, second: string, n: int)
    requires WellFormed(files)
    requires '\n' !in time && '\n' !in authorName && '\n' !in first && '\n' !in second
    requires !Contains(second, "ID:")
    requires var before := ResolveIndex(files, userId);
      before.None? || before.value == IndexOfName(files, FileNameFor(authorName))
    ensures var d := DisplayId(userId, "USER");
      var name := FileNameFor(authorName);
      RecentMessages(AppendToFile(files, name, FormatLine(time, authorName, d, first + "\n" + second)), userId, n)
        == Window(LogEntries(ReadLines(ContentOf(files, name))) + [Strip(FormatLine(time, authorName, d, first))], n)
  {
    var d := DisplayId(userId, "USER");
    var name := FileNameFor(authorName);
    var l1 := FormatLine(time, authorName, d, first);
    var line := FormatLine(time, authorName, d, first + "\n" + second);
    var c := ContentOf(files, name);
    var after := AppendToFile(files, name, line);
    FormatLineTwoLines(time, authorName, d, first, second);
    assert IsOneLine(l1) && IsEntry(l1) && Contains(line, Marker(userId)) by {
      UserLineShape(time, authorName, userId, first);
      ContainsExtendRight(l1, second + "\n", Marker(userId));
    }
    assert ResolveIndex(after, userId) == Some(IndexOfName(files, name)) by {
      ResolveAfterMarkedAppend(files, name, line, userId);
    }
    assert EndsLine(c);
    TwoLineEntries(c, line, l1, second);
    RecentFromAppended(files, name, line, userId, n);
  }

  /** When an append makes `name` the user's log, the history is read from that file's new content. */
  lemma RecentFromAppended(files: seq<LogFile>, name: string, line: string, userId: int, n: int)
    requires ResolveIndex(AppendToFile(files, name, line), userId) == Some(IndexOfName(files, name))
    ensures RecentMessages(AppendToFile(files, name, line), userId, n) == Window(LogEntries(ReadLines(ContentOf(files, name) + line)), n)
  {
  }

  /** A text with a newline inside is logged as its first line followed by the rest. */
  lemma FormatLineTwoLines(time: string, authorName: string, displayId: string, first: string, second: string)
    ensures FormatLine(time, authorName, displayId, first + "\n" + second)
      == FormatLine(time, authorName, displayId, first) + (second + "\n")
  {
    var a := time + " " + authorName + " [ID: " + displayId + "]: --- ";
    AppendAssoc(a, first + "\n", second + "\n");
    AppendAssoc(a, first, "\n");
    AppendAssoc(first, "\n", second);
    AppendAssoc(first + "\n", second, "\n");
  }

  /** After a text that ends a line, an entry line and a line without `ID:` add just the entry. */
  lemma TwoLineEntries(c: string, line: string, l1: string, second: string)
    requires EndsLine(c) && IsOneLine(l1) && IsEntry(l1)
    requires '\n' !in second && !Contains(second, "ID:")
    requires line == l1 + (second + "\n")
    ensures LogEntries(ReadLines(c + line)) == LogEntries(ReadLines(c)) + [Strip(l1)]
  {
    var l2 := second + "\n";
    assert IsOneLine(l2) by {
      assert l2[..|l2| - 1] == second;
    }
    var lines := ReadLines(c);
    ReadLinesAppendTwo(c, l1, l2);
    assert !IsEntry(l2) by {
      ContainsBeforeNewline(second, "ID:");
    }
    LogEntriesAppend(lines, l1);
    LogEntriesAppend(lines + [l1], l2);
  }

  /**
   * The replies of the bot are logged under the author "10x GM AI" with the tag "BOT_ID",
   * so they go to `10x GM AI.txt`. A reply whose text does not quote the user's marker
   * leaves the history of a user whose log is another file as it was.
   */
  lemma ReplyNotInUserHistory(files: seq<LogFile>, time: string, userId: int, reply: string, n: int)
    requires WellFormed(files)
    requires '[' !in time && !Contains(reply, Marker(userId))
    requires ResolveIndex(files, userId).Some? ==> files[ResolveIndex(files, userId).value].name != FileNameFor("10x GM AI")
    ensures var line := FormatLine(time, "10x GM AI", DisplayId(userId, "BOT_ID"), reply);
      var after := AppendToFile(files, FileNameFor("10x GM AI"), line);
      && RecentMessages(after, userId, n) == RecentMessages(files, userId, n)
      && ConversationLength(after, userId) == ConversationLength(files, userId)
  {
    var line := FormatLine(time, "10x GM AI", DisplayId(userId, "BOT_ID"), reply);
    BotLineCarriesNoMarker(time, "10x GM AI", userId, reply, userId);
    HistoryAfterUnmarkedAppend(files, FileNameFor("10x GM AI"), line, userId, n);
  }

  /**
   * The other case: a reply whose text holds `[ID: <userId>]:` brings the user's marker
   * into the file of its author, for the bot `10x GM AI.txt`. When that file comes before
   * the user's own log in the listing, or the user has no log, every later lookup for the
   * user resolves to the author's file.
   */
  lemma ReplyWithMarkerTakesOverLog(files: seq<LogFile>, time: string, author: string, userId: int, reply: string)
    requires WellFormed(files)
    requires Contains(reply, Marker(userId))
    requires var before := ResolveIndex(files, userId);
      before.None? || IndexOfName(files, FileNameFor(author)) < before.value
    ensures var line := FormatLine(time, author, DisplayId(userId, "BOT_ID"), reply);
      var name := FileNameFor(author);
      ResolveIndex(AppendToFile(files, name, line), userId) == Some(IndexOfName(files, name))
  {
    var d := DisplayId(userId, "BOT_ID");
    var line := FormatLine(time, author, d, reply);
    var name := FileNameFor(author);
    var a := time + " " + author + " [ID: " + d + "]: --- ";
    assert line == a + reply + "\n";
    ContainsExtendLeft(a, reply, Marker(userId));
    ContainsExtendRight(a + reply, "\n", Marker(userId));
    assert Contains(line, Marker(userId));
    assert EndsWith(name, ".txt");
    ResolveAfterAppend(files, name, line, userId);
  }

  /** The name a log is archived under: every `.txt` removed from the name, then `_archived_<timestamp>.txt`. */
  function ArchivedName(name: string, timestamp: string): (r: string)
    ensures EndsWith(r, ".txt")
  {
    ReplaceAll(name, ".txt", "") + "_archived_" + timestamp + ".txt"
  }

  /** The directory after `archive_conversation`: the resolved log renamed in place, its content untouched. */
  function Archived(files: seq<LogFile>, userId: int, timestamp: string): seq<LogFile> {
    match ResolveIndex(files, userId)
    case None => files
    case Some(i) => files[i := LogFile(ArchivedName(files[i].name, timestamp), files[i].content)]
  }

  /** An archived log stays the user's log: lookups find it and read the same history as before. */
  lemma ArchiveKeepsHistory(files: seq<LogFile>, userId: int, timestamp: string, n: int)
    ensures ResolveIndex(Archived(files, userId, timestamp), userId) == ResolveIndex(files, userId)
    ensures RecentMessages(Archived(files, userId, timestamp), userId, n) == RecentMessages(files, userId, n)
    ensures ConversationLength(Archived(files, userId, timestamp), userId) == ConversationLength(files, userId)
  {
    var after := Archived(files, userId, timestamp);
    ResolveUnique(after, userId);
    match ResolveIndex(files, userId)
    case None =>
    case Some(i) =>
      assert MatchesUser(after[i], userId);
  }

  // ---------------------------------------------------------------------------
  // The directory as mutable state
  // ---------------------------------------------------------------------------

  /** The `conversations` directory: the files in listing order. */
  class ConversationDir {
    var files: seq<LogFile>

    constructor (initial: seq<LogFile>)
      ensures files == initial
    {
      files := initial;
    }

    /** `save_conversation`: appends one formatted line to the file named after the author. */
    method SaveConversation(userId: int, authorName: string, content: string, authorId: string, time: string)
      modifies this
      ensures files == AppendToFile(old(files), FileNameFor(authorName),
                                    FormatLine(time, authorName, DisplayId(userId, authorId), content))
    {
      var name := SanitizeFilename(authorName) + ".txt";
      var line := FormatLine(time, authorName, DisplayId(userId, authorId), content);
      files := AppendToFile(files, name, line);
    }

    /** The scan every lookup starts with: the first `.txt` file holding the user's marker. */
    method FindLog(userId: int) returns (index: Option<nat>)
      ensures index == ResolveIndex(files, userId)
      ensures index.Some? ==> index.value < |files|
    {
      var marker := Marker(userId);
      var i := 0;
      while i < |files|
        invariant 0 <= i <= |files|
        invariant forall j :: 0 <= j < i ==> !MatchesUser(files[j], userId)
      {
        var f := files[i];
        if EndsWith(f.name, ".txt") && Contains(f.content, marker) {
          ResolveUnique(files, userId);
          return Some(i);
        }
        i := i + 1;
      }
      ResolveUnique(files, userId);
      return None;
    }

    /** `get_recent_messages(user_id, message_count)`. */
    method GetRecentMessages(userId: int, messageCount: int) returns (recent: seq<string>)
      ensures recent == RecentMessages(files, userId, messageCount)
      ensures ResolveIndex(files, userId).None? ==> recent == []
    {
      var target := FindLog(userId);
      if target.None? {
        return [];
      }
      var lines := ReadLines(files[target.value].content);
      var entries := LogEntries(lines);
      recent := Window(entries, messageCount);
    }

    /** `conversation_exists(user_id)`. */
    method ConversationExists(userId: int) returns (found: bool)
      ensures found <==> ResolveIndex(files, userId).Some?
    {
      var target := FindLog(userId);
      found := target.Some?;
    }

    /** `get_conversation_length(user_id)`: the non-blank lines of the user's log. */
    method GetConversationLength(userId: int) returns (count: nat)
      ensures count == ConversationLength(files, userId)
      ensures ResolveIndex(files, userId).None? ==> count == 0
    {
      var target := FindLog(userId);
      if target.None? {
        return 0;
      }
      count := NonBlankCount(SplitOn(files[target.value].content, '\n'));
    }

    /** `archive_conversation(user_id)`: renames the user's log; `false` and no change when there is none. */
    method ArchiveConversation(userId: int, timestamp: string) returns (archived: bool)
      modifies this
      ensures archived <==> ResolveIndex(old(files), userId).Some?
      ensures files == Archived(old(files), userId, timestamp)
    {
      var target := FindLog(userId);
      if target.None? {
        return false;
      }
      var i := target.value;
      files := files[i := LogFile(ArchivedName(files[i].name, timestamp), files[i].content)];
      return true;
    }
  }
}
