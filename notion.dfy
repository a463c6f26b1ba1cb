/**
 * The employee table in Notion as the bot reads and writes it. A page is a record with
 * named properties; every HTTP exchange is an input: the outcome of a query is a
 * `QueryResult`, the outcome of a write is a boolean, and the clock is the real `now`.
 */
module Notion {
  import opened Wrappers
  import opened Strings
  import opened Config

  // ---------------------------------------------------------------------------
  // Pages and properties
  // ---------------------------------------------------------------------------

  /** One property value of a page, by Notion property type. Text lists hold each item's `plain_text`. */
  datatype Property =
    | RichText(texts: seq<string>)
    | Title(texts: seq<string>)
    | Select(option: Option<string>)
    | MultiSelect(names: seq<string>)
    | Number(number: Option<int>)
    | Checkbox(checked: bool)
    | Date(value: Option<string>)
    | Email(value: Option<string>)
    | PhoneNumber(value: Option<string>)
    | Url(value: Option<string>)
    | Unsupported

  /** A database page: its id and its properties in the order the response lists them. */
  datatype Page = Page(id: string, properties: seq<(string, Property)>)

  /** The outcome of a database query: no usable response, a result list, or an exception while handling it. */
  datatype QueryResult = NoResponse | Results(pages: seq<Page>) | Raised

  /** `props.get(name)`: the first property of that name. */
  function Get(props: seq<(string, Property)>, name: string): (r: Option<Property>)
    ensures r.Some? ==> exists j :: 0 <= j < |props| && props[j] == (name, r.value)
    ensures r.None? ==> forall j :: 0 <= j < |props| ==> props[j].0 != name
  {
    if props == [] then None
    else if props[0].0 == name then Some(props[0].1)
    else
      var rest := Get(props[1..], name);
      assert rest.Some? ==> exists j :: 0 <= j < |props[1..]| && props[1..][j] == (name, rest.value);
      rest
  }

  /** The items with a non-empty text, in order (`if item.get('plain_text')`). */
  function NonEmpty(items: seq<string>): (r: seq<string>)
    ensures forall k :: 0 <= k < |r| ==> r[k] != [] && r[k] in items
    ensures forall k :: 0 <= k < |items| && items[k] != [] ==> items[k] in r
  {
    if items == [] then []
    else
      var rest := NonEmpty(items[1..]);
      assert forall k :: 0 <= k < |rest| ==> rest[k] in items by {
        forall k | 0 <= k < |rest| ensures rest[k] in items {
          assert rest[k] in items[1..];
        }
      }
      assert forall k :: 1 <= k < |items| ==> items[k] == items[1..][k - 1];
      (if items[0] != [] then [items[0]] else []) + rest
  }

  /** A text `if item.get('plain_text')` keeps. */
  predicate IsText(s: string) {
    s != []
  }

  /**
   * `NonEmpty` drops the empty texts and nothing else, keeping order and repeats: it has
   * one text per non-empty item, and the non-empty item `items[k]` stands at the position
   * given by the number of non-empty items before it.
   */
  lemma {:induction false} NonEmptyInOrder(items: seq<string>)
    ensures |NonEmpty(items)| == CountWhere(items, IsText, |items|)
    ensures forall k :: 0 <= k < |items| && items[k] != [] ==>
      CountWhere(items, IsText, k) < |NonEmpty(items)| && NonEmpty(items)[CountWhere(items, IsText, k)] == items[k]
  {
    if items == [] {
      CountWhereNone(items, IsText, 0);
    } else {
      var rest := items[1..];
      NonEmptyInOrder(rest);
      NonEmptyConsLength(items);
      forall k | 0 <= k < |items| && items[k] != []
        ensures CountWhere(items, IsText, k) < |NonEmpty(items)| && NonEmpty(items)[CountWhere(items, IsText, k)] == items[k]
      {
        if k > 0 {
          assert rest[k - 1] == items[k];
        }
        NonEmptyConsAt(items, k);
      }
    }
  }

  /** The length of `NonEmpty(items)` from the length of the tail's result. */
  lemma NonEmptyConsLength(items: seq<string>)
    requires items != [] && |NonEmpty(items[1..])| == CountWhere(items[1..], IsText, |items| - 1)
    ensures |NonEmpty(items)| == CountWhere(items, IsText, |items|)
  {
    CountWhereTail(items, IsText, |items|);
    assert NonEmpty(items) == (if items[0] != [] then [items[0]] else []) + NonEmpty(items[1..]);
  }

  /** The position of the non-empty `items[k]` in `NonEmpty(items)`, from its position in the tail's result. */
  lemma NonEmptyConsAt(items: seq<string>, k: nat)
    requires k < |items| && items[k] != []
    requires var rest := items[1..];
      k > 0 ==> CountWhere(rest, IsText, k - 1) < |NonEmpty(rest)| && NonEmpty(rest)[CountWhere(rest, IsText, k - 1)] == items[k]
    ensures CountWhere(items, IsText, k) < |NonEmpty(items)| && NonEmpty(items)[CountWhere(items, IsText, k)] == items[k]
  {
    var rest := items[1..];
    var r := NonEmpty(items);
    assert r == (if items[0] != [] then [items[0]] else []) + NonEmpty(rest);
    if k == 0 {
      CountWhereNone(items, IsText, 0);
    } else {
      CountWhereTail(items, IsText, k);
    }
  }

  /** Joining non-empty texts gives the empty text only when there are none. */
  lemma {:induction false} JoinNonEmptyIff(parts: seq<string>, sep: string)
    requires forall k :: 0 <= k < |parts| ==> parts[k] != []
    ensures Join(parts, sep) == [] <==> parts == []
  {
    if |parts| > 1 {
      assert |Join(parts, sep)| >= |parts[0]|;
    }
  }

  /** `_extract_text_from_property`: the text a property shows in a profile. */
  function ExtractText(p: Property): string {
    match p
    case RichText(texts) => Join(NonEmpty(texts), " ")
    case Title(texts) => Join(NonEmpty(texts), " ")
    case Select(option) => option.GetOr("")
    case MultiSelect(names) => Join(NonEmpty(names), ", ")
    case Number(number) => if number.Some? then IntToString(number.value) else ""
    case Checkbox(checked) => if checked then "True" else "False"
    case Date(value) => value.GetOr("")
    case Email(value) => value.GetOr("")
    case PhoneNumber(value) => value.GetOr("")
    case Url(value) => value.GetOr("")
    case Unsupported => ""
  }

  /** A text property shows nothing exactly when all of its items are empty. */
  lemma ExtractTextEmptyIff(texts: seq<string>)
    ensures ExtractText(RichText(texts)) == [] <==> forall k :: 0 <= k < |texts| ==> texts[k] == []
    ensures ExtractText(Title(texts)) == [] <==> forall k :: 0 <= k < |texts| ==> texts[k] == []
    ensures ExtractText(MultiSelect(texts)) == [] <==> forall k :: 0 <= k < |texts| ==> texts[k] == []
  {
    var kept := NonEmpty(texts);
    JoinNonEmptyIff(kept, " ");
    JoinNonEmptyIff(kept, ", ");
    if kept != [] {
      assert kept[0] in texts;
    }
  }

  /** A number shows as its decimal text, and reading that text back gives the number. */
  lemma ExtractNumberRoundTrip(k: int)
    ensures ExtractText(Number(Some(k))) != []
    ensures ParseInt(ExtractText(Number(Some(k)))) == Some(k)
  {
    ParseIntToString(k);
  }

  /** A checkbox always shows text (`True` or `False`), so it always makes a profile line. */
  lemma ExtractCheckboxShows(b: bool)
    ensures ExtractText(Checkbox(b)) != []
    ensures ExtractText(Checkbox(b)) == "True" <==> b
  {
  }

  // ---------------------------------------------------------------------------
  // Reading a page
  // ---------------------------------------------------------------------------

  /** The properties that carry access control, kept out of the profile text. */
  predicate IsSystemField(name: string) {
    name == "Name" || name == "telegram_handle" || name == "telegram_user_id"
    || name == "can_chat_bot" || name == "context_lines" || name == "active"
  }

  function ProfileLine(name: string, p: Property): string {
    name + ": " + ExtractText(p)
  }

  /** Whether a property contributes a line to the profile. */
  predicate IsProfileField(field: (string, Property)) {
    !IsSystemField(field.0) && ExtractText(field.1) != []
  }

  /** The `profile_parts` list: one line per non-system property that shows text, in order. */
  function ProfileParts(props: seq<(string, Property)>): seq<string> {
    if props == [] then []
    else
      var last := props[|props| - 1];
      ProfileParts(props[..|props| - 1]) + (if IsProfileField(last) then [ProfileLine(last.0, last.1)] else [])
  }

  /** Every profile line comes from a non-system property with text. */
  lemma {:induction false} ProfilePartsSound(props: seq<(string, Property)>)
    ensures forall k :: 0 <= k < |ProfileParts(props)| ==>
      exists j :: 0 <= j < |props| && IsProfileField(props[j]) && ProfileParts(props)[k] == ProfileLine(props[j].0, props[j].1)
  {
    if props != [] {
      var init := props[..|props| - 1];
      var last := props[|props| - 1];
      ProfilePartsSound(init);
      var parts := ProfileParts(props);
      var before := ProfileParts(init);
      assert parts == before + (if IsProfileField(last) then [ProfileLine(last.0, last.1)] else []);
      forall k | 0 <= k < |parts|
        ensures exists j :: 0 <= j < |props| && IsProfileField(props[j]) && parts[k] == ProfileLine(props[j].0, props[j].1)
      {
        if k < |before| {
          assert parts[k] == before[k];
          var j :| 0 <= j < |init| && IsProfileField(init[j]) && before[k] == ProfileLine(init[j].0, init[j].1);
          assert props[j] == init[j];
        } else {
          assert IsProfileField(props[|props| - 1]) && parts[k] == ProfileLine(props[|props| - 1].0, props[|props| - 1].1);
        }
      }
    } else {
      assert ProfileParts(props) == [];
    }
  }

  /** Every non-system property with text has its line in the profile. */
  lemma {:induction false} ProfilePartsComplete(props: seq<(string, Property)>)
    ensures forall j :: 0 <= j < |props| && IsProfileField(props[j]) ==>
      ProfileLine(props[j].0, props[j].1) in ProfileParts(props)
  {
    if props != [] {
      var init := props[..|props| - 1];
      var last := props[|props| - 1];
      ProfilePartsComplete(init);
      var parts := ProfileParts(props);
      var before := ProfileParts(init);
      assert parts == before + (if IsProfileField(last) then [ProfileLine(last.0, last.1)] else []);
      forall j | 0 <= j < |props| && IsProfileField(props[j])
        ensures ProfileLine(props[j].0, props[j].1) in parts
      {
        if j < |init| {
          assert props[j] == init[j];
          assert ProfileLine(init[j].0, init[j].1) in before;
        } else {
          assert parts[|parts| - 1] == ProfileLine(last.0, last.1);
        }
      }
    }
  }

  /** A system field never contributes, whatever it holds: appending one leaves the profile as it was. */
  lemma SystemFieldIgnored(props: seq<(string, Property)>, name: string, p: Property)
    requires IsSystemField(name)
    ensures ProfileParts(props + [(name, p)]) == ProfileParts(props)
  {
    assert (props + [(name, p)])[..|props|] == props;
  }

  /**
   * The `admin` checkbox is not a system field, so it always shows in the profile text
   * handed to the model, as `admin: True` or `admin: False`.
   */
  lemma AdminFlagInProfile(props: seq<(string, Property)>, b: bool)
    ensures var parts := ProfileParts(props + [("admin", Checkbox(b))]);
      parts != [] && parts[|parts| - 1] == "admin: " + (if b then "True" else "False")
  {
    assert (props + [("admin", Checkbox(b))])[..|props|] == props;
  }

  /** `int(context_lines) if context_lines else CONTEXT_WINDOW_DEFAULT`, on the `context_lines` number. */
  function ContextLines(props: seq<(string, Property)>): (n: int)
    ensures n != 0
  {
    match Get(props, "context_lines")
    case Some(Number(Some(k))) => if k != 0 then k else CONTEXT_WINDOW_DEFAULT
    case _ => CONTEXT_WINDOW_DEFAULT
  }

  /** Whether the page stores a non-zero `context_lines` number: the only setting `int(...) if ... else` takes as it is. */
  predicate StoresWindow(props: seq<(string, Property)>) {
    var v := Get(props, "context_lines");
    v.Some? && v.value.Number? && v.value.number.Some? && v.value.number.value != 0
  }

  /** A stored non-zero window is used as it is; a zero, empty, missing or non-number setting gives the default of 20. */
  lemma ContextLinesValue(props: seq<(string, Property)>)
    ensures StoresWindow(props) ==> ContextLines(props) == Get(props, "context_lines").value.number.value
    ensures !StoresWindow(props) ==> ContextLines(props) == CONTEXT_WINDOW_DEFAULT == 20
  {
  }

  /** The first title item of `Name`, or `Unknown`. */
  function Username(props: seq<(string, Property)>): string {
    match Get(props, "Name")
    case Some(Title(texts)) => if texts != [] then texts[0] else "Unknown"
    case _ => "Unknown"
  }

  /** `props.get(name, {}).get('checkbox', False)`. */
  function CheckboxOf(props: seq<(string, Property)>, name: string): bool {
    match Get(props, name)
    case Some(Checkbox(b)) => b
    case _ => false
  }

  /** `props.get(name, {}).get('number', None)`. */
  function NumberOf(props: seq<(string, Property)>, name: string): Option<int> {
    match Get(props, name)
    case Some(Number(v)) => v
    case _ => None
  }

  /** The first rich-text item of `telegram_handle`, if the list has one. */
  function StoredHandle(props: seq<(string, Property)>): Option<string> {
    match Get(props, "telegram_handle")
    case Some(RichText(texts)) => if texts != [] then Some(texts[0]) else None
    case _ => None
  }

  // ---------------------------------------------------------------------------
  // Authorization
  // ---------------------------------------------------------------------------

  /** `(authorized, profile_text, context_lines, username)`. */
  datatype AuthRecord = AuthRecord(authorized: bool, profileText: string, contextLines: int, username: string)

  /** What an unknown user, or a failed lookup, gets. */
  const DENIED: AuthRecord := AuthRecord(false, "", CONTEXT_WINDOW_DEFAULT, "Unknown")

  /** The record read off the first page of a successful lookup. */
  function RecordOf(p: Page): AuthRecord {
    AuthRecord(CheckboxOf(p.properties, "can_chat_bot"), Join(ProfileParts(p.properties), "\n"),
               ContextLines(p.properties), Username(p.properties))
  }

  /** Access is granted only by a `can_chat_bot` checkbox that is ticked. */
  lemma RecordGrantsOnlyByCheckbox(p: Page)
    ensures RecordOf(p).authorized <==> Get(p.properties, "can_chat_bot") == Some(Checkbox(true))
  {
  }

  const CACHE_TTL: real := 300.0

  /** A cache hit: the key is in both maps and its entry has not expired. */
  predicate IsHit(cache: map<int, AuthRecord>, expires: map<int, real>, userId: int, now: real) {
    userId in cache && userId in expires && now < expires[userId]
  }

  /** One call of `get_user_authorization`: the record returned, whether Notion was queried, and the new caches. */
  datatype AuthStep = AuthStep(record: AuthRecord, queried: bool, cache: map<int, AuthRecord>, expires: map<int, real>)

  function Authorize(cache: map<int, AuthRecord>, expires: map<int, real>, userId: int, now: real, response: QueryResult): AuthStep {
    if IsHit(cache, expires, userId, now) then AuthStep(cache[userId], false, cache, expires)
    else match response
      case Raised => AuthStep(if userId in cache then cache[userId] else DENIED, true, cache, expires)
      case NoResponse => AuthStep(DENIED, true, cache[userId := DENIED], expires[userId := now + CACHE_TTL])
      case Results(pages) =>
        var r := if pages == [] then DENIED else RecordOf(pages[0]);
        AuthStep(r, true, cache[userId := r], expires[userId := now + CACHE_TTL])
  }

  /** A hit answers from the cache without a query and changes nothing. */
  lemma HitServedFromCache(cache: map<int, AuthRecord>, expires: map<int, real>, userId: int, now: real, response: QueryResult)
    requires IsHit(cache, expires, userId, now)
    ensures Authorize(cache, expires, userId, now, response) == AuthStep(cache[userId], false, cache, expires)
  {
  }

  /** A failed or empty lookup denies, and the denial is cached for five minutes. */
  lemma FailClosed(cache: map<int, AuthRecord>, expires: map<int, real>, userId: int, now: real, response: QueryResult)
    requires !IsHit(cache, expires, userId, now)
    requires response.NoResponse? || response == Results([])
    ensures var s := Authorize(cache, expires, userId, now, response);
      && s.record == DENIED && !s.record.authorized && s.queried
      && s.cache == cache[userId := DENIED] && s.expires == expires[userId := now + CACHE_TTL]
  {
  }

  /** An exception falls back to the cached record, expired or not, and denies a user never cached. */
  lemma ExceptionFallsBack(cache: map<int, AuthRecord>, expires: map<int, real>, userId: int, now: real)
    requires !IsHit(cache, expires, userId, now)
    ensures var s := Authorize(cache, expires, userId, now, Raised);
      && s.record == (if userId in cache then cache[userId] else DENIED)
      && s.cache == cache && s.expires == expires
  {
  }

  /** Access is granted only by a ticked checkbox on the first result page, fresh or remembered in the cache. */
  lemma GrantRequiresRecord(cache: map<int, AuthRecord>, expires: map<int, real>, userId: int, now: real, response: QueryResult)
    ensures Authorize(cache, expires, userId, now, response).record.authorized ==>
      (userId in cache && cache[userId].authorized)
      || (response.Results? && response.pages != [] && CheckboxOf(response.pages[0].properties, "can_chat_bot"))
  {
  }

  /** A record fetched at `now` is served from the cache, unchanged, to every call before `now + 300`. */
  lemma FetchedRecordIsCached(cache: map<int, AuthRecord>, expires: map<int, real>, userId: int, now: real,
                              response: QueryResult, later: real, again: QueryResult)
    requires !IsHit(cache, expires, userId, now) && !response.Raised?
    requires now <= later < now + CACHE_TTL
    ensures var first := Authorize(cache, expires, userId, now, response);
      var second := Authorize(first.cache, first.expires, userId, later, again);
      second.record == first.record && !second.queried
  {
  }

  // ---------------------------------------------------------------------------
  // The admin roster
  // ---------------------------------------------------------------------------

  /** `telegram_user_id` of a page when it is truthy (present and not zero). */
  function AdminCandidate(p: Page): Option<int> {
    var id := NumberOf(p.properties, "telegram_user_id");
    if id.Some? && id.value != 0 then id else None
  }

  predicate NoDuplicates(ids: seq<int>) {
    forall i, j :: 0 <= i < j < |ids| ==> ids[i] != ids[j]
  }

  /** `admin_ids` after the pages: the primary admin, then each new truthy id in page order. */
  function Roster(pages: seq<Page>): (ids: seq<int>)
    ensures |ids| >= 1 && ids[0] == ADMIN_USER_ID
    ensures NoDuplicates(ids)
  {
    if pages == [] then [ADMIN_USER_ID]
    else
      var before := Roster(pages[..|pages| - 1]);
      var id := AdminCandidate(pages[|pages| - 1]);
      if id.Some? && id.value !in before then before + [id.value] else before
  }

  /** An id is on the roster exactly when it is the primary admin or a truthy id of one of the pages. */
  lemma {:induction false} RosterMembers(pages: seq<Page>, x: int)
    ensures x in Roster(pages) <==> x == ADMIN_USER_ID || exists j :: 0 <= j < |pages| && AdminCandidate(pages[j]) == Some(x)
  {
    if pages != [] {
      var init := pages[..|pages| - 1];
      RosterMembers(init, x);
      if exists j :: 0 <= j < |pages| && AdminCandidate(pages[j]) == Some(x) {
        var j :| 0 <= j < |pages| && AdminCandidate(pages[j]) == Some(x);
        if j < |init| {
          assert init[j] == pages[j];
        }
      }
      if exists j :: 0 <= j < |init| && AdminCandidate(init[j]) == Some(x) {
        var j :| 0 <= j < |init| && AdminCandidate(init[j]) == Some(x);
        assert pages[j] == init[j];
      }
    }
  }

  /** `get_admin_users` on a query outcome: without a usable response, only the primary admin. */
  function AdminUsers(response: QueryResult): (ids: seq<int>)
    ensures |ids| >= 1 && ids[0] == ADMIN_USER_ID && NoDuplicates(ids)
    ensures !response.Results? ==> ids == [ADMIN_USER_ID]
  {
    if response.Results? then Roster(response.pages) else [ADMIN_USER_ID]
  }

  // ---------------------------------------------------------------------------
  // Handles
  // ---------------------------------------------------------------------------

  /** `stored_handle.lstrip('@').lower() == clean_handle.lower()` for a non-empty stored handle. */
  predicate HandleMatches(stored: string, handle: string) {
    stored != [] && ToLower(LStripChar(stored, '@')) == ToLower(LStripChar(handle, '@'))
  }

  /** Matching ignores a leading `@` on the looked-up handle and its letter case. */
  lemma HandleMatchNormalises(stored: string, handle: string)
    ensures HandleMatches(stored, "@" + handle) == HandleMatches(stored, handle)
    ensures HandleMatches(stored, ToLower(handle)) == HandleMatches(stored, handle)
  {
    assert ("@" + handle)[1..] == handle;
    LStripLower(handle);
    ToLowerIdempotent(LStripChar(handle, '@'));
  }

  /** Stripping `@`s commutes with lower-casing, since `@` is not a letter. */
  lemma {:induction false} LStripLower(s: string)
    ensures LStripChar(ToLower(s), '@') == ToLower(LStripChar(s, '@'))
  {
    if s != [] {
      assert ToLower(s)[1..] == ToLower(s[1..]);
      LStripLower(s[1..]);
    }
  }

  /** The user record `find_user_by_handle` returns. */
  datatype UserInfo = UserInfo(notionId: string, name: string, telegramHandle: string, telegramUserId: Option<int>,
                               canChatBot: bool, active: bool, admin: bool)

  function PageMatchesHandle(p: Page, handle: string): bool {
    var stored := StoredHandle(p.properties);
    stored.Some? && HandleMatches(stored.value, handle)
  }

  function InfoOf(p: Page): UserInfo
    requires StoredHandle(p.properties).Some?
  {
    var props := p.properties;
    UserInfo(p.id, Username(props), StoredHandle(props).value, NumberOf(props, "telegram_user_id"),
             CheckboxOf(props, "can_chat_bot"), CheckboxOf(props, "active"), CheckboxOf(props, "admin"))
  }

  /** Index of the first page whose stored handle matches, or `|pages|`. */
  function FirstHandleMatch(pages: seq<Page>, handle: string): (i: nat)
    ensures i <= |pages|
    ensures i < |pages| ==> PageMatchesHandle(pages[i], handle)
    ensures forall j :: 0 <= j < i ==> !PageMatchesHandle(pages[j], handle)
  {
    if pages == [] then 0
    else if PageMatchesHandle(pages[0], handle) then 0
    else 1 + FirstHandleMatch(pages[1..], handle)
  }

  /** `find_user_by_handle` on a query outcome. */
  function FindByHandle(response: QueryResult, handle: string): (r: Option<UserInfo>)
    ensures r.Some? ==> response.Results? && HandleMatches(r.value.telegramHandle, handle)
  {
    if !response.Results? then None
    else
      var i := FirstHandleMatch(response.pages, handle);
      if i < |response.pages| then Some(InfoOf(response.pages[i])) else None
  }

  /** A lookup finds nothing exactly when no page of the response carries a matching handle. */
  lemma FindByHandleNoneIff(pages: seq<Page>, handle: string)
    ensures FindByHandle(Results(pages), handle).None? <==> forall j :: 0 <= j < |pages| ==> !PageMatchesHandle(pages[j], handle)
  {
  }

  // ---------------------------------------------------------------------------
  // Writes
  // ---------------------------------------------------------------------------

  /** One property written by a patch. */
  datatype FieldUpdate = SetNumber(field: string, number: int) | SetCheckbox(field: string, checked: bool)

  /** The `properties` dictionary of `update_user_access`: one entry per argument given, in this order. */
  function FieldUpdates(telegramUserId: Option<int>, canChatBot: Option<bool>, active: Option<bool>, admin: Option<bool>): seq<FieldUpdate> {
    (if telegramUserId.Some? then [SetNumber("telegram_user_id", telegramUserId.value)] else [])
    + (if canChatBot.Some? then [SetCheckbox("can_chat_bot", canChatBot.value)] else [])
    + (if active.Some? then [SetCheckbox("active", active.value)] else [])
    + (if admin.Some? then [SetCheckbox("admin", admin.value)] else [])
  }

  /** The update a patch makes to one field, if any. */
  function UpdateFor(updates: seq<FieldUpdate>, field: string): Option<FieldUpdate> {
    if updates == [] then None
    else if updates[0].field == field then Some(updates[0])
    else UpdateFor(updates[1..], field)
  }

  lemma {:induction false} UpdateForAppend(a: seq<FieldUpdate>, b: seq<FieldUpdate>, field: string)
    ensures UpdateFor(a + b, field) == if UpdateFor(a, field).Some? then UpdateFor(a, field) else UpdateFor(b, field)
  {
    if a == [] {
      assert a + b == b;
    } else {
      assert (a + b)[1..] == a[1..] + b;
      UpdateForAppend(a[1..], b, field);
    }
  }

  lemma UpdateForFour(a: seq<FieldUpdate>, b: seq<FieldUpdate>, c: seq<FieldUpdate>, d: seq<FieldUpdate>, f: string)
    ensures UpdateFor(a + b + c + d, f) ==
      if UpdateFor(a, f).Some? then UpdateFor(a, f)
      else if UpdateFor(b, f).Some? then UpdateFor(b, f)
      else if UpdateFor(c, f).Some? then UpdateFor(c, f)
      else UpdateFor(d, f)
  {
    UpdateForAppend(a + b + c, d, f);
    UpdateForAppend(a + b, c, f);
    UpdateForAppend(a, b, f);
  }

  /** A patch sets exactly the fields whose argument was given, each to that argument, each once. */
  lemma FieldUpdatesExact(telegramUserId: Option<int>, canChatBot: Option<bool>, active: Option<bool>, admin: Option<bool>)
    ensures var u := FieldUpdates(telegramUserId, canChatBot, active, admin);
      && UpdateFor(u, "telegram_user_id") == (if telegramUserId.Some? then Some(SetNumber("telegram_user_id", telegramUserId.value)) else None)
      && UpdateFor(u, "can_chat_bot") == (if canChatBot.Some? then Some(SetCheckbox("can_chat_bot", canChatBot.value)) else None)
      && UpdateFor(u, "active") == (if active.Some? then Some(SetCheckbox("active", active.value)) else None)
      && UpdateFor(u, "admin") == (if admin.Some? then Some(SetCheckbox("admin", admin.value)) else None)
      && (forall i, j :: 0 <= i < j < |u| ==> u[i].field != u[j].field)
      && (u == [] <==> telegramUserId.None? && canChatBot.None? && active.None? && admin.None?)
  {
    var a := if telegramUserId.Some? then [SetNumber("telegram_user_id", telegramUserId.value)] else [];
    var b := if canChatBot.Some? then [SetCheckbox("can_chat_bot", canChatBot.value)] else [];
    var c := if active.Some? then [SetCheckbox("active", active.value)] else [];
    var d := if admin.Some? then [SetCheckbox("admin", admin.value)] else [];
    UpdateForFour(a, b, c, d, "telegram_user_id");
    UpdateForFour(a, b, c, d, "can_chat_bot");
    UpdateForFour(a, b, c, d, "active");
    UpdateForFour(a, b, c, d, "admin");
  }

  /** The Telegram user object `getChat` returns; absent keys are `None`. */
  datatype TelegramUser = TelegramUser(firstName: Option<string>, lastName: Option<string>, username: Option<string>)

  /** The page `create_user_from_telegram_data` asks Notion to create. */
  datatype NewUser = NewUser(name: string, telegramUserId: int, handle: Option<string>, active: bool, canChatBot: bool, admin: bool)

  function NewUserFor(user: TelegramUser, telegramUserId: int): NewUser {
    var name := Strip(user.firstName.GetOr("Unknown") + " " + user.lastName.GetOr(""));
    var username := user.username.GetOr("");
    NewUser(name, telegramUserId, if username != [] then Some("@" + username) else None, true, true, false)
  }

  /**
   * A created user can chat at once and is not an admin; the name has no surrounding whitespace;
   * a handle is stored, with an `@`, exactly when Telegram gave a non-empty username.
   */
  lemma NewUserShape(user: TelegramUser, telegramUserId: int)
    ensures var n := NewUserFor(user, telegramUserId);
      && n.active && n.canChatBot && !n.admin && n.telegramUserId == telegramUserId
      && (n.name == [] || (!IsSpace(n.name[0]) && !IsSpace(n.name[|n.name| - 1])))
      && (n.handle.Some? <==> user.username.Some? && user.username.value != [])
      && (n.handle.Some? ==> n.handle.value == "@" + user.username.value)
  {
    var s := user.firstName.GetOr("Unknown") + " " + user.lastName.GetOr("");
    var r := RStrip(s);
    var t := LStrip(r);
    RStripSpec(s);
    LStripSpec(r);
    if t != [] {
      assert t[|t| - 1] == r[|r| - 1];
    }
  }

  /** A user with no name at all on Telegram is created as `Unknown`. */
  lemma NewUserUnknownName(telegramUserId: int, username: Option<string>)
    ensures NewUserFor(TelegramUser(None, None, username), telegramUserId).name == "Unknown"
  {
    var s := "Unknown" + " " + "";
    assert s == "Unknown ";
    assert s[..|s| - 1] == "Unknown";
    assert RStrip("Unknown") == "Unknown";
    assert RStrip(s) == "Unknown";
    assert LStrip("Unknown") == "Unknown";
  }

  /** One row of `get_all_telegram_usernames`. */
  datatype UserSummary = UserSummary(name: string, telegramHandle: Option<string>, telegramUserId: Option<int>,
                                     canChatBot: bool, isAdmin: bool, notionId: string)

  function SummaryOf(p: Page): UserSummary {
    var props := p.properties;
    UserSummary(Username(props), StoredHandle(props), NumberOf(props, "telegram_user_id"),
                CheckboxOf(props, "can_chat_bot"), CheckboxOf(props, "admin"), p.id)
  }

  /** `get_all_telegram_usernames` on a query outcome. */
  function Summaries(response: QueryResult): (users: seq<UserSummary>)
    ensures !response.Results? ==> users == []
    ensures response.Results? ==> |users| == |response.pages|
    ensures response.Results? ==> forall k :: 0 <= k < |users| ==> users[k] == SummaryOf(response.pages[k])
  {
    if response.Results? then seq(|response.pages|, k requires 0 <= k < |response.pages| => SummaryOf(response.pages[k])) else []
  }

  // ---------------------------------------------------------------------------
  // The client
  // ---------------------------------------------------------------------------

  /** A write request sent to Notion: a page patch or a page creation. */
  datatype Write = Patch(notionId: string, updates: seq<FieldUpdate>) | Create(user: NewUser)

  /** The Notion client with its authorization cache. */
  class NotionClient {
    var userCache: map<int, AuthRecord>
    var cacheExpires: map<int, real>
    /** The write requests sent so far, oldest first. */
    var writes: seq<Write>

    constructor ()
      ensures userCache == map[] && cacheExpires == map[] && writes == []
    {
      userCache := map[];
      cacheExpires := map[];
      writes := [];
    }

    /** `get_user_authorization`: `queried` tells whether the Notion query was made. */
    method GetUserAuthorization(userId: int, now: real, response: QueryResult) returns (record: AuthRecord, queried: bool)
      modifies this
      ensures AuthStep(record, queried, userCache, cacheExpires) == Authorize(old(userCache), old(cacheExpires), userId, now, response)
      ensures writes == old(writes)
    {
      if userId in userCache && userId in cacheExpires && now < cacheExpires[userId] {
        return userCache[userId], false;
      }
      queried := true;
      match response {
        case Raised =>
          record := if userId in userCache then userCache[userId] else DENIED;
        case NoResponse =>
          record := DENIED;
          userCache := userCache[userId := record];
          cacheExpires := cacheExpires[userId := now + CACHE_TTL];
        case Results(pages) =>
          if pages == [] {
            record := DENIED;
          } else {
            var props := pages[0].properties;
            var profile := CollectProfileParts(props);
            record := AuthRecord(CheckboxOf(props, "can_chat_bot"), Join(profile, "\n"), ContextLines(props), Username(props));
          }
          userCache := userCache[userId := record];
          cacheExpires := cacheExpires[userId := now + CACHE_TTL];
      }
    }

    /** The loop that fills `profile_parts`. */
    method CollectProfileParts(props: seq<(string, Property)>) returns (parts: seq<string>)
      ensures parts == ProfileParts(props)
    {
      parts := [];
      var i := 0;
      while i < |props|
        invariant 0 <= i <= |props|
        invariant parts == ProfileParts(props[..i])
      {
        assert props[..i + 1][..i] == props[..i];
        var (name, data) := props[i];
        var text := ExtractText(data);
        if !IsSystemField(name) && text != [] {
          parts := parts + [name + ": " + text];
        }
        i := i + 1;
      }
      assert props[..i] == props;
    }

    /** `get_admin_users`. */
    method GetAdminUsers(response: QueryResult) returns (ids: seq<int>)
      ensures ids == AdminUsers(response)
      ensures ids[0] == ADMIN_USER_ID && NoDuplicates(ids)
    {
      if !response.Results? {
        return [ADMIN_USER_ID];
      }
      var pages := response.pages;
      ids := [ADMIN_USER_ID];
      var i := 0;
      while i < |pages|
        invariant 0 <= i <= |pages|
        invariant ids == Roster(pages[..i])
      {
        assert pages[..i + 1][..i] == pages[..i];
        var id := AdminCandidate(pages[i]);
        if id.Some? && id.value !in ids {
          ids := ids + [id.value];
        }
        i := i + 1;
      }
      assert pages[..i] == pages;
    }

    /** `find_user_by_handle`: the first page, in response order, whose stored handle matches. */
    method FindUserByHandle(handle: string, response: QueryResult) returns (found: Option<UserInfo>)
      ensures found == FindByHandle(response, handle)
    {
      if !response.Results? {
        return None;
      }
      var pages := response.pages;
      var i := 0;
      while i < |pages|
        invariant 0 <= i <= |pages|
        invariant forall j :: 0 <= j < i ==> !PageMatchesHandle(pages[j], handle)
      {
        var stored := StoredHandle(pages[i].properties);
        if stored.Some? && stored.value != [] && ToLower(LStripChar(stored.value, '@')) == ToLower(LStripChar(handle, '@')) {
          assert FirstHandleMatch(pages, handle) == i;
          return Some(InfoOf(pages[i]));
        }
        i := i + 1;
      }
      assert FirstHandleMatch(pages, handle) == |pages|;
      return None;
    }

    /**
     * `update_user_access`: with no field to set, no request and `false`; otherwise the patch is
     * sent, the result is whether it succeeded, and a success clears both caches.
     */
    method UpdateUserAccess(notionId: string, telegramUserId: Option<int>, canChatBot: Option<bool>,
                            active: Option<bool>, admin: Option<bool>, patchSucceeds: bool)
      returns (success: bool)
      modifies this
      ensures var u := FieldUpdates(telegramUserId, canChatBot, active, admin);
        && (u == [] ==> !success && writes == old(writes))
        && (u != [] ==> success == patchSucceeds && writes == old(writes) + [Patch(notionId, u)])
      ensures success ==> userCache == map[] && cacheExpires == map[]
      ensures !success ==> userCache == old(userCache) && cacheExpires == old(cacheExpires)
    {
      var properties := FieldUpdates(telegramUserId, canChatBot, active, admin);
      if properties == [] {
        return false;
      }
      writes := writes + [Patch(notionId, properties)];
      success := patchSucceeds;
      if success {
        userCache := map[];
        cacheExpires := map[];
      }
    }

    /** `create_user_from_telegram_data`: sends the new page; a success clears both caches. */
    method CreateUserFromTelegramData(user: TelegramUser, telegramUserId: int, createSucceeds: bool)
      returns (success: bool, created: NewUser)
      modifies this
      ensures created == NewUserFor(user, telegramUserId) && success == createSucceeds
      ensures writes == old(writes) + [Create(created)]
      ensures success ==> userCache == map[] && cacheExpires == map[]
      ensures !success ==> userCache == old(userCache) && cacheExpires == old(cacheExpires)
    {
      created := NewUserFor(user, telegramUserId);
      writes := writes + [Create(created)];
      success := createSucceeds;
      if success {
        userCache := map[];
        cacheExpires := map[];
      }
    }

    /** `get_all_telegram_usernames`: one row per result page, in order; none without a usable response. */
    method GetAllTelegramUsernames(response: QueryResult) returns (users: seq<UserSummary>)
      ensures !response.Results? ==> users == []
      ensures response.Results? ==> (|users| == |response.pages|
        && forall k :: 0 <= k < |users| ==> users[k] == SummaryOf(response.pages[k]))
      ensures users == Summaries(response)
    {
      if !response.Results? {
        return [];
      }
      var pages := response.pages;
      users := [];
      var i := 0;
      while i < |pages|
        invariant 0 <= i <= |pages|
        invariant |users| == i
        invariant forall k :: 0 <= k < i ==> users[k] == SummaryOf(pages[k])
      {
        users := users + [SummaryOf(pages[i])];
        i := i + 1;
      }
    }
  }
}
