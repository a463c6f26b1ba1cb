/**
 * The prompt side of the model call: the two-turn conversation handed to the chat backend,
 * and the per-user rate limiter that gates how often a user may reach it.
 * Time is the real number `now`, in seconds, supplied by the caller.
 */
module OpenAIIntegration {
  import opened Strings

  // ---------------------------------------------------------------------------
  // Context assembly
  // ---------------------------------------------------------------------------

  /** One message of a chat conversation (a `{"role": ..., "content": ...}` dictionary). */
  datatype Turn = Turn(role: string, content: string)

  const PROFILE_TITLE: string := "EMPLOYEE PROFILE DATA:"
  const PROFILE_HEADER: string := "\n\n" + PROFILE_TITLE + "\n"
  const NO_PROFILE: string := "No specific profile data available."
  const HISTORY_HEADER: string := "\n\nRECENT CONVERSATION HISTORY:\n"
  const NO_HISTORY: string := "No previous conversation."
  const INSTRUCTIONS: string :=
    "\n\nInstructions:\n"
    + "- Use the employee profile data to personalize your response style and approach\n"
    + "- Reference their personality type, role, goals, or other relevant attributes when appropriate\n"
    + "- Maintain conversation continuity using the history provided\n"
    + "- Be specific and actionable in your guidance\n"
    + "- Keep responses concise but comprehensive\n"

  /** What stands under the profile header: the profile, or a placeholder when it is blank. */
  function ProfileSection(profile: string): string {
    if Strip(profile) != [] then profile else NO_PROFILE
  }

  /** What stands under the history header: the lines joined by newlines, or a placeholder when there are none. */
  function HistorySection(history: seq<string>): string {
    if history != [] then Join(history, "\n") else NO_HISTORY
  }

  /** The system message: the persona, then the profile, the history and the fixed instructions. */
  function SystemContent(systemPrompt: string, profile: string, history: seq<string>): string {
    systemPrompt + PROFILE_HEADER + ProfileSection(profile) + HISTORY_HEADER + HistorySection(history) + INSTRUCTIONS
  }

  /** `build_conversation_context`: the system turn, then the user's message. */
  function BuildConversationContext(systemPrompt: string, profile: string, history: seq<string>, currentMessage: string): (r: seq<Turn>)
    ensures |r| == 2
    ensures r[0].role == "system" && r[1].role == "user"
    ensures r[0].content == SystemContent(systemPrompt, profile, history)
    ensures r[1].content == currentMessage
  {
    [Turn("system", SystemContent(systemPrompt, profile, history)), Turn("user", currentMessage)]
  }

  /** Where the parts of `a + h + x + rest` sit. */
  lemma Layout(a: string, h: string, x: string, rest: string)
    ensures var c := a + h + x + rest;
      && a <= c
      && |a| + |h| + |x| <= |c|
      && c[|a|..|a| + |h|] == h
      && c[|a| + |h|..|a| + |h| + |x|] == x
  {
  }

  /** Regrouping of a six-part concatenation, stated on variables so that no literal text is unfolded. */
  lemma Regroup(a: string, h: string, x: string, k: string, y: string, z: string)
    ensures a + h + x + k + y + z == a + h + (x + (k + y + z))
    ensures a + h + x + k + y + z == a + h + x + (k + y + z)
  {
  }

  /** Regrouping of a four-part concatenation, stated on variables. */
  lemma Group(a: string, x: string, y: string, z: string)
    ensures a + x + y + z == a + (x + y) + z
  {
  }

  /** A text in the middle of a block that is itself in the middle of another text occurs in it. */
  lemma ContainsNested(a: string, o: string, t: string, cl: string, r: string)
    ensures Contains(a + (o + t + cl) + r, t)
  {
    assert a + (o + t + cl) + r == (a + o) + t + (cl + r);
    ContainsMiddle(a + o, t, cl + r);
  }

  /**
   * The system message starts with the persona, the profile header follows it at once,
   * and the profile section can be read back at the offset right after the header.
   */
  lemma SystemContentLayout(systemPrompt: string, profile: string, history: seq<string>, currentMessage: string)
    ensures var c := BuildConversationContext(systemPrompt, profile, history, currentMessage)[0].content;
      var start := |systemPrompt| + |PROFILE_HEADER|;
      && systemPrompt <= c
      && c[|systemPrompt|..start] == PROFILE_HEADER
      && start + |ProfileSection(profile)| <= |c|
      && c[start..start + |ProfileSection(profile)|] == ProfileSection(profile)
      && Contains(c, PROFILE_TITLE)
  {
    var section := ProfileSection(profile);
    var tail := HISTORY_HEADER + HistorySection(history) + INSTRUCTIONS;
    var rest := section + tail;
    Regroup(systemPrompt, PROFILE_HEADER, section, HISTORY_HEADER, HistorySection(history), INSTRUCTIONS);
    Layout(systemPrompt, PROFILE_HEADER, section, tail);
    ContainsNested(systemPrompt, "\n\n", PROFILE_TITLE, "\n", rest);
  }

  /** The profile placeholder appears exactly when the profile is blank, or is that very text. */
  lemma ProfilePlaceholderIff(profile: string)
    ensures ProfileSection(profile) == NO_PROFILE <==> AllSpace(profile) || profile == NO_PROFILE
  {
    StripEmptyIff(profile);
  }

  /** A non-blank profile is passed through verbatim. */
  lemma ProfileVerbatim(profile: string)
    requires !AllSpace(profile)
    ensures ProfileSection(profile) == profile
  {
    StripEmptyIff(profile);
  }

  /** The history section keeps the lines in their order: splitting it at newlines gives them back. */
  lemma HistoryRecoverable(history: seq<string>)
    requires history != []
    requires forall k :: 0 <= k < |history| ==> '\n' !in history[k]
    ensures SplitOn(HistorySection(history), '\n') == history
  {
    SplitJoin(history, '\n');
  }

  /** With no history the placeholder stands under the history header. */
  lemma NoHistoryPlaceholder(systemPrompt: string, profile: string)
    ensures Contains(SystemContent(systemPrompt, profile, []), HISTORY_HEADER + NO_HISTORY)
  {
    var a := systemPrompt + PROFILE_HEADER + ProfileSection(profile);
    Group(a, HISTORY_HEADER, NO_HISTORY, INSTRUCTIONS);
    ContainsMiddle(a, HISTORY_HEADER + NO_HISTORY, INSTRUCTIONS);
  }

  // ---------------------------------------------------------------------------
  // Rate limiting
  // ---------------------------------------------------------------------------

  /** The interval `RateLimiter()` is created with. */
  const DEFAULT_MIN_INTERVAL: real := 2.0

  /** The last allowed request of `userId`; a user never seen counts as having asked at time 0. */
  function LastRequest(last: map<int, real>, userId: int): real {
    if userId in last then last[userId] else 0.0
  }

  /** Whether a request at `now` passes the gate. */
  predicate Allows(last: map<int, real>, minInterval: real, userId: int, now: real) {
    now - LastRequest(last, userId) >= minInterval
  }

  /** `min_interval - (now - last_request)`: positive while the user must still wait. */
  function Remaining(last: map<int, real>, minInterval: real, userId: int, now: real): real {
    minInterval - (now - LastRequest(last, userId))
  }

  /** `get_wait_time`: the remaining wait, never negative. */
  function WaitTime(last: map<int, real>, minInterval: real, userId: int, now: real): (w: real)
    ensures w >= 0.0
    ensures w >= Remaining(last, minInterval, userId, now)
    ensures w == 0.0 || w == Remaining(last, minInterval, userId, now)
  {
    var remaining := Remaining(last, minInterval, userId, now);
    if remaining > 0.0 then remaining else 0.0
  }

  /** The wait time is zero exactly when the gate would let the request through. */
  lemma WaitZeroIffAllowed(last: map<int, real>, minInterval: real, userId: int, now: real)
    ensures WaitTime(last, minInterval, userId, now) == 0.0 <==> Allows(last, minInterval, userId, now)
  {
  }

  /** After a request allowed at `t`, a request of the same user sooner than `minInterval` later is refused. */
  lemma SecondRequestRefused(last: map<int, real>, minInterval: real, userId: int, t: real, later: real)
    requires later - t < minInterval
    ensures !Allows(last[userId := t], minInterval, userId, later)
    ensures Remaining(last[userId := t], minInterval, userId, later) > 0.0
  {
    assert LastRequest(last[userId := t], userId) == t;
  }

  /** Recording a request of one user changes nothing for another. */
  lemma OtherUsersUnaffected(last: map<int, real>, minInterval: real, userId: int, t: real, other: int, now: real)
    requires other != userId
    ensures Allows(last[userId := t], minInterval, other, now) == Allows(last, minInterval, other, now)
    ensures WaitTime(last[userId := t], minInterval, other, now) == WaitTime(last, minInterval, other, now)
  {
    assert LastRequest(last[userId := t], other) == LastRequest(last, other);
  }

  /** The per-user gate in front of the chat backend. */
  class RateLimiter {
    const minInterval: real
    var lastRequest: map<int, real>

    constructor (minInterval: real := DEFAULT_MIN_INTERVAL)
      ensures this.minInterval == minInterval && lastRequest == map[]
    {
      this.minInterval := minInterval;
      lastRequest := map[];
    }

    /** `can_make_request`: on allow, records `now` for the user and returns `(true, 0)`; on deny, changes nothing and returns the positive wait. */
    method CanMakeRequest(userId: int, now: real) returns (allowed: bool, wait: real)
      modifies this
      ensures allowed <==> Allows(old(lastRequest), minInterval, userId, now)
      ensures allowed ==> lastRequest == old(lastRequest)[userId := now] && wait == 0.0
      ensures !allowed ==> lastRequest == old(lastRequest)
      ensures !allowed ==> wait == Remaining(old(lastRequest), minInterval, userId, now) && wait > 0.0
      ensures !allowed ==> wait == WaitTime(old(lastRequest), minInterval, userId, now)
    {
      var last := if userId in lastRequest then lastRequest[userId] else 0.0;
      if now - last < minInterval {
        return false, minInterval - (now - last);
      }
      lastRequest := lastRequest[userId := now];
      return true, 0.0;
    }

    /** `get_wait_time`: read-only. */
    method GetWaitTime(userId: int, now: real) returns (wait: real)
      ensures wait == WaitTime(lastRequest, minInterval, userId, now)
      ensures wait >= 0.0
    {
      var last := if userId in lastRequest then lastRequest[userId] else 0.0;
      var remaining := minInterval - (now - last);
      wait := if remaining > 0.0 then remaining else 0.0;
    }
  }
}
