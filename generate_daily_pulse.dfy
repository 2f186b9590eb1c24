/**
 * The daily pulse edge function: the request schema, the two summaries put
 * into the AI prompt, the check on the returned tool call, and the mapping
 * of failures to statuses.
 */
module GenerateDailyPulse {
  import opened Wrappers
  import opened Text
  import opened Tables
  import AIGateway

  // ----- the request schema -----

  /** `/^\d{4}-\d{2}-\d{2}$/`: the shape of a date, not its range. */
  predicate IsDateShape(s: string) {
    && |s| == 10
    && IsDigit(s[0]) && IsDigit(s[1]) && IsDigit(s[2]) && IsDigit(s[3])
    && s[4] == '-' && IsDigit(s[5]) && IsDigit(s[6])
    && s[7] == '-' && IsDigit(s[8]) && IsDigit(s[9])
  }

  /** Only the shape is checked: a month 13 and a day 99 pass, a short year does not. */
  lemma DateShapeOnly()
    ensures IsDateShape("2025-13-99")
    ensures !IsDateShape("25-01-01")
    ensures !IsDateShape("2025-01-01\n")
  {
  }

  /** A request body field: absent, a string, or some other JSON value. */
  datatype Field = Missing | Str(s: string) | NotStr

  datatype PulseIssue = UserIdIssue | DateIssue

  /**
   * The schema's issues, in field order (zod reports every failing field).
   * `isUuid` stands for zod's uuid pattern.
   */
  function SchemaIssues(userId: Field, date: Field, isUuid: string -> bool): (r: seq<PulseIssue>)
    ensures |r| <= 2
    ensures UserIdIssue in r <==> !(userId.Str? && isUuid(userId.s))
    ensures DateIssue in r <==> !(date.Str? && IsDateShape(date.s))
  {
    (if userId.Str? && isUuid(userId.s) then [] else [UserIdIssue])
      + (if date.Str? && IsDateShape(date.s) then [] else [DateIssue])
  }

  // ----- the prompt summaries -----

  function MissionText(m: Mission): string {
    m.title + " (" + TypeName(m.missionType) + ", " + m.cadence + ")"
  }

  const NoMissions: string := "No active missions"
  const NoEntries: string := "No recent entries"

  /** `missions.map(...).join(', ') || 'No active missions'`. */
  function MissionsSummary(missions: seq<Mission>): string {
    var joined := Join(seq(|missions|, i requires 0 <= i < |missions| => MissionText(missions[i])), ", ");
    if joined == "" then NoMissions else joined
  }

  /** No missions gives the fallback; otherwise it is the join of every mission's text. */
  lemma MissionsSummarySpec(missions: seq<Mission>)
    ensures missions == [] ==> MissionsSummary(missions) == NoMissions
    ensures missions != [] ==>
      MissionsSummary(missions) == Join(seq(|missions|, i requires 0 <= i < |missions| => MissionText(missions[i])), ", ")
    ensures |missions| == 1 ==> MissionsSummary(missions) == MissionText(missions[0])
  {
    if missions != [] {
      var parts := seq(|missions|, i requires 0 <= i < |missions| => MissionText(missions[i]));
      assert parts[0] == missions[0].title + " (" + TypeName(missions[0].missionType) + ", " + missions[0].cadence + ")";
      assert parts[0][|missions[0].title|] == ' ';
      JoinNonEmpty(parts, ", ");
    }
  }

  /** `${date}: Mood ${mood}/5` followed, when there is a reflection, by its first 100 characters and `...`. */
  function ReflectionLine(e: DailyEntry, dateText: Day -> string): string {
    dateText(e.date) + ": Mood " + IntToString(e.mood) + "/5"
      + (if e.reflections != "" then ", \"" + SliceTo(e.reflections, 100) + "...\"" else "")
  }

  /** `recentEntries.slice(0, 3).map(...).join('\n') || 'No recent entries'`, over entries newest first. */
  function RecentReflections(newest: seq<DailyEntry>, dateText: Day -> string): string {
    var top := SliceTo(newest, 3);
    var joined := Join(seq(|top|, i requires 0 <= i < |top| => ReflectionLine(top[i], dateText)), "\n");
    if joined == "" then NoEntries else joined
  }

  /** No entries gives the fallback; otherwise one line for each of at most the three newest. */
  lemma RecentReflectionsSpec(newest: seq<DailyEntry>, dateText: Day -> string)
    ensures newest == [] ==> RecentReflections(newest, dateText) == NoEntries
    ensures newest != [] ==>
      var top := SliceTo(newest, 3);
      && |top| == (if |newest| < 3 then |newest| else 3) && top == newest[..|top|]
      && RecentReflections(newest, dateText) == Join(seq(|top|, i requires 0 <= i < |top| => ReflectionLine(top[i], dateText)), "\n")
  {
    if newest != [] {
      var top := SliceTo(newest, 3);
      var parts := seq(|top|, i requires 0 <= i < |top| => ReflectionLine(top[i], dateText));
      ReflectionLineNonEmpty(top[0], dateText);
      JoinNonEmpty(parts, "\n");
    }
  }

  lemma ReflectionLineNonEmpty(e: DailyEntry, dateText: Day -> string)
    ensures ReflectionLine(e, dateText) != ""
  {
    var head := dateText(e.date) + ": Mood ";
    assert head[|dateText(e.date)|] == ':';
  }

  /** A reflection is quoted as at most its first 100 characters, then `...`. */
  lemma ReflectionLineSpec(e: DailyEntry, dateText: Day -> string)
    ensures var shown := SliceTo(e.reflections, 100);
      && |shown| <= 100 && shown == e.reflections[..|shown|]
      && (|e.reflections| <= 100 ==> shown == e.reflections)
  {
  }

  // ----- the handler -----

  const ToolName: string := "generate_daily_pulse"
  const InvalidFormat: string := "Invalid AI response format"

  datatype PulseResponse =
    | PulseData(arguments: string)
    | InvalidRequest(issues: seq<PulseIssue>)
    | PulseFailed(status: int, error: string)

  function StatusOf(r: PulseResponse): int {
    match r
    case PulseData(_) => 200
    case InvalidRequest(_) => 400
    case PulseFailed(status, _) => status
  }

  /** The prompt context the AI is given: the date, the missions summary and the reflections. */
  datatype PromptContext = PromptContext(date: string, missions: string, reflections: string)

  /**
   * The handler. `missionsError` and `entriesError` are the query failures;
   * the missions are the user's active ones and the entries the user's since
   * `weekAgo`, newest first.
   */
  function GeneratePulse(userId: Field, date: Field, isUuid: string -> bool, missions: seq<Mission>,
                         entries: seq<DailyEntry>, weekAgo: Day, dateText: Day -> string,
                         missionsError: Option<string>, entriesError: Option<string>, reply: AIGateway.AIReply)
    : (PulseResponse, Option<PromptContext>)
  {
    var issues := SchemaIssues(userId, date, isUuid);
    if issues != [] then (InvalidRequest(issues), None)
    else if missionsError.Some? then (PulseFailed(500, missionsError.value), None)
    else if entriesError.Some? then (PulseFailed(500, entriesError.value), None)
    else
      var u := userId.s;
      var prompt := PromptContext(date.s, MissionsSummary(ActiveMissions(missions, u)),
                                  RecentReflections(ByDateDesc(UserEntriesSince(entries, u, weekAgo)), dateText));
      match reply
      case GatewayNotOk(status) =>
        var e := AIGateway.GatewayFailure(status);
        (PulseFailed(e.status, e.error), Some(prompt))
      case AIMessage(_, toolCalls) =>
        if toolCalls == [] || toolCalls[0].name != ToolName then (PulseFailed(500, InvalidFormat), Some(prompt))
        else (PulseData(toolCalls[0].arguments), Some(prompt))
  }

  /**
   * A schema failure answers 400 with its issues and reaches nothing else;
   * a query failure answers 500; a gateway 429 or 402 is passed through; the
   * pulse is returned only from a first tool call with the expected name.
   */
  lemma GeneratePulseSpec(userId: Field, date: Field, isUuid: string -> bool, missions: seq<Mission>,
                          entries: seq<DailyEntry>, weekAgo: Day, dateText: Day -> string,
                          missionsError: Option<string>, entriesError: Option<string>, reply: AIGateway.AIReply)
    ensures var (r, prompt) := GeneratePulse(userId, date, isUuid, missions, entries, weekAgo, dateText, missionsError, entriesError, reply);
      && (StatusOf(r) == 400 <==> !(userId.Str? && isUuid(userId.s) && date.Str? && IsDateShape(date.s)))
      && (StatusOf(r) == 400 ==> r.InvalidRequest? && prompt.None?)
      && (prompt.Some? ==> prompt.value.date == date.s && IsDateShape(prompt.value.date)
                           && missionsError.None? && entriesError.None?)
      && (r.PulseData? <==> prompt.Some? && reply.AIMessage? && |reply.toolCalls| > 0 && reply.toolCalls[0].name == ToolName)
      && (prompt.Some? && reply.GatewayNotOk? ==>
            (StatusOf(r) == 429 <==> reply.status == 429) && (StatusOf(r) == 402 <==> reply.status == 402))
  {
    var issues := SchemaIssues(userId, date, isUuid);
    if issues == [] && missionsError.None? && entriesError.None? && reply.GatewayNotOk? {
      AIGateway.GatewayFailureSpec(reply.status);
    }
  }
}
