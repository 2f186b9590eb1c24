/**
 * The mentor chat edge function: the `saveMentorNote` and
 * `suggestMicroHabits` function calls, the user-context text assembled from
 * today's entry, the last week, the active missions and the latest notes,
 * and the mapping of the AI gateway's answer to a response.
 */
module MentorChat {
  import opened Wrappers
  import opened Text
  import opened Tables
  import AIGateway
  import Subscription

  // ----- queries -----

  /** `.eq('user_id', u).eq('date', today).maybeSingle()`; the first matching row. */
  function TodayEntry(entries: seq<DailyEntry>, u: UserId, today: Day): (r: Option<DailyEntry>)
    ensures r.Some? ==> r.value in entries && r.value.userId == u && r.value.date == today
    ensures r.None? ==> forall e :: e in entries ==> !(e.userId == u && e.date == today)
    decreases |entries|
  {
    if entries == [] then None
    else if entries[0].userId == u && entries[0].date == today then Some(entries[0])
    else TodayEntry(entries[1..], u, today)
  }

  /** The last week's entries of the user, newest first, at most seven. */
  function RecentEntries(entries: seq<DailyEntry>, u: UserId, since: Day): seq<DailyEntry> {
    Take(ByDateDesc(UserEntriesSince(entries, u, since)), 7)
  }

  /**
   * At most seven entries, all the user's and none older than `since`, newest
   * first; when the user has no more than seven such entries, all of them.
   */
  lemma RecentEntriesSpec(entries: seq<DailyEntry>, u: UserId, since: Day)
    ensures var r := RecentEntries(entries, u, since);
      && |r| <= 7 && DateDesc(r)
      && (forall e :: e in r ==> e in entries && e.userId == u && e.date >= since)
      && (|UserEntriesSince(entries, u, since)| <= 7 ==> multiset(r) == multiset(UserEntriesSince(entries, u, since)))
  {
    var all := ByDateDesc(UserEntriesSince(entries, u, since));
    var r := RecentEntries(entries, u, since);
    forall e | e in r ensures e in entries && e.userId == u && e.date >= since {
      assert e in multiset(all);
    }
  }

  /** The missions listed are as many as the plan check counts. */
  lemma {:induction false} ActiveMissionsCounted(missions: seq<Mission>, u: UserId)
    ensures |ActiveMissions(missions, u)| == Subscription.ActiveMissionCount(missions, u)
    decreases |missions|
  {
    if missions != [] {
      ActiveMissionsCounted(missions[..|missions| - 1], u);
    }
  }

  function UserNotes(notes: seq<MentorNote>, u: UserId): (r: seq<MentorNote>)
    ensures forall n :: n in r <==> n in notes && n.userId == u
    decreases |notes|
  {
    if notes == [] then []
    else
      var prev := UserNotes(notes[..|notes| - 1], u);
      var n := notes[|notes| - 1];
      assert notes == notes[..|notes| - 1] + [n];
      if n.userId == u then prev + [n] else prev
  }

  /** Each of the notes is kept exactly as often as it occurs when it passes the filter, and not at all otherwise. */
  lemma {:induction false} UserNotesCounts(notes: seq<MentorNote>, u: UserId)
    ensures forall n :: multiset(UserNotes(notes, u))[n] == if n.userId == u then multiset(notes)[n] else 0
    decreases |notes|
  {
    if notes != [] {
      var prev := notes[..|notes| - 1];
      UserNotesCounts(prev, u);
      assert notes == prev + [notes[|notes| - 1]];
    }
  }

  /** The filter keeps the rows' order: filtering a concatenation concatenates the filtered parts. */
  lemma {:induction false} UserNotesAppend(a: seq<MentorNote>, b: seq<MentorNote>, u: UserId)
    ensures UserNotes(a + b, u) == UserNotes(a, u) + UserNotes(b, u)
    decreases |b|
  {
    if b == [] {
      assert a + b == a;
    } else {
      var b', x := b[..|b| - 1], b[|b| - 1];
      assert (a + b)[..|a + b| - 1] == a + b' && (a + b)[|a + b| - 1] == x;
      UserNotesAppend(a, b', u);
      var kept := if x.userId == u then [x] else [];
      assert UserNotes(a + b, u) == UserNotes(a + b', u) + kept;
      assert UserNotes(b, u) == UserNotes(b', u) + kept;
    }
  }

  /**
   * `.order('created_at', { ascending: false }).limit(10)`: notes are stored in
   * creation order, so this is the ten last of the user's notes, last first.
   */
  function LatestNotes(notes: seq<MentorNote>, u: UserId): (r: seq<MentorNote>)
    ensures var mine := UserNotes(notes, u);
      && |r| == (if |mine| < 10 then |mine| else 10)
      && forall i :: 0 <= i < |r| ==> r[i] == mine[|mine| - 1 - i]
  {
    var mine := UserNotes(notes, u);
    var k := if |mine| < 10 then |mine| else 10;
    seq(k, i requires 0 <= i < k => mine[|mine| - 1 - i])
  }

  // ----- the context text -----

  const Header: string := "# User Context\n\n"

  /** The text as a sequence of lines, each written followed by a newline. */
  function Render(lines: seq<string>): string
    decreases |lines|
  {
    if lines == [] then "" else Render(lines[..|lines| - 1]) + lines[|lines| - 1] + "\n"
  }

  lemma {:induction false} RenderAppend(a: seq<string>, b: seq<string>)
    ensures Render(a + b) == Render(a) + Render(b)
    decreases |b|
  {
    if b == [] {
      assert a + b == a;
    } else {
      var b' := b[..|b| - 1];
      assert (a + b)[..|a + b| - 1] == a + b';
      RenderAppend(a, b');
    }
  }

  function Quoted(s: string): string { "\"" + s + "\"" }

  /** The Today block; `""` stands for a missing reflection or suggestion. */
  function TodayLines(todayText: string, e: DailyEntry): seq<string> {
    [TodayHeading(todayText), MoodLine(e)]
      + OptionalLine(e.reflections != "", ReflectionsLine(e))
      + OptionalLine(e.aiSuggestion != "", SuggestionLine(e))
      + [""]
  }

  function TodayHeading(todayText: string): string { "## Today (" + todayText + ")" }

  function MoodLine(e: DailyEntry): string { "Mood: " + IntToString(e.mood) + "/5" }

  function ReflectionsLine(e: DailyEntry): string { "Reflections: " + Quoted(e.reflections) }

  function SuggestionLine(e: DailyEntry): string { "Suggestion given: " + Quoted(e.aiSuggestion) }

  /** A line written only under a condition. */
  function OptionalLine(present: bool, line: string): seq<string> {
    if present then [line] else []
  }

  function EntryLine(e: DailyEntry, dateText: Day -> string): string {
    "- " + dateText(e.date) + ": Mood " + IntToString(e.mood) + "/5"
      + (if e.aiSuggestion != "" then " | " + Quoted(e.aiSuggestion) else "")
  }

  function MissionLine(m: Mission): string {
    "- " + m.title + " (" + TypeName(m.missionType) + ", " + m.cadence + ") - Level " + IntToString(m.level)
      + ", " + IntToString(m.xp) + " XP, Target: " + IntToString(m.targetPerWeek) + "/week"
  }

  function NoteLine(n: MentorNote): string {
    "- " + Quoted(n.note) + (if |n.tags| > 0 then " [" + Join(n.tags, ", ") + "]" else "")
  }

  /** One line per item, in order: the body of a `forEach` appending to the text. */
  function LinesOf<T>(items: seq<T>, line: T -> string): (r: seq<string>)
    ensures |r| == |items| && forall i :: 0 <= i < |r| ==> r[i] == line(items[i])
  {
    seq(|items|, i requires 0 <= i < |items| => line(items[i]))
  }

  function EntryLineOf(dateText: Day -> string): DailyEntry -> string {
    e => EntryLine(e, dateText)
  }

  /** A titled block, left out entirely when it has no lines. */
  function Section(title: string, lines: seq<string>): seq<string> {
    if lines == [] then [] else [title] + lines + [""]
  }

  function ContextLines(todayText: string, today: Option<DailyEntry>, recent: seq<DailyEntry>,
                        missions: seq<Mission>, notes: seq<MentorNote>, dateText: Day -> string): seq<string>
  {
    ["# User Context", ""]
      + (if today.Some? then TodayLines(todayText, today.value) else [])
      + Section("## Recent Week", LinesOf(recent, EntryLineOf(dateText)))
      + Section("## Active Missions", LinesOf(missions, MissionLine))
      + Section("## Recent Notes", LinesOf(SliceTo(notes, 5), NoteLine))
  }

  function Context(todayText: string, today: Option<DailyEntry>, recent: seq<DailyEntry>,
                   missions: seq<Mission>, notes: seq<MentorNote>, dateText: Day -> string): string
  {
    Render(ContextLines(todayText, today, recent, missions, notes, dateText))
  }

  function Min(a: nat, b: nat): nat { if a < b then a else b }

  /**
   * The Today block has its heading, the mood, a line for each of the
   * reflection and suggestion that is set, and a blank line; each list block
   * is absent when its list is empty and otherwise has a heading, one line per
   * item (at most five notes) and a blank line.
   */
  lemma ContextLinesSpec(todayText: string, today: Option<DailyEntry>, recent: seq<DailyEntry>,
                         missions: seq<Mission>, notes: seq<MentorNote>, dateText: Day -> string)
    ensures var lines := ContextLines(todayText, today, recent, missions, notes, dateText);
      && lines[..2] == ["# User Context", ""]
      && |lines| == 2
           + (if today.None? then 0
              else 3 + (if today.value.reflections != "" then 1 else 0) + (if today.value.aiSuggestion != "" then 1 else 0))
           + (if recent == [] then 0 else |recent| + 2)
           + (if missions == [] then 0 else |missions| + 2)
           + (if notes == [] then 0 else Min(|notes|, 5) + 2)
  {
  }

  /** The text always starts with the header. */
  lemma ContextStartsWithHeader(todayText: string, today: Option<DailyEntry>, recent: seq<DailyEntry>,
                                missions: seq<Mission>, notes: seq<MentorNote>, dateText: Day -> string)
    ensures var c := Context(todayText, today, recent, missions, notes, dateText);
      |Header| <= |c| && c[..|Header|] == Header
  {
    var lines := ContextLines(todayText, today, recent, missions, notes, dateText);
    var head := ["# User Context", ""];
    assert lines == head + lines[2..];
    RenderAppend(head, lines[2..]);
    HeaderRendered();
  }

  lemma HeaderRendered()
    ensures Render(["# User Context", ""]) == Header
  {
    var head := ["# User Context", ""];
    assert head[..1] == ["# User Context"];
    assert ["# User Context"][..0] == [];
    assert Render(["# User Context"]) == "# User Context" + "\n";
    assert Render(head) == "# User Context" + "\n" + "" + "\n";
  }

  lemma RenderSnoc(lines: seq<string>, line: string)
    ensures Render(lines + [line]) == Render(lines) + line + "\n"
  {
    assert (lines + [line])[..|lines|] == lines;
  }

  // ----- the context builder, appending to a string as the handler does -----

  /** `context += line + "\n"`. */
  method AppendLine(context: string, ghost lines: seq<string>, line: string) returns (c: string)
    requires context == Render(lines)
    ensures c == Render(lines + [line])
  {
    RenderSnoc(lines, line);
    c := context + line + "\n";
  }

  method AppendToday(context: string, ghost lines: seq<string>, todayText: string, e: DailyEntry) returns (c: string)
    requires context == Render(lines)
    ensures c == Render(lines + TodayLines(todayText, e))
  {
    ghost var reflections := OptionalLine(e.reflections != "", ReflectionsLine(e));
    ghost var suggestion := OptionalLine(e.aiSuggestion != "", SuggestionLine(e));
    ghost var l1 := lines + [TodayHeading(todayText)];
    ghost var l2 := l1 + [MoodLine(e)];
    ghost var l3 := l2 + reflections;
    ghost var l4 := l3 + suggestion;
    c := AppendLine(context, lines, TodayHeading(todayText));
    c := AppendLine(c, l1, MoodLine(e));
    c := AppendOptional(c, l2, e.reflections != "", ReflectionsLine(e));
    c := AppendOptional(c, l3, e.aiSuggestion != "", SuggestionLine(e));
    c := AppendLine(c, l4, "");
    TodayLinesSplit(lines, todayText, e);
  }

  /** The Today block appended line by line is the block appended at once. */
  lemma TodayLinesSplit(lines: seq<string>, todayText: string, e: DailyEntry)
    ensures lines + [TodayHeading(todayText)] + [MoodLine(e)]
        + OptionalLine(e.reflections != "", ReflectionsLine(e))
        + OptionalLine(e.aiSuggestion != "", SuggestionLine(e)) + [""]
      == lines + TodayLines(todayText, e)
  {
    assert [TodayHeading(todayText)] + [MoodLine(e)] == [TodayHeading(todayText), MoodLine(e)];
  }

  /** `if (present) context += line + "\n"`. */
  method AppendOptional(context: string, ghost lines: seq<string>, present: bool, line: string) returns (c: string)
    requires context == Render(lines)
    ensures c == Render(lines + OptionalLine(present, line))
  {
    if present {
      c := AppendLine(context, lines, line);
    } else {
      c := context;
      assert lines + OptionalLine(present, line) == lines;
    }
  }

  lemma LinesOfSnoc<T>(items: seq<T>, i: nat, line: T -> string)
    requires i < |items|
    ensures LinesOf(items[..i + 1], line) == LinesOf(items[..i], line) + [line(items[i])]
  {
  }

  /** `if (items.length > 0) { context += title; items.forEach(x => context += line(x)); context += "\n" }`. */
  method AppendSection<T>(context: string, ghost lines: seq<string>, title: string, items: seq<T>, line: T -> string)
    returns (c: string)
    requires context == Render(lines)
    ensures c == Render(lines + Section(title, LinesOf(items, line)))
  {
    if |items| > 0 {
      c := AppendLine(context, lines, title);
      ghost var head := lines + [title];
      ghost var acc := head;
      assert LinesOf(items[..0], line) == [];
      var i := 0;
      while i < |items|
        invariant 0 <= i <= |items|
        invariant acc == head + LinesOf(items[..i], line)
        invariant c == Render(acc)
      {
        c := AppendLine(c, acc, line(items[i]));
        LinesOfSnoc(items, i, line);
        acc := acc + [line(items[i])];
        i := i + 1;
      }
      assert items[..i] == items;
      c := AppendLine(c, acc, "");
      SectionSplit(lines, title, LinesOf(items, line));
    } else {
      c := context;
      assert lines + Section(title, LinesOf(items, line)) == lines;
    }
  }

  /** A non-empty section appended line by line is the section appended at once. */
  lemma SectionSplit(lines: seq<string>, title: string, body: seq<string>)
    requires body != []
    ensures lines + [title] + body + [""] == lines + Section(title, body)
  {
  }

  /** The handler's `let context = ...; context += ...` sequence. */
  method BuildContext(todayText: string, today: Option<DailyEntry>, recent: seq<DailyEntry>,
                      missions: seq<Mission>, notes: seq<MentorNote>, dateText: Day -> string) returns (context: string)
    ensures context == Context(todayText, today, recent, missions, notes, dateText)
  {
    ghost var head := ["# User Context", ""];
    ghost var todayPart := if today.Some? then TodayLines(todayText, today.value) else [];
    ghost var week := Section("## Recent Week", LinesOf(recent, EntryLineOf(dateText)));
    ghost var active := Section("## Active Missions", LinesOf(missions, MissionLine));
    context := Header;
    HeaderRendered();
    if today.Some? {
      context := AppendToday(context, head, todayText, today.value);
    } else {
      assert head + todayPart == head;
    }
    context := AppendSection(context, head + todayPart, "## Recent Week", recent, EntryLineOf(dateText));
    context := AppendSection(context, head + todayPart + week, "## Active Missions", missions, MissionLine);
    context := AppendSection(context, head + todayPart + week + active, "## Recent Notes", SliceTo(notes, 5), NoteLine);
  }

  /** The notes block renders the five newest of the user's notes, newest first. */
  lemma NotesShownSpec(notes: seq<MentorNote>, u: UserId)
    ensures var mine := UserNotes(notes, u);
      var shown := SliceTo(LatestNotes(notes, u), 5);
      && |shown| == Min(|mine|, 5)
      && forall i :: 0 <= i < |shown| ==> shown[i] == mine[|mine| - 1 - i]
  {
  }

  // ----- the request handler -----

  /** The function call a request may carry; any other name falls through to the chat. */
  datatype FunctionCall =
    | SaveNoteCall(text: string, tags: Option<seq<string>>)
    | SuggestHabitsCall(missionId: string)
    | OtherCall(name: string)

  /** The AI gateway's answer to the micro-habit request. */
  datatype HabitsReply = HabitsNotOk | HabitsReturned(habits: seq<string>)

  datatype MentorResponse =
    | NoteSaved
    | Habits(habits: seq<string>)
    | RequiresAction(name: string, args: string)
    | Reply(message: string)
    | Failed(status: int, error: string)

  const NoteSavedMessage: string := "Note saved successfully"
  const HabitsFailedMessage: string := "AI request failed"

  function StatusOf(r: MentorResponse): int {
    if r.Failed? then r.status else 200
  }

  /** The request goes on to the chat unless it names one of the two handled calls. */
  predicate IsChat(call: Option<FunctionCall>) {
    call.None? || call.value.OtherCall?
  }

  /** The note `saveMentorNote` inserts; absent tags become `[]`. */
  function NewNote(u: UserId, text: string, tags: Option<seq<string>>, today: Day): MentorNote {
    MentorNote(u, text, tags.GetOr([]), today)
  }

  /**
   * The response. `dbError` is the message of a failed insert or lookup,
   * `noteFails` whether the note insert fails; a missing mission makes
   * `.single()` fail.
   */
  function Respond(missions: seq<Mission>, call: Option<FunctionCall>, noteFails: bool, dbError: string,
                   habits: HabitsReply, reply: AIGateway.AIReply): MentorResponse
  {
    if call.Some? && call.value.SaveNoteCall? then
      if noteFails then Failed(500, dbError) else NoteSaved
    else if call.Some? && call.value.SuggestHabitsCall? then
      if FindMission(missions, call.value.missionId).None? then Failed(500, dbError)
      else if habits.HabitsNotOk? then Failed(500, HabitsFailedMessage)
      else Habits(habits.habits)
    else
      match reply
      case GatewayNotOk(status) =>
        var e := AIGateway.GatewayFailure(status);
        Failed(e.status, e.error)
      case AIMessage(content, toolCalls) =>
        if |toolCalls| > 0 then RequiresAction(toolCalls[0].name, toolCalls[0].arguments) else Reply(content)
  }

  /**
   * A saved note answers 200 and a failed insert 500; on the chat path a
   * gateway 429 or 402 is passed through and any other gateway failure is 500,
   * and a reply with tool calls asks for action with the first call only.
   */
  lemma RespondSpec(missions: seq<Mission>, call: Option<FunctionCall>, noteFails: bool, dbError: string,
                    habits: HabitsReply, reply: AIGateway.AIReply)
    ensures var r := Respond(missions, call, noteFails, dbError, habits, reply);
      && (call.Some? && call.value.SaveNoteCall? ==> (StatusOf(r) == 200 <==> !noteFails) && (StatusOf(r) == 500 <==> noteFails))
      && (IsChat(call) && reply.GatewayNotOk? ==>
            && (StatusOf(r) == 429 <==> reply.status == 429)
            && (StatusOf(r) == 402 <==> reply.status == 402)
            && (StatusOf(r) == 500 <==> reply.status != 429 && reply.status != 402))
      && (r.RequiresAction? <==> IsChat(call) && reply.AIMessage? && |reply.toolCalls| > 0)
      && (r.RequiresAction? ==> r.name == reply.toolCalls[0].name && r.args == reply.toolCalls[0].arguments)
      && (r.Habits? ==> call.value.SuggestHabitsCall? && FindMission(missions, call.value.missionId).Some?)
  {
    if IsChat(call) && reply.GatewayNotOk? {
      AIGateway.GatewayFailureSpec(reply.status);
    }
  }

  /**
   * A saved note is the user's, carries the given tags or none, and counts
   * as one more of today's mentor messages for the plan limit.
   */
  lemma SavedNoteCounts(notes: seq<MentorNote>, u: UserId, text: string, tags: Option<seq<string>>, today: Day)
    ensures var n := NewNote(u, text, tags, today);
      && (tags.None? ==> n.tags == [])
      && Subscription.MentorMessageCount(notes + [n], u, today) == Subscription.MentorMessageCount(notes, u, today) + 1
      && UserNotes(notes + [n], u) == UserNotes(notes, u) + [n]
  {
    var all := notes + [NewNote(u, text, tags, today)];
    assert all[..|all| - 1] == notes;
  }

  /**
   * The handler: `saveMentorNote` inserts one note and answers; any other
   * request builds the context (returned here as the text the AI is given)
   * and answers from the AI's reply.
   */
  method HandleMentorChat(db: Store, u: UserId, call: Option<FunctionCall>, today: Day, weekAgo: Day,
                          todayText: string, dateText: Day -> string, noteFails: bool, dbError: string,
                          habits: HabitsReply, reply: AIGateway.AIReply) returns (resp: MentorResponse, context: Option<string>)
    modifies db`mentorNotes
    ensures resp == Respond(db.missions, call, noteFails, dbError, habits, reply)
    ensures call.Some? && call.value.SaveNoteCall? && !noteFails ==>
      db.mentorNotes == old(db.mentorNotes) + [NewNote(u, call.value.text, call.value.tags, today)]
    ensures !(call.Some? && call.value.SaveNoteCall? && !noteFails) ==> db.mentorNotes == old(db.mentorNotes)
    ensures IsChat(call) <==> context.Some?
    ensures IsChat(call) ==>
      context.value == Context(todayText, TodayEntry(db.dailyEntries, u, today), RecentEntries(db.dailyEntries, u, weekAgo),
                               ActiveMissions(db.missions, u), LatestNotes(db.mentorNotes, u), dateText)
  {
    context := None;
    if call.Some? && call.value.SaveNoteCall? {
      if noteFails {
        return Failed(500, dbError), None;
      }
      db.mentorNotes := db.mentorNotes + [NewNote(u, call.value.text, call.value.tags, today)];
      return NoteSaved, None;
    }
    if call.Some? && call.value.SuggestHabitsCall? {
      var found := FindMission(db.missions, call.value.missionId);
      if found.None? {
        return Failed(500, dbError), None;
      }
      if habits.HabitsNotOk? {
        return Failed(500, HabitsFailedMessage), None;
      }
      return Habits(habits.habits), None;
    }
    var text := BuildContext(todayText, TodayEntry(db.dailyEntries, u, today), RecentEntries(db.dailyEntries, u, weekAgo),
                             ActiveMissions(db.missions, u), LatestNotes(db.mentorNotes, u), dateText);
    context := Some(text);
    match reply {
      case GatewayNotOk(status) =>
        var e := AIGateway.GatewayFailure(status);
        resp := Failed(e.status, e.error);
      case AIMessage(content, toolCalls) =>
        if |toolCalls| > 0 {
          resp := RequiresAction(toolCalls[0].name, toolCalls[0].arguments);
        } else {
          resp := Reply(content);
        }
    }
  }
}
