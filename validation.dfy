/**
 * Text-safety validation of user text (`validateUserText`), `truncateText`
 * and the zod schemas built on them. Each safety category's patterns are an
 * opaque predicate `matches(category, text)`.
 */
module Validation {
  import opened Wrappers
  import opened Text

  const MaxTextLength: nat := 2000

  datatype CrisisResource = CrisisResource(name: string, phone: string, url: string, description: string)

  const CrisisResources: seq<CrisisResource> := [
    CrisisResource("988 Suicide & Crisis Lifeline", "988", "https://988lifeline.org",
      "24/7 crisis support for suicide prevention and mental health emergencies"),
    CrisisResource("Crisis Text Line", "Text HOME to 741741", "https://www.crisistextline.org",
      "Free, 24/7 text support for people in crisis"),
    CrisisResource("SAMHSA National Helpline", "1-800-662-4357", "https://www.samhsa.gov/find-help/national-helpline",
      "Substance abuse and mental health treatment referral service")
  ]

  datatype Category = SelfHarm | Crisis | Violence | SubstanceAbuse
  datatype Severity = Low | Medium | High | Critical
  datatype Action = Allow | Block | Redirect | Escalate

  /** The order in which the pattern lists are scanned. */
  const CheckOrder: seq<Category> := [SelfHarm, Crisis, Violence, SubstanceAbuse]

  /** `SafetyResponse`; an absent optional field is `None`. */
  datatype SafetyResponse = SafetyResponse(
    valid: bool, severity: Option<Severity>, action: Option<Action>, error: Option<string>,
    resources: Option<seq<CrisisResource>>)

  /** Position of the first category of `order` whose patterns match the text (`|order|` when none does): the early-return scan. */
  function FirstMatchIndex(order: seq<Category>, text: string, matches: (Category, string) -> bool): (i: nat)
    ensures i <= |order|
    ensures forall j :: 0 <= j < i ==> !matches(order[j], text)
    ensures i < |order| ==> matches(order[i], text)
  {
    if order == [] || matches(order[0], text) then 0
    else 1 + FirstMatchIndex(order[1..], text, matches)
  }

  /** Over the fixed check order the scan stops at the first of the four categories that matches. */
  lemma CheckOrderScan(text: string, matches: (Category, string) -> bool)
    ensures FirstMatchIndex(CheckOrder, text, matches) ==
      if matches(SelfHarm, text) then 0 else if matches(Crisis, text) then 1
      else if matches(Violence, text) then 2 else if matches(SubstanceAbuse, text) then 3 else 4
  {
    var o3: seq<Category> := [SubstanceAbuse];
    var o2: seq<Category> := [Violence] + o3;
    var o1: seq<Category> := [Crisis] + o2;
    assert CheckOrder == [SelfHarm] + o1;
    assert o3[1..] == [] && o2[1..] == o3 && o1[1..] == o2 && CheckOrder[1..] == o1;
    assert FirstMatchIndex(o3, text, matches) == if matches(SubstanceAbuse, text) then 0 else 1;
    assert FirstMatchIndex(o2, text, matches) == if matches(Violence, text) then 0 else 1 + FirstMatchIndex(o3, text, matches);
    assert FirstMatchIndex(o1, text, matches) == if matches(Crisis, text) then 0 else 1 + FirstMatchIndex(o2, text, matches);
  }

  function FirstMatch(order: seq<Category>, text: string, matches: (Category, string) -> bool): Option<Category> {
    var i := FirstMatchIndex(order, text, matches);
    if i < |order| then Some(order[i]) else None
  }

  /** The response returned when a category's patterns match. */
  const SelfHarmError: string :=
    "Your message contains potentially harmful content. If you're in crisis, please reach out for help immediately."
  const CrisisError: string :=
    "We're concerned about your wellbeing. Please reach out to a crisis support service for immediate help."
  const ViolenceError: string :=
    "Your message contains content that suggests harm to others. This type of content is not allowed."
  const SubstanceError: string :=
    "Your message contains content related to substance abuse. If you need help, please contact a support service."
  const LengthError: string := "Text must be less than 2000 characters"

  function Rejection(c: Category): SafetyResponse {
    match c
    case SelfHarm => SafetyResponse(false, Some(Critical), Some(Escalate), Some(SelfHarmError), Some(CrisisResources))
    case Crisis => SafetyResponse(false, Some(Critical), Some(Escalate), Some(CrisisError), Some(CrisisResources))
    case Violence => SafetyResponse(false, Some(High), Some(Block), Some(ViolenceError), Some(CrisisResources))
    case SubstanceAbuse => SafetyResponse(false, Some(High), Some(Redirect), Some(SubstanceError), Some(CrisisResources))
  }

  function ValidateUserText(text: string, matches: (Category, string) -> bool): SafetyResponse {
    if text == [] then SafetyResponse(true, None, None, None, None)
    else if |text| > MaxTextLength then
      SafetyResponse(false, Some(Low), Some(Block), Some(LengthError), None)
    else match FirstMatch(CheckOrder, text, matches)
      case None => SafetyResponse(true, Some(Low), Some(Allow), None, None)
      case Some(c) => Rejection(c)
  }

  predicate AnyMatch(text: string, matches: (Category, string) -> bool) {
    matches(SelfHarm, text) || matches(Crisis, text) || matches(Violence, text) || matches(SubstanceAbuse, text)
  }

  /**
   * Empty text is valid with no severity or action; text over 2000
   * characters is a low/block rejection without resources (2000 passes the
   * length check); otherwise the text is valid (low/allow) exactly when no
   * category matches.
   */
  lemma ValidateUserTextSpec(text: string, matches: (Category, string) -> bool)
    ensures var r := ValidateUserText(text, matches);
      && (text == [] ==> r.valid && r.severity.None? && r.action.None?)
      && (|text| > MaxTextLength ==> !r.valid && r.severity == Some(Low) && r.action == Some(Block) && r.resources.None?)
      && (0 < |text| <= MaxTextLength ==> (r.valid <==> !AnyMatch(text, matches)))
      && (0 < |text| <= MaxTextLength && !AnyMatch(text, matches) ==> r.severity == Some(Low) && r.action == Some(Allow))
      && (r.valid <==> text == [] || (|text| <= MaxTextLength && !AnyMatch(text, matches)))
  {
    CheckOrderScan(text, matches);
  }

  /**
   * Category precedence: self-harm, then crisis, then violence, then
   * substance abuse; the first matching one decides severity and action,
   * and every category rejection carries the crisis resources.
   */
  lemma CategoryPrecedence(text: string, matches: (Category, string) -> bool)
    requires 0 < |text| <= MaxTextLength
    ensures var r := ValidateUserText(text, matches);
      && (matches(SelfHarm, text) ==> r == Rejection(SelfHarm))
      && (!matches(SelfHarm, text) && matches(Crisis, text) ==> r == Rejection(Crisis))
      && (!matches(SelfHarm, text) && !matches(Crisis, text) && matches(Violence, text) ==> r == Rejection(Violence))
      && (!matches(SelfHarm, text) && !matches(Crisis, text) && !matches(Violence, text) && matches(SubstanceAbuse, text)
          ==> r == Rejection(SubstanceAbuse))
      && (AnyMatch(text, matches) ==>
            r.resources == Some(CrisisResources) && (r.severity == Some(Critical) <==> matches(SelfHarm, text) || matches(Crisis, text)))
  {
    CheckOrderScan(text, matches);
  }

  // ----- truncateText -----

  /** `truncateText(text, maxLength)`; the source's default `maxLength` is `MaxTextLength`. */
  function TruncateText(text: string, maxLength: nat): string {
    if |text| <= maxLength then text else text[..maxLength]
  }

  /** The result is the prefix of length `min(len, max)`; truncating again changes nothing. */
  lemma TruncateTextSpec(text: string, maxLength: nat)
    ensures var r := TruncateText(text, maxLength);
      && |r| == (if |text| <= maxLength then |text| else maxLength)
      && r == text[..|r|]
      && (|text| <= maxLength ==> r == text)
      && TruncateText(r, maxLength) == r
  {
  }

  /** Text that passes validation is never shortened by the default truncation. */
  lemma ValidTextIsNotTruncated(text: string, matches: (Category, string) -> bool)
    requires ValidateUserText(text, matches).valid
    ensures TruncateText(text, MaxTextLength) == text
  {
    ValidateUserTextSpec(text, matches);
  }

  // ----- the zod schemas -----

  /**
   * The outcome of `schema.safeParse`: the trimmed value, or every issue in
   * the order zod records them (length checks do not stop the refinement
   * from running).
   */
  datatype Parsed = Parsed(value: string) | Issues(messages: seq<string>)

  function Outcome(value: string, issues: seq<string>): Parsed {
    if issues == [] then Parsed(value) else Issues(issues)
  }

  const HarmfulMessage: string := "Content contains potentially harmful language"
  const ReflectionTooLong: string := "Reflection must be less than 2000 characters"
  const MessageEmpty: string := "Message cannot be empty"
  const MessageTooLong: string := "Message must be less than 2000 characters"
  const MissionTextTooLong: string := "Text must be less than 200 characters"
  const NoteTooLong: string := "Note must be less than 500 characters"

  function ReflectionSchema(s: string, matches: (Category, string) -> bool): Parsed {
    var t := Trim(s);
    Outcome(t, (if |t| > MaxTextLength then [ReflectionTooLong] else [])
             + (if !ValidateUserText(t, matches).valid then [HarmfulMessage] else []))
  }

  function MentorMessageSchema(s: string, matches: (Category, string) -> bool): Parsed {
    var t := Trim(s);
    Outcome(t, (if t == [] then [MessageEmpty] else [])
             + (if |t| > MaxTextLength then [MessageTooLong] else [])
             + (if !ValidateUserText(t, matches).valid then [HarmfulMessage] else []))
  }

  function MissionTextSchema(s: string): Parsed {
    var t := Trim(s);
    Outcome(t, if |t| > 200 then [MissionTextTooLong] else [])
  }

  function CheckInNoteSchema(s: string): Parsed {
    var t := Trim(s);
    Outcome(t, if |t| > 500 then [NoteTooLong] else [])
  }

  /**
   * A reflection is accepted exactly when its trimmed text has at most 2000
   * characters and passes `validateUserText`; the accepted value is trimmed.
   */
  lemma ReflectionSchemaSpec(s: string, matches: (Category, string) -> bool)
    ensures var r := ReflectionSchema(s, matches);
      && (r.Parsed? <==> |Trim(s)| <= MaxTextLength && !(Trim(s) != [] && AnyMatch(Trim(s), matches)))
      && (r.Parsed? ==> r.value == Trim(s) && Trim(r.value) == r.value)
      && (|Trim(s)| > MaxTextLength ==> r == Issues([ReflectionTooLong, HarmfulMessage]))
  {
    TrimIdempotent(s);
    ReflectionOutcome(Trim(s), matches);
  }

  /** The same facts about the schema's outcome on an already trimmed text `t`. */
  lemma ReflectionOutcome(t: string, matches: (Category, string) -> bool)
    ensures var r := Outcome(t, (if |t| > MaxTextLength then [ReflectionTooLong] else [])
                                + (if !ValidateUserText(t, matches).valid then [HarmfulMessage] else []));
      && (r.Parsed? <==> |t| <= MaxTextLength && !(t != [] && AnyMatch(t, matches)))
      && (r.Parsed? ==> r.value == t)
      && (|t| > MaxTextLength ==> r == Issues([ReflectionTooLong, HarmfulMessage]))
  {
    var v := ValidateUserText(t, matches);
    ValidateUserTextSpec(t, matches);
    var lengthIssues: seq<string> := if |t| > MaxTextLength then [ReflectionTooLong] else [];
    var harmIssues: seq<string> := if !v.valid then [HarmfulMessage] else [];
    if |t| > MaxTextLength {
      assert lengthIssues + harmIssues == [ReflectionTooLong, HarmfulMessage];
    } else if v.valid {
      assert lengthIssues + harmIssues == [];
    } else {
      assert lengthIssues + harmIssues == [HarmfulMessage];
    }
  }

  /**
   * A mentor message is rejected when empty after trimming, with "Message
   * cannot be empty" as its first issue; otherwise it is accepted exactly when
   * the trimmed text has at most 2000 characters and no category matches.
   */
  lemma MentorMessageSchemaSpec(s: string, matches: (Category, string) -> bool)
    ensures var r := MentorMessageSchema(s, matches);
      && ((forall i :: 0 <= i < |s| ==> IsJsWhitespace(s[i])) ==> r == Issues([MessageEmpty]))
      && (r.Parsed? <==> Trim(s) != [] && |Trim(s)| <= MaxTextLength && !AnyMatch(Trim(s), matches))
      && (r.Parsed? ==> r.value == Trim(s) && Trim(r.value) == r.value)
  {
    var t := Trim(s);
    var v := ValidateUserText(t, matches);
    ValidateUserTextSpec(t, matches);
    TrimIdempotent(s);
    TrimEmptyIff(s);
    var emptyIssues: seq<string> := if t == [] then [MessageEmpty] else [];
    var lengthIssues: seq<string> := if |t| > MaxTextLength then [MessageTooLong] else [];
    var harmIssues: seq<string> := if !v.valid then [HarmfulMessage] else [];
    assert MentorMessageSchema(s, matches) == Outcome(t, emptyIssues + lengthIssues + harmIssues);
    assert emptyIssues + lengthIssues + harmIssues == [] <==> emptyIssues == [] && lengthIssues == [] && harmIssues == [];
    if t == [] {
      assert v.valid;
      assert emptyIssues + lengthIssues + harmIssues == [MessageEmpty];
    }
  }

  /** Mission text is limited to 200 characters after trimming, check-in notes to 500. */
  lemma LengthSchemasSpec(s: string)
    ensures MissionTextSchema(s).Parsed? <==> |Trim(s)| <= 200
    ensures MissionTextSchema(s).Parsed? ==> MissionTextSchema(s).value == Trim(s)
    ensures CheckInNoteSchema(s).Parsed? <==> |Trim(s)| <= 500
    ensures CheckInNoteSchema(s).Parsed? ==> CheckInNoteSchema(s).value == Trim(s)
  {
  }
}
