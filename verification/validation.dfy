/**
 * The validation schemas of the planner, stated as the issues each one
 * reports. A schema accepts exactly when it reports no issue.
 */
module Validation {
  import opened Wrappers
  import opened Text
  import opened Seqs

  /** Fields of the trip schema that can carry an issue. */
  datatype TripField = Title | Description | ParticipantCount | BudgetLevel | GoalTags | EndDate

  datatype Budget = Low | Medium | High

  /** The data handed to the trip schema; `participantCount == None` is `NaN`. */
  datatype TripInput = TripInput(
    title: string,
    description: Option<string>,
    participantCount: Option<int>,
    budgetLevel: string,
    goalTags: seq<string>,
    startDate: int,
    endDate: int)

  /** The schema's output: strings trimmed, budget level decoded. */
  datatype ValidTrip = ValidTrip(
    title: string,
    description: Option<string>,
    participantCount: int,
    budgetLevel: Budget,
    goalTags: seq<string>,
    startDate: int,
    endDate: int)

  datatype TripParse = Accepted(trip: ValidTrip) | Rejected(issues: seq<TripField>)

  /** The enumeration literal of a budget level. */
  function BudgetName(b: Budget): string {
    match b
    case Low => "low"
    case Medium => "medium"
    case High => "high"
  }

  /** `z.enum(["low", "medium", "high"])`: a literal decodes to the level it names. */
  function ParseBudget(s: string): (b: Option<Budget>)
    ensures b.Some? <==> s == "low" || s == "medium" || s == "high"
    ensures b.Some? ==> BudgetName(b.value) == s
  {
    if s == "low" then Some(Low)
    else if s == "medium" then Some(Medium)
    else if s == "high" then Some(High)
    else None
  }

  predicate TitleOk(title: string) { 1 <= |Trim(title)| <= 200 }

  /** `.trim().max(2000).optional().or(z.literal(""))`. */
  predicate DescriptionOk(description: Option<string>) {
    description.None? || |Trim(description.value)| <= 2000 || description.value == ""
  }

  predicate ParticipantCountOk(n: Option<int>) { n.Some? && 2 <= n.value <= 1000 }

  predicate GoalTagsOk(tags: seq<string>) { |tags| <= 10 }

  /**
   * A field failure that stops the schema before its object-level refinement:
   * a mistyped number (`NaN`) or a value outside the enumeration. An exceeded
   * bound (a title too long, a count out of range, too many goals) is only
   * recorded and the refinement still runs. The same holds for an over-long
   * description: its union returns the recorded result of its first branch.
   */
  predicate Aborts(t: TripInput) {
    t.participantCount.None? || ParseBudget(t.budgetLevel).None?
  }

  /** Everything the trip schema demands. */
  predicate ValidTripInput(t: TripInput) {
    && TitleOk(t.title)
    && DescriptionOk(t.description)
    && ParticipantCountOk(t.participantCount)
    && ParseBudget(t.budgetLevel).Some?
    && GoalTagsOk(t.goalTags)
    && t.endDate >= t.startDate
  }

  /** `rest`, preceded by `f` when `flagged`. */
  function Flag(flagged: bool, f: TripField, rest: seq<TripField>): (r: seq<TripField>)
    ensures forall g :: g in r <==> (flagged && g == f) || g in rest
    ensures r == [] <==> !flagged && rest == []
  {
    if flagged then [f] + rest else rest
  }

  /** The fields flagged failing, in the schema's field order (`endDate` last). */
  function FlaggedFields(title: bool, description: bool, count: bool, budget: bool, tags: bool, dates: bool)
    : (r: seq<TripField>)
    ensures Title in r <==> title
    ensures Description in r <==> description
    ensures ParticipantCount in r <==> count
    ensures BudgetLevel in r <==> budget
    ensures GoalTags in r <==> tags
    ensures EndDate in r <==> dates
    ensures r == [] <==> !title && !description && !count && !budget && !tags && !dates
  {
    Flag(title, Title, Flag(description, Description, Flag(count, ParticipantCount,
      Flag(budget, BudgetLevel, Flag(tags, GoalTags, Flag(dates, EndDate, []))))))
  }

  /**
   * The issues `tripSchema` reports, in field order; the date-order issue is
   * attached to `endDate` and is only reached when no field aborted.
   */
  function TripIssues(t: TripInput): (r: seq<TripField>)
    ensures Title in r <==> !TitleOk(t.title)
    ensures Description in r <==> !DescriptionOk(t.description)
    ensures ParticipantCount in r <==> !ParticipantCountOk(t.participantCount)
    ensures BudgetLevel in r <==> ParseBudget(t.budgetLevel).None?
    ensures GoalTags in r <==> !GoalTagsOk(t.goalTags)
    ensures EndDate in r <==> !Aborts(t) && t.endDate < t.startDate
    ensures r == [] <==> ValidTripInput(t)
  {
    FlaggedFields(!TitleOk(t.title), !DescriptionOk(t.description), !ParticipantCountOk(t.participantCount),
                  ParseBudget(t.budgetLevel).None?, !GoalTagsOk(t.goalTags),
                  !Aborts(t) && t.endDate < t.startDate)
  }

  /** `tripSchema.parse`: the trimmed trip when valid, otherwise the issues. */
  function ParseTrip(t: TripInput): (r: TripParse)
    ensures r.Accepted? <==> ValidTripInput(t)
    ensures r.Rejected? ==> |r.issues| > 0
    ensures r.Accepted? ==>
              && r.trip.title == Trim(t.title)
              && 1 <= |r.trip.title| <= 200
              && (t.description.Some? ==> r.trip.description == Some(Trim(t.description.value)))
              && (t.description.None? ==> r.trip.description == None)
              && Some(r.trip.participantCount) == t.participantCount
              && Some(r.trip.budgetLevel) == ParseBudget(t.budgetLevel)
              && 2 <= r.trip.participantCount <= 1000
              && r.trip.goalTags == t.goalTags
              && r.trip.startDate == t.startDate && r.trip.endDate == t.endDate
              && r.trip.startDate <= r.trip.endDate
  {
    var issues := TripIssues(t);
    if issues != [] then Rejected(issues)
    else Accepted(ValidTrip(
      Trim(t.title),
      if t.description.Some? then Some(Trim(t.description.value)) else None,
      t.participantCount.value,
      ParseBudget(t.budgetLevel).value,
      t.goalTags,
      t.startDate,
      t.endDate))
  }

  /** Equal start and end dates pass the date-order rule; an end before the start is refused on `endDate`. */
  lemma DateOrderRule(t: TripInput)
    requires !Aborts(t)
    ensures t.endDate == t.startDate ==> EndDate !in TripIssues(t)
    ensures t.endDate < t.startDate ==> ParseTrip(t).Rejected? && EndDate in ParseTrip(t).issues
  {
  }

  /** A title of nothing but white space is refused, however long it is. */
  lemma BlankTitleRejected(t: TripInput)
    requires forall i :: 0 <= i < |t.title| ==> IsSpace(t.title[i])
    ensures ParseTrip(t).Rejected? && Title in ParseTrip(t).issues
  {
  }

  /** Surrounding white space does not count toward the 200-character title limit. */
  lemma PaddedTitleAccepted(t: TripInput, core: string)
    requires 1 <= |core| <= 200 && !IsSpace(core[0]) && !IsSpace(core[|core| - 1])
    requires t.title == " " + core + " "
    ensures TitleOk(t.title)
  {
    TrimUnpadded(" ", core, " ");
  }

  /** Fields of the smaller schemas. */
  datatype RecordField = RecordTitle | RecordDuration | RecordNotes

  /** `activitySchema`: a non-empty title of at most 500 code points and a positive whole duration. */
  function ActivityIssues(title: string, durationMinutes: int): (r: seq<RecordField>)
    ensures RecordTitle in r <==> |title| == 0 || |title| > 500
    ensures RecordDuration in r <==> durationMinutes <= 0
    ensures RecordNotes !in r
  {
    (if 1 <= |title| <= 500 then [] else [RecordTitle])
    + (if durationMinutes > 0 then [] else [RecordDuration])
  }

  /** `blockUpdateSchema`: each field may be absent; a present title has 1 to 500 code points, notes at most 2000. */
  function BlockUpdateIssues(title: Option<string>, notes: Option<string>): (r: seq<RecordField>)
    ensures RecordTitle in r <==> title.Some? && (|title.value| == 0 || |title.value| > 500)
    ensures RecordNotes in r <==> notes.Some? && |notes.value| > 2000
    ensures RecordDuration !in r
    ensures title.None? && notes.None? ==> r == []
  {
    (if title.None? || 1 <= |title.value| <= 500 then [] else [RecordTitle])
    + (if notes.None? || |notes.value| <= 2000 then [] else [RecordNotes])
  }

  /** `checklistItemSchema`: a title of 1 to 500 code points. */
  function ChecklistItemIssues(title: string): (r: seq<RecordField>)
    ensures r == [] <==> 1 <= |title| <= 500
    ensures r != [] ==> r == [RecordTitle]
  {
    if 1 <= |title| <= 500 then [] else [RecordTitle]
  }
}
