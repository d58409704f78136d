/**
 * The trip brief form: goal picking, the required-field precheck, validation
 * and the trip row that is inserted for a signed-in user.
 */
module TripBrief {
  import opened Wrappers
  import opened Text
  import opened Seqs
  import opened Selection
  import opened Validation

  /** The form state. Dates are unset until picked; the participant count is the text of a number input. */
  datatype Form = Form(
    title: string,
    description: string,
    startDate: Option<int>,
    endDate: Option<int>,
    participantCount: string,
    budgetLevel: string,
    goalTags: seq<string>)

  const InitialForm: Form := Form("", "", None, None, "10", "medium", [])

  /** The inserted `trips` row. */
  datatype TripRow = TripRow(
    creatorId: string,
    title: string,
    description: Option<string>,
    startDate: int,
    endDate: int,
    participantCount: int,
    budgetLevel: Budget,
    goalTags: seq<string>,
    status: string)

  datatype Submission =
    | MissingFields
    | NotSignedIn
    | Invalid(issues: seq<TripField>)
    | Created(row: TripRow)

  /** Clicking a goal chip: only the goal list changes. */
  function ToggleGoal(form: Form, goal: string): (r: Form)
    ensures r == form.(goalTags := r.goalTags)
    ensures goal in r.goalTags <==> goal !in form.goalTags
    ensures forall g :: g != goal ==> (g in r.goalTags <==> g in form.goalTags)
    ensures Filter(r.goalTags, Except(goal)) == Filter(form.goalTags, Except(goal))
  {
    ToggleKeepsOthersInOrder(form.goalTags, goal);
    form.(goalTags := Toggle(form.goalTags, goal))
  }

  /** What the schema is given: the form's text, `parseInt` of the count, the picked dates. */
  function SchemaInput(form: Form, start: int, end: int): (t: TripInput)
    ensures t.title == form.title && t.goalTags == form.goalTags
    ensures t.description == Some(form.description)
    ensures t.budgetLevel == form.budgetLevel
    ensures t.startDate == start && t.endDate == end
    ensures t.participantCount.None? <==> DigitPrefix(SignFree(TrimStart(form.participantCount))) == []
    ensures forall n :: form.participantCount == IntToString(n) ==> t.participantCount == Some(n)
  {
    ParsesAnyRendering(form.participantCount);
    TripInput(form.title, Some(form.description), ParseInt(form.participantCount),
              form.budgetLevel, form.goalTags, start, end)
  }

  /** The row built from validated data: an empty description is stored as null, status starts as draft. */
  function RowOf(creatorId: string, t: ValidTrip): (row: TripRow)
    ensures row.status == "draft"
    ensures row.description.None? <==> t.description.None? || t.description.value == ""
    ensures row.description.Some? ==> row.description == t.description
  {
    TripRow(creatorId, t.title,
            if t.description.Some? && t.description.value != "" then t.description else None,
            t.startDate, t.endDate, t.participantCount, t.budgetLevel, t.goalTags, "draft")
  }

  /**
   * `handleSubmit` for the signed-in user `user` (`None`: no session): the
   * precheck, then validation, then the row to insert.
   */
  function Submit(form: Form, user: Option<string>): (r: Submission)
    ensures r.MissingFields? <==> form.title == "" || form.startDate.None? || form.endDate.None?
    ensures r.NotSignedIn? <==> !(form.title == "" || form.startDate.None? || form.endDate.None?) && user.None?
    ensures r.Invalid? <==>
              && form.title != "" && form.startDate.Some? && form.endDate.Some? && user.Some?
              && !ValidTripInput(SchemaInput(form, form.startDate.value, form.endDate.value))
    ensures r.Invalid? ==> |r.issues| > 0
    ensures r.Created? ==>
              && user.Some? && r.row.creatorId == user.value
              && form.startDate.Some? && form.endDate.Some?
              && ValidTripInput(SchemaInput(form, form.startDate.value, form.endDate.value))
              && r.row.title == Trim(form.title)
              && r.row.status == "draft"
              && (r.row.description.None? <==> Trim(form.description) == "")
              && r.row.startDate == form.startDate.value && r.row.endDate == form.endDate.value
              && r.row.startDate <= r.row.endDate
              && ParseInt(form.participantCount) == Some(r.row.participantCount)
              && Some(r.row.budgetLevel) == ParseBudget(form.budgetLevel)
              && BudgetName(r.row.budgetLevel) == form.budgetLevel
              && r.row.goalTags == form.goalTags
  {
    if form.title == "" || form.startDate.None? || form.endDate.None? then MissingFields
    else if user.None? then NotSignedIn
    else
      match ParseTrip(SchemaInput(form, form.startDate.value, form.endDate.value))
      case Rejected(issues) => Invalid(issues)
      case Accepted(t) => Created(RowOf(user.value, t))
  }

  /** A signed-in user with a complete form gets a row exactly when the schema accepts the form. */
  lemma SubmitCreatesIffValid(form: Form, user: string)
    requires form.title != "" && form.startDate.Some? && form.endDate.Some?
    ensures Submit(form, Some(user)).Created?
            <==> ValidTripInput(SchemaInput(form, form.startDate.value, form.endDate.value))
    ensures !Submit(form, Some(user)).Created? ==> Submit(form, Some(user)).Invalid?
  {
  }

  /** A count typed as digits is read back as that number. */
  lemma TypedCountIsRead(form: Form, n: nat)
    requires form.participantCount == IntToString(n)
    ensures SchemaInput(form, 0, 0).participantCount == Some(n)
  {
    ParseIntOfIntToString(n);
  }
}
