/**
 * The activity library dialog: the goal filter's options, filtering the
 * catalog by goal tag and cost level, and the cost badge style.
 */
module ActivityLibrary {
  import opened Wrappers
  import opened Text
  import opened Seqs
  import opened Model

  /** The filter value meaning "no filter". */
  const All: string := "all"

  /** Every tag is strictly smaller than the next: sorted and free of duplicates. */
  predicate StrictlySorted(s: seq<string>) {
    forall i, j :: 0 <= i < j < |s| ==> Less(s[i], s[j])
  }

  /** All tags of all activities, in visiting order; an activity without tags contributes none. */
  function AllTags(acts: seq<Activity>): (r: seq<string>)
    ensures forall t :: t in r <==> exists i :: 0 <= i < |acts| && acts[i].tags.Some? && t in acts[i].tags.value
  {
    if |acts| == 0 then []
    else
      var rest := AllTags(acts[1..]);
      var r := acts[0].tags.GetOr([]) + rest;
      assert forall i :: 1 <= i < |acts| ==> acts[i] == acts[1..][i - 1];
      r
  }

  lemma LessThanAll(t: string, s: seq<string>)
    requires StrictlySorted(s) && |s| > 0 && Less(t, s[0])
    ensures forall j :: 0 <= j < |s| ==> Less(t, s[j])
  {
    forall j | 0 < j < |s|
      ensures Less(t, s[j])
    {
      LessTransitive(t, s[0], s[j]);
    }
  }

  /** Adds `t` to a strictly sorted list, keeping it strictly sorted (a set insertion). */
  function Insert(s: seq<string>, t: string): (r: seq<string>)
    requires StrictlySorted(s)
    ensures StrictlySorted(r)
    ensures forall x :: x in r <==> x in s || x == t
    ensures |r| > 0 && |s| > 0 ==> r[0] == s[0] || r[0] == t
  {
    if |s| == 0 then [t]
    else if t == s[0] then s
    else if Less(t, s[0]) then
      LessThanAll(t, s);
      [t] + s
    else
      LessTotal(t, s[0]);
      var rest := Insert(s[1..], t);
      assert forall x :: x in rest ==> Less(s[0], x);
      [s[0]] + rest
  }

  /** `Array.from(new Set(tags)).sort()`. */
  function SortedDistinct(tags: seq<string>): (r: seq<string>)
    ensures StrictlySorted(r)
    ensures forall x :: x in r <==> x in tags
  {
    if |tags| == 0 then []
    else
      var r := Insert(SortedDistinct(tags[..|tags| - 1]), tags[|tags| - 1]);
      assert tags == tags[..|tags| - 1] + [tags[|tags| - 1]];
      r
  }

  /** `availableGoals`: every tag used by some activity, once each, in sorted order. */
  function AvailableGoals(acts: seq<Activity>): (r: seq<string>)
    ensures StrictlySorted(r)
    ensures NoDuplicates(r)
    ensures forall t :: t in r <==> exists i :: 0 <= i < |acts| && acts[i].tags.Some? && t in acts[i].tags.value
  {
    var r := SortedDistinct(AllTags(acts));
    StrictlySortedNoDuplicates(r);
    r
  }

  lemma StrictlySortedNoDuplicates(s: seq<string>)
    requires StrictlySorted(s)
    ensures NoDuplicates(s)
  {
    forall i, j | 0 <= i < j < |s|
      ensures s[i] != s[j]
    {
      if s[i] == s[j] {
        LessIrreflexive(s[i]);
      }
    }
  }

  /** Whether an activity passes the goal filter and the budget filter. */
  predicate Passes(a: Activity, goal: string, budget: string) {
    && (goal == All || (a.tags.Some? && goal in a.tags.value))
    && (budget == All || a.costLevel == Some(budget))
  }

  function PassesFilters(goal: string, budget: string): Activity -> bool {
    a => Passes(a, goal, budget)
  }

  /** `filteredActivities`. */
  function FilteredActivities(acts: seq<Activity>, goal: string, budget: string): (r: seq<Activity>)
    ensures IsSubsequence(r, acts)
    ensures goal != All ==> forall i :: 0 <= i < |r| ==> r[i].tags.Some? && goal in r[i].tags.value
    ensures budget != All ==> forall i :: 0 <= i < |r| ==> r[i].costLevel == Some(budget)
    ensures forall a :: a in acts && Passes(a, goal, budget) ==> a in r
    ensures goal == All && budget == All ==> r == acts
    ensures |r| == Count(acts, PassesFilters(goal, budget))
  {
    FilterIsSubsequence(acts, PassesFilters(goal, budget));
    FilterLength(acts, PassesFilters(goal, budget));
    Filter(acts, PassesFilters(goal, budget))
  }

  datatype BadgeVariant = Outline | Secondary | Default

  /** `getCostBadgeVariant`. */
  function CostBadge(costLevel: Option<string>): (v: BadgeVariant)
    ensures v == Default <==> costLevel == Some("high")
    ensures v == Secondary <==> costLevel == Some("medium")
    ensures v == Outline <==> costLevel != Some("high") && costLevel != Some("medium")
  {
    match costLevel
    case Some(c) => if c == "low" then Outline else if c == "medium" then Secondary else if c == "high" then Default else Outline
    case None => Outline
  }
}
