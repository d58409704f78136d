/**
 * Itinerary generation for a freshly created trip: a day-by-day list of
 * time-boxed blocks (an opener at nine, up to three catalog activities, an
 * evening closer) and the checklist derived from it.
 */
module Itinerary {
  import opened Wrappers
  import opened Seqs
  import opened Clock
  import opened Model

  const OpenerMinutes: int := 30
  const CloserMinutes: int := 120
  /** Gap left after every activity before the next block starts. */
  const BufferMinutes: int := 15
  const ActivitiesPerDay: int := 3

  /** Number of generated days: whole days from start to end, plus one. */
  function DayCount(startDate: int, endDate: int): int {
    DaysBetween(startDate, endDate) + 1
  }

  /** A same-day trip has one day; a trip ending `k` days later has `k + 1`; an ordered range never has none. */
  lemma DayCountOfRange(startDate: int, endDate: int, k: nat)
    ensures endDate == startDate + k * MinutesPerDay ==> DayCount(startDate, endDate) == k + 1
    ensures endDate >= startDate ==> DayCount(startDate, endDate) >= 1
    ensures endDate >= startDate ==>
              (DayCount(startDate, endDate) - 1) * MinutesPerDay <= endDate - startDate < DayCount(startDate, endDate) * MinutesPerDay
  {
  }

  /** How many pool activities day `d` receives: `pool.slice(3d, 3d + 3).length`. */
  function ActivitiesOn(poolSize: nat, d: nat): (k: nat)
    ensures k <= ActivitiesPerDay
    ensures 3 * d + k <= poolSize || k == 0
  {
    if poolSize <= 3 * d then 0
    else if poolSize - 3 * d >= 3 then 3
    else poolSize - 3 * d
  }

  /** Index of day `d`'s opener in the generated list: two fixed blocks per earlier day plus their activities. */
  function DayOffset(poolSize: nat, d: nat): nat {
    2 * d + Min(poolSize, 3 * d)
  }

  /** `pool.slice(3d, 3d + 3)`: day `d`'s activities, clamped to the pool. */
  function DayActivities(pool: seq<Activity>, d: nat): (acts: seq<Activity>)
    ensures |acts| == ActivitiesOn(|pool|, d)
    ensures forall j :: 0 <= j < |acts| ==> 3 * d + j < |pool| && acts[j] == pool[3 * d + j]
  {
    var k := ActivitiesOn(|pool|, d);
    if k == 0 then [] else pool[3 * d..3 * d + k]
  }

  lemma DayOffsetNext(poolSize: nat, d: nat)
    ensures DayOffset(poolSize, d + 1) == DayOffset(poolSize, d) + ActivitiesOn(poolSize, d) + 2
  {
  }

  /** The fixed block that opens every day at `t`. */
  function Opener(tripId: string, t: int, order: int): Block {
    Block(tripId, None, "Morning Energizer", t, t + OpenerMinutes,
          "Meeting Point", Some("Start the day with energy!"), order)
  }

  /** The block scheduling catalog activity `a` from `t`. */
  function ActivityBlock(tripId: string, a: Activity, t: int, order: int): Block {
    Block(tripId, Some(a.id), a.title, t, t + a.durationMinutes, "TBD", a.description, order)
  }

  /** The fixed block that closes every day, starting at `t`. */
  function Closer(tripId: string, t: int, order: int): Block {
    Block(tripId, None, "Reflection & Dinner", t, t + CloserMinutes,
          "Dining Area", Some("Share highlights and enjoy dinner together"), order)
  }

  predicate IsOpener(b: Block, tripId: string, t: int) {
    b == Opener(tripId, t, b.order)
  }

  predicate IsActivityBlock(b: Block, tripId: string, a: Activity, t: int) {
    b == ActivityBlock(tripId, a, t, b.order)
  }

  predicate IsCloser(b: Block, tripId: string, t: int) {
    b == Closer(tripId, t, b.order)
  }

  /**
   * Start of the block that follows the `j`-th block of a day: the first
   * activity starts as the opener ends, every later block 15 minutes after the
   * previous activity ends.
   */
  function SlotStart(day: seq<Block>, j: nat): int
    requires j < |day|
  {
    if j == 0 then day[0].end else day[j].end + BufferMinutes
  }

  /** One day of the itinerary: opener at `t`, then `acts` back to back with buffers, then the closer. */
  predicate DayShape(day: seq<Block>, tripId: string, t: int, acts: seq<Activity>) {
    && |day| == |acts| + 2
    && IsOpener(day[0], tripId, t)
    && (forall j :: 0 <= j < |acts| ==> IsActivityBlock(day[j + 1], tripId, acts[j], SlotStart(day, j)))
    && IsCloser(day[|acts| + 1], tripId, SlotStart(day, |acts|))
  }

  /** Block orders number the list from zero. */
  predicate Numbered(blocks: seq<Block>, base: int) {
    forall i :: 0 <= i < |blocks| ==> blocks[i].order == base + i
  }

  /** The blocks that refer to an activity, in list order. */
  function ActivityBlocks(blocks: seq<Block>): (ab: seq<Block>)
    ensures |ab| <= |blocks|
    ensures forall b :: b in ab <==> b in blocks && HasActivity(b)
  {
    if |blocks| == 0 then []
    else ActivityBlocks(blocks[..|blocks| - 1])
         + (if HasActivity(blocks[|blocks| - 1]) then [blocks[|blocks| - 1]] else [])
  }

  /**
   * `ActivityBlocks` is `blocks.filter(HasActivity)`. It is spelled out from
   * the end of the list because the day-by-day proofs extend lists at the end.
   */
  lemma {:induction false} ActivityBlocksIsFilter(blocks: seq<Block>)
    ensures ActivityBlocks(blocks) == Filter(blocks, HasActivity)
    decreases |blocks|
  {
    if |blocks| > 0 {
      var first := blocks[0];
      var rest := blocks[1..];
      assert blocks == [first] + rest;
      ActivityBlocksAppend([first], rest);
      assert [first][..0] == [];
      assert ActivityBlocks([first]) == if HasActivity(first) then [first] else [];
      ActivityBlocksIsFilter(rest);
    }
  }

  lemma {:induction false} ActivityBlocksAppend(a: seq<Block>, b: seq<Block>)
    ensures ActivityBlocks(a + b) == ActivityBlocks(a) + ActivityBlocks(b)
    decreases |b|
  {
    if |b| == 0 {
      assert a + b == a;
    } else {
      var b' := b[..|b| - 1];
      assert (a + b)[..|a + b| - 1] == a + b';
      ActivityBlocksAppend(a, b');
    }
  }

  /** The activity-bearing blocks, in list order, are the given activities, in order. */
  predicate CarriesActivities(blocks: seq<Block>, acts: seq<Activity>) {
    var ab := ActivityBlocks(blocks);
    && |ab| == |acts|
    && forall i :: 0 <= i < |ab| ==> ab[i].activityId == Some(acts[i].id) && ab[i].title == acts[i].title
  }

  predicate NonNegativeDurations(pool: seq<Activity>) {
    forall i :: 0 <= i < |pool| ==> pool[i].durationMinutes >= 0
  }

  predicate WellTimed(blocks: seq<Block>) {
    forall i :: 0 <= i < |blocks| ==> blocks[i].start <= blocks[i].end
  }

  /** The first `j` activities of a day have been placed after its opener. */
  predicate PartialDay(day: seq<Block>, tripId: string, t: int, acts: seq<Activity>, j: nat) {
    && j <= |acts|
    && |day| == j + 1
    && IsOpener(day[0], tripId, t)
    && (forall i :: 0 <= i < j ==> IsActivityBlock(day[i + 1], tripId, acts[i], SlotStart(day, i)))
  }

  lemma PartialDayExtend(day: seq<Block>, tripId: string, t: int, acts: seq<Activity>, j: nat, b: Block)
    requires PartialDay(day, tripId, t, acts, j) && j < |acts|
    requires IsActivityBlock(b, tripId, acts[j], SlotStart(day, j))
    ensures PartialDay(day + [b], tripId, t, acts, j + 1)
    ensures SlotStart(day + [b], j + 1) == b.end + BufferMinutes
  {
    var day' := day + [b];
    forall i | 0 <= i < j + 1
      ensures IsActivityBlock(day'[i + 1], tripId, acts[i], SlotStart(day', i))
    {
      assert SlotStart(day', i) == SlotStart(day, i);
    }
  }

  lemma PartialDayClose(day: seq<Block>, tripId: string, t: int, acts: seq<Activity>, b: Block)
    requires PartialDay(day, tripId, t, acts, |acts|)
    requires IsCloser(b, tripId, SlotStart(day, |acts|))
    ensures DayShape(day + [b], tripId, t, acts)
  {
    var day' := day + [b];
    forall i | 0 <= i <= |acts|
      ensures SlotStart(day', i) == SlotStart(day, i)
    {
    }
  }

  /** Pushing the next activity block keeps numbering, activity order and timing sane. */
  lemma PushActivity(day: seq<Block>, acts: seq<Activity>, j: nat, base: int, b: Block)
    requires j < |acts|
    requires Numbered(day, base) && b.order == base + |day|
    requires CarriesActivities(day, acts[..j])
    requires b.activityId == Some(acts[j].id) && b.title == acts[j].title
    requires NonNegativeDurations(acts) ==> WellTimed(day)
    requires b.end == b.start + acts[j].durationMinutes
    ensures Numbered(day + [b], base)
    ensures CarriesActivities(day + [b], acts[..j + 1])
    ensures NonNegativeDurations(acts) ==> WellTimed(day + [b])
  {
    ActivityBlocksAppend(day, [b]);
    assert acts[..j + 1] == acts[..j] + [acts[j]];
    assert ActivityBlocks(day + [b]) == ActivityBlocks(day) + [b];
  }

  /** Pushing a block without an activity keeps numbering, activity order and timing sane. */
  lemma PushFixed(day: seq<Block>, acts: seq<Activity>, base: int, b: Block)
    requires Numbered(day, base) && b.order == base + |day|
    requires CarriesActivities(day, acts)
    requires b.activityId == None && b.start <= b.end
    requires NonNegativeDurations(acts) ==> WellTimed(day)
    ensures Numbered(day + [b], base)
    ensures CarriesActivities(day + [b], acts)
    ensures NonNegativeDurations(acts) ==> WellTimed(day + [b])
  {
    ActivityBlocksAppend(day, [b]);
    assert ActivityBlocks(day + [b]) == ActivityBlocks(day);
  }

  /** The state of `BuildDay` after placing the first `j` activities, with `current` the next free slot. */
  predicate DayInProgress(day: seq<Block>, tripId: string, t: int, acts: seq<Activity>, base: int, j: nat, current: int) {
    && PartialDay(day, tripId, t, acts, j)
    && current == SlotStart(day, j)
    && Numbered(day, base)
    && CarriesActivities(day, acts[..j])
    && (NonNegativeDurations(acts) ==> WellTimed(day))
  }

  lemma DayStart(tripId: string, t: int, acts: seq<Activity>, base: int)
    ensures DayInProgress([Opener(tripId, t, base)], tripId, t, acts, base, 0, t + OpenerMinutes)
  {
    assert acts[..0] == [];
  }

  lemma DayStep(day: seq<Block>, tripId: string, t: int, acts: seq<Activity>, base: int, j: nat, current: int)
    requires DayInProgress(day, tripId, t, acts, base, j, current) && j < |acts|
    ensures var b := ActivityBlock(tripId, acts[j], current, base + |day|);
            DayInProgress(day + [b], tripId, t, acts, base, j + 1, current + acts[j].durationMinutes + BufferMinutes)
  {
    var b := ActivityBlock(tripId, acts[j], current, base + |day|);
    PartialDayExtend(day, tripId, t, acts, j, b);
    PushActivity(day, acts, j, base, b);
  }

  lemma DayEnd(day: seq<Block>, tripId: string, t: int, acts: seq<Activity>, base: int, current: int)
    requires DayInProgress(day, tripId, t, acts, base, |acts|, current)
    ensures var day' := day + [Closer(tripId, current, base + |day|)];
            && DayShape(day', tripId, t, acts)
            && Numbered(day', base)
            && CarriesActivities(day', acts)
            && (NonNegativeDurations(acts) ==> WellTimed(day'))
  {
    var closer := Closer(tripId, current, base + |day|);
    assert acts[..|acts|] == acts;
    PartialDayClose(day, tripId, t, acts, closer);
    PushFixed(day, acts, base, closer);
  }

  /** One day's blocks, starting at `t`, numbered from `base`. */
  method BuildDay(tripId: string, t: int, acts: seq<Activity>, base: int) returns (day: seq<Block>)
    ensures DayShape(day, tripId, t, acts)
    ensures Numbered(day, base)
    ensures CarriesActivities(day, acts)
    ensures NonNegativeDurations(acts) ==> WellTimed(day)
  {
    day := [Opener(tripId, t, base)];
    var current := t + OpenerMinutes;
    var j := 0;
    DayStart(tripId, t, acts, base);
    while j < |acts|
      invariant j <= |acts|
      invariant DayInProgress(day, tripId, t, acts, base, j, current)
    {
      DayStep(day, tripId, t, acts, base, j, current);
      day := day + [ActivityBlock(tripId, acts[j], current, base + |day|)];
      current := current + acts[j].durationMinutes + BufferMinutes;
      j := j + 1;
    }
    DayEnd(day, tripId, t, acts, base, current);
    day := day + [Closer(tripId, current, base + |day|)];
  }

  /** Appending one more day keeps every earlier day in place. */
  lemma DaysExtend(days: seq<seq<Block>>, dayBlocks: seq<Block>, tripId: string, startDate: int, pool: seq<Activity>)
    requires forall d :: 0 <= d < |days| ==> DayShape(days[d], tripId, NineAm(startDate, d), DayActivities(pool, d))
    requires DayShape(dayBlocks, tripId, NineAm(startDate, |days|), DayActivities(pool, |days|))
    ensures var days' := days + [dayBlocks];
            forall d :: 0 <= d < |days'| ==> DayShape(days'[d], tripId, NineAm(startDate, d), DayActivities(pool, d))
  {
    var days' := days + [dayBlocks];
    forall d | 0 <= d < |days'|
      ensures DayShape(days'[d], tripId, NineAm(startDate, d), DayActivities(pool, d))
    {
      if d < |days| {
        assert days'[d] == days[d];
      }
    }
  }

  /** The activities of the first `d + 1` days are those of the first `d` days followed by day `d`'s. */
  lemma PoolPrefixNext(pool: seq<Activity>, d: nat)
    ensures pool[..Min(|pool|, 3 * (d + 1))] == pool[..Min(|pool|, 3 * d)] + DayActivities(pool, d)
  {
    var k := ActivitiesOn(|pool|, d);
    if k > 0 {
      assert Min(|pool|, 3 * d) == 3 * d && Min(|pool|, 3 * (d + 1)) == 3 * d + k;
      assert pool[..3 * d + k] == pool[..3 * d] + pool[3 * d..3 * d + k];
    }
  }

  /** Appending day `d`'s blocks extends the activity-bearing blocks by day `d`'s slice of the pool. */
  lemma AppendDayActivities(blocks: seq<Block>, dayBlocks: seq<Block>, pool: seq<Activity>, d: nat)
    requires CarriesActivities(blocks, pool[..Min(|pool|, 3 * d)])
    requires CarriesActivities(dayBlocks, DayActivities(pool, d))
    ensures CarriesActivities(blocks + dayBlocks, pool[..Min(|pool|, 3 * (d + 1))])
  {
    ActivityBlocksAppend(blocks, dayBlocks);
    PoolPrefixNext(pool, d);
    CarriesConcat(ActivityBlocks(blocks), ActivityBlocks(dayBlocks),
                  pool[..Min(|pool|, 3 * d)], DayActivities(pool, d));
  }

  /** Two block lists that match two activity lists element by element match their concatenation. */
  lemma CarriesConcat(ab1: seq<Block>, ab2: seq<Block>, as1: seq<Activity>, as2: seq<Activity>)
    requires |ab1| == |as1| && |ab2| == |as2|
    requires forall i :: 0 <= i < |ab1| ==> ab1[i].activityId == Some(as1[i].id) && ab1[i].title == as1[i].title
    requires forall i :: 0 <= i < |ab2| ==> ab2[i].activityId == Some(as2[i].id) && ab2[i].title == as2[i].title
    ensures forall i :: 0 <= i < |ab1 + ab2| ==>
              (ab1 + ab2)[i].activityId == Some((as1 + as2)[i].id) && (ab1 + ab2)[i].title == (as1 + as2)[i].title
  {
    forall i | 0 <= i < |ab1 + ab2|
      ensures (ab1 + ab2)[i].activityId == Some((as1 + as2)[i].id) && (ab1 + ab2)[i].title == (as1 + as2)[i].title
    {
      if i >= |ab1| {
        assert (ab1 + ab2)[i] == ab2[i - |ab1|];
      }
    }
  }

  /** Appending a consistently numbered, well-timed day keeps the whole list so. */
  lemma AppendDayNumbering(blocks: seq<Block>, dayBlocks: seq<Block>, pool: seq<Activity>, d: nat)
    requires Numbered(blocks, 0)
    requires NonNegativeDurations(pool) ==> WellTimed(blocks)
    requires Numbered(dayBlocks, |blocks|)
    requires NonNegativeDurations(DayActivities(pool, d)) ==> WellTimed(dayBlocks)
    ensures Numbered(blocks + dayBlocks, 0)
    ensures NonNegativeDurations(pool) ==> WellTimed(blocks + dayBlocks)
  {
  }

  /** What the generator has produced after its first `|days|` days. */
  predicate Built(blocks: seq<Block>, days: seq<seq<Block>>, tripId: string, startDate: int, pool: seq<Activity>) {
    && blocks == Concat(days)
    && (forall d :: 0 <= d < |days| ==> DayShape(days[d], tripId, NineAm(startDate, d), DayActivities(pool, d)))
    && |blocks| == DayOffset(|pool|, |days|)
    && Numbered(blocks, 0)
    && CarriesActivities(blocks, pool[..Min(|pool|, 3 * |days|)])
    && (NonNegativeDurations(pool) ==> WellTimed(blocks))
  }

  lemma BuiltStep(blocks: seq<Block>, days: seq<seq<Block>>, dayBlocks: seq<Block>,
                  tripId: string, startDate: int, pool: seq<Activity>)
    requires Built(blocks, days, tripId, startDate, pool)
    requires DayShape(dayBlocks, tripId, NineAm(startDate, |days|), DayActivities(pool, |days|))
    requires Numbered(dayBlocks, |blocks|)
    requires CarriesActivities(dayBlocks, DayActivities(pool, |days|))
    requires NonNegativeDurations(DayActivities(pool, |days|)) ==> WellTimed(dayBlocks)
    ensures Built(blocks + dayBlocks, days + [dayBlocks], tripId, startDate, pool)
  {
    var d := |days|;
    DaysExtend(days, dayBlocks, tripId, startDate, pool);
    ConcatSnoc(days, dayBlocks);
    DayOffsetNext(|pool|, d);
    AppendDayActivities(blocks, dayBlocks, pool, d);
    AppendDayNumbering(blocks, dayBlocks, pool, d);
  }

  /**
   * `generateItinerary`'s block-building loop: one day per iteration from the
   * trip's first day, each from its own nine o'clock, taking three activities
   * at a time from `pool`.
   */
  method GenerateBlocks(tripId: string, startDate: int, endDate: int, pool: seq<Activity>)
    returns (blocks: seq<Block>, days: seq<seq<Block>>)
    ensures |days| == Max(0, DayCount(startDate, endDate))
    ensures blocks == Concat(days)
    ensures forall d :: 0 <= d < |days| ==> DayShape(days[d], tripId, NineAm(startDate, d), DayActivities(pool, d))
    ensures |blocks| == 2 * |days| + Min(|pool|, 3 * |days|)
    ensures Numbered(blocks, 0)
    ensures CarriesActivities(blocks, pool[..Min(|pool|, 3 * |days|)])
    ensures NonNegativeDurations(pool) ==> WellTimed(blocks)
  {
    var dayCount := DayCount(startDate, endDate);
    blocks := [];
    days := [];
    while |days| < dayCount
      invariant |days| <= Max(0, dayCount)
      invariant Built(blocks, days, tripId, startDate, pool)
      decreases dayCount - |days|
    {
      var d := |days|;
      var dayBlocks := BuildDay(tripId, NineAm(startDate, d), DayActivities(pool, d), |blocks|);
      BuiltStep(blocks, days, dayBlocks, tripId, startDate, pool);
      blocks := blocks + dayBlocks;
      days := days + [dayBlocks];
    }
  }
}

module ItineraryChecklist {
  import opened Wrappers
  import opened Seqs
  import opened Clock
  import opened Model
  import opened Itinerary

  /** The six organisational tasks every trip starts with, undated, numbered 0 to 5. */
  function FixedTasks(tripId: string): seq<PlannedItem> {
    [ PlannedItem(tripId, "Send trip details to all participants", None, "Organizer", 0),
      PlannedItem(tripId, "Book transportation", None, "Logistics Lead", 1),
      PlannedItem(tripId, "Reserve activity slots", None, "Activity Coordinator", 2),
      PlannedItem(tripId, "Prepare participant list", None, "Organizer", 3),
      PlannedItem(tripId, "Pack emergency supplies", None, "Safety Officer", 4),
      PlannedItem(tripId, "Confirm all bookings 24h before", None, "Organizer", 5) ]
  }

  /** The materials task for an activity block, due when the block starts. */
  function PrepareMaterials(tripId: string, b: Block, order: int): PlannedItem {
    PlannedItem(tripId, "Prepare materials for " + b.title, Some(b.start), "Activity Coordinator", order)
  }

  /** What the checklist holds after the blocks `ab` (all activity-bearing) have been visited. */
  predicate ChecklistFor(items: seq<PlannedItem>, tripId: string, ab: seq<Block>) {
    && |items| == 6 + |ab|
    && items[..6] == FixedTasks(tripId)
    && forall k :: 6 <= k < |items| ==> items[k] == PrepareMaterials(tripId, ab[k - 6], k)
  }

  lemma ChecklistStep(items: seq<PlannedItem>, tripId: string, blocks: seq<Block>, i: nat)
    requires i < |blocks|
    requires ChecklistFor(items, tripId, ActivityBlocks(blocks[..i]))
    ensures HasActivity(blocks[i]) ==>
              ChecklistFor(items + [PrepareMaterials(tripId, blocks[i], |items|)], tripId, ActivityBlocks(blocks[..i + 1]))
    ensures !HasActivity(blocks[i]) ==> ChecklistFor(items, tripId, ActivityBlocks(blocks[..i + 1]))
  {
    assert blocks[..i + 1] == blocks[..i] + [blocks[i]];
    ActivityBlocksAppend(blocks[..i], [blocks[i]]);
    if HasActivity(blocks[i]) {
      var items' := items + [PrepareMaterials(tripId, blocks[i], |items|)];
      assert items'[..6] == items[..6];
    }
  }

  lemma ChecklistInit(tripId: string, blocks: seq<Block>)
    ensures ChecklistFor(FixedTasks(tripId), tripId, ActivityBlocks(blocks[..0]))
  {
    assert blocks[..0] == [];
    assert FixedTasks(tripId)[..6] == FixedTasks(tripId);
  }

  lemma ChecklistForFacts(items: seq<PlannedItem>, tripId: string, ab: seq<Block>)
    requires ChecklistFor(items, tripId, ab)
    ensures forall k :: 0 <= k < |items| ==> items[k].itemOrder == k && items[k].tripId == tripId
    ensures forall k :: 0 <= k < 6 ==> items[k].dueDate == None
    ensures forall k :: 6 <= k < |items| ==> items[k].dueDate.Some?
  {
    assert forall k :: 0 <= k < 6 ==> items[k] == items[..6][k];
  }

  /**
   * `generateChecklist`: the six fixed tasks, then one materials task per
   * activity-bearing block in list order; every item is numbered by its position.
   */
  method GenerateChecklist(tripId: string, blocks: seq<Block>) returns (items: seq<PlannedItem>)
    ensures ChecklistFor(items, tripId, ActivityBlocks(blocks))
    ensures forall k :: 0 <= k < |items| ==> items[k].itemOrder == k && items[k].tripId == tripId
    ensures forall k :: 0 <= k < 6 ==> items[k].dueDate == None
    ensures forall k :: 6 <= k < |items| ==> items[k].dueDate.Some?
  {
    items := FixedTasks(tripId);
    var i := 0;
    ChecklistInit(tripId, blocks);
    while i < |blocks|
      invariant 0 <= i <= |blocks|
      invariant ChecklistFor(items, tripId, ActivityBlocks(blocks[..i]))
    {
      ChecklistStep(items, tripId, blocks, i);
      if HasActivity(blocks[i]) {
        items := items + [PrepareMaterials(tripId, blocks[i], |items|)];
      }
      i := i + 1;
    }
    assert blocks[..i] == blocks;
    ChecklistForFacts(items, tripId, ActivityBlocks(blocks));
  }

  /** `item` falls due when some block of `blocks` showing `a` starts. */
  predicate DueWithBlockOf(item: PlannedItem, blocks: seq<Block>, a: Activity) {
    exists i :: 0 <= i < |blocks| && blocks[i].activityId == Some(a.id) && item.dueDate == Some(blocks[i].start)
  }

  /**
   * Generating a trip's plan: blocks for every day and the checklist derived
   * from them. The checklist has one materials task per activity taken from
   * the pool, in pool order, each due at its block's start.
   */
  method Generate(tripId: string, startDate: int, endDate: int, pool: seq<Activity>)
    returns (blocks: seq<Block>, items: seq<PlannedItem>)
    ensures var used := Min(|pool|, 3 * Max(0, DayCount(startDate, endDate)));
            && |blocks| == 2 * Max(0, DayCount(startDate, endDate)) + used
            && |items| == 6 + used
            && forall k :: 6 <= k < |items| ==>
                 items[k].title == "Prepare materials for " + pool[k - 6].title && items[k].itemOrder == k
    ensures forall k :: 6 <= k < |items| ==> DueWithBlockOf(items[k], blocks, pool[k - 6])
  {
    var days;
    blocks, days := GenerateBlocks(tripId, startDate, endDate, pool);
    items := GenerateChecklist(tripId, blocks);
    var ab := ActivityBlocks(blocks);
    var used := Min(|pool|, 3 * Max(0, DayCount(startDate, endDate)));
    assert |ab| == used;
    forall k | 6 <= k < |items|
      ensures items[k].title == "Prepare materials for " + pool[k - 6].title && items[k].itemOrder == k
      ensures DueWithBlockOf(items[k], blocks, pool[k - 6])
    {
      var b := ab[k - 6];
      assert items[k] == PrepareMaterials(tripId, b, k);
      assert pool[..used][k - 6] == pool[k - 6];
      assert b.activityId == Some(pool[k - 6].id) && b.title == pool[k - 6].title;
      assert b in blocks;
      var i :| 0 <= i < |blocks| && blocks[i] == b;
    }
  }

  /** Minutes shown beside a block: `Math.floor((end - start) / 60000)` on millisecond timestamps. */
  function DisplayedMinutes(startMillis: int, endMillis: int): (m: int)
    ensures m * MillisPerMinute <= endMillis - startMillis < (m + 1) * MillisPerMinute
  {
    (endMillis - startMillis) / MillisPerMinute
  }

  lemma QuotientUnique(q: int, d: int, unit: int)
    requires unit > 0
    requires q * unit <= d * unit < (q + 1) * unit
    ensures q == d
  {
    assert (q - d) * unit <= 0 && (d - q) * unit < unit;
  }

  /** For minute-aligned times the display shows exactly the block's length in minutes. */
  lemma DisplayedMinutesOfAlignedTimes(start: int, end: int)
    ensures DisplayedMinutes(start * MillisPerMinute, end * MillisPerMinute) == end - start
  {
    var m := DisplayedMinutes(start * MillisPerMinute, end * MillisPerMinute);
    assert (end - start) * MillisPerMinute == end * MillisPerMinute - start * MillisPerMinute;
    QuotientUnique(m, end - start, MillisPerMinute);
  }
}
