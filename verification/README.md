# Team-trip planner: the planning logic in Dafny

The planner is a React and Supabase web application for organising team trips.
A user picks a destination and its attractions and fills in a trip brief.
The planner then generates a day-by-day itinerary of time-boxed blocks and a
checklist of preparation tasks. A run sheet follows the blocks on the day
itself, and an activity library adds catalog activities to an existing
itinerary.

This project lifts the logic buried in those pages and in the store out of the
components, as pure functions and short methods over immutable datatypes, and
proves what each one guarantees:

- `Itinerary.GenerateBlocks` is the block-building loop of `generateItinerary`.
  Each day gets a 30-minute opener at nine, then up to three activities from
  the pool with a 15-minute buffer after each, then a 120-minute closer. Every
  block is numbered by its position. `ItineraryChecklist.GenerateChecklist`
  derives the six fixed tasks and one materials task per activity block.
- `TripStore.AppendActivity` is `addActivityToItinerary`. It places the new
  block after the last one and derives one or two checklist items from the
  activity's `props` bag.
- `Validation` states the Zod schemas as the list of fields each one flags.
- `Runsheet` covers block status against the clock, the "now" and "next"
  cards, and shifting a block.
- `Checklist` covers the checklist page's local updates: tick, edit, delete,
  the drag guard and the progress figures.
- `ActivityLibrary` covers the goal options, the catalog filter and the cost badge.
- `Selection`, `DestinationSelect`, `AttractionSelector` and `TripBrief` cover
  the checkbox selections, confirming them, the brief's precheck and the trip
  row it inserts.

Conventions:

- Times are integer minutes and a day is 1440 minutes. Nine o'clock on day `d`
  of a trip is the trip's local midnight plus `d * 1440 + 540`.
- `differenceInDays` truncates toward zero, which `Clock.TruncDiv` writes out.
- Strings are `seq<char>`, so a length is a count of code points.
- Store and database calls are gone. What they would have returned is a
  parameter: the activity pool, the last block, the signed-in user and the
  current time. What they would have written is a result.

## Model

| member | source | states |
|---|---|---|
| Itinerary.DayCountOfRange | src/pages/Itinerary.tsx:123 | A trip ending exactly k days after it starts has k + 1 days. An ordered date range always has at least one day, and the days cover the range. |
| Itinerary.BuildDay | src/pages/Itinerary.tsx:137-176 | One day's blocks: an opener at the given time lasting 30 minutes, then the given activities in order, then a 120-minute closer. The first activity starts when the opener ends and each later block starts 15 minutes after the previous activity ends. Blocks are numbered consecutively from the given base, and with non-negative durations no block ends before it starts. |
| Itinerary.GenerateBlocks | src/pages/Itinerary.tsx:120-182 | One day per day of the trip, and none when the end is a full day or more before the start. Day d starts at nine on the trip's d-th day, whatever time the day before ended. Day d holds exactly pool[3d..3d+3), clamped to the pool. The list has 2·days + min(pool, 3·days) blocks, numbered 0 to N−1, and its activity blocks are exactly the used prefix of the pool in order. |
| Itinerary.DayActivities | src/pages/Itinerary.tsx:150 | Day d's activities are the pool entries from 3d on, at most three, and none once the pool is used up. |
| Itinerary.ActivityBlocks | src/pages/Itinerary.tsx:213-214 | The blocks showing an activity, in list order; a block is kept exactly when it has an activity. |
| Itinerary.ActivityBlocksIsFilter | src/pages/Itinerary.tsx:213-214 | Selecting the activity blocks is the order-keeping filter by "has an activity". |
| Clock.NineAmNextDay | src/pages/Itinerary.tsx:178-181 | Nine o'clock of the next day is exactly one day after nine o'clock of this one, and is on that day's clock at 09:00. |
| ItineraryChecklist.GenerateChecklist | src/pages/Itinerary.tsx:202-227 | The six fixed tasks come first, undated and numbered 0 to 5. Then there is one "Prepare materials for" task per activity block, in block order, due at that block's start. Every item is numbered by its position and carries the trip id. |
| ItineraryChecklist.Generate | src/pages/Itinerary.tsx:120-227 | Over the whole generation there is one materials task per activity taken from the pool, in pool order. Each such item is named after its activity and due when a block showing that activity starts. The numbers of blocks and items follow from the day count and the pool size. |
| ItineraryChecklist.DisplayedMinutes | src/pages/Itinerary.tsx:379 | The shown duration is the whole number of minutes that fits in the block's length in milliseconds. |
| ItineraryChecklist.DisplayedMinutesOfAlignedTimes | src/pages/Itinerary.tsx:379 | For times on whole minutes the display shows exactly end − start. |
| TripStore.NewStart | src/store/tripStore.ts:50-52 | The new block starts after the last block ends, with a 15-minute gap, or a whole day from now when the trip has no blocks. |
| TripStore.Render | src/store/tripStore.ts:90 | A text value appears as itself, a number as decimal digits that read back as that number, a boolean as "true" exactly when it is true, and a one-entry list as its entry. |
| TripStore.RenderMaterials | src/store/tripStore.ts:78 | Anything but a list appears as it would in the safety text, and a one-entry list as its entry. |
| TripStore.ListSeparators | src/store/tripStore.ts:78-90 | Each further list entry follows ", " in a materials task but a bare "," in a safety review. |
| TripStore.OrElse | src/store/tripStore.ts:73 | `a \|\| b` is truthy exactly when one of its operands is. |
| TripStore.AppendActivity | src/store/tripStore.ts:48-111 | The new block starts 15 minutes after the last block ends, or 24 hours from now when there is none. It lasts the activity's duration and is numbered one after the last block, or 0. There are one or two items, and two exactly when both a materials and a safety field are truthy. Item k is numbered 1000 + k, is due at the block's start and carries the trip id. A materials task comes first and a safety review last. The generic task appears alone when neither field is truthy. |
| TripStore.AppendedItemKinds | src/store/tripStore.ts:73-107 | A materials task is present iff `materials` or `equipment` is truthy. A safety review is present iff `safety` or `risk_notes` is truthy. The generic task is present iff neither is. |
| TripStore.TitlesDistinct | src/store/tripStore.ts:78-102 | The three kinds of task title can never be confused with each other. |
| TripStore.RopeAndHelmetExample | src/store/tripStore.ts:73-83 | A materials list `["rope", "helmet"]` on a trip without blocks yields one task titled "…: rope, helmet". The block is numbered 0 and starts a day from now. |
| TripStore.AppendKeepsNumbering | src/store/tripStore.ts:65 | Appending after the last block of a list numbered 0..N−1 gives a list numbered 0..N. |
| Validation.ParseBudget | src/lib/validation.ts:17 | Exactly "low", "medium" and "high" are accepted budget levels, and each decodes to the level whose name it is. |
| Validation.TripIssues | src/lib/validation.ts:3-24 | Each field is flagged exactly when its rule fails. The title's trimmed length must be 1 to 200. The description must be absent, empty, or trimmed to at most 2000. The count must be a number from 2 to 1000. The budget must be in the enumeration. There may be at most 10 goals. The date-order issue sits on `endDate`. It is reported unless the count is not a number or the budget is outside the enumeration, since only those stop the schema before its date check. The list is empty exactly when the input is valid. |
| Validation.ParseTrip | src/lib/validation.ts:3-24 | The trip is accepted exactly when it is valid, and the result is the trimmed data with the dates in order and the budget level the input names. A rejection always carries an issue. |
| Validation.DateOrderRule | src/lib/validation.ts:21-24 | Equal dates pass. An end before the start rejects the trip, with the issue on `endDate`. |
| Validation.BlankTitleRejected | src/lib/validation.ts:4-6 | A title of only white space is refused on `title`. |
| Validation.PaddedTitleAccepted | src/lib/validation.ts:4-7 | Padding around a title of 1 to 200 characters does not count toward the limit. |
| Validation.ActivityIssues | src/lib/validation.ts:26-30 | The title is flagged iff its length is outside 1..500. The duration is flagged iff it is not positive. |
| Validation.BlockUpdateIssues | src/lib/validation.ts:32-35 | A present title must have 1 to 500 characters and present notes at most 2000. An update with neither is valid. |
| Validation.ChecklistItemIssues | src/lib/validation.ts:37-39 | Valid iff the title has 1 to 500 characters. |
| Runsheet.StatusAt | src/pages/Runsheet.tsx:84-91 | Completed iff the block ended before now. Current iff now lies within the block. Upcoming otherwise: now is before the start and not after the end. |
| Runsheet.StatusShiftInvariant | src/pages/Runsheet.tsx:84-91 | Moving a block and the clock by the same amount keeps its status. |
| Runsheet.StatusMonotone | src/pages/Runsheet.tsx:84-91 | As time passes, an ordered block never goes back from completed or from current. |
| Runsheet.FirstWithStatus | src/pages/Runsheet.tsx:101-102 | The position of the first block with the given status, or none exactly when no block has it. |
| Runsheet.CurrentBlock | src/pages/Runsheet.tsx:101 | The first block whose span contains now, or none exactly when no block contains now. |
| Runsheet.NextBlock | src/pages/Runsheet.tsx:102 | The first block that starts after now and has not ended, or none exactly when there is no such block. |
| Runsheet.NowAndNextDiffer | src/pages/Runsheet.tsx:101-102 | The "now" and "next" cards never show the same block, and the "now" block contains the current time. |
| Runsheet.Shift | src/pages/Runsheet.tsx:52-82 | Blocks with the id move by m minutes at both ends, and nothing else about them changes. The other blocks are unchanged, an unknown id changes nothing, and every duration is kept. |
| Runsheet.ShiftBackRestores | src/pages/Runsheet.tsx:57-58 | Shifting by m and then by −m restores the sheet. |
| Runsheet.ShiftsCompose | src/pages/Runsheet.tsx:57-58 | Two shifts of the same block add up to one. |
| Checklist.ToggleItem | src/pages/Checklist.tsx:66-84 | Items with the id get `done` set to the negation of the shown state. Every other item, the length and the order are kept. |
| Checklist.ToggleTwiceRestores | src/pages/Checklist.tsx:75-79 | Clicking an item twice restores the list. |
| Checklist.ToggleRaisesCount | src/pages/Checklist.tsx:66-171 | Ticking an unticked item with a unique id raises the completed count by exactly one. |
| Checklist.ReplaceItem | src/pages/Checklist.tsx:129-131 | The item with the edited id is replaced by the edit and every other position is untouched. |
| Checklist.ReplaceIdempotent | src/pages/Checklist.tsx:129-131 | Saving an edit twice is saving it once. The edit is present afterwards iff it or its id was present before. |
| Checklist.DeleteItem | src/pages/Checklist.tsx:142-160 | Exactly the items with the id are removed, the rest keep their relative order, and the length drops by the number of matches. |
| Checklist.DeleteAbsentOrTwice | src/pages/Checklist.tsx:152 | Deleting an absent id changes nothing, and deleting twice is deleting once. |
| Checklist.DragRequest | src/pages/Checklist.tsx:86-108 | A drop with no target, or onto the dragged item itself, does nothing. Otherwise the reorder receives two distinct ids: the dragged item and the target. |
| Checklist.CompletedCount | src/pages/Checklist.tsx:170 | At most the number of items. Equal to it iff all are ticked, and zero iff none is. |
| Checklist.Progress | src/pages/Checklist.tsx:171 | Between 0 and 100, and 0 for an empty list. For a non-empty list it is 100 iff every item is ticked. |
| ActivityLibrary.AllTags | src/components/ActivityLibrary.tsx:32-35 | Exactly the tags of the activities that have tags. |
| ActivityLibrary.AvailableGoals | src/components/ActivityLibrary.tsx:31-38 | Strictly sorted, without duplicates, and exactly the tags that some activity carries; an activity without tags adds none. |
| ActivityLibrary.FilteredActivities | src/components/ActivityLibrary.tsx:40-59 | The result is a subsequence of the catalog. With a goal set, every result carries that tag. With a budget set, every result has that cost level. Every activity passing both filters is kept. With both filters at "all" the catalog is returned unchanged. The result is exactly as long as the number of catalog entries passing both filters, so a repeated entry is kept as often as it occurs. |
| ActivityLibrary.CostBadge | src/components/ActivityLibrary.tsx:66-73 | high shows the default badge and medium the secondary one. Anything else, including no level, shows the outline badge. |
| Selection.Toggle | src/pages/DestinationSelect.tsx:23-29 | The clicked entry is selected afterwards iff it was not before, and no other entry changes membership. An absent entry is appended at the end, and a present one is removed. |
| Selection.ToggleKeepsOthersInOrder | src/components/AttractionSelector.tsx:19-25 | Toggling never reorders the other entries. |
| Selection.ToggleTwice | src/components/AttractionSelector.tsx:19-25 | Clicking an unselected entry twice restores the selection. |
| Selection.ToggleKeepsNoDuplicates | src/pages/TripBrief.tsx:56-63 | A selection without repeats stays without repeats. |
| Selection.Confirmed | src/components/AttractionSelector.tsx:28 | Exactly the offered entries whose id is selected, as many as the offered list holds, and nothing when nothing is selected. |
| Seqs.FilterLength | src/components/ActivityLibrary.tsx:40-59 | A filter keeps exactly as many entries as pass its predicate. |
| Selection.ConfirmedInOfferedOrder | src/pages/DestinationSelect.tsx:35 | What is confirmed keeps the offered order. |
| Destinations.ChosenAttractions | src/pages/DestinationSelect.tsx:35 | The destination's attractions whose id is ticked, in the destination's order. |
| DestinationSelect.ChooseDestination | src/pages/DestinationSelect.tsx:17-21 | Clicking a city shows its attractions with nothing ticked. |
| DestinationSelect.ToggleAttraction | src/pages/DestinationSelect.tsx:23-29 | Only the ticks change, following the selection toggle. |
| DestinationSelect.Confirm | src/pages/DestinationSelect.tsx:31-40 | Nothing happens without a city. Otherwise the city is handed on with exactly its ticked attractions. |
| DestinationSelect.ChooseTickConfirm | src/pages/DestinationSelect.tsx:17-117 | Choosing a city, ticking one attraction and confirming is enabled. It hands on exactly the attractions with that id. |
| AttractionSelector.Confirm | src/components/AttractionSelector.tsx:27-32 | The ticked attractions are reported in destination order, nothing is reported when nothing is ticked, and the ticks are cleared. |
| TripBrief.ToggleGoal | src/pages/TripBrief.tsx:56-63 | Only the goal list changes. The goal is present afterwards iff it was absent, and the other goals keep membership and order. |
| TripBrief.RowOf | src/pages/TripBrief.tsx:97-109 | The row starts as a draft, and an empty description is stored as null. |
| TripBrief.Submit | src/pages/TripBrief.tsx:65-111 | A missing title, start or end date stops submission before anything else. Otherwise a missing session is refused. Otherwise the schema decides: the brief is refused iff it is invalid. A created row belongs to the user and carries the trimmed title and ordered dates. It carries the number typed, the budget level picked, the goals picked, and a null description iff the description was blank. |
| TripBrief.SchemaInput | src/pages/TripBrief.tsx:86-94 | The schema sees the title untrimmed, the description always as text, the picked budget, goals and dates. The count is missing exactly when no digit follows the optional white space and sign, and a count typed as an integer's decimal digits reaches the schema as that integer. |
| TripBrief.SubmitCreatesIffValid | src/pages/TripBrief.tsx:86-111 | For a signed-in user with a complete form, a row is created exactly when the schema accepts the form. |
| TripBrief.TypedCountIsRead | src/pages/TripBrief.tsx:89 | A count typed as digits reaches the schema as that number. |
| Text.Trim | src/lib/validation.ts:5 | The result is a slice of the input with no white space at either end. |
| Text.TrimUnpadded | src/lib/validation.ts:5 | Trimming white space off a core whose ends are not white space gives the core back. |
| Text.ParseInt | src/pages/TripBrief.tsx:89 | No number exactly when no digit follows the optional leading white space and sign. A negative result needs a leading minus sign. |
| Text.ParseIntOfIntToString | src/pages/TripBrief.tsx:89 | `parseInt` reads back any integer written in decimal. |
| Clock.TruncDiv | src/pages/Itinerary.tsx:123 | The quotient rounded toward zero. |

## Left out

- Supabase reads and writes, analytics events, toasts, navigation and
  `localStorage` are left out. The pool of activities (including the
  `overlaps`/`limit(days * 3)` query that selects it), the last block, the
  signed-in user and the current time are parameters. A failed insert or
  update is not modelled.
- The checklist is generated from the blocks the insert returns. The model
  assumes they come back in insertion order with their activity attached.
- `reorderChecklist`, `updateChecklistItem` and `deleteChecklistItem` are used
  by the checklist page but are not part of this model; `src/store/tripStore.ts`
  defines only `addActivityToItinerary`. Only the drag guard is modelled.
  As written, the save and delete handlers fail on the missing store
  functions before they change the list. `Checklist.ReplaceItem` and
  `Checklist.DeleteItem` model the local update those handlers intend after
  a successful save or delete.
- Time zones, daylight saving and `setHours` are left out. Days are 1440
  minutes and nine o'clock is local midnight plus 540.
- Runsheet.StatusAt: uses one `now` for both `isPast` and the ticking
  `currentTime` state. It does not model date-fns rejecting an interval whose
  start is after its end; such a block reads as upcoming or completed.
- Runsheet.Shift: the reload after a shift re-sorts blocks by start time. The
  model keeps list order.
- Checklist.Progress: a real number. `Math.round` and floating-point rounding
  of the percentage are left out.
- Text.ParseInt: follows `parseInt` only for optional leading white space, an
  optional sign and a digit prefix. There is no radix, hexadecimal or
  exponent handling.
- Text.Join has no contract of its own. It is the plain `Array.join`; how
  the task titles use it is stated by `TripStore.ListSeparators` and
  `TripStore.RopeAndHelmetExample`.
- TripStore.AppendActivity: a `props` number is an integer and an array
  holds strings. Fractional numbers, nested arrays and objects inside arrays
  render differently in JavaScript and are not modelled.
- Validation: string lengths are counted in code points, not UTF-16 units.
- ActivityLibrary.AvailableGoals: sorts by code point. JavaScript compares
  UTF-16 units, which orders characters outside the Basic Multilingual Plane
  differently.
- Validation.ActivityIssues: the duration is an integer, so the
  whole-number check cannot fail. The `id` field only has to be a string,
  which the type guarantees.
- Validation.TripIssues: reports which fields carry an issue, not the
  messages or how many issues a field carries.
- The trip brief's vibe selector is never sent anywhere and is left out.
  The check that a destination was chosen before the brief opens is
  navigation and is left out too.
- The attraction dialog disables its confirm button while nothing is ticked
  (src/components/AttractionSelector.tsx:74). The model has no button state;
  a confirm with nothing ticked reports nothing.
- The PDF export, the map dialog, the draggable rendering components and the
  page layouts are presentation only.
