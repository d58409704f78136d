/**
 * The records the planner passes around: catalog activities, itinerary block
 * rows and checklist item rows as they are handed to the row store. Times are
 * minutes (see `Clock`); `Option` stands for a nullable or optional column.
 */
module Model {
  import opened Wrappers

  /** A value found in an activity's free-form `props` bag (a JSON value). */
  datatype PropValue =
    | Null
    | Bool(b: bool)
    | Num(n: int)
    | Str(s: string)
    | List(items: seq<string>)
    | Obj

  /** `props`: `None` when it is null or not an object; a missing key reads as `undefined`. */
  type Props = Option<map<string, PropValue>>

  /** A catalog activity (a row of the `activities` table). */
  datatype Activity = Activity(
    id: string,
    title: string,
    description: Option<string>,
    durationMinutes: int,
    costLevel: Option<string>,
    tags: Option<seq<string>>,
    isSignature: Option<bool>,
    props: Props)

  /** An itinerary block row as built for insertion (`itinerary_blocks`). */
  datatype Block = Block(
    tripId: string,
    activityId: Option<string>,
    title: string,
    start: int,
    end: int,
    location: string,
    notes: Option<string>,
    order: int)

  /** A checklist item row as built for insertion (`checklist_items`). */
  datatype PlannedItem = PlannedItem(
    tripId: string,
    title: string,
    dueDate: Option<int>,
    assigneeRole: string,
    itemOrder: int)

  /** Whether the block refers to a catalog activity. */
  function HasActivity(b: Block): bool {
    b.activityId.Some?
  }
}
