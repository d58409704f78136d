/**
 * `addActivityToItinerary`: appending a catalog activity to an existing
 * itinerary, producing the new block and the checklist items its `props` bag
 * calls for. The store writes are the caller's business.
 */
module TripStore {
  import opened Wrappers
  import opened Text
  import opened Clock
  import opened Model
  import Itinerary

  /** Items created here sort after the seeded checklist. */
  const BaseItemOrder: int := 1000
  /** Without a previous block the activity is placed 24 hours from now. */
  const DefaultLeadMinutes: int := 24 * 60

  /** JavaScript truthiness of a JSON value. */
  predicate Truthy(v: PropValue) {
    match v
    case Null => false
    case Bool(b) => b
    case Num(n) => n != 0
    case Str(s) => s != ""
    case List(_) => true
    case Obj => true
  }

  /** `a || b` on possibly-undefined values (`None` is `undefined`). */
  function OrElse(a: Option<PropValue>, b: Option<PropValue>): (r: Option<PropValue>)
    ensures r.Some? && Truthy(r.value) <==> (a.Some? && Truthy(a.value)) || (b.Some? && Truthy(b.value))
  {
    if a.Some? && Truthy(a.value) then a else b
  }

  function Lookup(m: map<string, PropValue>, key: string): Option<PropValue> {
    if key in m then Some(m[key]) else None
  }

  /** `props.materials || props.equipment`, or nothing when `props` is not an object. */
  function MaterialsOf(a: Activity): Option<PropValue> {
    match a.props
    case Some(m) => OrElse(Lookup(m, "materials"), Lookup(m, "equipment"))
    case None => None
  }

  /** `props.safety || props.risk_notes`, or nothing when `props` is not an object. */
  function SafetyOf(a: Activity): Option<PropValue> {
    match a.props
    case Some(m) => OrElse(Lookup(m, "safety"), Lookup(m, "risk_notes"))
    case None => None
  }

  predicate NeedsMaterials(a: Activity) { MaterialsOf(a).Some? && Truthy(MaterialsOf(a).value) }
  predicate NeedsSafetyReview(a: Activity) { SafetyOf(a).Some? && Truthy(SafetyOf(a).value) }

  /** String conversion inside a template literal; an array renders via `toString`, joined by ",". */
  function Render(v: PropValue): (r: string)
    ensures v.Str? ==> r == v.s
    ensures v.Num? ==> ParseInt(r) == Some(v.n)
    ensures v.Bool? ==> (r == "true" <==> v.b)
    ensures v.List? && |v.items| == 1 ==> r == v.items[0]
  {
    match v
    case Null => "null"
    case Bool(b) => if b then "true" else "false"
    case Num(n) => ParseIntOfIntToString(n); IntToString(n)
    case Str(s) => s
    case List(items) => Join(items, ",")
    case Obj => "[object Object]"
  }

  /** The materials text: an array is joined with ", ", anything else rendered as in a template. */
  function RenderMaterials(v: PropValue): (r: string)
    ensures !v.List? ==> r == Render(v)
    ensures v.List? && |v.items| == 1 ==> r == v.items[0]
  {
    if v.List? then Join(v.items, ", ") else Render(v)
  }

  /**
   * Each further list entry is added after ", " in a materials task and
   * after a bare "," in a safety review.
   */
  lemma ListSeparators(items: seq<string>, x: string)
    requires |items| > 0
    ensures RenderMaterials(List(items + [x])) == RenderMaterials(List(items)) + ", " + x
    ensures Render(List(items + [x])) == Render(List(items)) + "," + x
  {
    JoinSnoc(items, x, ", ");
    JoinSnoc(items, x, ",");
  }

  function MaterialsTitle(a: Activity, v: PropValue): string {
    "Prepare materials for \"" + a.title + "\": " + RenderMaterials(v)
  }

  function SafetyTitle(a: Activity, v: PropValue): string {
    "Review safety guidelines for \"" + a.title + "\": " + Render(v)
  }

  function GenericTitle(a: Activity): string {
    "Prepare for activity: " + a.title
  }

  datatype Appended = Appended(block: Block, items: seq<PlannedItem>)

  /** Where the new block starts: a buffer after the last block, or a day from `now`. */
  function NewStart(lastBlock: Option<Block>, now: int): (s: int)
    ensures lastBlock.Some? ==> s > lastBlock.value.end && s - lastBlock.value.end == 15
    ensures lastBlock.None? ==> s == now + MinutesPerDay
  {
    match lastBlock
    case Some(last) => last.end + Itinerary.BufferMinutes
    case None => now + DefaultLeadMinutes
  }

  /**
   * The block and checklist items for appending `a` after `lastBlock`
   * (`None`: the trip has no blocks yet); `now` is the clock reading.
   */
  function AppendActivity(a: Activity, tripId: string, lastBlock: Option<Block>, now: int): (r: Appended)
    ensures r.block.start == (if lastBlock.Some? then lastBlock.value.end + 15 else now + 24 * 60)
    ensures r.block.end - r.block.start == a.durationMinutes
    ensures r.block.order == (if lastBlock.Some? then lastBlock.value.order + 1 else 0)
    ensures r.block.tripId == tripId && r.block.activityId == Some(a.id) && r.block.title == a.title
    ensures 1 <= |r.items| <= 2
    ensures |r.items| == 2 <==> NeedsMaterials(a) && NeedsSafetyReview(a)
    ensures forall k :: 0 <= k < |r.items| ==>
              r.items[k].itemOrder == 1000 + k && r.items[k].dueDate == Some(r.block.start)
              && r.items[k].tripId == tripId
    ensures NeedsMaterials(a) ==>
              r.items[0] == PlannedItem(tripId, MaterialsTitle(a, MaterialsOf(a).value), Some(r.block.start),
                                        "Activity Coordinator", 1000)
    ensures NeedsSafetyReview(a) ==>
              r.items[|r.items| - 1].title == SafetyTitle(a, SafetyOf(a).value)
              && r.items[|r.items| - 1].assigneeRole == "Safety Officer"
    ensures !NeedsMaterials(a) && !NeedsSafetyReview(a) ==>
              r.items == [PlannedItem(tripId, GenericTitle(a), Some(r.block.start), "Activity Coordinator", 1000)]
  {
    var start := NewStart(lastBlock, now);
    var block := Block(tripId, Some(a.id), a.title, start, start + a.durationMinutes, "TBD",
                       if a.description.Some? && a.description.value != "" then a.description
                       else Some("Added from Activity Library"),
                       if lastBlock.Some? then lastBlock.value.order + 1 else 0);
    var materials :=
      if NeedsMaterials(a)
      then [PlannedItem(tripId, MaterialsTitle(a, MaterialsOf(a).value), Some(start), "Activity Coordinator", BaseItemOrder)]
      else [];
    var safety :=
      if NeedsSafetyReview(a)
      then [PlannedItem(tripId, SafetyTitle(a, SafetyOf(a).value), Some(start), "Safety Officer", BaseItemOrder + |materials|)]
      else [];
    var items :=
      if |materials + safety| == 0
      then [PlannedItem(tripId, GenericTitle(a), Some(start), "Activity Coordinator", BaseItemOrder)]
      else materials + safety;
    Appended(block, items)
  }

  /** The three kinds of generated title never coincide: each prefix is distinct. */
  lemma TitlesDistinct(a: Activity, v: PropValue, w: PropValue)
    ensures MaterialsTitle(a, v) != GenericTitle(a)
    ensures MaterialsTitle(a, v) != SafetyTitle(a, w)
    ensures SafetyTitle(a, w) != GenericTitle(a)
  {
    assert MaterialsTitle(a, v)[8] == 'm' && GenericTitle(a)[8] == 'f';
    assert MaterialsTitle(a, v)[0] == 'P' && SafetyTitle(a, w)[0] == 'R' && GenericTitle(a)[0] == 'P';
  }

  /** A materials task appears exactly when `materials` or `equipment` is truthy; likewise a safety review. */
  lemma AppendedItemKinds(a: Activity, tripId: string, lastBlock: Option<Block>, now: int)
    ensures var items := AppendActivity(a, tripId, lastBlock, now).items;
            && (NeedsMaterials(a) <==> exists k :: 0 <= k < |items| && items[k].title == MaterialsTitle(a, MaterialsOf(a).GetOr(Null)))
            && (NeedsSafetyReview(a) <==> exists k :: 0 <= k < |items| && items[k].title == SafetyTitle(a, SafetyOf(a).GetOr(Null)))
            && ((!NeedsMaterials(a) && !NeedsSafetyReview(a)) <==> exists k :: 0 <= k < |items| && items[k].title == GenericTitle(a))
  {
    var items := AppendActivity(a, tripId, lastBlock, now).items;
    var mt := MaterialsTitle(a, MaterialsOf(a).GetOr(Null));
    var st := SafetyTitle(a, SafetyOf(a).GetOr(Null));
    TitlesDistinct(a, MaterialsOf(a).GetOr(Null), SafetyOf(a).GetOr(Null));
    if NeedsMaterials(a) && NeedsSafetyReview(a) {
      assert |items| == 2 && items[0].title == mt && items[1].title == st;
    } else if NeedsMaterials(a) {
      assert |items| == 1 && items[0].title == mt;
    } else if NeedsSafetyReview(a) {
      assert |items| == 1 && items[0].title == st;
    } else {
      assert |items| == 1 && items[0].title == GenericTitle(a);
    }
  }

  /** Appending after the last block of a list numbered from zero keeps the numbering contiguous. */
  lemma AppendKeepsNumbering(blocks: seq<Block>, a: Activity, tripId: string, now: int)
    requires Itinerary.Numbered(blocks, 0)
    ensures var last := if |blocks| == 0 then None else Some(blocks[|blocks| - 1]);
            Itinerary.Numbered(blocks + [AppendActivity(a, tripId, last, now).block], 0)
  {
  }

  /** A materials list `["rope", "helmet"]` without safety notes yields one task naming "rope, helmet". */
  lemma RopeAndHelmetExample(a: Activity, tripId: string, now: int)
    requires a.props == Some(map["materials" := List(["rope", "helmet"])])
    ensures var r := AppendActivity(a, tripId, None, now);
            && |r.items| == 1
            && r.items[0].title == "Prepare materials for \"" + a.title + "\": rope, helmet"
            && r.block.order == 0 && r.block.start == now + 1440
  {
    var m := a.props.value;
    assert Lookup(m, "materials") == Some(List(["rope", "helmet"]));
    assert "equipment" !in m && "safety" !in m && "risk_notes" !in m;
    assert MaterialsOf(a) == Some(List(["rope", "helmet"]));
    assert SafetyOf(a) == None;
    assert ["rope", "helmet"][1..] == ["helmet"];
    assert RenderMaterials(List(["rope", "helmet"])) == "rope, helmet";
  }
}
