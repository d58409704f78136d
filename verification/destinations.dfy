/** Destinations and their attractions, as the destination pages see them. */
module Destinations {
  import opened Wrappers
  import opened Seqs
  import opened Selection

  /** A sight in a city; coordinates are left out (they are only displayed). */
  datatype Attraction = Attraction(id: string, name: string, description: string, imageUrl: string)

  datatype Destination = Destination(id: string, city: string, imageUrl: string, attractions: seq<Attraction>)

  function AttractionId(a: Attraction): string { a.id }

  /** The attractions of `dest` whose ids are selected, in the destination's order. */
  function ChosenAttractions(dest: Destination, selected: seq<string>): (r: seq<Attraction>)
    ensures forall a :: a in r <==> a in dest.attractions && a.id in selected
    ensures IsSubsequence(r, dest.attractions)
  {
    ConfirmedInOfferedOrder(dest.attractions, AttractionId, selected);
    Confirmed(dest.attractions, AttractionId, selected)
  }
}

/** The destination page: pick a city, tick its attractions, confirm. */
module DestinationSelect {
  import opened Wrappers
  import opened Seqs
  import opened Selection
  import opened Destinations

  datatype Page = Page(dest: Option<Destination>, showAttractions: bool, selected: seq<string>)

  /** What confirming hands on to the brief: the city and the chosen attractions. */
  datatype Handoff = Handoff(destination: Destination, attractions: seq<Attraction>)

  const Initial: Page := Page(None, false, [])

  /** Clicking a city opens its attractions with nothing ticked, whatever was ticked before. */
  function ChooseDestination(p: Page, d: Destination): (r: Page)
    ensures r.dest == Some(d) && r.showAttractions
    ensures r.selected == []
  {
    Page(Some(d), true, [])
  }

  /** Ticking or unticking one attraction; nothing but the selection changes. */
  function ToggleAttraction(p: Page, id: string): (r: Page)
    ensures r.dest == p.dest && r.showAttractions == p.showAttractions
    ensures id in r.selected <==> id !in p.selected
    ensures forall other :: other != id ==> (other in r.selected <==> other in p.selected)
    ensures id !in p.selected ==> r.selected == p.selected + [id]
  {
    p.(selected := Toggle(p.selected, id))
  }

  /** The confirm button is enabled only while something is ticked. */
  predicate ConfirmEnabled(p: Page) { |p.selected| > 0 }

  /** Confirming: nothing happens without a city; otherwise the ticked attractions in the city's order. */
  function Confirm(p: Page): (r: Option<Handoff>)
    ensures r.None? <==> p.dest.None?
    ensures r.Some? ==> r.value.destination == p.dest.value
    ensures r.Some? ==> forall a :: a in r.value.attractions <==> a in p.dest.value.attractions && a.id in p.selected
  {
    match p.dest
    case None => None
    case Some(d) => Some(Handoff(d, ChosenAttractions(d, p.selected)))
  }

  /** After choosing a city, ticking one of its attractions and confirming hands on exactly that attraction's copies. */
  lemma ChooseTickConfirm(p: Page, d: Destination, a: Attraction)
    requires a in d.attractions
    ensures var q := ToggleAttraction(ChooseDestination(p, d), a.id);
            && ConfirmEnabled(q)
            && Confirm(q).Some?
            && forall b :: b in Confirm(q).value.attractions <==> b in d.attractions && b.id == a.id
  {
  }
}

/** The reusable attraction dialog: its own selection, cleared on confirm. */
module AttractionSelector {
  import opened Seqs
  import opened Selection
  import opened Destinations

  datatype Confirmation = Confirmation(confirmed: seq<Attraction>, selectedAfter: seq<string>)

  /** `handleConfirm`: report the ticked attractions in destination order, then clear the ticks. */
  function Confirm(dest: Destination, selected: seq<string>): (r: Confirmation)
    ensures r.selectedAfter == []
    ensures |selected| == 0 ==> r.confirmed == []
    ensures forall a :: a in r.confirmed <==> a in dest.attractions && a.id in selected
    ensures IsSubsequence(r.confirmed, dest.attractions)
  {
    Confirmation(ChosenAttractions(dest, selected), [])
  }
}
