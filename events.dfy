/** The events screen (utdisa/Views/EventsView.swift): at most one event card
    is expanded, and tapping a card toggles it. */
module Events {
  import opened Base
  import opened Records

  /** The `onToggle` closure: collapse the expanded event, or expand another. */
  function Toggled(expanded: Option<Uuid>, id: Uuid): (r: Option<Uuid>)
    ensures r == None <==> expanded == Some(id)
    ensures r != None ==> r == Some(id)
  {
    if expanded == Some(id) then None else Some(id)
  }

  /** Toggling the same event twice restores the state when that event was
      the expanded one or none was; when another was expanded it was closed
      by the first toggle and stays closed. */
  lemma ToggleTwice(expanded: Option<Uuid>, id: Uuid)
    ensures expanded == None || expanded == Some(id) ==> Toggled(Toggled(expanded, id), id) == expanded
    ensures expanded != None && expanded != Some(id) ==> Toggled(Toggled(expanded, id), id) == None
  {
  }

  /** After a toggle the tapped event is the only candidate for being expanded. */
  lemma ToggleExpandsOnlyTapped(expanded: Option<Uuid>, id: Uuid, other: Uuid)
    requires other != id
    ensures Toggled(expanded, id) != Some(other)
  {
  }

  class EventsView {
    var events: seq<Event>
    var expandedEventID: Option<Uuid>

    /** Whether the card for `e` is drawn expanded. */
    function IsExpanded(e: Event): bool
      reads this
    {
      expandedEventID == Some(e.id)
    }

    /** The screen opens on the sample events with nothing expanded. */
    constructor (events: seq<Event>)
      ensures this.events == events && expandedEventID == None
    {
      this.events := events;
      expandedEventID := None;
    }

    method OnToggle(e: Event)
      modifies this
      ensures events == old(events)
      ensures expandedEventID == Toggled(old(expandedEventID), e.id)
      ensures IsExpanded(e) <==> !old(IsExpanded(e))
      ensures forall f :: f in events && f.id != e.id ==> !IsExpanded(f)
    {
      if expandedEventID == Some(e.id) {
        expandedEventID := None;
      } else {
        expandedEventID := Some(e.id);
      }
    }
  }
}
