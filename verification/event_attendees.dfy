/** The organizer's attendee list for one event: every ticket issued for it,
    in the order the store returns them, with a colour badge per status. */
module EventAttendees {
  import opened Common
  import opened Records
  import opened Store
  import opened Seqs

  datatype AttendeesState = AttendeesState(attendees: seq<Doc<Ticket>>, event: Option<Doc<Event>>, loading: bool)

  function Initial(): AttendeesState
  {
    AttendeesState([], None, true)
  }

  /** Which of the two reads fails, if any: the event get comes first and its
      failure skips the ticket query. */
  datatype ReadFailure = NoFailure | EventReadFails | TicketQueryFails

  /** The equality filter `eventId == id`. */
  function ForEvent(id: Id): Doc<Ticket> -> bool
  {
    (d: Doc<Ticket>) => d.data.eventId == id
  }

  /** `fetchAttendees` for route parameter `eventId` over `snapshot`, the
      tickets collection as the store returns it. Without an id nothing
      happens and the spinner stays. A missing event is simply not set. */
  function FetchAttendees(
    st: AttendeesState, eventId: Option<string>, events: map<Id, Event>,
    snapshot: seq<Doc<Ticket>>, failure: ReadFailure): (r: AttendeesState)
    ensures !Present(eventId) ==> r == st
    ensures Present(eventId) ==> !r.loading
    ensures Present(eventId) && failure == EventReadFails ==>
              r.event == st.event && r.attendees == st.attendees
    ensures Present(eventId) && failure != EventReadFails ==>
              r.event == (if eventId.value in events then Some(Doc(eventId.value, events[eventId.value])) else st.event)
    ensures Present(eventId) && failure == TicketQueryFails ==> r.attendees == st.attendees
    ensures Present(eventId) && failure == NoFailure ==>
              r.attendees == Filter(snapshot, ForEvent(eventId.value))
  {
    if !Present(eventId) then st
    else if failure == EventReadFails then st.(loading := false)
    else
      var id := eventId.value;
      var withEvent := if id in events then st.(event := Some(Doc(id, events[id]))) else st;
      if failure == TicketQueryFails then withEvent.(loading := false)
      else withEvent.(attendees := Filter(snapshot, ForEvent(id)), loading := false)
  }

  /** Read against the store, the attendees are exactly the tickets issued
      for the event, whether or not the event document still exists. */
  lemma ListsEveryTicketOfTheEvent(s: Store, snapshot: seq<Doc<Ticket>>, id: string)
    requires IsSnapshotOf(snapshot, s.tickets) && id != ""
    ensures var r := FetchAttendees(Initial(), Some(id), s.events, snapshot, NoFailure);
      && (forall d :: d in r.attendees <==> d.id in s.tickets && s.tickets[d.id] == d.data && d.data.eventId == id)
      && (r.event.Some? <==> id in s.events)
  {
    WhereSelectsMatching(snapshot, s.tickets, ForEvent(id));
  }

  /** The heading: the event name, or `Event` when the event is missing or
      its name is empty. */
  function Heading(event: Option<Doc<Event>>): (h: string)
    ensures h != ""
    ensures event.Some? && event.value.data.namaAcara != "" ==> h == event.value.data.namaAcara
    ensures event.None? || event.value.data.namaAcara == "" ==> h == "Event"
  {
    if event.Some? && event.value.data.namaAcara != "" then event.value.data.namaAcara else "Event"
  }

  datatype Badge = GreenBadge | RedBadge | YellowBadge

  /** Paid tickets are green, used ones red, anything else yellow. */
  function StatusBadge(status: string): (b: Badge)
    ensures b == GreenBadge <==> status == PaidStatus
    ensures b == RedBadge <==> status == UsedStatus
    ensures b == YellowBadge <==> status != PaidStatus && status != UsedStatus
  {
    if status == PaidStatus then GreenBadge
    else if status == UsedStatus then RedBadge
    else YellowBadge
  }
}
