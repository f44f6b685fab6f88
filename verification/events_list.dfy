/** The public list of events: every published event, earliest date first. */
module EventsList {
  import opened Common
  import opened Records
  import opened Store
  import opened Seqs

  datatype ListState = ListState(events: seq<Doc<Event>>, loading: bool)

  function Initial(): ListState
  {
    ListState([], true)
  }

  /** `fetchEvents` over `snapshot`, the events collection as the store returns
      it. A failed read is only reported, so the list stays as it was. */
  function FetchPublished(st: ListState, snapshot: seq<Doc<Event>>, readOk: bool): (r: ListState)
    ensures !r.loading
    ensures !readOk ==> r.events == st.events
    ensures readOk ==>
              && Sorted(r.events, EventDate, false)
              && multiset(r.events) == multiset(Filter(snapshot, IsPublishedDoc))
  {
    if !readOk then st.(loading := false)
    else
      var published := Filter(snapshot, IsPublishedDoc);
      ListState(SortBy(published, EventDate, false), false)
  }

  /** After a successful read the list holds exactly the snapshot's published
      events. */
  lemma ListsPublishedOfSnapshot(st: ListState, snapshot: seq<Doc<Event>>)
    ensures forall d :: d in FetchPublished(st, snapshot, true).events <==> d in snapshot && d.data.isPublished
  {
    var published := Filter(snapshot, IsPublishedDoc);
    var listed := FetchPublished(st, snapshot, true).events;
    assert multiset(listed) == multiset(published);
    forall d ensures d in listed <==> d in snapshot && d.data.isPublished {
      assert d in listed <==> d in multiset(listed);
      assert d in published <==> d in multiset(published);
      FilterMember(snapshot, IsPublishedDoc, d);
      assert IsPublishedDoc(d) == d.data.isPublished;
    }
  }

  /** Events on the same date keep the order the store returned them in. */
  lemma FetchPublishedIsStable(st: ListState, snapshot: seq<Doc<Event>>, t: int)
    ensures WithKey(FetchPublished(st, snapshot, true).events, EventDate, t)
            == WithKey(Filter(snapshot, IsPublishedDoc), EventDate, t)
  {
    SortByIsStable(Filter(snapshot, IsPublishedDoc), EventDate, false, t);
  }

  /** Read against the store, the list holds exactly the published events,
      each with its stored data, in date order. */
  lemma ListsExactlyPublished(s: Store, snapshot: seq<Doc<Event>>)
    requires IsSnapshotOf(snapshot, s.events)
    ensures var r := FetchPublished(Initial(), snapshot, true);
      && Sorted(r.events, EventDate, false)
      && forall d :: d in r.events <==> d.id in s.events && s.events[d.id] == d.data && d.data.isPublished
  {
    ListsPublishedOfSnapshot(Initial(), snapshot);
    WhereSelectsMatching(snapshot, s.events, IsPublishedDoc);
  }

  /** When the read fails the page ends its spinner on an empty list. */
  lemma FailedReadShowsNothing(snapshot: seq<Doc<Event>>)
    ensures FetchPublished(Initial(), snapshot, false) == ListState([], false)
  {
  }
}
