/** The organizer's dashboard: their own events, newest date first, split into
    a published table and a drafts table, with publish/unpublish and delete
    actions on each row. */
module OrganizerDashboard {
  import opened Common
  import opened Records
  import opened Store
  import opened Seqs

  datatype DashboardState = DashboardState(events: seq<Doc<Event>>, loading: bool)

  function Initial(): DashboardState
  {
    DashboardState([], true)
  }

  /** The equality filter `organizerId == uid`. */
  function OwnedBy(uid: Id): Doc<Event> -> bool
  {
    (d: Doc<Event>) => d.data.organizerId == uid
  }

  /** `fetchEvents`: without a signed-in user it does nothing; otherwise it
      lists the user's events from `snapshot`, the events collection as the
      store returns it, sorted by date, latest first. A failed read keeps the
      previous list. */
  function FetchEvents(st: DashboardState, currentUser: Option<AuthUser>, snapshot: seq<Doc<Event>>, readOk: bool): (r: DashboardState)
    ensures currentUser.None? ==> r == st
    ensures currentUser.Some? ==> !r.loading
    ensures currentUser.Some? && !readOk ==> r.events == st.events
    ensures currentUser.Some? && readOk ==>
              && Sorted(r.events, EventDate, true)
              && multiset(r.events) == multiset(Filter(snapshot, OwnedBy(currentUser.value.uid)))
              && (forall d :: d in r.events <==> d in snapshot && d.data.organizerId == currentUser.value.uid)
  {
    match currentUser
    case None => st
    case Some(u) =>
      if !readOk then st.(loading := false)
      else
        var owned := Filter(snapshot, OwnedBy(u.uid));
        var listed := SortBy(owned, EventDate, true);
        SameElements(listed, owned);
        assert forall d :: OwnedBy(u.uid)(d) == (d.data.organizerId == u.uid);
        DashboardState(listed, false)
  }

  /** Events on the same date keep the order the store returned them in. */
  lemma FetchEventsIsStable(st: DashboardState, user: AuthUser, snapshot: seq<Doc<Event>>, t: int)
    ensures WithKey(FetchEvents(st, Some(user), snapshot, true).events, EventDate, t)
            == WithKey(Filter(snapshot, OwnedBy(user.uid)), EventDate, t)
  {
    SortByIsStable(Filter(snapshot, OwnedBy(user.uid)), EventDate, true, t);
  }

  /** Read against the store, the dashboard lists exactly the signed-in
      organizer's events, each with its stored data, latest date first. */
  lemma FetchEventsListsOwnEvents(s: Store, snapshot: seq<Doc<Event>>, st: DashboardState, user: AuthUser)
    requires IsSnapshotOf(snapshot, s.events)
    ensures var r := FetchEvents(st, Some(user), snapshot, true);
      && Sorted(r.events, EventDate, true)
      && forall d :: d in r.events <==> d.id in s.events && s.events[d.id] == d.data && d.data.organizerId == user.uid
  {
    WhereSelectsMatching(snapshot, s.events, OwnedBy(user.uid));
  }

  // ---------------------------------------------------------------------
  // Splitting the list into published events and drafts

  datatype Split = Split(published: seq<Doc<Event>>, drafts: seq<Doc<Event>>)

  /** One step of the `reduce`: push the event onto the list its flag selects. */
  function SplitStep(acc: Split, d: Doc<Event>): Split
  {
    if d.data.isPublished then acc.(published := acc.published + [d])
    else acc.(drafts := acc.drafts + [d])
  }

  /** The `reduce` over the list, left to right. */
  function Reduce(events: seq<Doc<Event>>, acc: Split): Split
  {
    if events == [] then acc else Reduce(events[1..], SplitStep(acc, events[0]))
  }

  function Partition(events: seq<Doc<Event>>): Split
  {
    Reduce(events, Split([], []))
  }

  lemma {:induction false} ReduceAppendsPublished(events: seq<Doc<Event>>, acc: Split)
    ensures Reduce(events, acc).published == acc.published + Filter(events, IsPublishedDoc)
  {
    if events != [] {
      var d := events[0];
      ReduceAppendsPublished(events[1..], SplitStep(acc, d));
      FilterHead(events, IsPublishedDoc);
      var rest := Filter(events[1..], IsPublishedDoc);
      assert acc.published + [d] + rest == acc.published + ([d] + rest);
    }
  }

  lemma {:induction false} ReduceAppendsDrafts(events: seq<Doc<Event>>, acc: Split)
    ensures Reduce(events, acc).drafts == acc.drafts + Filter(events, IsDraftDoc)
  {
    if events != [] {
      var d := events[0];
      ReduceAppendsDrafts(events[1..], SplitStep(acc, d));
      FilterHead(events, IsDraftDoc);
      var rest := Filter(events[1..], IsDraftDoc);
      assert acc.drafts + [d] + rest == acc.drafts + ([d] + rest);
    }
  }

  /** The dashboard's split keeps each part in list order, puts every event
      in exactly the part its `isPublished` flag names, and loses or
      duplicates nothing. */
  lemma PartitionSplitsByFlag(events: seq<Doc<Event>>)
    ensures Partition(events) == Split(Filter(events, IsPublishedDoc), Filter(events, IsDraftDoc))
    ensures forall d :: d in Partition(events).published <==> d in events && d.data.isPublished
    ensures forall d :: d in Partition(events).drafts <==> d in events && !d.data.isPublished
    ensures multiset(Partition(events).published) + multiset(Partition(events).drafts) == multiset(events)
  {
    ReduceAppendsPublished(events, Split([], []));
    ReduceAppendsDrafts(events, Split([], []));
    assert [] + Filter(events, IsPublishedDoc) == Filter(events, IsPublishedDoc);
    assert [] + Filter(events, IsDraftDoc) == Filter(events, IsDraftDoc);
    FilterSplitIsPermutation(events, IsPublishedDoc, IsDraftDoc);
  }

  /** The status a table's toggle buttons set: the table takes its kind from
      its first row (a table with no rows counts as drafts), a published table
      offers unpublish and a drafts table offers publish. */
  function ToggleTarget(events: seq<Doc<Event>>): bool
  {
    var isPublishedList := if |events| > 0 then events[0].data.isPublished else false;
    !isPublishedList
  }

  /** The published table offers unpublish and the drafts table publish. */
  lemma TablesToggleToTheOtherState(events: seq<Doc<Event>>)
    ensures Partition(events).published != [] ==> !ToggleTarget(Partition(events).published)
    ensures ToggleTarget(Partition(events).drafts)
  {
    PartitionSplitsByFlag(events);
    var p := Partition(events);
    if p.published != [] {
      assert p.published[0] in p.published;
    }
    if p.drafts != [] {
      assert p.drafts[0] in p.drafts;
    }
  }

  // ---------------------------------------------------------------------
  // Row actions

  datatype Outcome = Cancelled | Done | Failed

  datatype Step = Step(store: Store, outcome: Outcome)

  /** `handlePublishToggle`: unpublishing waits for `confirmed`, publishing
      does not. The update changes one field of one event and fails, leaving
      the store as it was, when the write fails or the event does not exist. */
  function HandlePublishToggle(s: Store, id: Id, newStatus: bool, confirmed: bool, writeOk: bool): (r: Step)
    ensures !newStatus && !confirmed ==> r == Step(s, Cancelled)
    ensures r.outcome.Done? <==> (newStatus || confirmed) && writeOk && id in s.events
    ensures !r.outcome.Done? ==> r.store == s
    ensures r.store.users == s.users && r.store.tickets == s.tickets
    ensures r.store.events.Keys == s.events.Keys
    ensures forall k :: k in s.events && k != id ==> r.store.events[k] == s.events[k]
    ensures r.outcome.Done? ==> r.store.events[id] == s.events[id].(isPublished := newStatus)
    ensures (newStatus || confirmed) && !r.outcome.Done? ==> r.outcome == Failed
  {
    if !newStatus && !confirmed then Step(s, Cancelled)
    else if !writeOk || id !in s.events then Step(s, Failed)
    else Step(s.(events := s.events[id := s.events[id].(isPublished := newStatus)]), Done)
  }

  /** `handleDelete`: after confirmation the event document is removed and
      nothing else; tickets that point at it stay. */
  function HandleDelete(s: Store, id: Id, confirmed: bool, writeOk: bool): (r: Step)
    ensures !confirmed ==> r == Step(s, Cancelled)
    ensures r.outcome.Done? <==> confirmed && writeOk
    ensures confirmed && !writeOk ==> r.outcome == Failed
    ensures !r.outcome.Done? ==> r.store == s
    ensures r.store.users == s.users && r.store.tickets == s.tickets
    ensures r.outcome.Done? ==> r.store.events.Keys == s.events.Keys - {id}
    ensures forall k :: k in r.store.events ==> k in s.events && r.store.events[k] == s.events[k]
  {
    if !confirmed then Step(s, Cancelled)
    else if !writeOk then Step(s, Failed)
    else Step(s.(events := s.events - {id}), Done)
  }

  /** After a toggle and the refresh it triggers, the event sits in the table
      its new status names. */
  lemma ToggledEventMovesTable(
    s: Store, id: Id, newStatus: bool, confirmed: bool, user: AuthUser, snapshot: seq<Doc<Event>>)
    requires id in s.events && s.events[id].organizerId == user.uid
    requires newStatus || confirmed
    requires IsSnapshotOf(snapshot, HandlePublishToggle(s, id, newStatus, confirmed, true).store.events)
    ensures var listed := FetchEvents(Initial(), Some(user), snapshot, true).events;
      var d := Doc(id, s.events[id].(isPublished := newStatus));
      && (newStatus ==> d in Partition(listed).published)
      && (!newStatus ==> d in Partition(listed).drafts)
  {
    var s' := HandlePublishToggle(s, id, newStatus, confirmed, true).store;
    FetchEventsListsOwnEvents(s', snapshot, Initial(), user);
    PartitionSplitsByFlag(FetchEvents(Initial(), Some(user), snapshot, true).events);
  }
}
