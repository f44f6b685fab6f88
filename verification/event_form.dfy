/** The organizer's event form: with a route id it edits that event, without
    one it creates a new draft. Editing first loads the event and refuses one
    that belongs to someone else. */
module EventForm {
  import opened Common
  import opened Records
  import opened Store

  /** The form's fields. The date input holds a calendar day, kept here as the
      seconds of that day's midnight in UTC, which is what both the ISO date
      string the form shows and the `Date` it parses back stand for. */
  datatype Fields = Fields(namaAcara: string, tanggal: int, lokasi: string, harga: int, deskripsiSingkat: string)

  datatype FormState = FormState(fields: Fields, loading: bool, formLoading: bool, error: string)

  function Initial(): FormState
  {
    FormState(Fields("", 0, "", 0, ""), false, false, "")
  }

  const SecondsPerDay := 86400

  const NotAuthorized := "You are not authorized to edit this event."
  const EventNotFound := "Event not found."
  const LoadFailed := "Failed to load event data."
  const MustBeLoggedIn := "You must be logged in to create or edit events."

  predicate IsEditMode(id: Option<string>)
  {
    Present(id)
  }

  /** The midnight (UTC) that starts the day containing `seconds`. */
  function DayStart(seconds: int): (d: int)
    ensures d <= seconds < d + SecondsPerDay
    ensures d % SecondsPerDay == 0
  {
    seconds - seconds % SecondsPerDay
  }

  /** The fields an existing event fills in: its date is shown as a day. */
  function FieldsOf(e: Event): Fields
  {
    Fields(e.namaAcara, DayStart(e.tanggal), e.lokasi, e.harga, e.deskripsiSingkat)
  }

  /** Loading the event to edit. Only in edit mode with a signed-in user; an
      event owned by someone else or missing leaves the fields as they were. */
  function LoadForEdit(st: FormState, id: Option<string>, currentUser: Option<AuthUser>, events: map<Id, Event>, readOk: bool): (r: FormState)
    ensures !(IsEditMode(id) && currentUser.Some?) ==> r == st
    ensures IsEditMode(id) && currentUser.Some? ==> !r.loading && r.formLoading == st.formLoading
    ensures IsEditMode(id) && currentUser.Some? && !readOk ==>
              r.error == LoadFailed && r.fields == st.fields
    ensures IsEditMode(id) && currentUser.Some? && readOk && id.value !in events ==>
              r.error == EventNotFound && r.fields == st.fields
    ensures IsEditMode(id) && currentUser.Some? && readOk && id.value in events ==>
              if events[id.value].organizerId != currentUser.value.uid
              then r.error == NotAuthorized && r.fields == st.fields
              else r.error == st.error && r.fields == FieldsOf(events[id.value])
  {
    if !(IsEditMode(id) && currentUser.Some?) then st
    else
      var done := st.(loading := false);
      if !readOk then done.(error := LoadFailed)
      else if id.value !in events then done.(error := EventNotFound)
      else if events[id.value].organizerId != currentUser.value.uid then done.(error := NotAuthorized)
      else done.(fields := FieldsOf(events[id.value]))
  }

  /** An existing event with the submitted fields and submitter; its publish
      state is not part of the update. */
  function ApplyEdit(e: Event, f: Fields, uid: Id): Event
  {
    e.(namaAcara := f.namaAcara, tanggal := f.tanggal, lokasi := f.lokasi, harga := f.harga,
       deskripsiSingkat := f.deskripsiSingkat, organizerId := uid)
  }

  /** A newly created event: the submitted fields, the submitter as
      organizer, and not published. */
  function NewEvent(f: Fields, uid: Id): Event
  {
    Event(f.namaAcara, f.tanggal, f.lokasi, f.harga, f.deskripsiSingkat, uid, false)
  }

  datatype SubmitStep = SubmitStep(store: Store, state: FormState, navigateTo: Option<string>)

  /** `handleSubmit`. `newId` is the id the store gives a created event,
      `writeOk` whether the write succeeds and `failMessage` the message of the
      error it throws otherwise. An edit of a missing document fails. */
  function HandleSubmit(
    s: Store, st: FormState, id: Option<string>, currentUser: Option<AuthUser>,
    newId: Id, writeOk: bool, failMessage: string): (r: SubmitStep)
    requires newId !in s.events
    ensures currentUser.None? ==>
              r == SubmitStep(s, st.(error := MustBeLoggedIn), None)
    ensures r.store.users == s.users && r.store.tickets == s.tickets
    ensures r.state.(error := st.error, formLoading := st.formLoading) == st
    ensures r.navigateTo.Some? ==> r.navigateTo.value == DashboardRoute && r.state.error == ""
    ensures r.navigateTo.None? ==> r.store == s
    ensures currentUser.Some? ==> !r.state.formLoading
    ensures currentUser.Some? && IsEditMode(id) ==>
              && (r.navigateTo.Some? <==> writeOk && id.value in s.events)
              && (r.navigateTo.Some? ==>
                    r.store.events == s.events[id.value := ApplyEdit(s.events[id.value], st.fields, currentUser.value.uid)])
    ensures currentUser.Some? && !IsEditMode(id) ==>
              && (r.navigateTo.Some? <==> writeOk)
              && (r.navigateTo.Some? ==> r.store.events == s.events[newId := NewEvent(st.fields, currentUser.value.uid)])
    ensures currentUser.Some? && r.navigateTo.None? ==> r.state.error == failMessage
  {
    match currentUser
    case None => SubmitStep(s, st.(error := MustBeLoggedIn), None)
    case Some(u) =>
      var failed := SubmitStep(s, st.(error := failMessage, formLoading := false), None);
      var saved := st.(error := "", formLoading := false);
      if IsEditMode(id) then
        if !writeOk || id.value !in s.events then failed
        else SubmitStep(s.(events := s.events[id.value := ApplyEdit(s.events[id.value], st.fields, u.uid)]),
                        saved, Some(DashboardRoute))
      else if !writeOk then failed
      else SubmitStep(s.(events := s.events[newId := NewEvent(st.fields, u.uid)]), saved, Some(DashboardRoute))
  }


  /** `handleSubmit` with the id the store picks for a created event: the id
      is one not yet taken, and a completed create stores exactly one new,
      unpublished event under it. */
  method SubmitWithFreshId(
    s: Store, st: FormState, id: Option<string>, currentUser: Option<AuthUser>,
    writeOk: bool, failMessage: string) returns (newId: Id, r: SubmitStep)
    ensures newId !in s.events
    ensures r == HandleSubmit(s, st, id, currentUser, newId, writeOk, failMessage)
    ensures currentUser.Some? && !IsEditMode(id) && writeOk ==>
              && r.store.events.Keys == s.events.Keys + {newId}
              && !r.store.events[newId].isPublished
              && r.store.events[newId].organizerId == currentUser.value.uid
              && (forall k :: k in s.events ==> r.store.events[k] == s.events[k])
  {
    newId := FreshId(s.events);
    r := HandleSubmit(s, st, id, currentUser, newId, writeOk, failMessage);
  }

  /** A created event is a draft owned by its creator, stored under a new id,
      and no existing event changes. */
  lemma CreateAddsDraft(s: Store, st: FormState, user: AuthUser, newId: Id)
    requires newId !in s.events
    ensures var r := HandleSubmit(s, st, None, Some(user), newId, true, "");
      && r.store.events.Keys == s.events.Keys + {newId}
      && !r.store.events[newId].isPublished
      && r.store.events[newId].organizerId == user.uid
      && forall k :: k in s.events ==> r.store.events[k] == s.events[k]
  {
  }

  /** An edit keeps the event's publish state, changes no other event, and
      writes the submitter as organizer. */
  lemma EditKeepsPublishState(s: Store, st: FormState, id: string, user: AuthUser, newId: Id)
    requires newId !in s.events && id != "" && id in s.events
    ensures var r := HandleSubmit(s, st, Some(id), Some(user), newId, true, "");
      && r.store.events.Keys == s.events.Keys
      && r.store.events[id].isPublished == s.events[id].isPublished
      && r.store.events[id].organizerId == user.uid
      && forall k :: k in s.events && k != id ==> r.store.events[k] == s.events[k]
  {
  }

  /** Loading an event and saving the form untouched gives back the same
      event, except that its time of day is cut to midnight UTC. */
  lemma LoadThenSaveKeepsOnlyTheDay(s: Store, id: string, user: AuthUser, newId: Id)
    requires newId !in s.events && id != "" && id in s.events
    requires s.events[id].organizerId == user.uid
    ensures var loaded := LoadForEdit(Initial(), Some(id), Some(user), s.events, true);
      var r := HandleSubmit(s, loaded, Some(id), Some(user), newId, true, "");
      r.store.events[id] == s.events[id].(tanggal := DayStart(s.events[id].tanggal))
  {
  }
}
