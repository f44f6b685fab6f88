/** The event page a participant registers from. Three steps touch the ticket
    store: a check whether the participant already holds a ticket for the
    event, the insertion of a new `paid` ticket with an empty QR string, and a
    second write that sets the QR string to the new ticket's own id. */
module EventDetail {
  import opened Common
  import opened Records
  import opened Store

  datatype DetailState = DetailState(
    event: Option<Doc<Event>>,
    loading: bool,
    registering: bool,
    error: string,
    isAlreadyRegistered: bool,
    checkingRegistration: bool)

  /** The page's state when it mounts. */
  function Initial(): DetailState
  {
    DetailState(None, true, false, "", false, true)
  }

  const EventNotFound := "Event not found."
  const EventFetchFailed := "Failed to fetch event details."
  const RegistrationFailed := "Registration failed. Please try again."

  /** Loading the event named by the route parameter `id`. */
  function FetchEvent(st: DetailState, id: Option<string>, events: map<Id, Event>, readOk: bool): (r: DetailState)
    ensures !Present(id) ==> r == st
    ensures Present(id) ==> !r.loading && r.registering == st.registering
    ensures Present(id) ==> r.isAlreadyRegistered == st.isAlreadyRegistered
    ensures Present(id) ==> r.checkingRegistration == st.checkingRegistration
    ensures Present(id) && readOk && id.value in events ==>
              r.event == Some(Doc(id.value, events[id.value])) && r.error == st.error
    ensures Present(id) && readOk && id.value !in events ==>
              r.error == EventNotFound && r.event == st.event
    ensures Present(id) && !readOk ==> r.error == EventFetchFailed && r.event == st.event
  {
    if !Present(id) then st
    else if !readOk then st.(error := EventFetchFailed, loading := false)
    else if id.value in events then st.(event := Some(Doc(id.value, events[id.value])), loading := false)
    else st.(error := EventNotFound, loading := false)
  }

  /** The registration check queries the ticket store only for a signed-in
      participant on a page with an event id. */
  predicate ChecksRegistration(appUser: Option<AppUser>, currentUser: Option<AuthUser>, id: Option<string>)
  {
    appUser.Some? && appUser.value.role == Peserta && currentUser.Some? && Present(id)
  }

  /** The registration check. A failed query is only logged, so the flag keeps
      its previous value; either way the check ends. */
  function CheckRegistration(
    st: DetailState, appUser: Option<AppUser>, currentUser: Option<AuthUser>, id: Option<string>,
    tickets: map<Id, Ticket>, queryOk: bool): (r: DetailState)
    ensures !r.checkingRegistration
    ensures r.(checkingRegistration := st.checkingRegistration, isAlreadyRegistered := st.isAlreadyRegistered) == st
    ensures !ChecksRegistration(appUser, currentUser, id) || !queryOk ==>
              r.isAlreadyRegistered == st.isAlreadyRegistered
    ensures ChecksRegistration(appUser, currentUser, id) && queryOk ==>
              (r.isAlreadyRegistered <==> HasTicket(tickets, currentUser.value.uid, id.value))
  {
    if ChecksRegistration(appUser, currentUser, id) && queryOk then
      st.(isAlreadyRegistered := HasTicket(tickets, currentUser.value.uid, id.value), checkingRegistration := false)
    else
      st.(checkingRegistration := false)
  }

  /** The ticket the registration inserts, before its QR string is set. */
  function NewTicket(event: Doc<Event>, user: AuthUser, profile: AppUser, now: int): Ticket
  {
    Ticket(event.id, user.uid, profile.namaLengkap, profile.email, PaidStatus, now, "")
  }

  datatype RegisterStep = RegisterStep(store: Store, state: DetailState, navigateTo: Option<string>)

  /** `handleRegister`. `newId` is the id the store gives the inserted ticket;
      `addOk` and `updateOk` say whether the insertion and the QR update
      succeed. Nothing is written unless the profile, the identity and the
      event are all present. */
  function HandleRegister(
    s: Store, st: DetailState, appUser: Option<AppUser>, currentUser: Option<AuthUser>,
    now: int, newId: Id, addOk: bool, updateOk: bool): (r: RegisterStep)
    requires newId !in s.tickets
    ensures appUser.None? || currentUser.None? || st.event.None? ==>
              r == RegisterStep(s, st, None)
    ensures r.store.users == s.users && r.store.events == s.events
    ensures r.navigateTo.Some? ==> r.navigateTo.value == MyTicketsRoute
    ensures r.state.(registering := st.registering, error := st.error) == st
    ensures appUser.Some? && currentUser.Some? && st.event.Some? ==>
              var t := NewTicket(st.event.value, currentUser.value, appUser.value, now);
              && !r.state.registering
              && (!addOk ==> r.store == s)
              && (addOk && updateOk ==> r.store.tickets == s.tickets[newId := t.(qrCodeString := newId)])
              && (addOk && !updateOk ==> r.store.tickets == s.tickets[newId := t])
              && (addOk && updateOk <==> r.navigateTo == Some(MyTicketsRoute))
              && (r.state.error == if addOk && updateOk then "" else RegistrationFailed)
  {
    if appUser.None? || currentUser.None? || st.event.None? then RegisterStep(s, st, None)
    else
      var t := NewTicket(st.event.value, currentUser.value, appUser.value, now);
      var st' := st.(registering := false);
      if !addOk then RegisterStep(s, st'.(error := RegistrationFailed), None)
      else
        var inserted := s.(tickets := s.tickets[newId := t]);
        if !updateOk then RegisterStep(inserted, st'.(error := RegistrationFailed), None)
        else RegisterStep(inserted.(tickets := s.tickets[newId := t.(qrCodeString := newId)]),
                          st'.(error := ""), Some(MyTicketsRoute))
  }

  /** `handleRegister` with the id the store picks for the inserted ticket:
      the id is one not yet taken, and a completed registration stores
      exactly one ticket under it whose QR string is that id. */
  method RegisterWithFreshId(
    s: Store, st: DetailState, appUser: Option<AppUser>, currentUser: Option<AuthUser>,
    now: int, addOk: bool, updateOk: bool) returns (newId: Id, r: RegisterStep)
    ensures newId !in s.tickets
    ensures r == HandleRegister(s, st, appUser, currentUser, now, newId, addOk, updateOk)
    ensures appUser.Some? && currentUser.Some? && st.event.Some? && addOk ==>
              && r.store.tickets.Keys == s.tickets.Keys + {newId}
              && (updateOk <==> r.store.tickets[newId].qrCodeString == newId)
              && (forall k :: k in s.tickets ==> r.store.tickets[k] == s.tickets[k])
  {
    newId := FreshId(s.tickets);
    r := HandleRegister(s, st, appUser, currentUser, now, newId, addOk, updateOk);
  }

  /** A completed registration leaves exactly one new ticket: it belongs to
      the signed-in participant, is for the loaded event, is paid, and its QR
      string is its own id; every other ticket is as it was. */
  lemma RegisteredTicketCarriesOwnId(
    s: Store, st: DetailState, profile: AppUser, user: AuthUser, now: int, newId: Id)
    requires newId !in s.tickets && st.event.Some?
    ensures var r := HandleRegister(s, st, Some(profile), Some(user), now, newId, true, true);
      && r.store.tickets.Keys == s.tickets.Keys + {newId}
      && r.store.tickets[newId].qrCodeString == newId
      && r.store.tickets[newId].eventId == st.event.value.id
      && r.store.tickets[newId].userId == user.uid
      && r.store.tickets[newId].namaPeserta == profile.namaLengkap
      && r.store.tickets[newId].emailPeserta == profile.email
      && r.store.tickets[newId].status == PaidStatus
      && (forall k :: k in s.tickets ==> r.store.tickets[k] == s.tickets[k])
  {
  }

  /** If the QR update fails, the inserted ticket is not rolled back: it stays
      in the store with an empty QR string while the page reports failure. */
  lemma PartialFailureLeavesEmptyCode(
    s: Store, st: DetailState, profile: AppUser, user: AuthUser, now: int, newId: Id)
    requires newId !in s.tickets && st.event.Some?
    ensures var r := HandleRegister(s, st, Some(profile), Some(user), now, newId, true, false);
      && newId in r.store.tickets
      && r.store.tickets[newId].qrCodeString == ""
      && r.state.error == RegistrationFailed
      && r.navigateTo.None?
  {
  }

  const OnlyParticipantsMessage := "Only participants can register for events."
  const LoginToRegisterMessage := "Please login as a participant to register."

  /** What the page offers below the event description. */
  datatype Panel =
    | CheckingStatus
    | AlreadyRegisteredNotice
    | RegisterButton(enabled: bool)
    | NotParticipant(message: string)

  function RegisterPanel(st: DetailState, appUser: Option<AppUser>): (p: Panel)
    ensures p == RegisterButton(true) <==>
              && appUser.Some? && appUser.value.role == Peserta
              && !st.checkingRegistration && !st.isAlreadyRegistered && !st.registering
    ensures p.NotParticipant? <==> appUser.None? || appUser.value.role != Peserta
    ensures p == CheckingStatus <==> appUser.Some? && appUser.value.role == Peserta && st.checkingRegistration
    ensures p == AlreadyRegisteredNotice <==>
              && appUser.Some? && appUser.value.role == Peserta
              && !st.checkingRegistration && st.isAlreadyRegistered
    ensures p == RegisterButton(false) <==>
              && appUser.Some? && appUser.value.role == Peserta
              && !st.checkingRegistration && !st.isAlreadyRegistered && st.registering
    ensures p.NotParticipant? ==>
              p.message == (if appUser.Some? then OnlyParticipantsMessage else LoginToRegisterMessage)
  {
    if appUser.Some? && appUser.value.role == Peserta then
      if st.checkingRegistration then CheckingStatus
      else if st.isAlreadyRegistered then AlreadyRegisteredNotice
      else RegisterButton(!st.registering)
    else if appUser.Some? then NotParticipant(OnlyParticipantsMessage)
    else NotParticipant(LoginToRegisterMessage)
  }

  datatype DetailView =
    | Loading
    | ErrorText(message: string)
    | NotLoaded
    | Page(event: Doc<Event>, panel: Panel)

  /** What the page shows: the spinner first, then any error, and the event
      with its registration panel only when it has loaded without error. */
  function View(st: DetailState, appUser: Option<AppUser>): (v: DetailView)
    ensures v.Page? <==> !st.loading && st.error == "" && st.event.Some?
    ensures v == Loading <==> st.loading
    ensures v.ErrorText? <==> !st.loading && st.error != ""
    ensures v.ErrorText? ==> v.message == st.error
    ensures v.Page? ==> v.event == st.event.value && v.panel == RegisterPanel(st, appUser)
  {
    if st.loading then Loading
    else if st.error != "" then ErrorText(st.error)
    else if st.event.None? then NotLoaded
    else Page(st.event.value, RegisterPanel(st, appUser))
  }

  /** A route id with no event document puts "Event not found." on the page. */
  lemma MissingEventShowsNotFound(id: string, events: map<Id, Event>, appUser: Option<AppUser>)
    requires id != "" && id !in events
    ensures View(FetchEvent(Initial(), Some(id), events, true), appUser) == ErrorText(EventNotFound)
  {
  }

  /** The page state at which the register button can be pressed, reached by
      loading the event of route `id` and checking the participant's
      registration against the same store. */
  ghost predicate ReadyToRegister(s: Store, st: DetailState, profile: AppUser, user: AuthUser, id: Id)
  {
    var loaded := FetchEvent(Initial(), Some(id), s.events, true);
    && st == CheckRegistration(loaded, Some(profile), Some(user), Some(id), s.tickets, true)
    && st.event.Some?
    && View(st, Some(profile)) == Page(st.event.value, RegisterButton(true))
  }

  /** Used one step at a time, the check that gates the button keeps the ticket
      store at one ticket per participant and event: a registration that the
      checked page lets through adds the first ticket for that pair. */
  lemma GatedRegisterKeepsOneTicketPerPair(
    s: Store, st: DetailState, profile: AppUser, user: AuthUser, id: Id,
    now: int, newId: Id, addOk: bool, updateOk: bool)
    requires OneTicketPerPair(s.tickets)
    requires newId !in s.tickets
    requires ReadyToRegister(s, st, profile, user, id)
    ensures OneTicketPerPair(HandleRegister(s, st, Some(profile), Some(user), now, newId, addOk, updateOk).store.tickets)
  {
    var loaded := FetchEvent(Initial(), Some(id), s.events, true);
    assert ChecksRegistration(Some(profile), Some(user), Some(id));
    assert !HasTicket(s.tickets, user.uid, id);
    var r := HandleRegister(s, st, Some(profile), Some(user), now, newId, addOk, updateOk);
    var m := r.store.tickets;
    if st.event.Some? && addOk {
      assert st.event.value.id == id;
      forall a, b | a in m && b in m && a != b
        ensures m[a].userId != m[b].userId || m[a].eventId != m[b].eventId
      {
        if a == newId {
          assert b in s.tickets && m[b] == s.tickets[b];
        } else if b == newId {
          assert a in s.tickets && m[a] == s.tickets[a];
        } else {
          assert m[a] == s.tickets[a] && m[b] == s.tickets[b];
        }
      }
    }
  }

  /** Registering twice in sequence is caught by the second check: once a
      ticket has been inserted, checking again reports the participant as
      registered. */
  lemma RecheckSeesNewTicket(
    s: Store, st: DetailState, profile: AppUser, user: AuthUser, id: Id,
    now: int, newId: Id, updateOk: bool)
    requires newId !in s.tickets
    requires ReadyToRegister(s, st, profile, user, id)
    ensures var r := HandleRegister(s, st, Some(profile), Some(user), now, newId, true, updateOk);
      CheckRegistration(Initial(), Some(profile), Some(user), Some(id), r.store.tickets, true).isAlreadyRegistered
  {
    var r := HandleRegister(s, st, Some(profile), Some(user), now, newId, true, updateOk);
    assert r.store.tickets[newId].userId == user.uid && r.store.tickets[newId].eventId == id;
  }

  /** A failed registration check is only logged, and the flag keeps its
      initial `false`: a participant who already holds a ticket for the event
      is offered the enabled button, and registering adds a second ticket for
      the same pair, with no race involved. */
  lemma FailedCheckAdmitsDuplicate(
    s: Store, profile: AppUser, user: AuthUser, id: Id, now: int, newId: Id, updateOk: bool)
    requires profile.role == Peserta && id != "" && id in s.events
    requires HasTicket(s.tickets, user.uid, id)
    requires newId !in s.tickets
    ensures
      var st := CheckRegistration(FetchEvent(Initial(), Some(id), s.events, true),
                                  Some(profile), Some(user), Some(id), s.tickets, false);
      && st.event.Some?
      && View(st, Some(profile)) == Page(st.event.value, RegisterButton(true))
      && !OneTicketPerPair(HandleRegister(s, st, Some(profile), Some(user), now, newId, true, updateOk).store.tickets)
  {
    var st := CheckRegistration(FetchEvent(Initial(), Some(id), s.events, true),
                                Some(profile), Some(user), Some(id), s.tickets, false);
    var k :| k in s.tickets && s.tickets[k].userId == user.uid && s.tickets[k].eventId == id;
    var m := HandleRegister(s, st, Some(profile), Some(user), now, newId, true, updateOk).store.tickets;
    assert k in m && m[k] == s.tickets[k];
    assert m[newId].userId == user.uid && m[newId].eventId == id;
  }

  /** `handleRegister` itself checks nothing: two registrations issued from
      the same checked page, before either sees the other's write, leave two
      tickets for one participant and event. */
  lemma StaleCheckAdmitsDuplicate(
    s: Store, st: DetailState, profile: AppUser, user: AuthUser, id: Id,
    now1: int, now2: int, id1: Id, id2: Id)
    requires ReadyToRegister(s, st, profile, user, id)
    requires id1 !in s.tickets && id2 !in s.tickets && id1 != id2
    ensures var r1 := HandleRegister(s, st, Some(profile), Some(user), now1, id1, true, true);
      var r2 := HandleRegister(r1.store, st, Some(profile), Some(user), now2, id2, true, true);
      !OneTicketPerPair(r2.store.tickets)
  {
    var r1 := HandleRegister(s, st, Some(profile), Some(user), now1, id1, true, true);
    var r2 := HandleRegister(r1.store, st, Some(profile), Some(user), now2, id2, true, true);
    var m := r2.store.tickets;
    assert m[id1].userId == m[id2].userId && m[id1].eventId == m[id2].eventId;
  }
}
