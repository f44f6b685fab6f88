/** Whole flows across pages, each stated over an arbitrary starting store. */
module Scenario {
  import opened Common
  import opened Records
  import opened Store
  import AuthContext
  import ProtectedRoute
  import EventDetail
  import EventForm
  import OrganizerDashboard
  import Login
  import Register

  /** An organizer creates an event (a draft) and publishes it; a participant
      registers and receives a ticket whose QR string is its own id; checking
      again shows them as registered; the organizer deletes the event, and the
      ticket stays behind, still naming the deleted event. */
  lemma EventLifecycle(
    s0: Store, organizer: AuthUser, fields: EventForm.Fields, eventId: string,
    profile: AppUser, participant: AuthUser, now: int, ticketId: Id)
    requires eventId != "" && eventId !in s0.events && ticketId !in s0.tickets
    requires profile.role == Peserta
    requires !HasTicket(s0.tickets, participant.uid, eventId)
    ensures
      var created := EventForm.HandleSubmit(s0, EventForm.Initial(), None, Some(organizer), eventId, true, "").store;
      var published := OrganizerDashboard.HandlePublishToggle(created, eventId, true, false, true).store;
      var page := EventDetail.CheckRegistration(
        EventDetail.FetchEvent(EventDetail.Initial(), Some(eventId), published.events, true),
        Some(profile), Some(participant), Some(eventId), published.tickets, true);
      var registered := EventDetail.HandleRegister(published, page, Some(profile), Some(participant), now, ticketId, true, true).store;
      var again := EventDetail.CheckRegistration(
        EventDetail.FetchEvent(EventDetail.Initial(), Some(eventId), registered.events, true),
        Some(profile), Some(participant), Some(eventId), registered.tickets, true);
      var deleted := OrganizerDashboard.HandleDelete(registered, eventId, true, true).store;
      && !created.events[eventId].isPublished
      && published.events[eventId].isPublished
      && EventDetail.View(page, Some(profile)) == EventDetail.Page(Doc(eventId, published.events[eventId]), EventDetail.RegisterButton(true))
      && registered.tickets[ticketId].qrCodeString == ticketId
      && EventDetail.RegisterPanel(again, Some(profile)) == EventDetail.AlreadyRegisteredNotice
      && eventId !in deleted.events
      && ticketId in deleted.tickets && deleted.tickets[ticketId].eventId == eventId
  {
    var created := EventForm.HandleSubmit(s0, EventForm.Initial(), None, Some(organizer), eventId, true, "").store;
    EventForm.CreateAddsDraft(s0, EventForm.Initial(), organizer, eventId);
    var published := OrganizerDashboard.HandlePublishToggle(created, eventId, true, false, true).store;
    assert published.tickets == s0.tickets;
    var loaded := EventDetail.FetchEvent(EventDetail.Initial(), Some(eventId), published.events, true);
    var page := EventDetail.CheckRegistration(loaded, Some(profile), Some(participant), Some(eventId), published.tickets, true);
    assert !page.isAlreadyRegistered;
    var registered := EventDetail.HandleRegister(published, page, Some(profile), Some(participant), now, ticketId, true, true).store;
    EventDetail.RegisteredTicketCarriesOwnId(published, page, profile, participant, now, ticketId);
    assert registered.tickets[ticketId].userId == participant.uid;
    assert HasTicket(registered.tickets, participant.uid, eventId);
  }

  /** A participant or organizer who has just signed up is, once the session
      reads the stored profile, admitted by a route that allows their role and
      sent by the sign-in page to the page for that role. */
  lemma SignUpThenSession(s: Store, form: Register.RegisterForm, user: AuthUser, prior: AuthContext.AuthState)
    ensures
      var stored := Register.Submit(s, form, Register.SignedUp(Some(user)), None).store;
      var session := AuthContext.OnAuthStateChanged(prior, Some(user), stored.users, true);
      && session.appUser == Some(Register.Profile(user, form))
      && ProtectedRoute.Decide(session.loading, session.appUser, [form.role]) == ProtectedRoute.Outlet
      && Login.Redirect(session.appUser) == Some(LandingRoute(form.role))
  {
  }
}
