# Tixly ticketing client, modelled in Dafny

Tixly is an event-ticketing web client. Organizers (`panitia`) create events, publish them and delete them. Participants (`peserta`) browse published events, register for them and receive a ticket whose QR code encodes the ticket's own id. All state lives in a remote document store with three collections: `users`, `events` and `tickets`.

This project models the client's decision and data logic over an abstract store:

- `Store.Store` holds one map per collection, from document id to record.
- A query runs over a snapshot. A snapshot is a sequence of documents that `Store.IsSnapshotOf` relates to a map.
- `add` stores a record under an id that is not yet taken. `Store.FreshId` picks such an id. `EventDetail.RegisterWithFreshId` and `EventForm.SubmitWithFreshId` run the two handlers that add documents with it.
- Each page handler is a pure function from the store, the page state and its inputs to the new store, the new page state and any navigation.
- Network failures, `window.confirm` and the current time are boolean or integer inputs.

Modules follow the source files:

- `ProtectedRoute`: the route guard.
- `AuthContext`: the session state fed by auth-state callbacks.
- `EventDetail`: the registration check, the two-write ticket issuance and the button gating.
- `OrganizerDashboard`: the organizer's list, its published/draft split, publish toggling and deletion.
- `EventForm`: loading for edit with the ownership check, then create or edit.
- `EventsList`: the public list of published events.
- `MyTickets`: the participant's tickets joined with their events, plus the ticket card's display and download helpers.
- `EventAttendees`: the attendee list and status badges.
- `Login` and `Register`: error-code messages, the profile write and the role-based landing pages.

`Seqs` holds the order-preserving filter and the stable sort that `Array.prototype.sort` performs. `Scenario` states flows that cross pages.

Two behaviours of the code are worth knowing, and the model states them as proved facts:

- `handleRegister` does not check for an existing ticket. The one-ticket-per-participant-and-event rule holds only when the gated page is used one step at a time and its registration check query succeeded (`EventDetail.GatedRegisterKeepsOneTicketPerPair`). A failed check is only logged and leaves the flag at its initial `false`. So a participant who already holds a ticket is offered the button, and registering again adds a second one (`EventDetail.FailedCheckAdmitsDuplicate`). Two registrations made from the same stale check create a duplicate (`EventDetail.StaleCheckAdmitsDuplicate`).
- The edit form checks ownership only when it loads. A submitted edit writes the submitter's uid as `organizerId`, whoever owned the event before (`EventForm.EditKeepsPublishState`). Whether the store's access rules stop such a write is not part of this model.

## Model

| member | source | states |
|---|---|---|
| ProtectedRoute.Decide | components/ProtectedRoute.tsx:12-31 | While loading, the guard shows the spinner and never redirects. It renders the route iff it is not loading, a profile exists and its role is allowed. Otherwise it redirects to `/login` with `replace`. |
| ProtectedRoute.SignedOutAndWrongRoleLookAlike | components/ProtectedRoute.tsx:24-28 | "No profile" and "role not allowed" give the identical redirect. |
| ProtectedRoute.MoreRolesNeverRevoke | components/ProtectedRoute.tsx:24 | Allowing more roles never turns a rendered route into a redirect. |
| AuthContext.OnAuthStateChanged | contexts/AuthContext.tsx:22-37 | After a callback, `currentUser` is the user it received. A null user gives no profile. A user with a profile document gets exactly that document, and one without gets none. `loading` ends false unless the profile read fails, in which case it is left as it was. |
| AuthContext.LoadingClearsOnlyByCallback | contexts/AuthContext.tsx:19-36 | Starting from `loading = true`, after any sequence of callbacks `loading` is false iff some callback ran to its end. |
| AuthContext.ChildrenWaitForCallback | contexts/AuthContext.tsx:48-58 | The application is not rendered while loading: not before the first callback, and not until some callback has completed. |
| AuthContext.CurrentUserIsLatest | contexts/AuthContext.tsx:22-23 | After any non-empty sequence of callbacks, `currentUser` is the last callback's user. |
| AuthContext.UseAuth | contexts/AuthContext.tsx:61-67 | Outside a provider `useAuth` throws its fixed message. Inside one it returns the context value. |
| EventDetail.FetchEvent | pages/EventDetail.tsx:26-45 | With no route id nothing changes. A missing document sets "Event not found." and a failed read sets the fetch error. An existing document is loaded under the route id. Either way loading ends. |
| EventDetail.MissingEventShowsNotFound | pages/EventDetail.tsx:32-36 | A route id with no event document makes the page show "Event not found.". |
| EventDetail.CheckRegistration | pages/EventDetail.tsx:47-69 | The store is queried only for a participant with an identity and a route id. The answer is true iff some ticket has that user id and event id. A failed query keeps the old flag. The check always ends, and no other state changes. |
| EventDetail.HandleRegister | pages/EventDetail.tsx:72-102 | Without a profile, an identity or an event, nothing happens. Otherwise a failed insert leaves the store unchanged. A failed QR update leaves the inserted ticket with an empty QR string. Full success stores the ticket with its QR string set to its id. Users and events never change. The page navigates to `/my-tickets` iff both writes succeed, and nowhere else. Otherwise it shows the failure message. No page field other than `registering` and `error` changes. |
| EventDetail.RegisteredTicketCarriesOwnId | pages/EventDetail.tsx:77-91 | A completed registration adds exactly one ticket. It has the event's id, the participant's uid, name and email, status `paid`, and a QR string equal to its own id. Every other ticket is unchanged. |
| EventDetail.PartialFailureLeavesEmptyCode | pages/EventDetail.tsx:88-98 | If the second write fails, the ticket persists with an empty QR string and the error is "Registration failed. Please try again.". |
| EventDetail.RegisterPanel | pages/EventDetail.tsx:129-164 | The register button is enabled iff the user is a participant, the check has finished, they are not registered and no registration is running. Non-participants get a message instead. A signed-in non-participant sees "Only participants can register for events.", and a visitor sees "Please login as a participant to register." |
| EventDetail.View | pages/EventDetail.tsx:104-106 | The page shows the event iff loading is over, there is no error and the event is loaded. Any error shows once loading is over. |
| EventDetail.GatedRegisterKeepsOneTicketPerPair | pages/EventDetail.tsx:129-157 | Suppose the page reached its enabled register button by loading the event and checking the same store. Then a registration keeps the store at one ticket per (participant, event). |
| EventDetail.RecheckSeesNewTicket | pages/EventDetail.tsx:49-57 | Once a registration has inserted its ticket, checking again reports the participant as registered. |
| EventDetail.FailedCheckAdmitsDuplicate | pages/EventDetail.tsx:18-61 | The participant already holds a ticket for the event, and the registration check query fails. The page still shows the enabled register button, and registering adds a second ticket for the same participant and event. |
| EventDetail.StaleCheckAdmitsDuplicate | pages/EventDetail.tsx:72-91 | Two registrations issued from the same checked page state produce two tickets for one participant and event. |
| OrganizerDashboard.FetchEvents | pages/OrganizerDashboard.tsx:64-81 | With no user nothing changes. Otherwise the list holds exactly the snapshot's events whose `organizerId` is the uid. It is a permutation of that query result, sorted by date, latest first. A failed read keeps the old list. |
| OrganizerDashboard.FetchEventsListsOwnEvents | pages/OrganizerDashboard.tsx:69-75 | Against the store, a document is listed iff it is stored with that data and owned by the uid. The list is in descending date order. |
| OrganizerDashboard.FetchEventsIsStable | pages/OrganizerDashboard.tsx:73 | Events with the same date keep the order of the query result. |
| OrganizerDashboard.PartitionSplitsByFlag | pages/OrganizerDashboard.tsx:87-96 | The `reduce` gives the order-preserving filters by `isPublished` and by its negation. Each event lands in exactly the part its flag names, and together the parts are a permutation of the list. |
| OrganizerDashboard.TablesToggleToTheOtherState | pages/OrganizerDashboard.tsx:14-47 | A table takes its kind from its first row. The published table's toggle unpublishes (`false`). The drafts table's toggle publishes (`true`), including when it is empty. |
| OrganizerDashboard.HandlePublishToggle | pages/OrganizerDashboard.tsx:111-125 | Unpublishing without confirmation leaves the store unchanged. Publishing needs no confirmation. A successful toggle changes only `isPublished` of the target event. A failed write or a missing event changes nothing and reports a failure, never a cancellation. |
| OrganizerDashboard.HandleDelete | pages/OrganizerDashboard.tsx:98-109 | Deletion happens only after confirmation and removes only that event. Users and tickets, including tickets for that event, are untouched. A confirmed delete whose write fails reports a failure. |
| OrganizerDashboard.ToggledEventMovesTable | pages/OrganizerDashboard.tsx:118-120 | After a successful toggle and the refresh it triggers, the event appears in the table its new status names. |
| EventForm.LoadForEdit | pages/EventForm.tsx:26-55 | Loading happens only in edit mode with a user. Another organizer's event sets "You are not authorized to edit this event." and fills no field. A missing event sets "Event not found.". The owner's event fills the fields. Loading ends in every case. |
| EventForm.DayStart | pages/EventForm.tsx:39-40 | The date shown for editing is the UTC day: a multiple of a day, at most the event's time and less than a day before it. |
| EventForm.HandleSubmit | pages/EventForm.tsx:57-94 | With no user it sets the login error and writes nothing. In edit mode it updates the named event with the listed fields and the submitter as organizer. In create mode it adds a new unpublished event. It goes to the dashboard iff the write succeeds. Users and tickets never change. No page field other than `error` and `formLoading` changes. |
| EventForm.CreateAddsDraft | pages/EventForm.tsx:80-82 | Create adds one new event, unpublished and owned by the submitter, and leaves every existing event unchanged. |
| EventForm.EditKeepsPublishState | pages/EventForm.tsx:68-78 | Edit keeps the event's `isPublished`, sets `organizerId` to the submitter and changes no other event. |
| EventForm.LoadThenSaveKeepsOnlyTheDay | pages/EventForm.tsx:38-78 | Loading an owned event and saving the form untouched gives back the same event, except that its date is cut to midnight UTC. |
| EventsList.FetchPublished | pages/EventsList.tsx:48-69 | After a successful read, the list is a permutation of the snapshot's published events, sorted by date, earliest first. Loading ends, and a failed read keeps the list. |
| EventsList.ListsPublishedOfSnapshot | pages/EventsList.tsx:51-52 | After a successful read, an event is listed iff it is in the snapshot and published. |
| EventsList.FetchPublishedIsStable | pages/EventsList.tsx:56 | Events with the same date keep the order of the query result. |
| EventsList.ListsExactlyPublished | pages/EventsList.tsx:51-58 | Against the store, a document is listed iff it is stored with that data and published. |
| EventsList.FailedReadShowsNothing | pages/EventsList.tsx:59-65 | A failed read ends loading with an empty list. |
| MyTickets.Join | pages/MyTickets.tsx:116-125 | The join keeps every ticket in place. It attaches an event exactly when the event document exists, and then that document's data. |
| MyTickets.FetchTickets | pages/MyTickets.tsx:107-137 | With no user nothing changes, so loading stays true. Otherwise the list is a permutation of the joined tickets whose `userId` is the uid, sorted by creation time, newest first. |
| MyTickets.ListedTicketsAreOwnAndJoined | pages/MyTickets.tsx:111-125 | Every listed ticket is stored with that data, belongs to the user, and has its event attached iff the event exists. |
| MyTickets.HeldTicketsAreListed | pages/MyTickets.tsx:111-125 | Every stored ticket of the user is listed, joined to its event document when that exists. |
| MyTickets.FetchTicketsIsStable | pages/MyTickets.tsx:127 | Tickets with the same creation time keep the order of the joined query result. |
| MyTickets.ReplaceSpaceRuns | pages/MyTickets.tsx:37 | Replacing `\s+` runs with `_` leaves no whitespace and never lengthens the name. |
| MyTickets.ReplaceSpaceRunsKeepsPlainNames | pages/MyTickets.tsx:37 | A name without whitespace is unchanged. |
| MyTickets.ReplaceSpaceRunsIdempotent | pages/MyTickets.tsx:37 | Replacing twice equals replacing once. |
| MyTickets.ReplaceSpaceRunsKeepsOtherChars | pages/MyTickets.tsx:37 | All characters other than whitespace and `_` survive, in order. |
| MyTickets.ReplaceSpaceRunsCountsRuns | pages/MyTickets.tsx:37 | The number of `_` grows by exactly the number of whitespace runs. |
| MyTickets.DownloadName | pages/MyTickets.tsx:37 | The file name is `Tixly-Ticket-`, then the event name with its whitespace runs replaced, then `.png`. A missing event gives `Tixly-Ticket-undefined.png`. |
| MyTickets.PaddedCanvas | pages/MyTickets.tsx:19-22 | The padded canvas is 40 larger in each dimension and leaves a 20-pixel margin on every side of the QR code. |
| MyTickets.ShortId | pages/MyTickets.tsx:69 | The shown id is the first `min(10, length)` characters of the id followed by `...`. |
| MyTickets.StatusLabel | pages/MyTickets.tsx:73 | The status is shown upper-cased, character by character, with no lower-case letter left. |
| MyTickets.PaidLabel | pages/MyTickets.tsx:73 | A paid ticket's status shows as `PAID`. |
| MyTickets.CardTone | pages/MyTickets.tsx:73 | The card's status is green iff it is `paid`. |
| EventAttendees.FetchAttendees | pages/EventAttendees.tsx:19-44 | With no event id nothing changes, so loading stays true. A missing event is simply not set. The attendees are the snapshot's tickets for that event id, in snapshot order. A failed read keeps the old list. |
| EventAttendees.ListsEveryTicketOfTheEvent | pages/EventAttendees.tsx:25-34 | Against the store, the attendees are exactly the stored tickets of the event, whether or not the event document exists. |
| EventAttendees.Heading | pages/EventAttendees.tsx:61 | The heading is the event name, or `Event` when the event is missing or its name is empty. |
| EventAttendees.StatusBadge | pages/EventAttendees.tsx:80-84 | `paid` is green, `used` is red and every other status is yellow. |
| Login.ErrorMessage | pages/Login.tsx:23 | `auth/invalid-credential` gets its own message. Every other code gets the generic retry message. |
| Login.Submit | pages/Login.tsx:15-26 | A failed sign-in clears the busy flag and shows the mapped message. A successful one keeps the flag set with no error. Neither depends on the earlier page state. |
| Login.Redirect | pages/Login.tsx:28-36 | With no profile there is no navigation. Organizers go to `/panitia/dashboard` and everyone else to `/my-tickets`. |
| Register.ErrorMessage | pages/Register.tsx:41 | `auth/email-already-in-use` gets "This email is already registered.". Every other code gets the generic message. |
| Register.Submit | pages/Register.tsx:16-45 | A failed sign-up or profile write shows the mapped message and neither writes nor navigates. A null user navigates without writing. Otherwise the profile is written and the account goes to its role's page. |
| Register.SignUpWritesProfile | pages/Register.tsx:24-38 | The stored profile is exactly (uid, the account's email, the typed name, the chosen role). No other profile changes. Organizers land on the dashboard and others on the ticket list. |
| Register.DefaultSignUpIsParticipant | pages/Register.tsx:11 | Left at its default role, the form signs up a `peserta`, who lands on `/my-tickets`. |
| Seqs.SortBy | pages/OrganizerDashboard.tsx:73 | The sort returns a permutation of its input, ordered by the key, ascending or descending. |
| Seqs.SortByIsStable | pages/EventsList.tsx:56 | Elements with equal keys keep their input order, as the stable `Array.prototype.sort` does. |
| Store.WhereSelectsMatching | pages/OrganizerDashboard.tsx:69-71 | An equality query over a snapshot returns exactly the collection's documents that satisfy the filter. |
| Seqs.Filter | pages/EventsList.tsx:52 | The filter keeps exactly the elements that satisfy the predicate, never adds any, and never makes the list longer. |
| Store.FreshId | pages/EventDetail.tsx:88 | The id chosen for a new document is non-empty and not already taken in the collection. |
| EventDetail.RegisterWithFreshId | pages/EventDetail.tsx:87-91 | The ticket is added under an id not yet taken. A completed insert adds exactly that one key and changes no other ticket. The ticket's QR string equals that id iff the update succeeded. |
| EventForm.SubmitWithFreshId | pages/EventForm.tsx:80-82 | A created event is added under an id not yet taken. A successful create adds exactly that one key, unpublished and owned by the submitter, and changes no other event. |
| Scenario.EventLifecycle | pages/OrganizerDashboard.tsx:98-103 | Take a new event through create, publish, register, re-check and delete. The event is created as a draft and then published. The ticket's QR string is its id. The second check reports "already registered". After deletion the ticket remains and still names the deleted event. |
| Scenario.SignUpThenSession | contexts/AuthContext.tsx:24-29 | After sign-up and the session's profile read, a route allowing the role renders. The sign-in page sends the account to its role's page. |

## Left out

- Firebase Authentication and Firestore calls are not modelled as network operations. The store is three maps, and a failure is a boolean input. Query result order is whatever order the snapshot has, and the store's access rules are not part of this model.
- Concurrency is not modelled. Async callbacks and writes run one after the other. The check-then-create race is shown only as two registrations from one stale page state.
- Intermediate UI states that exist only during an `await` are not modelled, such as `registering = true` or the session after `setCurrentUser` but before the profile read. Each handler is one step from its start to its end.
- React rendering, JSX, styling, icons and `components/Layout.tsx` are not modelled, because they are presentation only.
- QR code generation, canvas drawing, PNG encoding and the DOM download link come from foreign libraries and browser APIs. Only the file name and the padding arithmetic are modelled.
- Date handling is not modelled: parsing, `toDate`, `toISOString` and locale formatting. Timestamps are integer seconds. The edit form's date is the UTC midnight of the day, which is what the ISO date string it shows and parses back denotes.
- The empty initial date and price inputs are not modelled, because the browser's `required` and `min="0"` checks stop them before submission. `Number(harga)` is an integer.
- `window.confirm` is a boolean input and `alert` is dropped.
- The refresh after a toggle or delete is `OrganizerDashboard.FetchEvents` called again. The outcome `Done` marks when the page does this.
- The sort comparators subtract double-precision numbers. Seconds are unbounded integers here, which agrees for every realistic timestamp.
- `MyTickets.FetchTickets` folds the ticket query and all per-ticket event reads of `Promise.all` into one `readOk` flag. Any one failure fails the whole fetch.
- MyTickets.StatusLabel: only ASCII letters are upper-cased. `toUpperCase` also maps other Unicode letters, sometimes to longer strings. The statuses the client writes are ASCII.
- MyTickets.ShortId: `substring(0, 10)` counts UTF-16 code units, while the model counts characters. They agree on the ids the store issues, which are alphanumeric ASCII.
- MyTickets.PaddedCanvas: canvas dimensions are unbounded naturals. The DOM's 32-bit `unsigned long` wrap-around is not modelled.
- The subscription lifecycle of `onAuthStateChanged` (subscribe on mount, unsubscribe on unmount) is not modelled. Only the callback's effect is.
