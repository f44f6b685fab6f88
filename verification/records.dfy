/** The records the client keeps in its three document collections, and the
    signed-in identity the authentication service hands it. Timestamps are
    whole seconds (`Timestamp.seconds`). */
module Records {
  import opened Common

  /** The two kinds of account: a participant (`peserta`) or an organizer
      (`panitia`). */
  datatype Role = Peserta | Panitia

  /** The identity the authentication service reports; its email may be null. */
  datatype AuthUser = AuthUser(uid: Id, email: Option<string>)

  /** A profile document in `users/{uid}`. */
  datatype AppUser = AppUser(uid: Id, email: Option<string>, namaLengkap: string, role: Role)

  /** An event document in `events`. `harga` is the price in rupiah. */
  datatype Event = Event(
    namaAcara: string,
    tanggal: int,
    lokasi: string,
    harga: int,
    deskripsiSingkat: string,
    organizerId: Id,
    isPublished: bool)

  /** A ticket document in `tickets`: which participant holds a ticket for
      which event, a snapshot of their name and email, a status (`paid`,
      `used`, or anything else the store holds) and the string the QR code
      encodes. */
  datatype Ticket = Ticket(
    eventId: Id,
    userId: Id,
    namaPeserta: string,
    emailPeserta: Option<string>,
    status: string,
    createdAt: int,
    qrCodeString: string)

  const PaidStatus := "paid"
  const UsedStatus := "used"

  /** The date an event document carries, in seconds: the key its lists sort by. */
  function EventDate(d: Doc<Event>): int
  {
    d.data.tanggal
  }

  predicate IsPublishedDoc(d: Doc<Event>)
  {
    d.data.isPublished
  }

  predicate IsDraftDoc(d: Doc<Event>)
  {
    !d.data.isPublished
  }

  /** Where a signed-in account is sent: organizers to their dashboard,
      everyone else to their tickets. */
  function LandingRoute(role: Role): string
  {
    if role == Panitia then DashboardRoute else MyTicketsRoute
  }
}
