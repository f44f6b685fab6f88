/** The participant's ticket list: their tickets, each joined with its event
    when that still exists, newest first; and the small transforms the ticket
    card applies for display and for the downloaded image. */
module MyTickets {
  import opened Common
  import opened Records
  import opened Store
  import opened Seqs

  /** A listed ticket: its id, its data and its event, absent when the event
      document no longer exists. */
  datatype TicketView = TicketView(id: Id, ticket: Ticket, event: Option<Event>)

  datatype TicketsState = TicketsState(tickets: seq<TicketView>, loading: bool)

  function Initial(): TicketsState
  {
    TicketsState([], true)
  }

  /** The equality filter `userId == uid`. */
  function HeldBy(uid: Id): Doc<Ticket> -> bool
  {
    (d: Doc<Ticket>) => d.data.userId == uid
  }

  /** Attach to every ticket the event it refers to, when that exists. */
  function Join(docs: seq<Doc<Ticket>>, events: map<Id, Event>): (r: seq<TicketView>)
    ensures |r| == |docs|
    ensures forall i :: 0 <= i < |docs| ==>
              r[i].id == docs[i].id && r[i].ticket == docs[i].data
    ensures forall i :: 0 <= i < |docs| ==>
              (r[i].event.Some? <==> docs[i].data.eventId in events)
              && (r[i].event.Some? ==> r[i].event.value == events[docs[i].data.eventId])
  {
    if docs == [] then []
    else [TicketView(docs[0].id, docs[0].data, Get(events, docs[0].data.eventId))] + Join(docs[1..], events)
  }

  /** The sort key: when the ticket was created, in seconds. */
  function CreatedAt(v: TicketView): int
  {
    v.ticket.createdAt
  }

  /** `fetchTickets` over `snapshot`, the tickets collection as the store
      returns it. Without a signed-in user the early return skips the
      `finally`, so the spinner stays. A failed read keeps the previous list. */
  function FetchTickets(
    st: TicketsState, currentUser: Option<AuthUser>, snapshot: seq<Doc<Ticket>>,
    events: map<Id, Event>, readOk: bool): (r: TicketsState)
    ensures currentUser.None? ==> r == st
    ensures currentUser.Some? ==> !r.loading
    ensures currentUser.Some? && !readOk ==> r.tickets == st.tickets
    ensures currentUser.Some? && readOk ==>
              var held := Filter(snapshot, HeldBy(currentUser.value.uid));
              && Sorted(r.tickets, CreatedAt, true)
              && multiset(r.tickets) == multiset(Join(held, events))
              && |r.tickets| == |held|
  {
    match currentUser
    case None => st
    case Some(u) =>
      if !readOk then st.(loading := false)
      else TicketsState(SortBy(Join(Filter(snapshot, HeldBy(u.uid)), events), CreatedAt, true), false)
  }

  /** Every listed ticket is one of the user's own, carries its stored data,
      and has its event attached exactly when the event document exists. */
  lemma ListedTicketsAreOwnAndJoined(
    s: Store, snapshot: seq<Doc<Ticket>>, user: AuthUser, v: TicketView)
    requires IsSnapshotOf(snapshot, s.tickets)
    requires v in FetchTickets(Initial(), Some(user), snapshot, s.events, true).tickets
    ensures v.id in s.tickets && s.tickets[v.id] == v.ticket
    ensures v.ticket.userId == user.uid
    ensures v.event == Get(s.events, v.ticket.eventId)
  {
    var held := Filter(snapshot, HeldBy(user.uid));
    var joined := Join(held, s.events);
    SameElements(FetchTickets(Initial(), Some(user), snapshot, s.events, true).tickets, joined);
    var i :| 0 <= i < |joined| && joined[i] == v;
    assert held[i] in held;
    WhereSelectsMatching(snapshot, s.tickets, HeldBy(user.uid));
  }

  /** Conversely, every stored ticket of the user is listed, joined to its
      event when the event document exists. */
  lemma HeldTicketsAreListed(s: Store, snapshot: seq<Doc<Ticket>>, user: AuthUser, k: Id)
    requires IsSnapshotOf(snapshot, s.tickets)
    requires k in s.tickets && s.tickets[k].userId == user.uid
    ensures TicketView(k, s.tickets[k], Get(s.events, s.tickets[k].eventId))
              in FetchTickets(Initial(), Some(user), snapshot, s.events, true).tickets
  {
    var held := Filter(snapshot, HeldBy(user.uid));
    var joined := Join(held, s.events);
    WhereSelectsMatching(snapshot, s.tickets, HeldBy(user.uid));
    var d := Doc(k, s.tickets[k]);
    assert d in held;
    var i :| 0 <= i < |held| && held[i] == d;
    assert joined[i] == TicketView(k, s.tickets[k], Get(s.events, s.tickets[k].eventId));
    assert joined[i] in joined;
    SameElements(FetchTickets(Initial(), Some(user), snapshot, s.events, true).tickets, joined);
  }

  /** Tickets created at the same second keep the order the store returned
      them in. */
  lemma FetchTicketsIsStable(st: TicketsState, user: AuthUser, snapshot: seq<Doc<Ticket>>, events: map<Id, Event>, t: int)
    ensures WithKey(FetchTickets(st, Some(user), snapshot, events, true).tickets, CreatedAt, t)
            == WithKey(Join(Filter(snapshot, HeldBy(user.uid)), events), CreatedAt, t)
  {
    SortByIsStable(Join(Filter(snapshot, HeldBy(user.uid)), events), CreatedAt, true, t);
  }

  // ---------------------------------------------------------------------
  // The ticket card

  /** Characters JavaScript's `\s` matches: the ASCII blanks, the no-break
      space, the Unicode space separators, the line and paragraph separators
      and the byte-order mark. */
  predicate IsSpace(c: char)
  {
    var n := c as int;
    || (9 <= n <= 13) || n == 32 || n == 0xA0 || n == 0x1680
    || (0x2000 <= n <= 0x200A) || n == 0x2028 || n == 0x2029
    || n == 0x202F || n == 0x205F || n == 0x3000 || n == 0xFEFF
  }

  /** `s` without its leading run of whitespace. */
  function SkipSpaces(s: string): (r: string)
    ensures |r| <= |s| && r == s[|s| - |r|..]
    ensures r != [] ==> !IsSpace(r[0])
    ensures forall i :: 0 <= i < |s| - |r| ==> IsSpace(s[i])
  {
    if s != [] && IsSpace(s[0]) then SkipSpaces(s[1..]) else s
  }

  /** `s.replace(/\s+/g, '_')`: every maximal run of whitespace becomes one
      underscore. */
  function ReplaceSpaceRuns(s: string): (r: string)
    ensures forall i :: 0 <= i < |r| ==> !IsSpace(r[i])
    ensures |r| <= |s|
    decreases |s|
  {
    if s == [] then []
    else if IsSpace(s[0]) then "_" + ReplaceSpaceRuns(SkipSpaces(s[1..]))
    else [s[0]] + ReplaceSpaceRuns(s[1..])
  }

  /** A name without whitespace is kept as it is. */
  lemma {:induction false} ReplaceSpaceRunsKeepsPlainNames(s: string)
    requires forall i :: 0 <= i < |s| ==> !IsSpace(s[i])
    ensures ReplaceSpaceRuns(s) == s
    decreases |s|
  {
    if s != [] {
      ReplaceSpaceRunsKeepsPlainNames(s[1..]);
    }
  }

  /** Replacing twice is replacing once. */
  lemma ReplaceSpaceRunsIdempotent(s: string)
    ensures ReplaceSpaceRuns(ReplaceSpaceRuns(s)) == ReplaceSpaceRuns(s)
  {
    ReplaceSpaceRunsKeepsPlainNames(ReplaceSpaceRuns(s));
  }

  /** The characters a replacement neither adds nor removes. */
  predicate Kept(c: char)
  {
    !IsSpace(c) && c != '_'
  }

  lemma {:induction false} SkipSpacesKeepsNothing(s: string)
    ensures Filter(s, Kept) == Filter(SkipSpaces(s), Kept)
    decreases |s|
  {
    if s != [] && IsSpace(s[0]) {
      FilterHead(s, Kept);
      SkipSpacesKeepsNothing(s[1..]);
    }
  }

  /** Every other character of the name survives, in order. */
  lemma {:induction false} ReplaceSpaceRunsKeepsOtherChars(s: string)
    ensures Filter(ReplaceSpaceRuns(s), Kept) == Filter(s, Kept)
    decreases |s|
  {
    if s != [] {
      var r := ReplaceSpaceRuns(s);
      FilterHead(s, Kept);
      FilterHead(r, Kept);
      if IsSpace(s[0]) {
        var rest := SkipSpaces(s[1..]);
        assert r[1..] == ReplaceSpaceRuns(rest);
        ReplaceSpaceRunsKeepsOtherChars(rest);
        SkipSpacesKeepsNothing(s[1..]);
      } else {
        assert r[1..] == ReplaceSpaceRuns(s[1..]);
        ReplaceSpaceRunsKeepsOtherChars(s[1..]);
      }
    }
  }

  /** How many runs of whitespace `s` holds, counted by scanning for a
      whitespace character whose predecessor is not one (`afterSpace` says
      whether the character before `s` was whitespace). */
  function RunStarts(s: string, afterSpace: bool): nat
  {
    if s == [] then 0
    else (if IsSpace(s[0]) && !afterSpace then 1 else 0) + RunStarts(s[1..], IsSpace(s[0]))
  }

  function Underscores(s: string): nat
  {
    if s == [] then 0 else (if s[0] == '_' then 1 else 0) + Underscores(s[1..])
  }

  lemma {:induction false} SkipSpacesRunStarts(s: string)
    ensures RunStarts(s, true) == RunStarts(SkipSpaces(s), true)
    ensures RunStarts(SkipSpaces(s), true) == RunStarts(SkipSpaces(s), false)
    ensures Underscores(s) == Underscores(SkipSpaces(s))
    decreases |s|
  {
    if s != [] && IsSpace(s[0]) {
      SkipSpacesRunStarts(s[1..]);
    }
  }

  /** Each whitespace run turns into exactly one new underscore. */
  lemma {:induction false} ReplaceSpaceRunsCountsRuns(s: string)
    ensures Underscores(ReplaceSpaceRuns(s)) == Underscores(s) + RunStarts(s, false)
    decreases |s|
  {
    if s != [] {
      var r := ReplaceSpaceRuns(s);
      if IsSpace(s[0]) {
        var rest := SkipSpaces(s[1..]);
        assert r[1..] == ReplaceSpaceRuns(rest);
        ReplaceSpaceRunsCountsRuns(rest);
        SkipSpacesRunStarts(s[1..]);
      } else {
        assert r[1..] == ReplaceSpaceRuns(s[1..]);
        ReplaceSpaceRunsCountsRuns(s[1..]);
      }
    }
  }

  /** The name of the downloaded image. A ticket whose event is missing
      interpolates `undefined`. */
  function DownloadName(event: Option<Event>): (name: string)
    ensures |name| >= 17
    ensures name[..13] == "Tixly-Ticket-" && name[|name| - 4..] == ".png"
    ensures event.None? ==> name == "Tixly-Ticket-undefined.png"
    ensures event.Some? ==> name[13..|name| - 4] == ReplaceSpaceRuns(event.value.namaAcara)
  {
    var middle := match event
      case None => "undefined"
      case Some(e) => ReplaceSpaceRuns(e.namaAcara);
    "Tixly-Ticket-" + middle + ".png"
  }

  const Padding := 20

  datatype Size = Size(width: nat, height: nat)

  /** The size of the white canvas the QR code is copied onto at
      (`Padding`, `Padding`): it leaves a margin of `Padding` on every side. */
  function PaddedCanvas(qr: Size): (r: Size)
    ensures r.width - (Padding + qr.width) == Padding && r.height - (Padding + qr.height) == Padding
    ensures r.width == qr.width + 40 && r.height == qr.height + 40
  {
    Size(qr.width + Padding * 2, qr.height + Padding * 2)
  }

  /** The ticket id as the card shows it: at most its first ten characters,
      then an ellipsis. */
  function ShortId(id: Id): (r: string)
    ensures |r| == (if |id| < 10 then |id| else 10) + 3
    ensures r[|r| - 3..] == "..."
    ensures r[..|r| - 3] == id[..|r| - 3]
  {
    (if |id| < 10 then id else id[..10]) + "..."
  }

  /** `toUpperCase` on the ASCII letters. */
  function UpperChar(c: char): char
  {
    if 'a' <= c <= 'z' then (c as int - 'a' as int + 'A' as int) as char else c
  }

  function StatusLabel(status: string): (r: string)
    ensures |r| == |status|
    ensures forall i :: 0 <= i < |r| ==> r[i] == UpperChar(status[i])
    ensures forall i :: 0 <= i < |r| ==> !('a' <= r[i] <= 'z')
  {
    if status == [] then [] else [UpperChar(status[0])] + StatusLabel(status[1..])
  }

  lemma PaidLabel()
    ensures StatusLabel(PaidStatus) == "PAID"
  {
  }

  datatype Tone = Green | Red

  /** The card shows a paid ticket in green and any other in red. */
  function CardTone(status: string): (t: Tone)
    ensures t == Green <==> status == PaidStatus
  {
    if status == PaidStatus then Green else Red
  }
}
