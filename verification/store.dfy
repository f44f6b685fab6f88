/** The document store the client talks to, as an abstract value: one map per
    collection from document id to record. Queries are equality filters over a
    snapshot of a collection; `add` stores a record under an id that is not yet
    taken. */
module Store {
  import opened Common
  import opened Records
  import opened Seqs

  datatype Store = Store(
    users: map<Id, AppUser>,
    events: map<Id, Event>,
    tickets: map<Id, Ticket>)

  /** `get` on a document: its data when it exists. */
  function Get<T>(m: map<Id, T>, id: Id): (r: Option<T>)
    ensures r.Some? <==> id in m
    ensures r.Some? ==> r.value == m[id]
  {
    if id in m then Some(m[id]) else None
  }

  /** `docs` lists the collection `m` in the order the store returns it: every
      document exactly once, with its current data. */
  ghost predicate IsSnapshotOf<T>(docs: seq<Doc<T>>, m: map<Id, T>)
  {
    && (forall i, j :: 0 <= i < j < |docs| ==> docs[i].id != docs[j].id)
    && (forall i :: 0 <= i < |docs| ==> docs[i].id in m && m[docs[i].id] == docs[i].data)
    && (forall id :: id in m ==> exists i :: 0 <= i < |docs| && docs[i].id == id)
  }

  /** An equality query over a snapshot returns exactly the documents of the
      collection that satisfy the filter, each with its stored data. */
  lemma WhereSelectsMatching<T(!new)>(docs: seq<Doc<T>>, m: map<Id, T>, p: Doc<T> -> bool)
    requires IsSnapshotOf(docs, m)
    ensures forall d :: d in Filter(docs, p) <==> d.id in m && m[d.id] == d.data && p(d)
  {
    forall d: Doc<T> | d.id in m && m[d.id] == d.data
      ensures d in docs
    {
      var i :| 0 <= i < |docs| && docs[i].id == d.id;
      assert docs[i] == d;
    }
  }

  /** The ticket store already holds a ticket of user `uid` for event `eventId`. */
  predicate HasTicket(tickets: map<Id, Ticket>, uid: Id, eventId: Id)
  {
    exists k :: k in tickets && tickets[k].userId == uid && tickets[k].eventId == eventId
  }

  /** The intended, but not enforced, invariant of the ticket store: at most
      one ticket per (participant, event) pair. */
  ghost predicate OneTicketPerPair(tickets: map<Id, Ticket>)
  {
    forall a, b :: a in tickets && b in tickets && a != b ==>
      tickets[a].userId != tickets[b].userId || tickets[a].eventId != tickets[b].eventId
  }

  /** An id not yet taken in `m`, and never empty: a string longer than every
      key. The store picks such an id for each `add`. */
  method FreshId<T>(m: map<Id, T>) returns (id: Id)
    ensures id !in m
    ensures id != ""
  {
    var longest: nat := 0;
    var rest := m.Keys;
    while rest != {}
      invariant rest <= m.Keys
      invariant forall k :: k in m && k !in rest ==> |k| <= longest
      decreases rest
    {
      var k :| k in rest;
      if |k| > longest {
        longest := |k|;
      }
      rest := rest - {k};
    }
    id := seq(longest + 1, _ => 'x');
  }
}
