/** The "Manage Events" page: the signed-in user's events, kept in the page's
    state and mirrored in session storage under `userEvents`. */
module Manage {
  import opened Seqs
  import opened Catalog

  /** The session-storage key the page reads and writes. */
  const UserEventsKey := "userEvents"

  /** The list stored under `key`, or the empty list when nothing is stored.
      Serialising the list to text and back is taken to be the identity. */
  function StoredEvents(storage: map<string, seq<Event>>, key: string): (r: seq<Event>)
    ensures key !in storage ==> r == []
    ensures key in storage ==> r == storage[key]
  {
    if key in storage then storage[key] else []
  }

  /** The list after deleting `id`: every event whose id is not `id`. */
  function WithoutId(events: seq<Event>, id: int): (r: seq<Event>)
    ensures forall i :: 0 <= i < |r| ==> r[i].id != id
    ensures forall e :: e in r <==> e in events && e.id != id
  {
    Filter(events, (e: Event) => e.id != id)
  }

  /** Deleting keeps the other events in their original relative order, each
      as often as before, and drops every event carrying `id`. */
  lemma WithoutIdKeepsOthersInOrder(events: seq<Event>, id: int, e: Event)
    ensures IsSubsequence(WithoutId(events, id), events)
    ensures multiset(WithoutId(events, id))[e] == if e.id != id then multiset(events)[e] else 0
  {
    FilterIsSubsequence(events, (x: Event) => x.id != id);
    FilterCounts(events, (x: Event) => x.id != id, e);
  }

  /** Deleting an id no event carries leaves the list as it was. */
  lemma WithoutAbsentId(events: seq<Event>, id: int)
    requires forall i :: 0 <= i < |events| ==> events[i].id != id
    ensures WithoutId(events, id) == events
  {
    FilterAllPass(events, (x: Event) => x.id != id);
  }

  /** Deleting the same id twice leaves what deleting it once leaves. */
  lemma WithoutIdIdempotent(events: seq<Event>, id: int)
    ensures WithoutId(WithoutId(events, id), id) == WithoutId(events, id)
  {
    FilterIdempotent(events, (x: Event) => x.id != id);
  }

  /** The page's state: the displayed list, the session storage it mirrors,
      and whether the "Event deleted successfully!" toast is visible. */
  class ManagePage {
    var events: seq<Event>
    var storage: map<string, seq<Event>>
    var showToast: bool

    /** The displayed list is the one session storage holds. */
    ghost predicate Synced()
      reads this
    {
      events == StoredEvents(storage, UserEventsKey)
    }

    /** The first render: an empty list, no toast, storage as the browser has it. */
    constructor (sessionStorage: map<string, seq<Event>>)
      ensures events == [] && storage == sessionStorage && !showToast
    {
      events := [];
      storage := sessionStorage;
      showToast := false;
    }

    /** The mount effect: read `userEvents`, treating a missing entry as `[]`. */
    method Load()
      modifies this
      ensures events == StoredEvents(old(storage), UserEventsKey)
      ensures storage == old(storage) && showToast == old(showToast)
      ensures Synced()
    {
      events := StoredEvents(storage, UserEventsKey);
    }

    /** `handleDelete(id)`: drop every event with that id, write the new list
        back under `userEvents`, and show the toast. */
    method Delete(id: int)
      modifies this
      ensures events == WithoutId(old(events), id)
      ensures storage == old(storage)[UserEventsKey := events]
      ensures showToast
      ensures Synced()
      ensures forall e :: e in events ==> e.id != id
    {
      var updated := WithoutId(events, id);
      events := updated;
      storage := storage[UserEventsKey := updated];
      showToast := true;
    }

    /** The timer callback that hides the toast again. */
    method HideToast()
      modifies this
      ensures !showToast
      ensures events == old(events) && storage == old(storage)
    {
      showToast := false;
    }
  }

  /** Deleting and then reloading the page shows the same list as deleting. */
  method DeleteThenReload(page: ManagePage, id: int)
    modifies page
    ensures page.events == WithoutId(old(page.events), id)
    ensures page.Synced()
  {
    page.Delete(id);
    page.Load();
  }
}
