/**
 * The in-memory event and vendor lists (context/EventContext.tsx). Nothing
 * here is persisted; every updater replaces a list with a new one.
 */
module EventContext {
  import opened Wrappers
  import opened Types
  import opened Constants
  import opened Seqs

  predicate NoDuplicates(xs: seq<string>) {
    forall i, j :: 0 <= i < j < |xs| ==> xs[i] != xs[j]
  }

  /** The event with `vendorId` appended to its vendor ids, unless it is already there. */
  function WithVendor(e: Event, vendorId: string): (r: Event)
    ensures r == e.(vendors := r.vendors)
    ensures forall v :: v in r.vendors <==> v in e.vendors || v == vendorId
    ensures vendorId in e.vendors ==> r == e
    ensures vendorId !in e.vendors ==> |r.vendors| == |e.vendors| + 1 && r.vendors[..|e.vendors|] == e.vendors
  {
    if vendorId in e.vendors then e else e.(vendors := e.vendors + [vendorId])
  }

  /** Adding a vendor never creates a duplicate id. */
  lemma WithVendorKeepsNoDuplicates(e: Event, vendorId: string)
    requires NoDuplicates(e.vendors)
    ensures NoDuplicates(WithVendor(e, vendorId).vendors)
  {
    var r := WithVendor(e, vendorId).vendors;
    if vendorId !in e.vendors {
      forall i, j | 0 <= i < j < |r|
        ensures r[i] != r[j]
      {
        if j == |e.vendors| {
          assert r[i] == e.vendors[i];
        }
      }
    }
  }

  /** addVendorToEvent's map over the event list. */
  function AddVendorTo(events: seq<Event>, eventId: string, vendorId: string): (r: seq<Event>)
    ensures |r| == |events|
    ensures forall i :: 0 <= i < |events| ==>
      r[i] == if events[i].id == eventId then WithVendor(events[i], vendorId) else events[i]
    decreases |events|
  {
    if events == [] then []
    else
      [if events[0].id == eventId then WithVendor(events[0], vendorId) else events[0]]
        + AddVendorTo(events[1..], eventId, vendorId)
  }

  /** Adding the same vendor twice is the same as adding it once. */
  lemma AddVendorToIdempotent(events: seq<Event>, eventId: string, vendorId: string)
    ensures AddVendorTo(AddVendorTo(events, eventId, vendorId), eventId, vendorId)
         == AddVendorTo(events, eventId, vendorId)
  {
    var once := AddVendorTo(events, eventId, vendorId);
    var twice := AddVendorTo(once, eventId, vendorId);
    forall i | 0 <= i < |events|
      ensures twice[i] == once[i]
    {
      if events[i].id == eventId {
        assert vendorId in once[i].vendors;
      }
    }
  }

  /** An id no event carries leaves the list as it is. */
  lemma AddVendorToUnknownEvent(events: seq<Event>, eventId: string, vendorId: string)
    requires forall i :: 0 <= i < |events| ==> events[i].id != eventId
    ensures AddVendorTo(events, eventId, vendorId) == events
  {
  }

  /** updateEvent's map: each event with the updated event's id is replaced by it. */
  function Replaced(events: seq<Event>, updated: Event): (r: seq<Event>)
    ensures |r| == |events|
    ensures forall i :: 0 <= i < |events| ==>
      r[i] == if events[i].id == updated.id then updated else events[i]
    decreases |events|
  {
    if events == [] then []
    else [if events[0].id == updated.id then updated else events[0]] + Replaced(events[1..], updated)
  }

  predicate HasId(id: string, e: Event) {
    e.id == id
  }

  /** getEvent: the first event with that id. */
  function FindEvent(events: seq<Event>, id: string): (r: Option<Event>)
    ensures r.None? <==> forall i :: 0 <= i < |events| ==> events[i].id != id
    ensures r.Some? ==> r.value in events && r.value.id == id
    ensures r.Some? ==> exists i :: 0 <= i < |events| && events[i] == r.value
                                  && forall j :: 0 <= j < i ==> events[j].id != id
  {
    FindFirst((e: Event) => e.id == id, events)
  }

  /** getVendor: the first vendor with that id. */
  function FindVendor(vendors: seq<Vendor>, id: string): (r: Option<Vendor>)
    ensures r.None? <==> forall i :: 0 <= i < |vendors| ==> vendors[i].id != id
    ensures r.Some? ==> r.value in vendors && r.value.id == id
    ensures r.Some? ==> exists i :: 0 <= i < |vendors| && vendors[i] == r.value
                                  && forall j :: 0 <= j < i ==> vendors[j].id != id
  {
    FindFirst((v: Vendor) => v.id == id, vendors)
  }

  /** After an update, looking the id up finds the updated event, provided some event had that id. */
  lemma FindAfterReplace(events: seq<Event>, updated: Event)
    requires exists i :: 0 <= i < |events| && events[i].id == updated.id
    ensures FindEvent(Replaced(events, updated), updated.id) == Some(updated)
  {
    var r := Replaced(events, updated);
    var i :| 0 <= i < |events| && events[i].id == updated.id;
    assert r[i].id == updated.id;
    var found := FindEvent(r, updated.id);
    var k :| 0 <= k < |r| && r[k] == found.value;
    assert found.value == updated;
  }

  /** Adding an event in front makes it the one found under its id. */
  lemma FindAfterAddEvent(events: seq<Event>, e: Event)
    ensures FindEvent([e] + events, e.id) == Some(e)
  {
  }

  class EventStore {
    var events: seq<Event>
    var vendors: seq<Vendor>

    /** The seed lists, with the dates of the clock at load time. */
    constructor (year: nat, month: int, nowIso: string)
      requires 1 <= month <= 12
      ensures events == MockEvents(year, month, nowIso) && vendors == MOCK_VENDORS
      ensures |events| == 2
    {
      events := MockEvents(year, month, nowIso);
      vendors := MOCK_VENDORS;
    }

    method AddEvent(newEvent: Event)
      modifies this
      ensures events == [newEvent] + old(events) && vendors == old(vendors)
      ensures |events| == |old(events)| + 1
    {
      events := [newEvent] + events;
    }

    method AddVendor(newVendor: Vendor)
      modifies this
      ensures vendors == [newVendor] + old(vendors) && events == old(events)
    {
      vendors := [newVendor] + vendors;
    }

    method AddVendorToEvent(eventId: string, vendorId: string)
      modifies this
      ensures events == AddVendorTo(old(events), eventId, vendorId) && vendors == old(vendors)
    {
      events := AddVendorTo(events, eventId, vendorId);
    }

    method UpdateEvent(updatedEvent: Event)
      modifies this
      ensures events == Replaced(old(events), updatedEvent) && vendors == old(vendors)
    {
      events := Replaced(events, updatedEvent);
    }

    method GetEvent(id: string) returns (r: Option<Event>)
      ensures r == FindEvent(events, id)
    {
      r := FindEvent(events, id);
    }

    method GetVendor(id: string) returns (r: Option<Vendor>)
      ensures r == FindVendor(vendors, id)
    {
      r := FindVendor(vendors, id);
    }
  }
}
