// The audit event store (backend/app/services/audit_events.py): a capacity-bounded table of
// audit events with an auto-incremented id and a creation time, written by `log_event` and
// read newest first, filtered and paginated, by `list_events`.

module AuditEvents {
  import opened Common
  import opened Json
  import opened Collections
  import opened Tables

  /** A row of the audit table, `StoredAuditEvent`. */
  datatype AuditEvent = AuditEvent(
    id: nat,
    createdAt: int,
    eventType: string,
    severity: string,
    source: string,
    actorId: Option<string>,
    requestId: Option<string>,
    payload: Json)

  function CreatedAt(e: AuditEvent): int { e.createdAt }

  function EventId(e: AuditEvent): nat { e.id }

  /** `ORDER BY created_at, id`: the older event first, the smaller id between equal times. */
  predicate Before(a: AuditEvent, b: AuditEvent)
  {
    a.createdAt < b.createdAt || (a.createdAt == b.createdAt && a.id < b.id)
  }

  const MinCapacity := 1000
  const DefaultSeverity := "info"
  const DefaultSource := "api"

  /**
   * `max(1000, int(max_items or configured))`: an absent or zero argument falls back to the
   * configured value, and the capacity is never below 1000.
   */
  function Capacity(maxItems: Option<int>, configured: int): (c: int)
    ensures c >= MinCapacity
    ensures maxItems.Some? && maxItems.value != 0 ==> c == MaxInt(MinCapacity, maxItems.value)
    ensures (maxItems.None? || maxItems.value == 0) ==> c == MaxInt(MinCapacity, configured)
  {
    var chosen := if maxItems.Some? && maxItems.value != 0 then maxItems.value else configured;
    MaxInt(MinCapacity, chosen)
  }

  /** `payload or {}`: an absent payload is stored as the empty object. */
  function CleanPayload(payload: Option<Json>): (p: Json)
    ensures payload.Some? ==> p == payload.value
    ensures payload.None? ==> p == JObj([])
  {
    if payload.Some? then payload.value else JObj([])
  }

  /** The row `log_event` inserts, with the id and time the database assigns. */
  function NewEvent(id: nat, now: int, eventType: string, severity: string, source: string,
                    actorId: Option<string>, requestId: Option<string>, payload: Option<Json>): AuditEvent
  {
    AuditEvent(id, now, eventType, severity, source, actorId, requestId, CleanPayload(payload))
  }

  /** A filter applies only when it is given and not empty (`if event_type:`). */
  predicate Filtering(f: Option<string>)
  {
    f.Some? && f.value != ""
  }

  /** The event passes both filters. */
  predicate Matches(e: AuditEvent, eventType: Option<string>, severity: Option<string>)
  {
    (!Filtering(eventType) || e.eventType == eventType.value) &&
    (!Filtering(severity) || e.severity == severity.value)
  }

  /** The `WHERE` clause of `list_events`: the events passing both filters, in table order. */
  function Matching(s: seq<AuditEvent>, eventType: Option<string>, severity: Option<string>): (r: seq<AuditEvent>)
    ensures forall e :: e in r <==> e in s && Matches(e, eventType, severity)
  {
    Filter(s, (e: AuditEvent) => Matches(e, eventType, severity))
  }

  /** What `list_events` returns: a page of items and the number of filtered events. */
  datatype EventPage = EventPage(items: seq<AuditEvent>, total: nat)

  /**
   * `list_events` over a table in `(created_at, id)` order: the total counts every event
   * passing the filters, and the items are the filtered events newest first, from `offset`
   * on, at most `limit` of them.
   */
  function EventsPage(s: seq<AuditEvent>, limit: nat, offset: nat, eventType: Option<string>, severity: Option<string>)
    : (p: EventPage)
    ensures p.total == |Matching(s, eventType, severity)|
    ensures |p.items| == MinInt(limit, MaxInt(p.total - offset, 0))
    ensures forall k :: 0 <= k < |p.items| ==>
      p.items[k] == Matching(s, eventType, severity)[p.total - 1 - (offset + k)]
    ensures forall k :: 0 <= k < |p.items| ==> p.items[k] in s && Matches(p.items[k], eventType, severity)
  {
    var m := Matching(s, eventType, severity);
    var page := Page(Reversed(m), offset, limit);
    assert forall k :: 0 <= k < |page| ==> page[k] == m[|m| - 1 - (offset + k)] && page[k] in m;
    EventPage(page, |m|)
  }

  /** The items of a page are newest first: each comes after the next in `(created_at, id)` order. */
  lemma NewestFirst(s: seq<AuditEvent>, limit: nat, offset: nat, eventType: Option<string>, severity: Option<string>)
    requires Chain(s, Before)
    ensures var items := EventsPage(s, limit, offset, eventType, severity).items;
      forall i, j :: 0 <= i < j < |items| ==> Before(items[j], items[i])
  {
    var m := Matching(s, eventType, severity);
    FilterChain(s, (e: AuditEvent) => Matches(e, eventType, severity), Before);
    ReversedPageChain(m, offset, limit, Before);
    assert EventsPage(s, limit, offset, eventType, severity).items == Page(Reversed(m), offset, limit);
  }

  /** The two filters are conjunctive: filtering by both is filtering by one, then the other. */
  lemma FiltersConjunctive(s: seq<AuditEvent>, eventType: Option<string>, severity: Option<string>)
    ensures Matching(s, eventType, severity) == Matching(Matching(s, eventType, None), None, severity)
  {
    FilterFilter(s, (e: AuditEvent) => Matches(e, eventType, None), (e: AuditEvent) => Matches(e, None, severity),
                 (e: AuditEvent) => Matches(e, eventType, severity));
  }

  /** Successive pages tile the filtered events: two pages make the page that spans both. */
  lemma PagesTile(s: seq<AuditEvent>, offset: nat, a: nat, b: nat, eventType: Option<string>, severity: Option<string>)
    ensures EventsPage(s, a, offset, eventType, severity).items + EventsPage(s, b, offset + a, eventType, severity).items
         == EventsPage(s, a + b, offset, eventType, severity).items
  {
    PageSplit(Reversed(Matching(s, eventType, severity)), offset, a, b);
  }

  /**
   * An event logged no earlier than every stored event is the first item of an unfiltered
   * listing from offset 0, whatever the capacity evicted.
   */
  lemma {:induction false} LoggedEventListedFirst(s: seq<AuditEvent>, x: AuditEvent, capacity: int, limit: nat)
    requires capacity >= 1 && limit >= 1
    requires forall i :: 0 <= i < |s| ==> s[i].createdAt <= x.createdAt
    ensures var p := EventsPage(KeepNewest(Place(x, s, CreatedAt), capacity), limit, 0, None, None);
      |p.items| >= 1 && p.items[0] == x
  {
    PlaceLatest(x, s, CreatedAt);
    var kept := KeepNewest(s + [x], capacity);
    assert kept[|kept| - 1] == x;
    FilterAll(kept, (e: AuditEvent) => Matches(e, None, None));
    assert Matching(kept, None, None) == kept;
    var p := EventsPage(kept, limit, 0, None, None);
    assert p.items[0] == kept[|kept| - 1];
  }

  /**
   * The rows are in `(created_at, id)` order, their ids are distinct and below the next id,
   * and there are no more of them than the capacity.
   */
  ghost predicate TableInvariant(s: seq<AuditEvent>, nextId: nat, capacity: int)
  {
    Ordered(s, nextId) && |s| <= capacity
  }

  /** The rows are in `(created_at, id)` order, with distinct ids below the bound. */
  ghost predicate Ordered(s: seq<AuditEvent>, bound: nat)
  {
    Ascending(s, CreatedAt) && Chain(s, Before) && UniqueBy(s, EventId) &&
    forall i :: 0 <= i < |s| ==> s[i].id < bound
  }

  /** Inserting an event under the next id and evicting down to the capacity keeps the invariant. */
  lemma InsertKeepsTable(s: seq<AuditEvent>, x: AuditEvent, nextId: nat, capacity: int)
    requires TableInvariant(s, nextId, capacity) && x.id == nextId
    ensures TableInvariant(KeepNewest(Place(x, s, CreatedAt), capacity), nextId + 1, capacity)
  {
    PlaceKeepsOrder(s, x, nextId);
    EvictKeepsOrder(Place(x, s, CreatedAt), nextId + 1, capacity);
  }

  /** An event under an id above every stored id goes in at its place in `(created_at, id)` order. */
  lemma PlaceKeepsOrder(s: seq<AuditEvent>, x: AuditEvent, nextId: nat)
    requires Ordered(s, nextId) && x.id == nextId
    ensures Ordered(Place(x, s, CreatedAt), nextId + 1)
  {
    PlaceAscending(x, s, CreatedAt);
    PlaceChain(x, s, CreatedAt, Before);
    PlaceUnique(x, s, CreatedAt, EventId);
    var table := Place(x, s, CreatedAt);
    forall i | 0 <= i < |table| ensures table[i].id < nextId + 1 {
      assert table[i] in multiset(table);
      assert table[i] == x || table[i] in multiset(s);
    }
  }

  /** Deleting the oldest rows keeps the order, and leaves at most the capacity. */
  lemma EvictKeepsOrder(table: seq<AuditEvent>, bound: nat, capacity: int)
    requires Ordered(table, bound)
    ensures Ordered(KeepNewest(table, capacity), bound) && |KeepNewest(table, capacity)| <= MaxInt(capacity, 0)
  {
    var kept := KeepNewest(table, capacity);
    var k := |table| - |kept|;
    assert kept == table[k..];
    SuffixKeeps(table, k, CreatedAt, EventId);
    SuffixChain(table, k, Before);
    KeepNewestBelow(table, capacity, (e: AuditEvent) => e.id + 1, bound);
  }

  /** The audit table, its capacity and the next id the database hands out. */
  class AuditEventStore {
    const capacity: int
    var events: seq<AuditEvent>
    var nextId: nat

    /** The capacity is at least 1000 and the table keeps its invariant. */
    ghost predicate Valid()
      reads this
    {
      MinCapacity <= capacity && TableInvariant(events, nextId, capacity)
    }

    constructor (maxItems: Option<int>, configured: int)
      ensures capacity == Capacity(maxItems, configured)
      ensures events == [] && nextId == 1 && Valid()
    {
      capacity := Capacity(maxItems, configured);
      events := [];
      nextId := 1;
    }

    /**
     * `log_event`: nothing is stored and no id returned while audit events are disabled;
     * otherwise the event is inserted under the next id at the current time, and the oldest
     * events beyond the capacity are deleted.
     */
    method LogEvent(eventType: string, severity: string, source: string, actorId: Option<string>,
                    requestId: Option<string>, payload: Option<Json>, now: int, enabled: bool)
      returns (r: Option<nat>)
      requires Valid()
      modifies this
      ensures Valid()
      ensures !enabled ==> r.None? && events == old(events) && nextId == old(nextId)
      ensures enabled ==> r == Some(old(nextId)) && nextId == old(nextId) + 1
      ensures enabled ==>
        events == KeepNewest(Place(NewEvent(old(nextId), now, eventType, severity, source, actorId, requestId, payload),
                                   old(events), CreatedAt), capacity)
    {
      if !enabled {
        return None;
      }
      var event := NewEvent(nextId, now, eventType, severity, source, actorId, requestId, payload);
      InsertKeepsTable(events, event, nextId, capacity);
      r := Some(nextId);
      events := KeepNewest(Place(event, events, CreatedAt), capacity);
      nextId := nextId + 1;
    }

    /** `log_event` with its defaults: severity "info", source "api", no actor, request or payload. */
    method LogDefault(eventType: string, now: int, enabled: bool) returns (r: Option<nat>)
      requires Valid()
      modifies this
      ensures Valid()
      ensures !enabled ==> r.None? && events == old(events) && nextId == old(nextId)
      ensures enabled ==> r == Some(old(nextId)) && nextId == old(nextId) + 1
      ensures enabled ==>
        events == KeepNewest(Place(AuditEvent(old(nextId), now, eventType, DefaultSeverity, DefaultSource, None, None, JObj([])),
                                   old(events), CreatedAt), capacity)
    {
      r := LogEvent(eventType, DefaultSeverity, DefaultSource, None, None, None, now, enabled);
    }

    /**
     * `safe_log_event`: a storage failure is swallowed, leaving the table as it was; without
     * one it is `log_event`. Nothing is returned either way.
     */
    method SafeLogEvent(eventType: string, severity: string, source: string, actorId: Option<string>,
                        requestId: Option<string>, payload: Option<Json>, now: int, enabled: bool, healthy: bool)
      requires Valid()
      modifies this
      ensures Valid()
      ensures !(healthy && enabled) ==> events == old(events) && nextId == old(nextId)
      ensures healthy && enabled ==> nextId == old(nextId) + 1
      ensures healthy && enabled ==>
        events == KeepNewest(Place(NewEvent(old(nextId), now, eventType, severity, source, actorId, requestId, payload),
                                   old(events), CreatedAt), capacity)
    {
      if healthy {
        var _ := LogEvent(eventType, severity, source, actorId, requestId, payload, now, enabled);
      }
    }

    /** `list_events` on the current table. */
    function ListEvents(limit: nat, offset: nat, eventType: Option<string>, severity: Option<string>): (p: EventPage)
      reads this
      ensures p == EventsPage(events, limit, offset, eventType, severity)
    {
      EventsPage(events, limit, offset, eventType, severity)
    }

    /** `reset`: every event is deleted; the id sequence goes on. */
    method Reset()
      requires Valid()
      modifies this
      ensures Valid() && events == [] && nextId == old(nextId)
      ensures ListEvents(1, 0, None, None).total == 0
    {
      events := [];
    }
  }
}
