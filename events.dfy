/** The in-memory event, its durable record form, the codec between them, the
    type registry that decoding consults, and `Event.apply`. */
module Events {
  import opened Common
  import opened Aggregates
  import opened Payloads
  import opened UserDomain

  /** What an event's `Data interface{}` holds: nothing, a typed payload, or the
      generic JSON value `json.Unmarshal` leaves in an `interface{}`. */
  datatype Data = NoData | Payload(ed: EventData) | Generic(doc: Json)

  datatype Event = Event(
    id: string,
    timestamp: Time,
    aggregateId: string,
    aggregateType: string,
    action: string,
    version: u64,
    eventType: string,
    data: Data,
    metadata: Metadata,
    nonPersisted: Option<Json>)

  /** Go's `Event{}`. */
  const EmptyEvent: Event := Event("", 0, "", "", "", 0, "", NoData, map[], None)

  /** The durable record, one row of an `<aggregate type>_events` table. */
  datatype EventStore = EventStore(
    id: string,
    aggregateId: string,
    aggregateType: string,
    action: string,
    timestamp: Time,
    version: u64,
    eventType: string,
    rawData: Bytes,
    rawMetadata: Bytes)

  /** Go's `EventStore{}`. */
  const EmptyRecord: EventStore := EventStore("", "", "", "", 0, 0, "", [], [])

  /** The string `fmt.Sprintf("%s.%s.%d", aggregateType, action, version)`. */
  function TypeKey(aggregateType: string, action: string, version: u64): string {
    aggregateType + "." + action + "." + NatToString(version)
  }

  /** The registry key of a payload kind. */
  function KeyOf(ed: EventData): string {
    TypeKey(ed.AggregateType(), ed.Action(), ed.Version())
  }

  /** The key is not injective: a '.' inside a component can move between components. */
  lemma TypeKeyNotInjective()
    ensures TypeKey("a.b", "c", 1) == TypeKey("a", "b.c", 1)
  {
    assert NatToString(1) == "1";
  }

  /** In `a + "." + r` with no '.' in `a`, the first '.' sits at index `|a|`. */
  lemma FirstDot(a: string, r: string)
    requires '.' !in a
    ensures (a + "." + r)[|a|] == '.'
    ensures forall i :: 0 <= i < |a| ==> (a + "." + r)[i] != '.'
  {
    forall i | 0 <= i < |a| ensures (a + "." + r)[i] != '.' {
      assert (a + "." + r)[i] == a[i];
    }
  }

  /** Cutting two strings at their first '.' recovers the parts when the heads have no '.'. */
  lemma SplitAtDot(a: string, r: string, b: string, s: string)
    requires '.' !in a && '.' !in b
    requires a + "." + r == b + "." + s
    ensures a == b && r == s
  {
    var x := a + "." + r;
    FirstDot(a, r);
    FirstDot(b, s);
    assert |a| == |b|;
    assert a == x[..|a|] == b;
    assert r == x[|a| + 1..] == s;
  }

  /** Without '.' in the aggregate type and action, equal keys mean equal triples. */
  lemma TypeKeyInjectiveWithoutDots(t1: string, a1: string, v1: u64, t2: string, a2: string, v2: u64)
    requires '.' !in t1 && '.' !in a1 && '.' !in t2 && '.' !in a2
    ensures TypeKey(t1, a1, v1) == TypeKey(t2, a2, v2) <==> (t1, a1, v1) == (t2, a2, v2)
  {
    if TypeKey(t1, a1, v1) == TypeKey(t2, a2, v2) {
      assert TypeKey(t1, a1, v1) == t1 + "." + (a1 + "." + NatToString(v1));
      assert TypeKey(t2, a2, v2) == t2 + "." + (a2 + "." + NatToString(v2));
      SplitAtDot(t1, a1 + "." + NatToString(v1), t2, a2 + "." + NatToString(v2));
      SplitAtDot(a1, NatToString(v1), a2, NatToString(v2));
      NatToStringInjective(v1, v2);
    }
  }

  /** The four payload kinds have four distinct keys. */
  lemma KeyDeterminesKind(p: EventData, q: EventData)
    requires KeyOf(p) == KeyOf(q)
    ensures p.Kind() == q.Kind()
  {
    TypeKeyInjectiveWithoutDots(p.AggregateType(), p.Action(), p.Version(), q.AggregateType(), q.Action(), q.Version());
    IdentityDeterminesKind(p, q);
  }

  /** `buildBaseEvent`, with the fresh identifier and the clock reading as parameters. */
  function BuildBaseEvent(ed: EventData, md: Option<Metadata>, nonPersisted: Option<Json>,
                          aggregateId: string, newId: string, now: Time): (e: Event)
    ensures md.None? ==> e.metadata == map[]
    ensures md.Some? ==> e.metadata == md.value
    ensures e.id == newId && e.timestamp == now && e.aggregateId == aggregateId
    ensures e.aggregateType == ed.AggregateType() && e.action == ed.Action() && e.version == ed.Version()
    ensures e.eventType == ed.AggregateType() + "." + ed.Action()
    ensures e.nonPersisted == nonPersisted && e.data == NoData
  {
    var md' := if md.None? then map[] else md.value;
    EmptyEvent.(id := newId, timestamp := now, aggregateId := aggregateId,
                aggregateType := ed.AggregateType(), action := ed.Action(),
                eventType := ed.AggregateType() + "." + ed.Action(),
                metadata := md', nonPersisted := nonPersisted, version := ed.Version())
  }

  /** What `Event.apply` does to a user: the payload's `Apply`, then the update
      timestamp, then the version increment. */
  function Applied(u: UserRow, e: Event): (r: UserRow)
    requires e.data.Payload? && e.data.ed.IsUserPayload()
    ensures r.base.version == Inc(u.base.version)
    ensures r.base.updatedAt == e.timestamp
    ensures var q := PayloadApplied(u, e.data.ed, e.timestamp);
      r == q.(base := q.base.(updatedAt := e.timestamp, version := Inc(u.base.version)))
  {
    var q := PayloadApplied(u, e.data.ed, e.timestamp);
    q.(base := Incremented(Touched(q.base, e.timestamp)))
  }

  /** `Event.apply` on a user aggregate. */
  method Apply(e: Event, user: User)
    requires e.data.Payload? && e.data.ed.IsUserPayload()
    modifies user, user.base
    ensures user.Value() == Applied(old(user.Value()), e)
  {
    match e.data.ed {
      case UserCreatedV1(_, _, _) => ApplyCreated(e.data.ed, user, e.timestamp);
      case UserFirstNameUpdatedV1(_) => ApplyFirstNameUpdated(e.data.ed, user, e.timestamp);
    }
    user.base.UpdateUpdatedAt(e.timestamp);
    user.base.IncrementVersion();
  }

  /** The JSON encoder and decoder, kept abstract; `None` is an error. */
  datatype Codec = Codec(
    marshalData: Data -> Option<Bytes>,
    marshalMetadata: Metadata -> Option<Bytes>,
    unmarshalGeneric: Bytes -> Option<Json>,
    unmarshalMetadata: Bytes -> Option<Metadata>)

  /** Go's `json.Unmarshal` fails on empty input ("unexpected end of JSON input"). */
  predicate RejectsEmptyInput(c: Codec) {
    c.unmarshalGeneric([]) == None && c.unmarshalMetadata([]) == None
  }

  /** `Event.Serialize`: the metadata encoding is written into `rawData` and then
      overwritten by the data encoding; `rawMetadata` is never assigned. */
  function Serialize(e: Event, c: Codec): (r: Result<EventStore>)
    ensures r.Success? <==> c.marshalMetadata(e.metadata).Some? && c.marshalData(e.data).Some?
    ensures r.Failure? ==> r.error == MarshalFailed
    ensures r.Success? ==>
      && r.value.id == e.id && r.value.timestamp == e.timestamp && r.value.aggregateId == e.aggregateId
      && r.value.aggregateType == e.aggregateType && r.value.action == e.action
      && r.value.eventType == e.eventType && r.value.version == e.version
      && r.value.rawData == c.marshalData(e.data).value
      && r.value.rawMetadata == []
  {
    var es := EmptyRecord.(id := e.id, timestamp := e.timestamp, aggregateId := e.aggregateId,
                           aggregateType := e.aggregateType, action := e.action,
                           eventType := e.eventType, version := e.version);
    match c.marshalMetadata(e.metadata)
    case None => Failure(MarshalFailed)
    case Some(mdBytes) =>
      var es1 := es.(rawData := mdBytes);
      match c.marshalData(e.data)
      case None => Failure(MarshalFailed)
      case Some(dataBytes) => Success(es1.(rawData := dataBytes))
  }

  /** `EventStore.Deserialize` against a registry. The registered Go type only
      seeds an `interface{}`, which `json.Unmarshal` replaces by a generic value. */
  function Deserialize(rec: EventStore, registry: map<string, Kind>, c: Codec): (r: Result<Event>)
    ensures TypeKey(rec.aggregateType, rec.action, rec.version) !in registry ==>
      r == Failure(UnregisteredEventType(TypeKey(rec.aggregateType, rec.action, rec.version)))
    ensures r.Success? <==>
      && TypeKey(rec.aggregateType, rec.action, rec.version) in registry
      && c.unmarshalGeneric(rec.rawData).Some? && c.unmarshalMetadata(rec.rawMetadata).Some?
    ensures r.Success? ==>
      && r.value.id == rec.id && r.value.timestamp == rec.timestamp && r.value.aggregateId == rec.aggregateId
      && r.value.aggregateType == rec.aggregateType && r.value.action == rec.action
      && r.value.eventType == rec.eventType && r.value.version == rec.version
      && r.value.data == Generic(c.unmarshalGeneric(rec.rawData).value)
      && r.value.metadata == c.unmarshalMetadata(rec.rawMetadata).value
      && r.value.nonPersisted == None
  {
    var key := TypeKey(rec.aggregateType, rec.action, rec.version);
    if key !in registry then Failure(UnregisteredEventType(key))
    else
      match c.unmarshalGeneric(rec.rawData)
      case None => Failure(UnmarshalFailed)
      case Some(doc) =>
        match c.unmarshalMetadata(rec.rawMetadata)
        case None => Failure(UnmarshalFailed)
        case Some(md) =>
          Success(Event(rec.id, rec.timestamp, rec.aggregateId, rec.aggregateType, rec.action,
                        rec.version, rec.eventType, Generic(doc), md, None))
  }

  /** `EventStore.TableName`. */
  function TableName(rec: EventStore): (t: string)
    ensures |t| == |rec.aggregateType| + 7
    ensures t[..|rec.aggregateType|] == rec.aggregateType && t[|rec.aggregateType|..] == "_events"
  {
    rec.aggregateType + "_events"
  }

  /** Decoding a record of what `Serialize` produced never succeeds under Go's JSON
      package: `rawMetadata` is left empty, which `json.Unmarshal` rejects. */
  lemma SerializedRecordNeverDecodes(e: Event, registry: map<string, Kind>, c: Codec)
    requires RejectsEmptyInput(c)
    requires Serialize(e, c).Success?
    ensures Deserialize(Serialize(e, c).value, registry, c).Failure?
  {
  }

  /** Which Go type is registered under a key makes no difference to decoding. */
  lemma DeserializeIgnoresRegisteredKind(rec: EventStore, reg1: map<string, Kind>, reg2: map<string, Kind>, c: Codec)
    requires reg1.Keys == reg2.Keys
    ensures Deserialize(rec, reg1, c) == Deserialize(rec, reg2, c)
  {
  }

  /** Decoding never yields a typed payload, so no decoded event has data a
      payload type switch would recognise. */
  lemma DecodedDataIsGeneric(rec: EventStore, registry: map<string, Kind>, c: Codec)
    requires Deserialize(rec, registry, c).Success?
    ensures Deserialize(rec, registry, c).value.data.Generic?
  {
  }

  /** The scalar part of the round trip: whatever metadata bytes a stored record
      carries, a successful decode gives back the seven scalar fields of the
      serialized event and no non-persisted value. */
  lemma ScalarRoundTrip(e: Event, mdBytes: Bytes, registry: map<string, Kind>, c: Codec)
    requires Serialize(e, c).Success?
    requires Deserialize(Serialize(e, c).value.(rawMetadata := mdBytes), registry, c).Success?
    ensures var d := Deserialize(Serialize(e, c).value.(rawMetadata := mdBytes), registry, c).value;
      && (d.id, d.timestamp, d.aggregateId, d.aggregateType, d.action, d.version, d.eventType)
         == (e.id, e.timestamp, e.aggregateId, e.aggregateType, e.action, e.version, e.eventType)
      && d.nonPersisted == None
  {
  }

  // The type registry

  /** The registry after `Register` has stored each payload's Go type under its key, in order. */
  function Registered(m: map<string, Kind>, events: seq<EventData>): (r: map<string, Kind>)
    decreases |events|
  {
    if events == [] then m
    else
      var last := events[|events| - 1];
      Registered(m, events[..|events| - 1])[KeyOf(last) := last.Kind()]
  }

  /** Every registered payload's key maps to its Go type. */
  lemma {:induction false} RegisteredContains(m: map<string, Kind>, events: seq<EventData>, i: nat)
    requires i < |events|
    ensures KeyOf(events[i]) in Registered(m, events)
    ensures Registered(m, events)[KeyOf(events[i])] == events[i].Kind()
    decreases |events|
  {
    var last := events[|events| - 1];
    if i < |events| - 1 {
      RegisteredContains(m, events[..|events| - 1], i);
      assert events[..|events| - 1][i] == events[i];
      if KeyOf(last) == KeyOf(events[i]) {
        KeyDeterminesKind(last, events[i]);
      }
    }
  }

  /** Registration leaves every other key as it was. */
  lemma {:induction false} RegisteredFrame(m: map<string, Kind>, events: seq<EventData>, k: string)
    requires forall i :: 0 <= i < |events| ==> KeyOf(events[i]) != k
    ensures k in Registered(m, events) <==> k in m
    ensures k in m ==> Registered(m, events)[k] == m[k]
    decreases |events|
  {
    if events != [] {
      var init := events[..|events| - 1];
      assert forall i :: 0 <= i < |init| ==> init[i] == events[i];
      RegisteredFrame(m, init, k);
    }
  }

  /** A registry that already holds a payload's entry is not changed by registering it again. */
  lemma {:induction false} RegisterAgainUnchanged(m: map<string, Kind>, events: seq<EventData>)
    requires forall i :: 0 <= i < |events| ==> KeyOf(events[i]) in m && m[KeyOf(events[i])] == events[i].Kind()
    ensures Registered(m, events) == m
    decreases |events|
  {
    if events != [] {
      var init := events[..|events| - 1];
      assert forall i :: 0 <= i < |init| ==> init[i] == events[i];
      RegisterAgainUnchanged(m, init);
    }
  }

  /** Registering the same payloads twice is the same as registering them once. */
  lemma RegisterIdempotent(m: map<string, Kind>, events: seq<EventData>)
    ensures Registered(Registered(m, events), events) == Registered(m, events)
  {
    forall i | 0 <= i < |events|
      ensures KeyOf(events[i]) in Registered(m, events) && Registered(m, events)[KeyOf(events[i])] == events[i].Kind()
    {
      RegisteredContains(m, events, i);
    }
    RegisterAgainUnchanged(Registered(m, events), events);
  }

  /** Once a payload kind is registered, decoding its records no longer fails as unregistered. */
  lemma RegisterThenDecode(m: map<string, Kind>, events: seq<EventData>, i: nat, rec: EventStore, c: Codec)
    requires i < |events|
    requires TypeKey(rec.aggregateType, rec.action, rec.version) == KeyOf(events[i])
    ensures Deserialize(rec, Registered(m, events), c).Failure? ==>
      Deserialize(rec, Registered(m, events), c).error == UnmarshalFailed
  {
    RegisteredContains(m, events, i);
  }

  /** The global `eventRegistry`. */
  class EventRegistry {
    var types: map<string, Kind>

    constructor ()
      ensures types == map[]
    {
      types := map[];
    }

    /** `Register`: the aggregate argument is not used by the source and is left out. */
    method Register(events: seq<EventData>)
      modifies this
      ensures types == Registered(old(types), events)
    {
      for i := 0 to |events|
        invariant types == Registered(old(types), events[..i])
      {
        assert events[..i + 1][..i] == events[..i];
        types := types[KeyOf(events[i]) := events[i].Kind()];
      }
      assert events[..|events|] == events;
    }
  }
}
