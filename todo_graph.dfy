/** The `events` field resolver of the GraphQL todo type: a todo's event
    history mapped to the API's event type, then cut by an optional
    offset/limit window. */
module TodoGraph {
  import opened Common
  import opened Payloads
  import opened Events

  /** The API's event data: the two todo payloads, or nil for any other kind. */
  datatype GraphData =
    | NoGraphData
    | TodoCreated(id: string, authorName: string, text: string)
    | TodoTextUpdated(text: string)

  /** The API's `Event`. */
  datatype GraphEvent = GraphEvent(id: string, timestamp: Time, aggregateId: string, data: GraphData)

  /** The API's `Filter`. */
  datatype Filter = Filter(offset: int, limit: int)

  /** One stored event as the API shows it. */
  function ToGraphEvent(e: Event): (g: GraphEvent)
    ensures g.id == e.id && g.timestamp == e.timestamp && g.aggregateId == e.aggregateId
    ensures e.data.Payload? && e.data.ed.TodoCreatedV1? ==>
      g.data == TodoCreated(e.data.ed.id, e.data.ed.authorName, e.data.ed.text)
    ensures e.data.Payload? && e.data.ed.TodoTextUpdatedV1? ==> g.data == TodoTextUpdated(e.data.ed.text)
    ensures !(e.data.Payload? && (e.data.ed.TodoCreatedV1? || e.data.ed.TodoTextUpdatedV1?)) ==> g.data == NoGraphData
  {
    var data := match e.data
      case Payload(TodoCreatedV1(id, text, authorName)) => TodoCreated(id, authorName, text)
      case Payload(TodoTextUpdatedV1(text)) => TodoTextUpdated(text)
      case _ => NoGraphData;
    GraphEvent(e.id, e.timestamp, e.aggregateId, data)
  }

  /** The history mapped event by event. */
  function Mapped(events: seq<Event>): (r: seq<GraphEvent>)
    ensures |r| == |events|
    ensures forall i | 0 <= i < |events| :: r[i] == ToGraphEvent(events[i])
  {
    if events == [] then [] else Mapped(events[..|events| - 1]) + [ToGraphEvent(events[|events| - 1])]
  }

  function Min(a: int, b: int): int {
    if a <= b then a else b
  }

  /** The offset/limit window `Todo_events` cuts from the mapped events;
      `None` is the panic a negative offset or limit causes when Go slices with it. */
  function Window<T>(ret: seq<T>, filter: Option<Filter>): (r: Option<seq<T>>)
    ensures filter.None? ==> r == Some(ret)
    ensures filter.Some? && filter.value.offset >= |ret| ==> r == Some([])
    ensures r.None? <==> filter.Some? && filter.value.offset < |ret| && (filter.value.offset < 0 || filter.value.limit < 0)
    ensures filter.Some? && r.Some? && filter.value.offset < |ret| ==>
      var f := filter.value;
      && 0 <= f.offset && 0 <= f.limit
      && r.value == ret[f.offset .. f.offset + Min(f.limit, |ret| - f.offset)]
  {
    match filter
    case None => Some(ret)
    case Some(f) =>
      if f.offset < |ret| then
        if f.offset < 0 then None
        else
          var rest := ret[f.offset..];
          if f.limit < |rest| then
            if f.limit < 0 then None else Some(rest[..f.limit])
          else Some(rest)
      else Some([])
  }

  /** A window that does not panic is a contiguous, order-preserving run of at
      most `limit` elements. */
  lemma WindowIsContiguous<T>(ret: seq<T>, f: Filter)
    requires Window(ret, Some(f)).Some?
    ensures var w := Window(ret, Some(f)).value;
      && |w| <= (if f.offset < |ret| then f.limit else 0)
      && forall i | 0 <= i < |w| :: w[i] == ret[f.offset + i]
  {
  }

  /** A window from offset 0 and as long as the history keeps every event. */
  lemma FullWindowKeepsAll<T>(ret: seq<T>)
    ensures Window(ret, Some(Filter(0, |ret|))) == Some(ret)
  {
  }

  /** What the resolver answers: the events and an error, or a panic. */
  datatype Reply = Reply(events: seq<GraphEvent>, err: Option<Error>) | Panic

  /** The loop of `Todo_events` that maps each stored event to the API's type. */
  method MapEvents(events: seq<Event>) returns (ret: seq<GraphEvent>)
    ensures ret == Mapped(events)
  {
    ret := [];
    for i := 0 to |events|
      invariant ret == Mapped(events[..i])
    {
      assert events[..i + 1][..i] == events[..i];
      var ev := ToGraphEvent(events[i]);
      ret := ret + [ev];
    }
    assert events[..|events|] == events;
  }

  /** `Todo_events`, given what loading the todo's events returned. */
  method TodoEvents(history: Result<seq<Event>>, filter: Option<Filter>) returns (reply: Reply)
    ensures history.Failure? ==> reply == Reply([], Some(history.error))
    ensures history.Success? ==>
      match Window(Mapped(history.value), filter)
      case None => reply == Panic
      case Some(w) => reply == Reply(w, None)
  {
    if history.Failure? {
      return Reply([], Some(history.error));
    }
    var ret := MapEvents(history.value);
    var w := Window(ret, filter);
    if w.None? {
      return Panic;
    }
    reply := Reply(w.value, None);
  }

  /** Without a filter the reply holds one API event per stored event, in history order. */
  lemma UnfilteredRepliesInOrder(events: seq<Event>)
    ensures Window(Mapped(events), None) == Some(Mapped(events))
    ensures forall i | 0 <= i < |events| :: Mapped(events)[i].id == events[i].id
  {
  }
}
