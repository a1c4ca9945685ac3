/** Event matchers and the in-memory subscription bus. A matcher is a value
    interpreted by `Matches`; a reactor is known by name, what it does is given
    to dispatch from outside. */
module Reactors {
  import opened Common
  import opened Payloads
  import opened Events

  datatype SyncReactor = SyncReactor(name: string)

  datatype AsyncReactor = AsyncReactor(name: string)

  /** The `EventMatcher` closures the four combinators return. `MatchAggregate`
      holds the aggregate type of the aggregate it was given. */
  datatype Matcher =
    | MatchEvent(ed: EventData)
    | MatchAny
    | MatchAggregate(aggregateType: string)
    | MatchAnyOf(matchers: seq<Matcher>)

  /** The event carries a typed payload, as every event the pipeline dispatches does. */
  predicate Typed(e: Event) {
    e.data.Payload?
  }

  /** Evaluating the matcher cannot panic: every `MatchAggregate` in it, reached
      or not, finds an `EventData` to assert. Go's `MatchAnyOf` stops at the
      first match, so this is sufficient rather than necessary. */
  predicate Evaluable(m: Matcher, e: Event)
    decreases m
  {
    match m
    case MatchAggregate(_) => Typed(e)
    case MatchAnyOf(ms) => forall i | 0 <= i < |ms| :: Evaluable(ms[i], e)
    case _ => true
  }

  predicate Matches(m: Matcher, e: Event)
    requires Evaluable(m, e)
    decreases m
  {
    match m
    case MatchEvent(ed) => KeyOf(ed) == TypeKey(e.aggregateType, e.action, e.version)
    case MatchAny => true
    case MatchAggregate(t) => e.data.ed.AggregateType() == t
    case MatchAnyOf(ms) => exists i | 0 <= i < |ms| :: Matches(ms[i], e)
  }

  /** Every matcher can be evaluated on a typed event. */
  lemma {:induction false} TypedEventsEvaluable(m: Matcher, e: Event)
    requires Typed(e)
    ensures Evaluable(m, e)
    decreases m
  {
    match m
    case MatchAnyOf(ms) =>
      forall i | 0 <= i < |ms| ensures Evaluable(ms[i], e) {
        TypedEventsEvaluable(ms[i], e);
      }
    case _ =>
  }

  /** `MatchEvent` accepts an event carrying the same identity triple. */
  lemma MatchEventAcceptsSameTriple(ed: EventData, e: Event)
    requires (e.aggregateType, e.action, e.version) == (ed.AggregateType(), ed.Action(), ed.Version())
    ensures Matches(MatchEvent(ed), e)
  {
  }

  /** Without '.' in the event's aggregate type and action, `MatchEvent` accepts
      exactly the events that carry the payload's identity triple. */
  lemma MatchEventIffSameTriple(ed: EventData, e: Event)
    requires '.' !in e.aggregateType && '.' !in e.action
    ensures Matches(MatchEvent(ed), e) <==> (e.aggregateType, e.action, e.version) == (ed.AggregateType(), ed.Action(), ed.Version())
  {
    TypeKeyInjectiveWithoutDots(ed.AggregateType(), ed.Action(), ed.Version(), e.aggregateType, e.action, e.version);
  }

  /** With dots allowed, two events with different triples are told apart by no `MatchEvent`. */
  lemma MatchEventConfusesDottedTriples(e1: Event, e2: Event, ed: EventData)
    requires (e1.aggregateType, e1.action, e1.version) == ("a.b", "c", 1)
    requires (e2.aggregateType, e2.action, e2.version) == ("a", "b.c", 1)
    ensures Matches(MatchEvent(ed), e1) == Matches(MatchEvent(ed), e2)
  {
    TypeKeyNotInjective();
  }

  /** `MatchAny` accepts every event. */
  lemma MatchAnyAcceptsAll(e: Event)
    ensures Matches(MatchAny, e)
  {
  }

  /** `MatchAggregate` looks at the payload's aggregate type, not the event's
      `AggregateType` field. */
  lemma MatchAggregateReadsPayload(t: string, e: Event)
    requires Typed(e)
    ensures Matches(MatchAggregate(t), e) <==> e.data.ed.AggregateType() == t
    ensures Matches(MatchAggregate(t), e.(aggregateType := "")) == Matches(MatchAggregate(t), e)
  {
  }

  /** `MatchAnyOf` with no matchers rejects everything. */
  lemma MatchAnyOfEmptyRejects(e: Event)
    ensures !Matches(MatchAnyOf([]), e)
  {
  }

  /** `MatchAnyOf` accepts exactly when one of its matchers does. */
  lemma MatchAnyOfIffSome(ms: seq<Matcher>, e: Event)
    requires Evaluable(MatchAnyOf(ms), e)
    ensures Matches(MatchAnyOf(ms), e) <==> exists m | m in ms :: Evaluable(m, e) && Matches(m, e)
  {
    if Matches(MatchAnyOf(ms), e) {
      var i :| 0 <= i < |ms| && Matches(ms[i], e);
      assert ms[i] in ms;
    }
  }

  /** `MatchAnyOf` of a concatenation is the disjunction of its parts. */
  lemma MatchAnyOfAppend(ms1: seq<Matcher>, ms2: seq<Matcher>, e: Event)
    requires Evaluable(MatchAnyOf(ms1), e) && Evaluable(MatchAnyOf(ms2), e)
    ensures Evaluable(MatchAnyOf(ms1 + ms2), e)
    ensures Matches(MatchAnyOf(ms1 + ms2), e) <==> Matches(MatchAnyOf(ms1), e) || Matches(MatchAnyOf(ms2), e)
  {
    var ms := ms1 + ms2;
    assert forall i | 0 <= i < |ms| :: ms[i] == if i < |ms1| then ms1[i] else ms2[i - |ms1|];
    if Matches(MatchAnyOf(ms), e) {
      var i :| 0 <= i < |ms| && Matches(ms[i], e);
      if i >= |ms1| {
        assert Matches(ms2[i - |ms1|], e);
      }
    }
    if Matches(MatchAnyOf(ms2), e) {
      var i :| 0 <= i < |ms2| && Matches(ms2[i], e);
      assert ms[|ms1| + i] == ms2[i];
    }
  }

  datatype Subscription = Subscription(matcher: Matcher, sync: seq<SyncReactor>, async: seq<AsyncReactor>)

  /** A Go slice that may be `nil`, read as a list: `nil` is the empty list. */
  function OrEmpty<T>(s: Option<seq<T>>): (r: seq<T>)
    ensures s.None? ==> r == []
    ensures s.Some? ==> r == s.value
  {
    match s
    case None => []
    case Some(xs) => xs
  }

  /** The global `eventBus`. */
  class EventBus {
    var subscriptions: seq<Subscription>

    constructor ()
      ensures subscriptions == []
    {
      subscriptions := [];
    }

    /** `On`: one subscription appended at the end, nil lists stored as empty. */
    method On(matcher: Matcher, sync: Option<seq<SyncReactor>>, async: Option<seq<AsyncReactor>>)
      modifies this
      ensures |subscriptions| == |old(subscriptions)| + 1
      ensures subscriptions[..|old(subscriptions)|] == old(subscriptions)
      ensures subscriptions[|old(subscriptions)|] == Subscription(matcher, OrEmpty(sync), OrEmpty(async))
    {
      var s := OrEmpty(sync);
      var a := OrEmpty(async);
      subscriptions := subscriptions + [Subscription(matcher, s, a)];
    }
  }
}
