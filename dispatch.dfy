/** `dispatch` of the command pipeline: every subscription whose matcher accepts
    the event runs its synchronous reactors in order, stopping at the first
    error, then launches its asynchronous reactors. A launch is recorded as a
    step of the returned trace; what an asynchronous reactor does is not modelled. */
module Dispatch {
  import opened Common
  import opened Events
  import opened Reactors

  datatype Step = RanSync(sync: SyncReactor) | Launched(async: AsyncReactor)

  /** What each synchronous reactor returns for an event: its error, or `None`. */
  type SyncOutcome = (SyncReactor, Event) -> Option<Error>

  /** The error dispatch returns and the reactors it ran or launched, in order. */
  datatype Run = Run(err: Option<Error>, trace: seq<Step>)

  function Syncs(rs: seq<SyncReactor>): (t: seq<Step>)
    ensures |t| == |rs| && forall i | 0 <= i < |rs| :: t[i] == RanSync(rs[i])
  {
    if rs == [] then [] else Syncs(rs[..|rs| - 1]) + [RanSync(rs[|rs| - 1])]
  }

  function Launches(asyncs: seq<AsyncReactor>): (t: seq<Step>)
    ensures |t| == |asyncs| && forall i | 0 <= i < |asyncs| :: t[i] == Launched(asyncs[i])
  {
    if asyncs == [] then [] else Launches(asyncs[..|asyncs| - 1]) + [Launched(asyncs[|asyncs| - 1])]
  }

  /** Running synchronous reactors one after the other; the first error stops
      the rest. The reactors that ran are always a prefix of `rs`, all of it
      when none failed. */
  function RunSyncs(rs: seq<SyncReactor>, e: Event, outcome: SyncOutcome): (r: Run)
    ensures r.trace <= Syncs(rs)
    ensures r.err.None? ==> |r.trace| == |rs|
    decreases |rs|
  {
    if rs == [] then Run(None, [])
    else
      var prev := RunSyncs(rs[..|rs| - 1], e, outcome);
      if prev.err.Some? then prev
      else Run(outcome(rs[|rs| - 1], e), prev.trace + [RanSync(rs[|rs| - 1])])
  }

  /** One subscription: nothing unless it matches; its asynchronous reactors are
      launched only once all its synchronous ones succeeded. What ran is a
      prefix of the subscription's share, all of it on success. */
  function Visit(s: Subscription, e: Event, outcome: SyncOutcome): (r: Run)
    requires Typed(e)
    ensures r.trace <= Share(s, e)
    ensures r.err.None? ==> r.trace == Share(s, e)
  {
    TypedEventsEvaluable(s.matcher, e);
    if !Matches(s.matcher, e) then Run(None, [])
    else
      var r := RunSyncs(s.sync, e, outcome);
      PrefixOfConcat(r.trace, Syncs(s.sync), Launches(s.async));
      if r.err.Some? then r else Run(None, r.trace + Launches(s.async))
  }

  /** Dispatch over the subscriptions in registration order. Whatever fails,
      what ran is a prefix of the reference trace, and all of it on success. */
  function DispatchRun(subs: seq<Subscription>, e: Event, outcome: SyncOutcome): (r: Run)
    requires Typed(e)
    ensures r.trace <= FullTrace(subs, e)
    ensures r.err.None? ==> r.trace == FullTrace(subs, e)
    decreases |subs|
  {
    if subs == [] then Run(None, [])
    else
      var prev := DispatchRun(subs[..|subs| - 1], e, outcome);
      if prev.err.Some? then prev
      else
        var v := Visit(subs[|subs| - 1], e, outcome);
        Run(v.err, prev.trace + v.trace)
  }

  /** Reference definition: the trace of a dispatch in which no reactor fails,
      subscription by subscription. */
  function FullTrace(subs: seq<Subscription>, e: Event): seq<Step>
    requires Typed(e)
    decreases |subs|
  {
    if subs == [] then []
    else
      FullTrace(subs[..|subs| - 1], e) + Share(subs[|subs| - 1], e)
  }

  /** One subscription's share of the reference trace: its synchronous reactors
      then its launches when it matches, nothing otherwise. */
  function Share(s: Subscription, e: Event): seq<Step>
    requires Typed(e)
  {
    TypedEventsEvaluable(s.matcher, e);
    if Matches(s.matcher, e) then Syncs(s.sync) + Launches(s.async) else []
  }

  /** All the synchronous reactors in `rs` succeed. */
  predicate AllSucceed(rs: seq<SyncReactor>, e: Event, outcome: SyncOutcome) {
    forall j | 0 <= j < |rs| :: outcome(rs[j], e).None?
  }

  /** Every matching subscription's synchronous reactors succeed. */
  predicate AllMatchingSucceed(subs: seq<Subscription>, e: Event, outcome: SyncOutcome)
    requires Typed(e)
  {
    forall i | 0 <= i < |subs| ::
      (TypedEventsEvaluable(subs[i].matcher, e); Matches(subs[i].matcher, e)) ==> AllSucceed(subs[i].sync, e, outcome)
  }

  /** Synchronous reactors that all succeed all run, and only then is there no error. */
  lemma {:induction false} RunSyncsSucceed(rs: seq<SyncReactor>, e: Event, outcome: SyncOutcome)
    ensures RunSyncs(rs, e, outcome).err.None? <==> AllSucceed(rs, e, outcome)
    ensures RunSyncs(rs, e, outcome).err.None? ==> RunSyncs(rs, e, outcome).trace == Syncs(rs)
    decreases |rs|
  {
    if rs != [] {
      var init := rs[..|rs| - 1];
      RunSyncsSucceed(init, e, outcome);
      assert forall j | 0 <= j < |init| :: init[j] == rs[j];
    }
  }

  /** A failed run stops at reactor `k`: those before it succeeded, its error is
      returned, and the run's trace ends with it. */
  lemma {:induction false} RunSyncsStop(rs: seq<SyncReactor>, e: Event, outcome: SyncOutcome) returns (k: nat)
    requires RunSyncs(rs, e, outcome).err.Some?
    ensures k < |rs| && AllSucceed(rs[..k], e, outcome)
    ensures RunSyncs(rs, e, outcome) == Run(outcome(rs[k], e), Syncs(rs[..k + 1]))
    decreases |rs|
  {
    var init := rs[..|rs| - 1];
    var prev := RunSyncs(init, e, outcome);
    if prev.err.Some? {
      k := RunSyncsStop(init, e, outcome);
      assert init[k] == rs[k];
      PrefixOfPrefix(rs, |rs| - 1, k);
      PrefixOfPrefix(rs, |rs| - 1, k + 1);
    } else {
      k := |rs| - 1;
      RunSyncsSucceed(init, e, outcome);
      assert rs[..k] == init;
      assert rs[..k + 1] == rs;
    }
  }

  /** Synchronous reactors succeed together or stop at the first failing one,
      whose error is returned; none after it runs. */
  lemma RunSyncsSpec(rs: seq<SyncReactor>, e: Event, outcome: SyncOutcome)
    ensures var r := RunSyncs(rs, e, outcome);
      && (r.err.None? <==> AllSucceed(rs, e, outcome))
      && (r.err.None? ==> r.trace == Syncs(rs))
      && (r.err.Some? ==> exists k | 0 <= k < |rs| ::
            && AllSucceed(rs[..k], e, outcome)
            && r.err == outcome(rs[k], e)
            && r.trace == Syncs(rs[..k + 1]))
  {
    RunSyncsSucceed(rs, e, outcome);
    if RunSyncs(rs, e, outcome).err.Some? {
      var k := RunSyncsStop(rs, e, outcome);
    }
  }

  /** Extending a set of subscriptions changes nothing once dispatch has failed. */
  lemma {:induction false} DispatchFailureSticks(subs: seq<Subscription>, n: nat, e: Event, outcome: SyncOutcome)
    requires Typed(e) && n <= |subs|
    requires DispatchRun(subs[..n], e, outcome).err.Some?
    ensures DispatchRun(subs, e, outcome) == DispatchRun(subs[..n], e, outcome)
    decreases |subs| - n
  {
    if n < |subs| {
      assert subs[..|subs| - 1][..n] == subs[..n];
      DispatchFailureSticks(subs[..|subs| - 1], n, e, outcome);
    } else {
      assert subs[..n] == subs;
    }
  }

  /** The same for synchronous reactors. */
  lemma {:induction false} SyncFailureSticks(rs: seq<SyncReactor>, n: nat, e: Event, outcome: SyncOutcome)
    requires n <= |rs|
    requires RunSyncs(rs[..n], e, outcome).err.Some?
    ensures RunSyncs(rs, e, outcome) == RunSyncs(rs[..n], e, outcome)
    decreases |rs| - n
  {
    if n < |rs| {
      assert rs[..|rs| - 1][..n] == rs[..n];
      SyncFailureSticks(rs[..|rs| - 1], n, e, outcome);
    } else {
      assert rs[..n] == rs;
    }
  }

  /** One subscription's visit succeeds unless it matches and one of its
      synchronous reactors fails; a successful visit's trace is its share of the
      reference trace. */
  lemma VisitSucceeds(s: Subscription, e: Event, outcome: SyncOutcome)
    requires Typed(e)
    ensures (TypedEventsEvaluable(s.matcher, e);
      Visit(s, e, outcome).err.None? <==> (Matches(s.matcher, e) ==> AllSucceed(s.sync, e, outcome)))
    ensures (TypedEventsEvaluable(s.matcher, e);
      Visit(s, e, outcome).err.None? ==>
        Visit(s, e, outcome).trace == if Matches(s.matcher, e) then Syncs(s.sync) + Launches(s.async) else [])
  {
    TypedEventsEvaluable(s.matcher, e);
    RunSyncsSucceed(s.sync, e, outcome);
  }

  /** `AllMatchingSucceed` over a longer bus is the shorter one's and the last subscription's. */
  lemma AllMatchingSucceedSnoc(subs: seq<Subscription>, e: Event, outcome: SyncOutcome)
    requires Typed(e) && subs != []
    ensures var s := subs[|subs| - 1];
      (TypedEventsEvaluable(s.matcher, e);
       AllMatchingSucceed(subs, e, outcome) <==>
         AllMatchingSucceed(subs[..|subs| - 1], e, outcome) && (Matches(s.matcher, e) ==> AllSucceed(s.sync, e, outcome)))
  {
    var init := subs[..|subs| - 1];
    assert forall i | 0 <= i < |init| :: init[i] == subs[i];
  }

  /** Dispatch succeeds exactly when every matching subscription's synchronous
      reactors succeed, and then its trace is the reference trace: each matching
      subscription's synchronous reactors in order, then its launches. */
  lemma {:induction false} DispatchSucceedsIffAllSucceed(subs: seq<Subscription>, e: Event, outcome: SyncOutcome)
    requires Typed(e)
    ensures DispatchRun(subs, e, outcome).err.None? <==> AllMatchingSucceed(subs, e, outcome)
    ensures DispatchRun(subs, e, outcome).err.None? ==> DispatchRun(subs, e, outcome).trace == FullTrace(subs, e)
    decreases |subs|
  {
    if subs != [] {
      var init := subs[..|subs| - 1];
      DispatchSucceedsIffAllSucceed(init, e, outcome);
      VisitSucceeds(subs[|subs| - 1], e, outcome);
      AllMatchingSucceedSnoc(subs, e, outcome);
    }
  }

  /** Dispatch over `subs` failed at synchronous reactor `k` of subscription `i`:
      everything before ran without error, that subscription matched, and the
      run is the earlier subscriptions' reference trace followed by its
      synchronous reactors up to and including the failing one. */
  predicate FailedAt(subs: seq<Subscription>, i: int, k: int, e: Event, outcome: SyncOutcome, r: Run)
    requires Typed(e)
  {
    && 0 <= i < |subs| && 0 <= k < |subs[i].sync|
    && AllMatchingSucceed(subs[..i], e, outcome)
    && (TypedEventsEvaluable(subs[i].matcher, e); Matches(subs[i].matcher, e))
    && AllSucceed(subs[i].sync[..k], e, outcome)
    && r.err == outcome(subs[i].sync[k], e)
    && r.trace == FullTrace(subs[..i], e) + Syncs(subs[i].sync[..k + 1])
  }

  /** A failed dispatch returns the error of the first failing synchronous
      reactor of some matching subscription; no later reactor runs and none of
      that subscription's or any later subscription's asynchronous reactors is
      launched. */
  lemma {:induction false} DispatchFailureShape(subs: seq<Subscription>, e: Event, outcome: SyncOutcome)
    returns (i: nat, k: nat)
    requires Typed(e)
    requires DispatchRun(subs, e, outcome).err.Some?
    ensures FailedAt(subs, i, k, e, outcome, DispatchRun(subs, e, outcome))
    decreases |subs|
  {
    var init := subs[..|subs| - 1];
    var prev := DispatchRun(init, e, outcome);
    if prev.err.Some? {
      i, k := DispatchFailureShape(init, e, outcome);
      FailedAtExtends(subs, i, k, e, outcome, prev);
    } else {
      i := |subs| - 1;
      k := LastFails(subs, e, outcome);
    }
  }

  lemma FailedAtExtends(subs: seq<Subscription>, i: nat, k: nat, e: Event, outcome: SyncOutcome, r: Run)
    requires Typed(e) && subs != []
    requires FailedAt(subs[..|subs| - 1], i, k, e, outcome, r)
    ensures FailedAt(subs, i, k, e, outcome, r)
  {
    var init := subs[..|subs| - 1];
    assert init[..i] == subs[..i];
    assert init[i] == subs[i];
  }

  lemma LastFails(subs: seq<Subscription>, e: Event, outcome: SyncOutcome) returns (k: nat)
    requires Typed(e) && subs != []
    requires DispatchRun(subs[..|subs| - 1], e, outcome).err.None?
    requires DispatchRun(subs, e, outcome).err.Some?
    ensures FailedAt(subs, |subs| - 1, k, e, outcome, DispatchRun(subs, e, outcome))
  {
    var init := subs[..|subs| - 1];
    var s := subs[|subs| - 1];
    DispatchSucceedsIffAllSucceed(init, e, outcome);
    TypedEventsEvaluable(s.matcher, e);
    k := RunSyncsStop(s.sync, e, outcome);
    assert subs[..|subs| - 1] == init;
  }

  /** The synchronous loop of one subscription, returning at the first error. */
  method RunSyncLoop(rs: seq<SyncReactor>, e: Event, outcome: SyncOutcome) returns (err: Option<Error>, steps: seq<Step>)
    ensures Run(err, steps) == RunSyncs(rs, e, outcome)
  {
    steps := [];
    var j := 0;
    while j < |rs|
      invariant 0 <= j <= |rs|
      invariant RunSyncs(rs[..j], e, outcome) == Run(None, steps)
    {
      assert rs[..j + 1][..j] == rs[..j];
      err := outcome(rs[j], e);
      steps := steps + [RanSync(rs[j])];
      if err.Some? {
        SyncFailureSticks(rs, j + 1, e, outcome);
        return err, steps;
      }
      j := j + 1;
    }
    assert rs[..j] == rs;
    err := None;
  }

  /** The `go asyncReactor(ctx, event)` loop of one subscription. */
  method LaunchAll(asyncs: seq<AsyncReactor>) returns (launches: seq<Step>)
    ensures launches == Launches(asyncs)
  {
    launches := [];
    var k := 0;
    while k < |asyncs|
      invariant 0 <= k <= |asyncs|
      invariant launches == Launches(asyncs[..k])
    {
      assert asyncs[..k + 1][..k] == asyncs[..k];
      launches := launches + [Launched(asyncs[k])];
      k := k + 1;
    }
    assert asyncs[..k] == asyncs;
  }

  /** One subscription's visit: the sync loop with its early return, then the launches. */
  method VisitSubscription(s: Subscription, e: Event, outcome: SyncOutcome) returns (err: Option<Error>, steps: seq<Step>)
    requires Typed(e)
    ensures Run(err, steps) == Visit(s, e, outcome)
  {
    TypedEventsEvaluable(s.matcher, e);
    if !Matches(s.matcher, e) {
      return None, [];
    }
    err, steps := RunSyncLoop(s.sync, e, outcome);
    if err.Some? {
      return;
    }
    var launches := LaunchAll(s.async);
    steps := steps + launches;
  }

  /** `dispatch`, reading the global bus. */
  method RunDispatch(bus: EventBus, e: Event, outcome: SyncOutcome) returns (err: Option<Error>, trace: seq<Step>)
    requires Typed(e)
    ensures Run(err, trace) == DispatchRun(bus.subscriptions, e, outcome)
  {
    var subs := bus.subscriptions;
    trace := [];
    var i := 0;
    while i < |subs|
      invariant 0 <= i <= |subs|
      invariant DispatchRun(subs[..i], e, outcome) == Run(None, trace)
    {
      assert subs[..i + 1][..i] == subs[..i];
      var steps;
      err, steps := VisitSubscription(subs[i], e, outcome);
      trace := trace + steps;
      if err.Some? {
        DispatchFailureSticks(subs, i + 1, e, outcome);
        return;
      }
      i := i + 1;
    }
    assert subs[..i] == subs;
    err := None;
  }
}
