/** The older reactor registry of `dispatcher.go`: a map from an event type key
    to the synchronous and asynchronous reactors registered for it, and its own
    `dispatch`. It redeclares the reactor types, so it is a module of its own. */
module LegacyDispatcher {
  import opened Common
  import opened Payloads
  import opened Events
  import Reactors

  datatype SyncReactor = SyncReactor(name: string)

  datatype AsyncReactor = AsyncReactor(name: string)

  /** `registryReactors`. */
  datatype RegistryReactors = RegistryReactors(sync: seq<SyncReactor>, async: seq<AsyncReactor>)

  /** What each synchronous reactor returns for an event: its error, or `None`. */
  type Outcome = (SyncReactor, Event) -> Option<Error>

  /** The entry for a key, or two empty lists when there is none. */
  function EntryOf(entries: map<string, RegistryReactors>, key: string): RegistryReactors {
    if key in entries then entries[key] else RegistryReactors([], [])
  }

  /** The registry after `On(ed, sync, async)`: both lists appended to those
      already registered under the payload's key; `nil` lists count as empty. */
  function OnRegistered(entries: map<string, RegistryReactors>, ed: EventData,
                        sync: Option<seq<SyncReactor>>, async: Option<seq<AsyncReactor>>): (r: map<string, RegistryReactors>)
    ensures KeyOf(ed) in r
    ensures r[KeyOf(ed)].sync == EntryOf(entries, KeyOf(ed)).sync + Reactors.OrEmpty(sync)
    ensures r[KeyOf(ed)].async == EntryOf(entries, KeyOf(ed)).async + Reactors.OrEmpty(async)
    ensures forall k :: k != KeyOf(ed) ==> (k in r <==> k in entries)
    ensures forall k | k in entries && k != KeyOf(ed) :: r[k] == entries[k]
  {
    var key := KeyOf(ed);
    var prior := EntryOf(entries, key);
    entries[key := RegistryReactors(prior.sync + Reactors.OrEmpty(sync), prior.async + Reactors.OrEmpty(async))]
  }

  /** Two registrations for one key chain their lists in registration order. */
  lemma OnTwiceConcatenates(entries: map<string, RegistryReactors>, ed: EventData,
                            s1: seq<SyncReactor>, a1: seq<AsyncReactor>, s2: seq<SyncReactor>, a2: seq<AsyncReactor>)
    ensures var r := OnRegistered(OnRegistered(entries, ed, Some(s1), Some(a1)), ed, Some(s2), Some(a2));
      r[KeyOf(ed)] == RegistryReactors(EntryOf(entries, KeyOf(ed)).sync + s1 + s2, EntryOf(entries, KeyOf(ed)).async + a1 + a2)
  {
    var key := KeyOf(ed);
    assert EntryOf(entries, key).sync + s1 + s2 == (EntryOf(entries, key).sync + s1) + s2;
  }

  /** Registrations under different keys commute. */
  lemma OnDifferentKeysCommute(entries: map<string, RegistryReactors>, p: EventData, q: EventData,
                               sp: Option<seq<SyncReactor>>, ap: Option<seq<AsyncReactor>>,
                               sq: Option<seq<SyncReactor>>, aq: Option<seq<AsyncReactor>>)
    requires KeyOf(p) != KeyOf(q)
    ensures OnRegistered(OnRegistered(entries, p, sp, ap), q, sq, aq) == OnRegistered(OnRegistered(entries, q, sq, aq), p, sp, ap)
  {
    var pq := OnRegistered(OnRegistered(entries, p, sp, ap), q, sq, aq);
    var qp := OnRegistered(OnRegistered(entries, q, sq, aq), p, sp, ap);
    assert pq.Keys == qp.Keys;
    assert forall k | k in pq :: pq[k] == qp[k];
  }

  /** A first registration with `nil` lists still creates an empty entry. */
  lemma FirstRegistrationCreatesEntry(entries: map<string, RegistryReactors>, ed: EventData)
    requires KeyOf(ed) !in entries
    ensures OnRegistered(entries, ed, None, None)[KeyOf(ed)] == RegistryReactors([], [])
  {
  }

  /** The error a run of synchronous reactors returned and the reactors that
      ran, the failing one included. */
  datatype SyncRun = SyncRun(err: Option<Error>, ran: seq<SyncReactor>)

  /** Running synchronous reactors in order; the first error stops the rest. */
  function RunSyncs(rs: seq<SyncReactor>, e: Event, outcome: Outcome): SyncRun
    decreases |rs|
  {
    if rs == [] then SyncRun(None, [])
    else
      var prev := RunSyncs(rs[..|rs| - 1], e, outcome);
      if prev.err.Some? then prev else SyncRun(outcome(rs[|rs| - 1], e), prev.ran + [rs[|rs| - 1]])
  }

  /** Every reactor of `rs` returns no error for `e`. */
  predicate AllSucceed(rs: seq<SyncReactor>, e: Event, outcome: Outcome) {
    forall j | 0 <= j < |rs| :: outcome(rs[j], e).None?
  }

  lemma AllSucceedSnoc(rs: seq<SyncReactor>, e: Event, outcome: Outcome)
    requires rs != []
    ensures AllSucceed(rs, e, outcome) <==> AllSucceed(rs[..|rs| - 1], e, outcome) && outcome(rs[|rs| - 1], e).None?
  {
    var init := rs[..|rs| - 1];
    assert forall j | 0 <= j < |init| :: init[j] == rs[j];
  }

  /** The run has no error exactly when every reactor succeeds, and then all of them ran. */
  lemma {:induction false} RunSyncsSucceed(rs: seq<SyncReactor>, e: Event, outcome: Outcome)
    ensures RunSyncs(rs, e, outcome).err.None? <==> AllSucceed(rs, e, outcome)
    ensures RunSyncs(rs, e, outcome).err.None? ==> RunSyncs(rs, e, outcome).ran == rs
    decreases |rs|
  {
    if rs != [] {
      var init := rs[..|rs| - 1];
      var last := rs[|rs| - 1];
      RunSyncsSucceed(init, e, outcome);
      AllSucceedSnoc(rs, e, outcome);
      if RunSyncs(init, e, outcome).err.None? {
        assert init + [last] == rs;
        assert RunSyncs(rs, e, outcome) == SyncRun(outcome(last, e), init + [last]);
      }
    }
  }

  /** A failed run stopped at reactor `k`: those before it succeeded, its error
      is returned and the reactors up to it ran. */
  lemma {:induction false} RunSyncsStop(rs: seq<SyncReactor>, e: Event, outcome: Outcome) returns (k: nat)
    requires RunSyncs(rs, e, outcome).err.Some?
    ensures k < |rs| && AllSucceed(rs[..k], e, outcome)
    ensures RunSyncs(rs, e, outcome) == SyncRun(outcome(rs[k], e), rs[..k + 1])
    decreases |rs|
  {
    var init := rs[..|rs| - 1];
    if RunSyncs(init, e, outcome).err.Some? {
      k := RunSyncsStop(init, e, outcome);
      assert init[k] == rs[k];
      PrefixOfPrefix(rs, |rs| - 1, k);
      PrefixOfPrefix(rs, |rs| - 1, k + 1);
    } else {
      k := |rs| - 1;
      RunSyncsSucceed(init, e, outcome);
      assert rs[..k] == init;
      assert rs[..k + 1] == rs;
    }
  }

  /** The synchronous reactors either all succeed and all run, or the first
      failing one's error is returned and only the reactors up to it ran. */
  lemma RunSyncsSpec(rs: seq<SyncReactor>, e: Event, outcome: Outcome)
    ensures var r := RunSyncs(rs, e, outcome);
      && (r.err.None? <==> AllSucceed(rs, e, outcome))
      && (r.err.None? ==> r.ran == rs)
      && (r.err.Some? ==> exists k | 0 <= k < |rs| ::
            && AllSucceed(rs[..k], e, outcome)
            && r.err == outcome(rs[k], e) && r.ran == rs[..k + 1])
  {
    RunSyncsSucceed(rs, e, outcome);
    if RunSyncs(rs, e, outcome).err.Some? {
      var k := RunSyncsStop(rs, e, outcome);
    }
  }

  /** The error a dispatch returns, the synchronous reactors it ran and the
      asynchronous reactors it launched. */
  datatype LegacyRun = LegacyRun(err: Option<Error>, ran: seq<SyncReactor>, launched: seq<AsyncReactor>)

  /** `dispatch`: the key comes from the event's payload (a payload-less event
      makes the type assertion panic); asynchronous reactors are launched only
      once every synchronous one succeeded. */
  function DispatchRun(entries: map<string, RegistryReactors>, e: Event, outcome: Outcome): LegacyRun
    requires e.data.Payload?
  {
    var key := KeyOf(e.data.ed);
    if key !in entries then LegacyRun(None, [], [])
    else
      var run := RunSyncs(entries[key].sync, e, outcome);
      if run.err.Some? then LegacyRun(run.err, run.ran, []) else LegacyRun(None, run.ran, entries[key].async)
  }

  /** Dispatch in full: nothing runs without an entry; otherwise every
      synchronous reactor succeeds, all run and every asynchronous one is
      launched, or the first failure is returned and nothing is launched. */
  lemma DispatchSpec(entries: map<string, RegistryReactors>, e: Event, outcome: Outcome)
    requires e.data.Payload?
    ensures KeyOf(e.data.ed) !in entries ==> DispatchRun(entries, e, outcome) == LegacyRun(None, [], [])
    ensures KeyOf(e.data.ed) in entries ==>
      var r := entries[KeyOf(e.data.ed)];
      var d := DispatchRun(entries, e, outcome);
      && (d.err.None? <==> AllSucceed(r.sync, e, outcome))
      && (d.err.None? ==> d.ran == r.sync && d.launched == r.async)
      && (d.err.Some? ==> d.launched == [] && exists k | 0 <= k < |r.sync| ::
            && AllSucceed(r.sync[..k], e, outcome)
            && d.err == outcome(r.sync[k], e) && d.ran == r.sync[..k + 1])
  {
    if KeyOf(e.data.ed) in entries {
      RunSyncsSpec(entries[KeyOf(e.data.ed)].sync, e, outcome);
    }
  }

  /** The key is read from the payload: the event's own type fields play no
      part in which reactors run, as long as the reactors answer alike. */
  lemma DispatchIgnoresEventFields(entries: map<string, RegistryReactors>, e: Event, outcome: Outcome,
                                   aggregateType: string, action: string, version: u64)
    requires e.data.Payload?
    requires forall r: SyncReactor :: outcome(r, e.(aggregateType := aggregateType, action := action, version := version)) == outcome(r, e)
    ensures DispatchRun(entries, e.(aggregateType := aggregateType, action := action, version := version), outcome)
         == DispatchRun(entries, e, outcome)
  {
    var e' := e.(aggregateType := aggregateType, action := action, version := version);
    if KeyOf(e.data.ed) in entries {
      SameOutcomesSameRun(entries[KeyOf(e.data.ed)].sync, e, e', outcome);
    }
  }

  /** Runs over two events the reactors answer alike are alike. */
  lemma {:induction false} SameOutcomesSameRun(rs: seq<SyncReactor>, e: Event, e': Event, outcome: Outcome)
    requires forall j | 0 <= j < |rs| :: outcome(rs[j], e) == outcome(rs[j], e')
    ensures RunSyncs(rs, e, outcome) == RunSyncs(rs, e', outcome)
    decreases |rs|
  {
    if rs != [] {
      var init := rs[..|rs| - 1];
      assert forall j | 0 <= j < |init| :: init[j] == rs[j];
      SameOutcomesSameRun(init, e, e', outcome);
    }
  }

  /** The global `reactorRegistry`. */
  class ReactorRegistry {
    var entries: map<string, RegistryReactors>

    constructor ()
      ensures entries == map[]
    {
      entries := map[];
    }

    /** `On`: a read-modify-write of the entry under the payload's key. */
    method On(ed: EventData, sync: Option<seq<SyncReactor>>, async: Option<seq<AsyncReactor>>)
      modifies this
      ensures entries == OnRegistered(old(entries), ed, sync, async)
    {
      var key := KeyOf(ed);
      var s := Reactors.OrEmpty(sync);
      var a := Reactors.OrEmpty(async);
      var newSync: seq<SyncReactor>;
      var newAsync: seq<AsyncReactor>;
      if key in entries {
        newSync, newAsync := entries[key].sync, entries[key].async;
      } else {
        newSync, newAsync := [], [];
      }
      newSync := newSync + s;
      newAsync := newAsync + a;
      entries := entries[key := RegistryReactors(newSync, newAsync)];
    }

    /** `dispatch`. */
    method Dispatch(e: Event, outcome: Outcome) returns (err: Option<Error>, ran: seq<SyncReactor>, launched: seq<AsyncReactor>)
      requires e.data.Payload?
      ensures LegacyRun(err, ran, launched) == DispatchRun(entries, e, outcome)
    {
      var key := KeyOf(e.data.ed);
      ran, launched := [], [];
      if key !in entries {
        return None, ran, launched;
      }
      var r := entries[key];
      err, ran := SyncLoop(r.sync, e, outcome);
      if err.Some? {
        return;
      }
      launched := LaunchLoop(r.async);
    }
  }

  /** The loop over the entry's synchronous reactors, returning at the first error. */
  method SyncLoop(rs: seq<SyncReactor>, e: Event, outcome: Outcome) returns (err: Option<Error>, ran: seq<SyncReactor>)
    ensures SyncRun(err, ran) == RunSyncs(rs, e, outcome)
  {
    ran := [];
    var i := 0;
    while i < |rs|
      invariant 0 <= i <= |rs|
      invariant AllSucceed(rs[..i], e, outcome) && ran == rs[..i]
    {
      err := outcome(rs[i], e);
      ran := ran + [rs[i]];
      assert ran == rs[..i + 1];
      if err.Some? {
        StopsAtFirstFailure(rs, i, e, outcome);
        return;
      }
      AllSucceedSnoc(rs[..i + 1], e, outcome);
      assert rs[..i + 1][..i] == rs[..i];
      i := i + 1;
    }
    assert rs[..i] == rs;
    RunSyncsSucceed(rs, e, outcome);
    err := None;
  }

  /** The `go asyncReactor(event)` loop: every asynchronous reactor launched, in order. */
  method LaunchLoop(asyncs: seq<AsyncReactor>) returns (launched: seq<AsyncReactor>)
    ensures launched == asyncs
  {
    launched := [];
    var j := 0;
    while j < |asyncs|
      invariant 0 <= j <= |asyncs|
      invariant launched == asyncs[..j]
    {
      assert asyncs[..j + 1] == asyncs[..j] + [asyncs[j]];
      launched := launched + [asyncs[j]];
      j := j + 1;
    }
    assert asyncs[..j] == asyncs;
  }


  /** The reactor a failed run stopped at is the first failing one. */
  lemma StopsAtFirstFailure(rs: seq<SyncReactor>, i: nat, e: Event, outcome: Outcome)
    requires i < |rs| && AllSucceed(rs[..i], e, outcome) && outcome(rs[i], e).Some?
    ensures RunSyncs(rs, e, outcome) == SyncRun(outcome(rs[i], e), rs[..i + 1])
  {
    RunSyncsSucceed(rs, e, outcome);
    var k := RunSyncsStop(rs, e, outcome);
    PrefixSucceeds(rs, i, e, outcome);
    PrefixSucceeds(rs, k, e, outcome);
  }

  lemma PrefixSucceeds(rs: seq<SyncReactor>, n: nat, e: Event, outcome: Outcome)
    requires n <= |rs| && AllSucceed(rs[..n], e, outcome)
    ensures forall j | 0 <= j < n :: outcome(rs[j], e).None?
  {
    assert forall j | 0 <= j < n :: rs[..n][j] == rs[j];
  }
}
