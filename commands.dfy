/** The command pipeline `ExecuteTx` / `Execute` against an abstract
    transactional store, instantiated on the user aggregate: the only aggregate
    whose payloads implement `EventData.Apply(Aggregate, Event)`. */
module Commands {
  import opened Common
  import opened Aggregates
  import opened Payloads
  import opened UserDomain
  import opened Events
  import opened Reactors
  import opened Dispatch

  // The store

  /** The relational store: user rows by identifier, and one append-only table
      of event records per table name. */
  datatype StoreState = StoreState(rows: map<string, UserRow>, tables: map<string, seq<EventStore>>)

  /** Every row is stored under its own identifier, as under a primary key. */
  predicate RowsKeyed(st: StoreState) {
    forall id | id in st.rows :: st.rows[id].base.id == id
  }

  /** The records of a table; a table never written is empty. */
  function TableOf(st: StoreState, name: string): seq<EventStore> {
    if name in st.tables then st.tables[name] else []
  }

  /** `tx.Save(aggregate)`: an upsert of the aggregate's row, keyed by its identifier. */
  function Saved(st: StoreState, u: UserRow): (r: StoreState)
    ensures u.base.id in r.rows && r.rows[u.base.id] == u
    ensures forall id :: id != u.base.id ==> (id in r.rows <==> id in st.rows)
    ensures forall id | id in st.rows && id != u.base.id :: r.rows[id] == st.rows[id]
    ensures r.tables == st.tables
  {
    st.(rows := st.rows[u.base.id := u])
  }

  /** `tx.Create(&eventStore)`: one record appended to the table `TableName` names. */
  function Appended(st: StoreState, rec: EventStore): (r: StoreState)
    ensures TableOf(r, TableName(rec)) == TableOf(st, TableName(rec)) + [rec]
    ensures forall name :: name != TableName(rec) ==> TableOf(r, name) == TableOf(st, name)
    ensures r.rows == st.rows
  {
    st.(tables := st.tables[TableName(rec) := TableOf(st, TableName(rec)) + [rec]])
  }

  /** The row a `FOR UPDATE` query into the aggregate loads; when no row has the
      identifier the query's error is discarded and the aggregate is kept. */
  function Reload(u: UserRow, rows: map<string, UserRow>): (r: UserRow)
    ensures u.base.id in rows ==> r == rows[u.base.id]
    ensures u.base.id !in rows ==> r == u
  {
    if u.base.id in rows then rows[u.base.id] else u
  }

  /** The aggregate after the lock step: reloaded only if it already has an identifier. */
  function Locked(u: UserRow, st: StoreState): (r: UserRow)
    ensures NotYetCreated(u.base) ==> r == u
    ensures RowsKeyed(st) ==> r.base.id == u.base.id
  {
    if u.base.id != "" then Reload(u, st.rows) else u
  }

  /** The database with one open transaction: `state` is what the transaction
      sees, `snapshot` what a rollback returns to, `locked` the rows it locked. */
  class Store {
    var state: StoreState
    var snapshot: StoreState
    ghost var locked: set<string>

    constructor (init: StoreState)
      ensures state == init && snapshot == init && locked == {}
    {
      state, snapshot, locked := init, init, {};
    }

    /** `DB.Begin()`. */
    method Begin()
      modifies this
      ensures state == old(state) && snapshot == old(state) && locked == {}
    {
      snapshot := state;
      locked := {};
    }

    /** `tx.Commit()`; `fails` is whether the database refuses it. */
    method Commit(fails: bool) returns (err: Option<Error>)
      modifies this
      ensures fails ==> err == Some(CommitFailed) && state == old(state) && snapshot == old(snapshot)
      ensures fails ==> locked == old(locked)
      ensures !fails ==> err == None && state == old(state) && snapshot == old(state) && locked == {}
    {
      if fails {
        return Some(CommitFailed);
      }
      snapshot := state;
      locked := {};
      err := None;
    }

    /** `tx.Rollback()`: the store returns to the snapshot. */
    method Rollback()
      modifies this
      ensures state == old(snapshot) && snapshot == old(snapshot) && locked == {}
    {
      state := snapshot;
      locked := {};
    }

    /** `tx.Set("gorm:query_option", "FOR UPDATE").First(aggregate)`. */
    method LockAndReload(user: User)
      modifies this, user, user.base
      ensures locked == old(locked) + {old(user.base.id)}
      ensures state == old(state) && snapshot == old(snapshot)
      ensures user.Value() == Reload(old(user.Value()), state.rows)
    {
      var id := user.base.GetID();
      locked := locked + {id};
      if id in state.rows {
        var row := state.rows[id];
        user.base.Load(row.base);
        user.firstName, user.lastName, user.addresses := row.firstName, row.lastName, row.addresses;
      }
    }

    /** `tx.Save(aggregate)`; `fails` is whether the database refuses it. */
    method Save(user: User, fails: bool) returns (err: Option<Error>)
      modifies this
      ensures fails ==> err == Some(SaveFailed) && state == old(state)
      ensures !fails ==> err == None && state == Saved(old(state), user.Value())
      ensures snapshot == old(snapshot) && locked == old(locked)
    {
      if fails {
        return Some(SaveFailed);
      }
      state := Saved(state, user.Value());
      err := None;
    }

    /** `tx.Create(&eventStore)`; `fails` is whether the database refuses it. */
    method Create(rec: EventStore, fails: bool) returns (err: Option<Error>)
      modifies this
      ensures fails ==> err == Some(CreateFailed) && state == old(state)
      ensures !fails ==> err == None && state == Appended(old(state), rec)
      ensures snapshot == old(snapshot) && locked == old(locked)
    {
      if fails {
        return Some(CreateFailed);
      }
      state := Appended(state, rec);
      err := None;
    }
  }

  // Commands

  /** The commands run on a user: the two example commands, and any other
      `Command` given by its aggregate type and the outcomes of its `Validate`
      and `BuildEvent` (payload and non-persisted value). */
  datatype Command =
    | CreateUser(create: UserDomain.Create)
    | UpdateUserFirstName(update: UserDomain.UpdateFirstName)
    | Custom(aggregateType: string, validation: Option<Error>, built: Result<(EventData, Option<Json>)>)

  /** `command.AggregateType()`. */
  function CommandType(cmd: Command): string {
    match cmd
    case CreateUser(_) => "user"
    case UpdateUserFirstName(_) => "user"
    case Custom(t, _, _) => t
  }

  /** `command.Validate(ctx, tx, aggregate)`. */
  function ValidateCommand(cmd: Command, u: UserRow): Option<Error> {
    match cmd
    case CreateUser(c) => ValidateCreate(c, u)
    case UpdateUserFirstName(c) => ValidateUpdateFirstName(c, u)
    case Custom(_, v, _) => v
  }

  /** `command.BuildEvent(ctx)`: the payload and the non-persisted value. */
  function BuildCommand(cmd: Command): Result<(EventData, Option<Json>)> {
    match cmd
    case CreateUser(c) => Success((BuildCreate(c).value, None))
    case UpdateUserFirstName(c) => Success((BuildUpdateFirstName(c).value, None))
    case Custom(_, _, b) => b
  }

  /** A command of type "user" builds a payload the user aggregate can apply;
      any other payload makes `Event.apply` panic. */
  predicate WellFormed(cmd: Command) {
    CommandType(cmd) == "user" && BuildCommand(cmd).Success? ==> BuildCommand(cmd).value.0.IsUserPayload()
  }

  /** The example commands are well formed. */
  lemma ExampleCommandsWellFormed(c: UserDomain.Create, d: UserDomain.UpdateFirstName)
    ensures WellFormed(CreateUser(c)) && WellFormed(UpdateUserFirstName(d))
  {
  }

  // The pipeline

  /** Whether the database refuses each of its three writes. */
  datatype Faults = Faults(saveFails: bool, createFails: bool, commitFails: bool)

  /** What one execution reads from outside: the new event's identifier, the
      clock, the JSON codec, the synchronous reactors' results and the store's faults. */
  datatype Env = Env(eventId: string, now: Time, codec: Codec, outcome: SyncOutcome, faults: Faults)

  /** The event `ExecuteTx` builds before `apply`: the base event with the payload as its data. */
  function StagedEvent(data: EventData, np: Option<Json>, md: Option<Metadata>, u: UserRow, env: Env): (e: Event)
    ensures e.data == Payload(data) && e.aggregateId == u.base.id
    ensures e.id == env.eventId && e.timestamp == env.now
  {
    BuildBaseEvent(data, md, np, u.base.id, env.eventId, env.now).(data := Payload(data))
  }

  /** The aggregate after `event.apply`. */
  function AppliedUser(data: EventData, np: Option<Json>, md: Option<Metadata>, u: UserRow, env: Env): UserRow
    requires data.IsUserPayload()
  {
    Applied(u, StagedEvent(data, np, md, u, env))
  }

  /** The event once `ExecuteTx` has copied the applied aggregate's identifier into it. */
  function FinalEvent(data: EventData, np: Option<Json>, md: Option<Metadata>, u: UserRow, env: Env): Event
    requires data.IsUserPayload()
  {
    StagedEvent(data, np, md, u, env).(aggregateId := AppliedUser(data, np, md, u, env).base.id)
  }

  /** The result, the aggregate, the store and the reactor trace one execution leaves. */
  datatype TxOutcome = TxOutcome(result: Result<Event>, user: UserRow, store: StoreState, trace: seq<Step>)

  /** Steps 5 to 9, once the payload is built: apply, save, serialize, append, dispatch. */
  function AfterBuild(data: EventData, np: Option<Json>, md: Option<Metadata>, u: UserRow, st: StoreState,
                      subs: seq<Subscription>, env: Env): TxOutcome
    requires data.IsUserPayload()
  {
    var u2 := AppliedUser(data, np, md, u, env);
    var e := FinalEvent(data, np, md, u, env);
    if env.faults.saveFails then TxOutcome(Failure(SaveFailed), u2, st, [])
    else
      var st1 := Saved(st, u2);
      match Serialize(e, env.codec)
      case Failure(err) => TxOutcome(Failure(err), u2, st1, [])
      case Success(rec) =>
        if env.faults.createFails then TxOutcome(Failure(CreateFailed), u2, st1, [])
        else
          var run := DispatchRun(subs, e, env.outcome);
          TxOutcome(if run.err.Some? then Failure(run.err.value) else Success(e), u2, Appended(st1, rec), run.trace)
  }

  /** `ExecuteTx` on a non-nil user: a `Failure` stands for Go's `Event{}` and the error. */
  function ExecuteTxRun(cmd: Command, u: UserRow, st: StoreState, md: Option<Metadata>,
                        subs: seq<Subscription>, env: Env): TxOutcome
    requires WellFormed(cmd)
  {
    if CommandType(cmd) != "user" then TxOutcome(Failure(TypeMismatch(CommandType(cmd), "user")), u, st, [])
    else
      var u1 := Locked(u, st);
      match ValidateCommand(cmd, u1)
      case Some(err) => TxOutcome(Failure(err), u1, st, [])
      case None =>
        match BuildCommand(cmd)
        case Failure(err) => TxOutcome(Failure(err), u1, st, [])
        case Success((data, np)) => AfterBuild(data, np, md, u1, st, subs, env)
  }

  /** `Execute`: the transaction is rolled back on any error, commit's included;
      the rollback restores the store, never the aggregate. */
  function ExecuteRun(cmd: Command, u: UserRow, st: StoreState, md: Option<Metadata>,
                      subs: seq<Subscription>, env: Env): TxOutcome
    requires WellFormed(cmd)
  {
    var tx := ExecuteTxRun(cmd, u, st, md, subs, env);
    if tx.result.Failure? then tx.(store := st)
    else if env.faults.commitFails then TxOutcome(Failure(CommitFailed), tx.user, st, tx.trace)
    else tx
  }

  /** The rows the lock step locks. */
  function LockSet(cmd: Command, u: UserRow): set<string> {
    if CommandType(cmd) == "user" && u.base.id != "" then {u.base.id} else {}
  }

  // Properties of the pipeline

  /** An upsert and an append keep every row under its own identifier. */
  lemma WritesKeepRowsKeyed(st: StoreState, u: UserRow, rec: EventStore)
    requires RowsKeyed(st)
    ensures RowsKeyed(Saved(st, u)) && RowsKeyed(Appended(st, rec))
  {
  }

  /** So does a whole execution, whatever its outcome. */
  lemma ExecuteKeepsRowsKeyed(cmd: Command, u: UserRow, st: StoreState, md: Option<Metadata>,
                              subs: seq<Subscription>, env: Env)
    requires WellFormed(cmd) && RowsKeyed(st)
    ensures RowsKeyed(ExecuteTxRun(cmd, u, st, md, subs, env).store)
    ensures RowsKeyed(ExecuteRun(cmd, u, st, md, subs, env).store)
  {
    if CommandType(cmd) == "user" && ValidateCommand(cmd, Locked(u, st)).None? && BuildCommand(cmd).Success? {
      var (data, np) := BuildCommand(cmd).value;
      AfterBuildKeepsRowsKeyed(data, np, md, Locked(u, st), st, subs, env);
    }
  }

  lemma AfterBuildKeepsRowsKeyed(data: EventData, np: Option<Json>, md: Option<Metadata>, u: UserRow, st: StoreState,
                                 subs: seq<Subscription>, env: Env)
    requires data.IsUserPayload() && RowsKeyed(st)
    ensures RowsKeyed(AfterBuild(data, np, md, u, st, subs, env).store)
  {
    var u2 := AppliedUser(data, np, md, u, env);
    var st1 := Saved(st, u2);
    WritesKeepRowsKeyed(st, u2, EmptyRecord);
    match Serialize(FinalEvent(data, np, md, u, env), env.codec)
    case Success(rec) => WritesKeepRowsKeyed(st1, u2, rec);
    case Failure(_) =>
  }

  /** A type mismatch is rejected before the lock: nothing changes, no reactor runs. */
  lemma TypeMismatchChangesNothing(cmd: Command, u: UserRow, st: StoreState, md: Option<Metadata>,
                                   subs: seq<Subscription>, env: Env)
    requires WellFormed(cmd) && CommandType(cmd) != "user"
    ensures ExecuteTxRun(cmd, u, st, md, subs, env) == TxOutcome(Failure(TypeMismatch(CommandType(cmd), "user")), u, st, [])
    ensures LockSet(cmd, u) == {}
  {
  }

  /** A `Validate` or `BuildEvent` error is returned before anything is applied,
      saved or appended; the aggregate is only what the lock step reloaded. */
  lemma EarlyErrorsChangeNothing(cmd: Command, u: UserRow, st: StoreState, md: Option<Metadata>,
                                 subs: seq<Subscription>, env: Env)
    requires WellFormed(cmd) && CommandType(cmd) == "user"
    requires ValidateCommand(cmd, Locked(u, st)).Some? || BuildCommand(cmd).Failure?
    ensures var r := ExecuteTxRun(cmd, u, st, md, subs, env);
      && r.result.Failure?
      && r.result.error == (if ValidateCommand(cmd, Locked(u, st)).Some? then ValidateCommand(cmd, Locked(u, st)).value
                            else BuildCommand(cmd).error)
      && r.user == Locked(u, st) && r.store == st && r.trace == []
  {
  }

  /** The example commands never fail to build, and fail to validate exactly on a
      first name whose byte length is outside 3..42. */
  lemma ExampleCommandErrors(c: UserDomain.Create, d: UserDomain.UpdateFirstName, u: UserRow)
    ensures BuildCommand(CreateUser(c)).Success? && BuildCommand(UpdateUserFirstName(d)).Success?
    ensures ValidateCommand(CreateUser(c), u).None? <==> 3 <= ByteLength(c.firstName) <= 42
    ensures ValidateCommand(UpdateUserFirstName(d), u).None? <==> 3 <= ByteLength(d.firstName) <= 42
  {
  }

  /** Execution succeeds exactly when every step does. */
  lemma ExecuteTxSucceedsIff(cmd: Command, u: UserRow, st: StoreState, md: Option<Metadata>,
                             subs: seq<Subscription>, env: Env)
    requires WellFormed(cmd)
    ensures ExecuteTxRun(cmd, u, st, md, subs, env).result.Success? <==>
      && CommandType(cmd) == "user"
      && ValidateCommand(cmd, Locked(u, st)).None?
      && BuildCommand(cmd).Success?
      && var (data, np) := BuildCommand(cmd).value;
         var e := FinalEvent(data, np, md, Locked(u, st), env);
         && !env.faults.saveFails
         && Serialize(e, env.codec).Success?
         && !env.faults.createFails
         && AllMatchingSucceed(subs, e, env.outcome)
  {
    if CommandType(cmd) == "user" && ValidateCommand(cmd, Locked(u, st)).None? && BuildCommand(cmd).Success? {
      var (data, np) := BuildCommand(cmd).value;
      DispatchSucceedsIffAllSucceed(subs, FinalEvent(data, np, md, Locked(u, st), env), env.outcome);
    }
  }

  /** On success: the version is one more than after the lock step, the update
      instant is the event's timestamp, the event names the applied aggregate,
      its row is upserted, exactly one record `Serialize(event)` is appended to
      the aggregate type's table, and every matching reactor ran or was launched. */
  lemma {:induction false} ExecuteTxSuccess(cmd: Command, u: UserRow, st: StoreState, md: Option<Metadata>,
                                            subs: seq<Subscription>, env: Env)
    requires WellFormed(cmd)
    requires ExecuteTxRun(cmd, u, st, md, subs, env).result.Success?
    ensures var r := ExecuteTxRun(cmd, u, st, md, subs, env);
      var e := r.result.value;
      && r.user.base.version == Inc(Locked(u, st).base.version)
      && r.user.base.updatedAt == e.timestamp == env.now
      && e.aggregateId == r.user.base.id
      && e.id == env.eventId && e.data.Payload?
      && r.store.rows == Saved(st, r.user).rows
      && Serialize(e, env.codec).Success?
      && TableOf(r.store, e.aggregateType + "_events") == TableOf(st, e.aggregateType + "_events") + [Serialize(e, env.codec).value]
      && (forall name :: name != e.aggregateType + "_events" ==> TableOf(r.store, name) == TableOf(st, name))
      && r.trace == FullTrace(subs, e)
  {
    var (data, np) := BuildCommand(cmd).value;
    AfterBuildSuccess(data, np, md, Locked(u, st), st, subs, env);
  }

  /** The same, from the built payload on. */
  lemma AfterBuildSuccess(data: EventData, np: Option<Json>, md: Option<Metadata>, u: UserRow, st: StoreState,
                          subs: seq<Subscription>, env: Env)
    requires data.IsUserPayload()
    requires AfterBuild(data, np, md, u, st, subs, env).result.Success?
    ensures var r := AfterBuild(data, np, md, u, st, subs, env);
      var e := r.result.value;
      && r.user.base.version == Inc(u.base.version)
      && r.user.base.updatedAt == e.timestamp == env.now
      && e.aggregateId == r.user.base.id
      && e.id == env.eventId && e.data.Payload?
      && r.store.rows == Saved(st, r.user).rows
      && Serialize(e, env.codec).Success?
      && TableOf(r.store, e.aggregateType + "_events") == TableOf(st, e.aggregateType + "_events") + [Serialize(e, env.codec).value]
      && (forall name :: name != e.aggregateType + "_events" ==> TableOf(r.store, name) == TableOf(st, name))
      && r.trace == FullTrace(subs, e)
  {
    DispatchSucceedsIffAllSucceed(subs, FinalEvent(data, np, md, u, env), env.outcome);
  }

  /** A created user's events carry the identifier its creation payload assigned. */
  lemma CreateAssignsAggregateId(c: UserDomain.Create, u: UserRow, st: StoreState, md: Option<Metadata>,
                                 subs: seq<Subscription>, env: Env)
    requires ExecuteTxRun(CreateUser(c), u, st, md, subs, env).result.Success?
    ensures ExecuteTxRun(CreateUser(c), u, st, md, subs, env).result.value.aggregateId == FixedId
    ensures ExecuteTxRun(CreateUser(c), u, st, md, subs, env).user.base.id == FixedId
  {
  }

  /** A failure at save, serialize, append or dispatch comes after apply: the
      aggregate keeps its new version, while `Execute`'s rollback restores the store. */
  lemma LateFailureKeepsAppliedAggregate(cmd: Command, u: UserRow, st: StoreState, md: Option<Metadata>,
                                         subs: seq<Subscription>, env: Env)
    requires WellFormed(cmd) && CommandType(cmd) == "user"
    requires ValidateCommand(cmd, Locked(u, st)).None? && BuildCommand(cmd).Success?
    requires ExecuteTxRun(cmd, u, st, md, subs, env).result.Failure?
    ensures var r := ExecuteRun(cmd, u, st, md, subs, env);
      && r.result.Failure? && r.store == st
      && r.user.base.version == Inc(Locked(u, st).base.version)
  {
  }

  /** Every error of `Execute` leaves the store as it was before the transaction. */
  lemma ExecuteFailureRestoresStore(cmd: Command, u: UserRow, st: StoreState, md: Option<Metadata>,
                                    subs: seq<Subscription>, env: Env)
    requires WellFormed(cmd)
    requires ExecuteRun(cmd, u, st, md, subs, env).result.Failure?
    ensures ExecuteRun(cmd, u, st, md, subs, env).store == st
    ensures ExecuteTxRun(cmd, u, st, md, subs, env).result.Success? ==>
      ExecuteRun(cmd, u, st, md, subs, env).result == Failure(CommitFailed) && env.faults.commitFails
  {
  }

  /** Asynchronous reactors are launched during dispatch, before the commit: a
      refused commit rolls the store back but does not undo their launch. */
  lemma LaunchesSurviveFailedCommit(cmd: Command, u: UserRow, st: StoreState, md: Option<Metadata>,
                                    subs: seq<Subscription>, env: Env)
    requires WellFormed(cmd) && env.faults.commitFails
    requires ExecuteTxRun(cmd, u, st, md, subs, env).result.Success?
    ensures var r := ExecuteRun(cmd, u, st, md, subs, env);
      var e := ExecuteTxRun(cmd, u, st, md, subs, env).result.value;
      r.result == Failure(CommitFailed) && r.store == st && r.trace == FullTrace(subs, e)
  {
    ExecuteTxSuccess(cmd, u, st, md, subs, env);
  }

  /** A synchronous reactor's error fails the command, and no later reactor ran. */
  lemma ReactorErrorFailsCommand(cmd: Command, u: UserRow, st: StoreState, md: Option<Metadata>,
                                 subs: seq<Subscription>, env: Env)
    requires WellFormed(cmd) && CommandType(cmd) == "user"
    requires ValidateCommand(cmd, Locked(u, st)).None? && BuildCommand(cmd).Success?
    requires !env.faults.saveFails && !env.faults.createFails
    requires var (data, np) := BuildCommand(cmd).value;
      var e := FinalEvent(data, np, md, Locked(u, st), env);
      Serialize(e, env.codec).Success? && DispatchRun(subs, e, env.outcome).err.Some?
    ensures var (data, np) := BuildCommand(cmd).value;
      var e := FinalEvent(data, np, md, Locked(u, st), env);
      var r := ExecuteRun(cmd, u, st, md, subs, env);
      && r.result == Failure(DispatchRun(subs, e, env.outcome).err.value)
      && r.store == st
      && exists i, k :: FailedAt(subs, i, k, e, env.outcome, Run(Some(r.result.error), r.trace))
  {
    var (data, np) := BuildCommand(cmd).value;
    var e := FinalEvent(data, np, md, Locked(u, st), env);
    var i, k := DispatchFailureShape(subs, e, env.outcome);
  }

  // The pipeline as it runs

  /** `ExecuteTx`: `null` stands for a nil aggregate pointer. */
  method ExecuteTx(store: Store, cmd: Command, user: User?, md: Option<Metadata>, bus: EventBus, env: Env)
    returns (r: Result<Event>, trace: seq<Step>)
    requires WellFormed(cmd)
    modifies store, user, if user != null then {user.base} else {}
    ensures user == null ==> r == Failure(NilAggregate) && trace == []
    ensures user == null ==> store.state == old(store.state) && store.locked == old(store.locked)
    ensures user != null ==>
      TxOutcome(r, user.Value(), store.state, trace) == ExecuteTxRun(cmd, old(user.Value()), old(store.state), md, bus.subscriptions, env)
    ensures user != null ==> store.locked == old(store.locked) + LockSet(cmd, old(user.Value()))
    ensures store.snapshot == old(store.snapshot)
  {
    if user == null {
      return Failure(NilAggregate), [];
    }
    var ct := CommandType(cmd);
    if ct != user.AggregateType() {
      return Failure(TypeMismatch(ct, user.AggregateType())), [];
    }
    if user.base.GetID() != "" {
      store.LockAndReload(user);
    }
    var u1 := user.Value();
    var v := ValidateCommand(cmd, u1);
    if v.Some? {
      return Failure(v.value), [];
    }
    var b := BuildCommand(cmd);
    if b.Failure? {
      return Failure(b.error), [];
    }
    var (data, np) := b.value;
    r, trace := ApplyAndRecord(store, data, np, md, user, bus, env);
  }

  /** Lines 74-97 of `ExecuteTx`: apply, save, serialize, append, dispatch. */
  method ApplyAndRecord(store: Store, data: EventData, np: Option<Json>, md: Option<Metadata>,
                        user: User, bus: EventBus, env: Env)
    returns (r: Result<Event>, trace: seq<Step>)
    requires data.IsUserPayload()
    modifies store, user, user.base
    ensures TxOutcome(r, user.Value(), store.state, trace)
         == AfterBuild(data, np, md, old(user.Value()), old(store.state), bus.subscriptions, env)
    ensures store.snapshot == old(store.snapshot) && store.locked == old(store.locked)
  {
    ghost var u1 := user.Value();
    ghost var st := store.state;
    var e := StagedEvent(data, np, md, user.Value(), env);
    Apply(e, user);
    e := e.(aggregateId := user.base.GetID());
    assert user.Value() == AppliedUser(data, np, md, u1, env);
    assert e == FinalEvent(data, np, md, u1, env);
    var err := store.Save(user, env.faults.saveFails);
    if err.Some? {
      return Failure(err.value), [];
    }
    var s := Serialize(e, env.codec);
    if s.Failure? {
      return Failure(s.error), [];
    }
    err := store.Create(s.value, env.faults.createFails);
    if err.Some? {
      return Failure(err.value), [];
    }
    var derr;
    derr, trace := RunDispatch(bus, e, env.outcome);
    if derr.Some? {
      return Failure(derr.value), trace;
    }
    r := Success(e);
  }

  /** `Execute`: a transaction around `ExecuteTx`, rolled back on every error. */
  method Execute(store: Store, cmd: Command, user: User?, md: Option<Metadata>, bus: EventBus, env: Env)
    returns (r: Result<Event>, trace: seq<Step>)
    requires WellFormed(cmd)
    modifies store, user, if user != null then {user.base} else {}
    ensures user == null ==> r == Failure(NilAggregate) && trace == [] && store.state == old(store.state)
    ensures user != null ==>
      TxOutcome(r, user.Value(), store.state, trace) == ExecuteRun(cmd, old(user.Value()), old(store.state), md, bus.subscriptions, env)
    ensures r.Failure? ==> store.locked == {} && store.snapshot == old(store.state)
    ensures r.Success? ==> store.locked == {} && store.snapshot == store.state
  {
    store.Begin();
    r, trace := ExecuteTx(store, cmd, user, md, bus, env);
    if r.Failure? {
      store.Rollback();
      return;
    }
    var err := store.Commit(env.faults.commitFails);
    if err.Some? {
      store.Rollback();
      return Failure(err.value), trace;
    }
  }
}
