# goes: a Dafny model of an event-sourcing runtime

goes is a small Go library for event sourcing on a relational store. An
aggregate embeds a versioned, timestamped base. A command is validated
against an aggregate and builds an event payload. The pipeline turns the
payload into an event, applies it to the aggregate, saves the aggregate row,
serializes the event into the `<aggregate type>_events` table and dispatches it
to the reactors whose matchers accept it. Synchronous reactors can fail the
transaction; asynchronous ones are launched and forgotten. A type registry maps
`aggType.action.version` keys to payload types so that stored records can be
decoded.

This project models that runtime and its two example applications (users and
todos). It proves what each operation promises:

- the field-level effect of the aggregate mutators;
- the event builder, codec and registry;
- when the matchers accept an event, including the dotted-key ambiguity;
- dispatch order and early exit;
- the command pipeline's error paths and success state, against an abstract store;
- the older map-keyed reactor registry;
- the todo replay fold and the todo event-history window.

Modules follow the source files:

| module | file | models |
|---|---|---|
| `Common` | — | `Option`/`Result`, the errors, `uint64` wrap-around, `%d` decimal rendering |
| `Aggregates` | `aggregates.go` | `BaseAggregate` as a class, its value `Base` |
| `Payloads` | both examples | the four payload kinds as one closed datatype, their identities |
| `UserDomain` | `_examples/user/main.go` | `User` as a class, `validateFirstName`, the commands, the in-place `Apply`s |
| `Events` | `events.go` | `Event`, `EventStore`, `buildBaseEvent`, `Event.apply`, `Serialize`, `Deserialize`, `TableName`, `Register` |
| `Reactors` | `reactors.go` | matchers as data, `Matches`, the subscription bus |
| `Dispatch` | `commands.go` | `dispatch` over the bus |
| `Commands` | `commands.go` | the abstract store, `ExecuteTx`, `Execute` |
| `LegacyDispatcher` | `dispatcher.go` | the older map-keyed registry, its `On` and `dispatch` |
| `TodoDomain` | `_examples/api/domain/todos.go` | the pure `Todo.Apply`, replay, the commands |
| `TodoGraph` | `examples/api/graph/graph.go` | `Todo_events`: event mapping and the offset/limit window |

Inputs the runtime reads from outside are parameters:

- the fresh event identifier, the clock and the todo payload identifier;
- the JSON codec, as four functions whose `None` is an error;
- the synchronous reactors' results;
- whether the store refuses a save, an insert or a commit.

A Go panic is a precondition, named where it sits, except in the graph
resolver: `TodoGraph.Window` returns the slice panic as `None` and
`TodoGraph.TodoEvents` as the `Panic` reply. Go's `nil`
slice, map and interface are `None`. A function returning `Event{}` with an
error is a `Failure`.

`Serialize` and `Deserialize` (events.go:72-128) look like inverses, but the
code is not a round trip, and the model follows the code. `Serialize` writes the metadata encoding into
`RawData`, overwrites it with the data encoding, and never assigns
`RawMetadata`. `Deserialize` then unmarshals that empty `RawMetadata`, which
Go's JSON decoder rejects, so `Deserialize(Serialize(e))` always fails
(`Events.SerializedRecordNeverDecodes`). Even with metadata present, decoding
into an `interface{}` yields a generic JSON value, never the typed payload
(`Events.DecodedDataIsGeneric`).

## Model

| member | source | states |
|---|---|---|
| `Common.Inc` | aggregates.go:33-35 | `Version++` on a `uint64`: one more, wrapping from 2^64-1 to 0 |
| `Common.NatToString` | reactors.go:21-24 | `%d` rendering: at least one character, all decimal digits, one digit exactly below 10 |
| `Common.NatToStringInjective` | reactors.go:21-30 | distinct versions render as distinct strings |
| `Common.NatToStringHasNoDot` | reactors.go:21-30 | a rendered version contains no '.' |
| `Aggregates.ZeroBaseNotYetCreated` | aggregates.go:20-26 | the zero base has empty ID, version 0 and no deletion time: the "not yet created" state |
| `Aggregates.Incremented` | aggregates.go:33-35 | incrementing changes the version to `Inc(version)` and no other field |
| `Aggregates.Touched` | aggregates.go:37-39 | updating sets `UpdatedAt = t` and changes no other field |
| `Aggregates.MutatorsCommute` | aggregates.go:33-39 | the two mutators commute and together change exactly version and `UpdatedAt` |
| `Aggregates.BaseAggregate.constructor` | aggregates.go:20-26 | a new base aggregate is Go's zero value |
| `Aggregates.BaseAggregate.GetID` | aggregates.go:29-31 | returns exactly the ID field |
| `Aggregates.BaseAggregate.IncrementVersion` | aggregates.go:33-35 | the new state is the old one incremented, nothing else changed |
| `Aggregates.BaseAggregate.UpdateUpdatedAt` | aggregates.go:37-39 | the new state is the old one with `UpdatedAt = t` |
| `Aggregates.BaseAggregate.Load` | commands.go:62 | a query into the struct overwrites every base field from the row |
| `Payloads.EventData.AggregateType` | _examples/api/domain/todos.go:95-121 | each payload's aggregate type: "todo" for the todo payloads, "user" for the user ones (values stated by `TodoIdentities` and `UserIdentities`) |
| `Payloads.EventData.Action` | _examples/user/main.go:105-139 | each payload's action: "created", "text_updated", "first_name_updated" |
| `Payloads.EventData.Version` | _examples/user/main.go:105-139 | every payload's schema version is 1 |
| `Payloads.EventData.Kind` | _examples/user/main.go:105-139 | the payload's Go type as `reflect.TypeOf` names it; `IdentityDeterminesKind` shows the triple determines it |
| `Payloads.TodoIdentities` | _examples/api/domain/todos.go:95-121 | `CreatedV1` is ("todo","created",1), `TextUpdatedV1` is ("todo","text_updated",1) |
| `Payloads.UserIdentities` | _examples/user/main.go:105-139 | `CreatedV1` is ("user","created",1), `FirstNameUpdatedV1` is ("user","first_name_updated",1) |
| `Payloads.UserPayloadIffUserType` | _examples/user/main.go:105-144 | exactly the payloads of aggregate type "user" implement `Apply` on a user |
| `Payloads.IdentityDeterminesKind` | events.go:62-70 | equal identity triples mean the same payload type |
| `UserDomain.User.constructor` | _examples/user/main.go:169-171 | `&User{Addresses: []Address{}}`: zero base, empty names, no addresses |
| `UserDomain.ByteLength` | _examples/user/main.go:52 | Go's `len` on a string counts UTF-8 bytes: never fewer than the characters, equal for ASCII |
| `UserDomain.ValidateFirstName` | _examples/user/main.go:51-60 | accepts exactly byte lengths 3..42; below is "FirstName is too short", above "FirstName is too long" |
| `UserDomain.ValidateFirstNameExamples` | _examples/user/main.go:172-190 | the example names "Sysy" and "z0mbie" are accepted |
| `UserDomain.ValidateCreate` | _examples/user/main.go:68-72 | accepts exactly a first name of 3..42 bytes, otherwise one of the two validation errors |
| `UserDomain.ValidateUpdateFirstName` | _examples/user/main.go:86-90 | the same rule for renaming |
| `UserDomain.ValidateIgnoresAggregate` | _examples/user/main.go:68-90 | both validators return `validateFirstName` of the command's name, whatever the aggregate |
| `UserDomain.BuildCreate` | _examples/user/main.go:74-80 | never fails; a `CreatedV1` with the fixed ID "MyNotSoRandomUUID" and the command's names |
| `UserDomain.BuildUpdateFirstName` | _examples/user/main.go:92-96 | never fails; a `FirstNameUpdatedV1` with the command's name |
| `UserDomain.PayloadApplied` | _examples/user/main.go:117-144 | creation sets ID, names and `CreatedAt` and keeps addresses, version, `UpdatedAt`; renaming changes only the first name |
| `UserDomain.ApplyCreated` | _examples/user/main.go:117-123 | the user is updated in place as `PayloadApplied` says |
| `UserDomain.ApplyFirstNameUpdated` | _examples/user/main.go:141-144 | the user's first name is set in place, nothing else changes |
| `Events.TypeKey` | events.go:64-67 | the `%s.%s.%d` key: aggregate type, action and decimal version joined by '.'; what it identifies is stated by `TypeKeyInjectiveWithoutDots` |
| `Events.KeyOf` | events.go:62-70 | the registry key of a payload: `TypeKey` of its own aggregate type, action and version |
| `Events.TypeKeyNotInjective` | reactors.go:21-30 | ("a.b","c",1) and ("a","b.c",1) give the same key |
| `Events.TypeKeyInjectiveWithoutDots` | reactors.go:21-31 | without '.' in type and action, keys are equal exactly when triples are |
| `Events.KeyDeterminesKind` | events.go:62-70 | the four payload kinds have four distinct keys |
| `Events.BuildBaseEvent` | events.go:140-155 | nil metadata becomes an empty map, other metadata is kept; ID and timestamp from the inputs; identity from the payload; `Type` is aggregate type "." action with no version; no data yet |
| `Events.Applied` | events.go:40-44 | the payload's `Apply`, then `UpdatedAt` set to the event's timestamp, then exactly one version increment |
| `Events.Apply` | events.go:40-44 | `Event.apply` changes the user in place exactly as `Applied` says |
| `Events.Serialize` | events.go:72-94 | fails exactly when a marshal fails, with an empty record; otherwise copies the seven scalar fields, `RawData` is the data encoding and `RawMetadata` stays empty |
| `Events.Deserialize` | events.go:96-128 | an unregistered key fails with the key; success exactly when registered and both unmarshals succeed, copying the seven scalars, generic data, decoded metadata, no non-persisted value |
| `Events.TableName` | events.go:130-133 | the aggregate type followed by "_events" |
| `Events.SerializedRecordNeverDecodes` | events.go:85-116 | under a codec that rejects empty input, no serialized record decodes |
| `Events.DeserializeIgnoresRegisteredKind` | events.go:103-110 | which Go type is registered under a key makes no difference to decoding |
| `Events.DecodedDataIsGeneric` | events.go:109-110 | a decoded event's data is always a generic JSON value |
| `Events.ScalarRoundTrip` | events.go:76-83 | with any metadata bytes, a decoded serialized event has the original seven scalar fields |
| `Events.Registered` | events.go:62-70 | the registry after `Register`'s loop: each payload's Go type stored under its key, in argument order, later ones overwriting (its properties: the four lemmas below) |
| `Events.RegisteredContains` | events.go:62-70 | after registration every payload's key maps to that payload's type |
| `Events.RegisteredFrame` | events.go:62-70 | registration adds no key but the payloads' and leaves every other entry as it was |
| `Events.RegisterAgainUnchanged` | events.go:62-70 | registering payloads already registered changes nothing |
| `Events.RegisterIdempotent` | events.go:62-70 | registering the same payloads twice equals registering them once |
| `Events.RegisterThenDecode` | events.go:99-107 | a record of a registered payload's key never fails as unregistered |
| `Events.EventRegistry.constructor` | events.go:136 | the registry starts empty |
| `Events.EventRegistry.Register` | events.go:62-70 | the loop leaves the registry as the fold `Registered` of the payloads over the old one |
| `Reactors.Evaluable` | reactors.go:41-46 | a sufficient condition for evaluating a matcher without a panic: every `MatchAggregate` in it, reached or not, needs an event whose data is an `EventData`; stricter than Go's `MatchAnyOf`, which stops at the first match |
| `Reactors.Matches` | reactors.go:20-57 | the matchers' semantics: `MatchEvent` compares the two `%s.%s.%d` keys, `MatchAny` accepts, `MatchAggregate` compares the payload's aggregate type, `MatchAnyOf` accepts when some matcher does |
| `Reactors.TypedEventsEvaluable` | reactors.go:41-46 | every matcher can be evaluated on an event carrying a payload |
| `Reactors.MatchEventAcceptsSameTriple` | reactors.go:20-33 | an event with the payload's identity triple always matches |
| `Reactors.MatchEventIffSameTriple` | reactors.go:20-33 | without '.' in the event's type and action, a match means the same triple and conversely |
| `Reactors.MatchEventConfusesDottedTriples` | reactors.go:21-30 | events ("a.b","c",1) and ("a","b.c",1) are matched alike |
| `Reactors.MatchAnyAcceptsAll` | reactors.go:36-38 | every event matches |
| `Reactors.MatchAggregateReadsPayload` | reactors.go:41-46 | compares the payload's aggregate type; the event's own field plays no part |
| `Reactors.MatchAnyOfEmptyRejects` | reactors.go:49-57 | with no matchers nothing matches |
| `Reactors.MatchAnyOfIffSome` | reactors.go:49-57 | accepts exactly when one of its matchers accepts |
| `Reactors.MatchAnyOfAppend` | reactors.go:49-57 | a concatenation accepts exactly when one of its parts accepts |
| `Reactors.OrEmpty` | reactors.go:72-77 | a nil list is stored as the empty list, any other as itself |
| `Reactors.EventBus.constructor` | reactors.go:67-68 | the bus starts empty |
| `Reactors.EventBus.On` | reactors.go:71-84 | one subscription appended at the end, earlier ones unchanged, nil lists stored as empty |
| `Dispatch.RunSyncs` | commands.go:104-108 | the reactors that ran are always a prefix of the subscription's sync reactors, all of them when no error is returned |
| `Dispatch.Visit` | commands.go:102-114 | one subscription's steps are always a prefix of its share of the reference trace, and all of it when no error is returned |
| `Dispatch.DispatchRun` | commands.go:100-116 | what a dispatch ran or launched is always a prefix of the reference trace `FullTrace`, and all of it when it returns nil |
| `Dispatch.FullTrace` | commands.go:100-116 | reference definition: for each subscription in bus order, if it matches, its sync reactors then its async launches |
| `Dispatch.RunSyncsSpec` | commands.go:104-108 | sync reactors all succeed and all run, or the first failing one's error is returned and none after it runs |
| `Dispatch.RunSyncsSucceed` | commands.go:104-108 | the sync loop ends without error exactly when every sync reactor succeeds, and then each ran once, in order |
| `Dispatch.RunSyncsStop` | commands.go:104-108 | a failed sync loop names the reactor it stopped at: all before it succeeded, its error is returned, it is the last to run |
| `Dispatch.SyncFailureSticks` | commands.go:104-108 | once a prefix of sync reactors failed, later ones do not change the outcome |
| `Dispatch.DispatchFailureSticks` | commands.go:101-108 | once dispatch over a prefix of the bus failed, later subscriptions do not change it |
| `Dispatch.VisitSucceeds` | commands.go:102-115 | one subscription fails only if it matches and one of its sync reactors fails; otherwise its trace is nothing, or its sync reactors then its launches |
| `Dispatch.DispatchSucceedsIffAllSucceed` | commands.go:100-116 | dispatch succeeds exactly when every matching subscription's sync reactors succeed; its trace is then each matching subscription's sync reactors then its launches, in bus order |
| `Dispatch.DispatchFailureShape` | commands.go:100-113 | a failed dispatch returns the first failing sync reactor's error; the trace is the earlier subscriptions' full trace, then that subscription's sync reactors up to the failing one |
| `Dispatch.RunDispatch` | commands.go:100-116 | the nested loops with early return compute exactly the error and trace of `DispatchRun` |
| `Dispatch.RunSyncLoop` | commands.go:104-108 | the sync loop with its early return computes exactly the error and steps of `RunSyncs` |
| `Dispatch.LaunchAll` | commands.go:110-112 | one launch per async reactor, in registration order |
| `Dispatch.VisitSubscription` | commands.go:102-114 | one iteration of the outer loop: nothing for a non-matching subscription, else the sync loop and, unless it failed, the launches; exactly `Visit` |
| `Commands.Saved` | commands.go:80 | the row under the aggregate's ID is the aggregate, other rows and all tables unchanged |
| `Commands.Appended` | commands.go:89 | exactly one record appended to its `TableName` table, other tables and rows unchanged |
| `Commands.Reload` | commands.go:62 | a `FOR UPDATE` query loads the stored row when there is one and otherwise keeps the aggregate |
| `Commands.LockSet` | commands.go:61-63 | the rows the lock step locks: the aggregate's ID for a "user" command with a non-empty ID, none otherwise |
| `Commands.Locked` | commands.go:61-63 | an aggregate with an empty ID is not reloaded; in a store whose rows sit under their own IDs, the reload keeps the aggregate's ID |
| `Commands.StagedEvent` | commands.go:74-75 | the event carries the payload, the aggregate's current ID, the fresh event ID and the clock reading |
| `Commands.Store.constructor` | db.go:1-28 | a store with no open changes |
| `Commands.Store.Begin` | commands.go:18 | the transaction starts from the current state, which a rollback returns to |
| `Commands.Store.Commit` | commands.go:26 | a refused commit reports the error and changes nothing; otherwise the state becomes durable and locks are released |
| `Commands.Store.Rollback` | commands.go:22-27 | the state returns to the transaction's start, locks released |
| `Commands.Store.LockAndReload` | commands.go:62 | the row's ID is locked, the aggregate reloaded as `Reload` says, the store unchanged |
| `Commands.Store.Save` | commands.go:80 | a refused save reports the error and changes nothing; otherwise the row is upserted |
| `Commands.Store.Create` | commands.go:89 | a refused insert reports the error and changes nothing; otherwise one record is appended |
| `Commands.ExampleCommandsWellFormed` | _examples/user/main.go:74-96 | the user commands build payloads a user can apply |
| `Commands.ExecuteTxRun` | commands.go:36-98 | `ExecuteTx` on a non-nil aggregate, step by step: type check, lock and reload, validate, build, then `AfterBuild` (its properties: the lemmas below) |
| `Commands.AfterBuild` | commands.go:74-97 | apply, save, serialize, insert and dispatch, each error returned as it occurs, with the aggregate, store and trace it leaves |
| `Commands.ExecuteRun` | commands.go:17-32 | `Execute`: a failed transaction or a refused commit restores the store; a success is kept |
| `Commands.WritesKeepRowsKeyed` | commands.go:80-89 | an upsert and an insert keep every row under its own ID |
| `Commands.ExecuteKeepsRowsKeyed` | commands.go:17-98 | every execution, failed or not, keeps every row under its own ID |
| `Commands.AfterBuildKeepsRowsKeyed` | commands.go:74-97 | the steps after `BuildEvent` keep every row under its own ID |
| `Commands.TypeMismatchChangesNothing` | commands.go:51-57 | a command of another aggregate type is rejected before any lock, with aggregate and store unchanged and no reactor run |
| `Commands.EarlyErrorsChangeNothing` | commands.go:65-72 | a validation or build error is returned before the event exists: only the lock step's reload has happened |
| `Commands.ExampleCommandErrors` | _examples/user/main.go:68-96 | the user commands never fail to build and fail validation exactly outside 3..42 bytes |
| `Commands.ExecuteTxSucceedsIff` | commands.go:36-98 | execution succeeds exactly when type check, validation, build, save, serialization, insert and every matching sync reactor succeed |
| `Commands.ExecuteTxSuccess` | commands.go:74-91 | on success: version one more than after the lock step, `UpdatedAt` equals the event's timestamp, the event names the applied aggregate, its row is upserted, one record `Serialize(event)` is appended to "<type>_events", other tables unchanged, every matching reactor ran or was launched |
| `Commands.AfterBuildSuccess` | commands.go:74-97 | the same facts about a successful run of the steps after `BuildEvent`, for any aggregate |
| `Commands.CreateAssignsAggregateId` | commands.go:76-78 | a successful creation's event carries the ID the payload assigned |
| `Commands.LateFailureKeepsAppliedAggregate` | commands.go:17-32 | a failure after apply is rolled back in the store but the aggregate keeps its incremented version |
| `Commands.ExecuteFailureRestoresStore` | commands.go:17-32 | every failure of `Execute` leaves the store as before; when the transaction succeeded the failure is the refused commit |
| `Commands.LaunchesSurviveFailedCommit` | commands.go:26-29 | async reactors launched during dispatch stay launched when the commit is refused |
| `Commands.ReactorErrorFailsCommand` | commands.go:93-95 | a sync reactor's error fails the command, rolls the store back and no later reactor ran |
| `Commands.ExecuteTx` | commands.go:36-98 | a nil aggregate is rejected; otherwise the result, aggregate, store and trace are those of `ExecuteTxRun`, and exactly the row of a non-empty ID is locked |
| `Commands.ApplyAndRecord` | commands.go:74-97 | the apply/save/serialize/insert/dispatch steps compute exactly `AfterBuild` |
| `Commands.Execute` | commands.go:17-32 | result, aggregate, store and trace are those of `ExecuteRun`; a success is committed, a failure rolled back |
| `LegacyDispatcher.EntryOf` | dispatcher.go:40-46 | the reactors registered under a key, or two empty lists when there is none |
| `LegacyDispatcher.OnRegistered` | dispatcher.go:25-52 | the key's lists become the old ones followed by the new ones, nil as empty; every other key unchanged |
| `LegacyDispatcher.OnTwiceConcatenates` | dispatcher.go:40-51 | two registrations under one key concatenate their lists in order |
| `LegacyDispatcher.OnDifferentKeysCommute` | dispatcher.go:51 | registrations under different keys commute |
| `LegacyDispatcher.FirstRegistrationCreatesEntry` | dispatcher.go:30-46 | a first registration with nil lists creates an entry with empty lists |
| `LegacyDispatcher.RunSyncs` | dispatcher.go:63-67 | the sync loop: reactors in order, the first error stops the rest (its properties: the lemmas below) |
| `LegacyDispatcher.RunSyncsSpec` | dispatcher.go:63-67 | sync reactors all succeed and all run, or the first error is returned and only reactors up to it ran |
| `LegacyDispatcher.RunSyncsSucceed` | dispatcher.go:63-67 | the sync loop returns no error exactly when every sync reactor succeeds, and then all of them ran |
| `LegacyDispatcher.RunSyncsStop` | dispatcher.go:63-67 | a failed sync loop stopped at one reactor: all before it succeeded, its error is returned and the reactors up to it ran |
| `LegacyDispatcher.SameOutcomesSameRun` | dispatcher.go:63-67 | the run depends on the event only through what the reactors answer |
| `LegacyDispatcher.DispatchRun` | dispatcher.go:54-75 | `dispatch`: the key read from the payload, nothing without an entry, else the sync loop and, unless it failed, every async launch |
| `LegacyDispatcher.DispatchSpec` | dispatcher.go:54-75 | no entry: nothing runs and no error; otherwise async reactors are launched exactly when every sync one succeeded, and never after a failure |
| `LegacyDispatcher.DispatchIgnoresEventFields` | dispatcher.go:55-58 | the key comes from the payload: the event's type fields do not change the dispatch |
| `LegacyDispatcher.StopsAtFirstFailure` | dispatcher.go:63-67 | when every sync reactor before one succeeds and that one fails, the run returns its error and exactly the reactors up to it ran |
| `LegacyDispatcher.ReactorRegistry.constructor` | dispatcher.go:17 | the registry starts empty |
| `LegacyDispatcher.ReactorRegistry.On` | dispatcher.go:25-52 | the registry becomes `OnRegistered` of the old one |
| `LegacyDispatcher.ReactorRegistry.Dispatch` | dispatcher.go:54-75 | the loops compute exactly the error, run reactors and launches of `DispatchRun` |
| `LegacyDispatcher.SyncLoop` | dispatcher.go:63-67 | the sync loop with its early return computes exactly the error and reactors run of `RunSyncs` |
| `LegacyDispatcher.LaunchLoop` | dispatcher.go:70-72 | every async reactor of the entry is launched, in registration order |
| `TodoDomain.Apply` | _examples/api/domain/todos.go:36-52 | version incremented and `UpdatedAt` set; creation sets ID, `CreatedAt`, text and author; a text update changes only the text; any other payload changes only version and `UpdatedAt` |
| `TodoDomain.Replay` | _examples/api/domain/todos.go:36-52 | a todo rebuilt by applying its events with `Apply`, in history order (its properties: the three lemmas below) |
| `TodoDomain.ReplayVersion` | _examples/api/domain/todos.go:36-37 | replaying n events from version v gives version v+n modulo 2^64 |
| `TodoDomain.ReplayWithoutCreationKeepsIdentity` | _examples/api/domain/todos.go:40-49 | without a creation event, ID, `CreatedAt` and author survive replay |
| `TodoDomain.ReplayEndsAtLastTimestamp` | _examples/api/domain/todos.go:38 | a replayed todo's `UpdatedAt` is the last event's timestamp |
| `TodoDomain.ValidateCreate` | _examples/api/domain/todos.go:60-62 | always accepts |
| `TodoDomain.ValidateUpdateText` | _examples/api/domain/todos.go:78-80 | always accepts |
| `TodoDomain.BuildCreate` | _examples/api/domain/todos.go:64-72 | never fails; the generated ID, the command's text and author name |
| `TodoDomain.BuildUpdateText` | _examples/api/domain/todos.go:82-86 | never fails; the command's text |
| `TodoDomain.CreateThenUpdateScenario` | _examples/api/domain/todos.go:41-86 | "buy milk" by alice then "buy bread" replays to text "buy bread", author alice, version 2 and the generated ID |
| `TodoGraph.ToGraphEvent` | examples/api/graph/graph.go:110-129 | copies ID, timestamp and aggregate ID; maps the two todo payloads, any other data to nil |
| `TodoGraph.Mapped` | examples/api/graph/graph.go:109-131 | one output per stored event, in order |
| `TodoGraph.Window` | examples/api/graph/graph.go:133-147 | no filter keeps all; an offset at or past the end gives nothing; a panic exactly for a negative offset or limit inside the range; otherwise `ret[offset : offset+min(limit, len-offset)]` |
| `TodoGraph.WindowIsContiguous` | examples/api/graph/graph.go:135-140 | the window is a contiguous, order-preserving run of at most `limit` events |
| `TodoGraph.FullWindowKeepsAll` | examples/api/graph/graph.go:135-140 | offset 0 with limit the length keeps everything |
| `TodoGraph.MapEvents` | examples/api/graph/graph.go:109-131 | the append loop computes `Mapped` |
| `TodoGraph.TodoEvents` | examples/api/graph/graph.go:100-147 | a load error returns it with no events; otherwise the mapped history cut by the window, or a panic |
| `TodoGraph.UnfilteredRepliesInOrder` | examples/api/graph/graph.go:145-146 | without a filter every stored event appears once, in history order |

## Left out

- `db.go`: the gorm/Postgres connection is I/O. The store is an abstract map of user rows and per-table record sequences, and begin/commit/rollback are snapshot and restore.
- Row locks and blocking across transactions are concurrency. A lock is recorded only in the store's ghost `locked` set.
- Goroutines: an asynchronous reactor's launch is a step of the returned trace. Its execution and its result are not modelled.
- Sync reactors receive the transaction and may write through it. The model keeps only their result: their writes are not modelled.
- JSON and reflection are foreign calls. The codec is four abstract functions, and the payload type in the registry is a `Kind` tag.
- The pointer check `v.Kind() != reflect.Ptr`: the aggregate is always a class reference, so only the nil case remains (`NilAggregate`).
- `uuid.New`, `uuid.NewRandom` and `time.Now` are parameters. Timestamps are integers.
- The pipeline runs on the user aggregate alone. The todo payloads have no `Apply(Aggregate, Event)`, so in the revision of `commands.go` they are not `EventData` and cannot pass through `Event.apply`. Todo state is modelled by its pure `Apply` and replay.
- The user example's `User` declares no `AggregateType`; the model gives it "user", the aggregate type of its payloads.
- Commands other than the two user commands are `Custom` values: their aggregate type and their `Validate`/`BuildEvent` outcomes are data. `WellFormed` excludes a "user" command that builds a todo payload. The case exists only because the model's `EventData` union also holds the todo payloads, which Go's `EventData` interface does not admit.
- `Reactors.Matches` requires `Evaluable`: `MatchAggregate` panics on an event without a payload. Dispatch only sees events with a payload.
- `Reactors.Evaluable` is stronger than Go's panic condition. Go's `MatchAnyOf` loop returns at the first matcher that accepts, so `MatchAnyOf(MatchAny(), MatchAggregate(u))` does not panic on a payload-less event, but `Evaluable` rejects it. This costs nothing where matchers are used: every dispatched event carries a payload, and on such events every matcher is evaluable (`TypedEventsEvaluable`).
- `UserDomain.ByteLength`: a Go string may hold bytes that are not valid UTF-8, and `len` counts them. A Dafny `string` is a sequence of Unicode scalar values, so a first name with such bytes cannot be represented.
- `LegacyDispatcher.DispatchRun` requires a payload, because the type assertion at dispatcher.go:55 panics without one.
- gorm's soft delete and its insert-versus-update choice in `Save` are not modelled: `Save` is an upsert keyed by the aggregate's ID.
- `Register`'s unused aggregate argument is dropped.
- `examples/api/graph/scalars.go` (RFC 3339 timestamps), both `main.go` files of the API example, the other resolvers of `graph.go`, `_examples/api/graph/types.go` (its `Filter` shape is reused) and the `Value`/`Scan` driver glue are not part of this model.
- The user example's `init`/`main` (database setup, printing, the replay loop through an exported `event.Apply`) are not part of this model. `goes.Call`, `RegisterEvents`, `InitDB`, `MigrateEventsTable`, `Events()` and `EventInterface` are not shown, so their behaviour is not invented: the todo history `Todo_events` loads is a parameter.
