/** The event payloads (`EventData` implementations) of the two example
    applications, as one closed union, with each kind's static identity
    (aggregate type, action, schema version). */
module Payloads {
  import opened Common

  datatype EventData =
    | TodoCreatedV1(id: string, text: string, authorName: string)
    | TodoTextUpdatedV1(text: string)
    | UserCreatedV1(id: string, firstName: string, lastName: string)
    | UserFirstNameUpdatedV1(firstName: string)
  {
    function AggregateType(): string {
      match this
      case TodoCreatedV1(_, _, _) => "todo"
      case TodoTextUpdatedV1(_) => "todo"
      case UserCreatedV1(_, _, _) => "user"
      case UserFirstNameUpdatedV1(_) => "user"
    }

    function Action(): string {
      match this
      case TodoCreatedV1(_, _, _) => "created"
      case TodoTextUpdatedV1(_) => "text_updated"
      case UserCreatedV1(_, _, _) => "created"
      case UserFirstNameUpdatedV1(_) => "first_name_updated"
    }

    function Version(): u64 {
      1
    }

    /** The Go type of the payload, as `reflect.TypeOf` reports it. */
    function Kind(): Kind {
      match this
      case TodoCreatedV1(_, _, _) => TodoCreatedKind
      case TodoTextUpdatedV1(_) => TodoTextUpdatedKind
      case UserCreatedV1(_, _, _) => UserCreatedKind
      case UserFirstNameUpdatedV1(_) => UserFirstNameUpdatedKind
    }

    /** Only the user payloads implement `Apply(Aggregate, Event)`. */
    predicate IsUserPayload() {
      UserCreatedV1? || UserFirstNameUpdatedV1?
    }
  }

  datatype Kind = TodoCreatedKind | TodoTextUpdatedKind | UserCreatedKind | UserFirstNameUpdatedKind

  /** The identities of the two todo payloads. */
  lemma TodoIdentities(p: EventData)
    ensures p.TodoCreatedV1? ==> (p.AggregateType(), p.Action(), p.Version()) == ("todo", "created", 1)
    ensures p.TodoTextUpdatedV1? ==> (p.AggregateType(), p.Action(), p.Version()) == ("todo", "text_updated", 1)
  {
  }

  /** The identities of the two user payloads. */
  lemma UserIdentities(p: EventData)
    ensures p.UserCreatedV1? ==> (p.AggregateType(), p.Action(), p.Version()) == ("user", "created", 1)
    ensures p.UserFirstNameUpdatedV1? ==> (p.AggregateType(), p.Action(), p.Version()) == ("user", "first_name_updated", 1)
  {
  }

  /** A payload is a user payload exactly when its aggregate type is "user". */
  lemma UserPayloadIffUserType(p: EventData)
    ensures p.IsUserPayload() <==> p.AggregateType() == "user"
  {
  }

  /** The identity triple determines the payload's Go type. */
  lemma IdentityDeterminesKind(p: EventData, q: EventData)
    requires p.AggregateType() == q.AggregateType() && p.Action() == q.Action() && p.Version() == q.Version()
    ensures p.Kind() == q.Kind()
  {
  }
}
