/** The todo example application: a `Todo` aggregate rebuilt by a pure `Apply`
    that returns a new value, the replay fold over an event history, and the
    two commands. */
module TodoDomain {
  import opened Common
  import opened Aggregates
  import opened Payloads
  import opened Events

  /** The todo domain's `User` struct: the author embedded in a todo. */
  datatype Author = Author(name: string)

  datatype Todo = Todo(base: Base, text: string, author: Author)

  /** `domain.Todo{}`. */
  const EmptyTodo: Todo := Todo(ZeroBase, "", Author(""))

  /** `Todo.Apply`: a value receiver, so the result is a modified copy. */
  function Apply(todo: Todo, e: Event): (r: Todo)
    ensures r.base.version == Inc(todo.base.version) && r.base.updatedAt == e.timestamp
    ensures r.base.deletedAt == todo.base.deletedAt
    ensures e.data.Payload? && e.data.ed.TodoCreatedV1? ==>
      && r.base.id == e.data.ed.id && r.base.createdAt == e.timestamp
      && r.text == e.data.ed.text && r.author == Author(e.data.ed.authorName)
    ensures e.data.Payload? && e.data.ed.TodoTextUpdatedV1? ==>
      && r.text == e.data.ed.text && r.author == todo.author
      && r.base.id == todo.base.id && r.base.createdAt == todo.base.createdAt
    ensures !(e.data.Payload? && (e.data.ed.TodoCreatedV1? || e.data.ed.TodoTextUpdatedV1?)) ==>
      r == todo.(base := todo.base.(version := Inc(todo.base.version), updatedAt := e.timestamp))
  {
    var t := todo.(base := todo.base.(version := Inc(todo.base.version), updatedAt := e.timestamp));
    match e.data
    case Payload(TodoCreatedV1(id, text, authorName)) =>
      t.(base := t.base.(id := id, createdAt := e.timestamp), text := text, author := Author(authorName))
    case Payload(TodoTextUpdatedV1(text)) =>
      t.(text := text)
    case _ => t
  }

  /** Rebuilding a todo by applying its events in history order. */
  function Replay(todo: Todo, events: seq<Event>): Todo
    decreases |events|
  {
    if events == [] then todo
    else Apply(Replay(todo, events[..|events| - 1]), events[|events| - 1])
  }

  /** Each event raises the version by one, modulo 2^64. */
  lemma {:induction false} ReplayVersion(todo: Todo, events: seq<Event>)
    ensures Replay(todo, events).base.version == (todo.base.version + |events|) % U64_LIMIT
    decreases |events|
  {
    if events != [] {
      ReplayVersion(todo, events[..|events| - 1]);
    }
  }

  /** Without a creation event, replay keeps the identifier, the creation instant and the author. */
  lemma {:induction false} ReplayWithoutCreationKeepsIdentity(todo: Todo, events: seq<Event>)
    requires forall i :: 0 <= i < |events| ==> !(events[i].data.Payload? && events[i].data.ed.TodoCreatedV1?)
    ensures var r := Replay(todo, events);
      r.base.id == todo.base.id && r.base.createdAt == todo.base.createdAt && r.author == todo.author
    decreases |events|
  {
    if events != [] {
      var init := events[..|events| - 1];
      assert forall i :: 0 <= i < |init| ==> init[i] == events[i];
      ReplayWithoutCreationKeepsIdentity(todo, init);
    }
  }

  /** Replay of a non-empty history ends on the last event's timestamp. */
  lemma ReplayEndsAtLastTimestamp(todo: Todo, events: seq<Event>)
    requires events != []
    ensures Replay(todo, events).base.updatedAt == events[|events| - 1].timestamp
  {
  }

  // Commands

  datatype Create = Create(text: string, authorName: string)

  datatype UpdateText = UpdateText(text: string)

  /** `Create.Validate` accepts every todo. */
  function ValidateCreate(c: Create, todo: Todo): (r: Option<Error>)
    ensures r == None
  {
    None
  }

  /** `UpdateText.Validate` accepts every todo. */
  function ValidateUpdateText(c: UpdateText, todo: Todo): (r: Option<Error>)
    ensures r == None
  {
    None
  }

  /** `Create.BuildEvent`, with the random identifier as a parameter: never fails. */
  function BuildCreate(c: Create, newId: string): (r: Result<EventData>)
    ensures r.Success? && r.value.TodoCreatedV1?
    ensures r.value.id == newId && r.value.text == c.text && r.value.authorName == c.authorName
  {
    Success(TodoCreatedV1(newId, c.text, c.authorName))
  }

  /** `UpdateText.BuildEvent`: never fails. */
  function BuildUpdateText(c: UpdateText): (r: Result<EventData>)
    ensures r.Success? && r.value.TodoTextUpdatedV1? && r.value.text == c.text
  {
    Success(TodoTextUpdatedV1(c.text))
  }

  /** Creating a todo and then changing its text, replayed from an empty todo. */
  lemma CreateThenUpdateScenario(e1: Event, e2: Event, newId: string)
    requires e1.data == Payload(BuildCreate(Create("buy milk", "alice"), newId).value)
    requires e2.data == Payload(BuildUpdateText(UpdateText("buy bread")).value)
    ensures var t := Replay(EmptyTodo, [e1, e2]);
      && t.text == "buy bread" && t.author == Author("alice")
      && t.base.version == 2 && t.base.id == newId && t.base.createdAt == e1.timestamp
  {
    assert [e1, e2][..1] == [e1];
    assert [e1][..0] == [];
    assert Replay(EmptyTodo, [e1]).base.version == 1;
    assert Inc(1) == 2;
  }
}
