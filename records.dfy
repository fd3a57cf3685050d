/**
 * The to-do record as the REST collection serves it, the payload the client
 * sends to create one, and the records the client builds for updates.
 */
module Records {
  import opened Wrappers

  /** Server-assigned identifier of an item. */
  type Id = nat

  /** One item of the collection: `id`, `title`, `description` (may be null),
      `completed` and `created_at`, all as the server returned them. */
  datatype Todo = Todo(id: Id, title: string, description: Option<string>, completed: bool, createdAt: string)

  /** The body of a create request: no `id` and no `created_at`. */
  datatype NewTodo = NewTodo(title: string, description: string, completed: bool)

  /** The two inputs of the edit form, by their `name` attribute. */
  datatype Field = Title | Description

  /** A write request to the collection resource. */
  datatype Request =
    | Create(payload: NewTodo)     // POST to the collection
    | Replace(id: Id, record: Todo) // PUT of a full record to the item
    | Delete(id: Id)               // DELETE of the item

  /** The record `addTodo` posts: the inputs exactly as typed, never completed. */
  function NewRecord(title: string, description: string): (r: NewTodo)
    ensures !r.completed
    ensures r.title == title && r.description == description
  {
    NewTodo(title, description, false)
  }

  /** `{ ...todo, completed: !todo.completed }`: the record `toggleComplete` puts. */
  function Toggled(t: Todo): (r: Todo)
    ensures r.completed != t.completed
    ensures r.id == t.id && r.title == t.title && r.description == t.description
    ensures r.createdAt == t.createdAt
  {
    t.(completed := !t.completed)
  }

  /** Toggling is its own inverse. */
  lemma ToggledTwice(t: Todo)
    ensures Toggled(Toggled(t)) == t
  {
  }

  /** What the draft holds for the field behind the input called `name`. The
      description input displays a null description as `""`. */
  function FieldValue(d: Todo, name: Field): Option<string> {
    match name
    case Title => Some(d.title)
    case Description => d.description
  }

  /** `{ ...prev, [name]: value }`: the draft after typing `value` into the
      input called `name`. */
  function WithField(d: Todo, name: Field, value: string): (r: Todo)
    ensures FieldValue(r, name) == Some(value)
    ensures forall other :: other != name ==> FieldValue(r, other) == FieldValue(d, other)
    ensures r.id == d.id && r.completed == d.completed && r.createdAt == d.createdAt
  {
    match name
    case Title => d.(title := value)
    case Description => d.(description := Some(value))
  }

  /** Only the last value typed into an input matters. */
  lemma WithFieldLastWins(d: Todo, name: Field, a: string, b: string)
    ensures WithField(WithField(d, name, a), name, b) == WithField(d, name, b)
  {
  }

  /** Typing into different inputs gives the same draft in either order. */
  lemma WithFieldCommutes(d: Todo, m: Field, a: string, n: Field, b: string)
    requires m != n
    ensures WithField(WithField(d, m, a), n, b) == WithField(WithField(d, n, b), m, a)
  {
  }

  /** Typing back the value the draft already holds for a field restores it. */
  lemma WithFieldRestores(d: Todo, name: Field, value: string)
    requires FieldValue(d, name) == Some(value)
    ensures WithField(d, name, value) == d
  {
  }

  /** A null description is not restored by typing and erasing: once its input
      is touched, the draft holds the empty string instead of null. */
  lemma TouchedNullDescription(d: Todo)
    requires d.description == None
    ensures WithField(d, Description, "").description == Some("")
    ensures WithField(d, Description, "") != d
  {
  }
}
