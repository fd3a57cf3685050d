/**
 * The component's state as a value, and each state-changing handler as a
 * function from the state before the call (and the network outcome) to the
 * state after it, with the request it sent and whether it asked for a
 * refetch. The class in todo_client.dfy is proved against these functions;
 * the lemmas here relate several calls.
 */
module Transitions {
  import opened Wrappers
  import opened Whitespace
  import opened Records

  /** `todos`, `newTodoTitle`, `newTodoDescription` and `editingTodo`. */
  datatype State = State(todos: seq<Todo>, newTitle: string, newDescription: string, editing: Option<Todo>)

  /** What a handler that may talk to the server leaves behind. */
  datatype Effect = Effect(state: State, sent: Option<Request>, refetch: bool)

  /** The initial `useState` values. */
  function Initial(): (s: State)
    ensures s.todos == [] && s.newTitle == "" && s.newDescription == "" && s.editing == None
  {
    State([], "", "", None)
  }

  /** `fetchTodos` once its response is in: `ok` means the status was ok and
      the body parsed; only then is the list replaced, in the server's order. */
  function Fetched(s: State, ok: bool, data: seq<Todo>): (t: State)
    ensures ok ==> t.todos == data
    ensures !ok ==> t == s
    ensures t.newTitle == s.newTitle && t.newDescription == s.newDescription && t.editing == s.editing
  {
    if ok then s.(todos := data) else s
  }

  /** The title input's `onChange`. */
  function TitleTyped(s: State, value: string): (t: State)
    ensures t.newTitle == value
    ensures t.todos == s.todos && t.newDescription == s.newDescription && t.editing == s.editing
  {
    s.(newTitle := value)
  }

  /** The description input's `onChange`. */
  function DescriptionTyped(s: State, value: string): (t: State)
    ensures t.newDescription == value
    ensures t.todos == s.todos && t.newTitle == s.newTitle && t.editing == s.editing
  {
    s.(newDescription := value)
  }

  /** `addTodo`: a blank title sends nothing; otherwise the inputs are posted
      as typed, and only a successful response clears them and asks for a
      refetch. The list and the draft are never touched. */
  function AddTodo(s: State, ok: bool): (e: Effect)
    ensures IsBlank(s.newTitle) ==> e == Effect(s, None, false)
    ensures !IsBlank(s.newTitle) ==> e.sent == Some(Create(NewTodo(s.newTitle, s.newDescription, false)))
    ensures e.refetch <==> ok && !IsBlank(s.newTitle)
    ensures e.refetch ==> e.state == State(s.todos, "", "", s.editing)
    ensures !e.refetch ==> e.state == s
  {
    BlankIffTrimEmpty(s.newTitle);
    if Trim(s.newTitle) == "" then
      Effect(s, None, false)
    else
      var sent := Some(Create(NewRecord(s.newTitle, s.newDescription)));
      if ok then Effect(s.(newTitle := "", newDescription := ""), sent, true)
      else Effect(s, sent, false)
  }

  /** `startEditing`: the draft becomes a copy of `todo`, whatever it was. */
  function StartEditing(s: State, todo: Todo): (t: State)
    ensures t.editing == Some(todo)
    ensures t.todos == s.todos && t.newTitle == s.newTitle && t.newDescription == s.newDescription
  {
    s.(editing := Some(todo))
  }

  /** `handleEditChange`: one input of the open edit form changed. The form,
      and so this handler, exists only while there is a draft. */
  function EditChanged(s: State, name: Field, value: string): (t: State)
    requires s.editing.Some?
    ensures t.editing.Some? && FieldValue(t.editing.value, name) == Some(value)
    ensures forall other :: other != name ==> FieldValue(t.editing.value, other) == FieldValue(s.editing.value, other)
    ensures t.editing.value.id == s.editing.value.id
    ensures t.editing.value.completed == s.editing.value.completed
    ensures t.editing.value.createdAt == s.editing.value.createdAt
    ensures t.todos == s.todos && t.newTitle == s.newTitle && t.newDescription == s.newDescription
  {
    s.(editing := Some(WithField(s.editing.value, name, value)))
  }

  /** `saveEdit`: without a draft, or with a blank draft title, nothing is
      sent. Otherwise the whole draft is put to its own id; success closes
      the form and asks for a refetch, failure keeps the draft open. */
  function SaveEdit(s: State, ok: bool): (e: Effect)
    ensures s.editing.None? ==> e == Effect(s, None, false)
    ensures s.editing.Some? && IsBlank(s.editing.value.title) ==> e == Effect(s, None, false)
    ensures s.editing.Some? && !IsBlank(s.editing.value.title) ==>
      e.sent == Some(Replace(s.editing.value.id, s.editing.value)) && e.refetch == ok
    ensures e.refetch ==> e.state == State(s.todos, s.newTitle, s.newDescription, None)
    ensures !e.refetch ==> e.state == s
  {
    match s.editing
    case None => Effect(s, None, false)
    case Some(draft) =>
      BlankIffTrimEmpty(draft.title);
      if Trim(draft.title) == "" then Effect(s, None, false)
      else
        var sent := Some(Replace(draft.id, draft));
        if ok then Effect(s.(editing := None), sent, true)
        else Effect(s, sent, false)
  }

  /** `cancelEdit`: the draft is dropped and nothing else changes. */
  function CancelEdit(s: State): (t: State)
    ensures t.editing == None
    ensures t.todos == s.todos && t.newTitle == s.newTitle && t.newDescription == s.newDescription
  {
    s.(editing := None)
  }

  /** The last successful fetch decides the list, whatever came before. */
  lemma LastFetchWins(s: State, ok: bool, older: seq<Todo>, newer: seq<Todo>)
    ensures Fetched(Fetched(s, ok, older), true, newer) == Fetched(s, true, newer)
  {
  }

  /** A blank title is rejected before any request, for any outcome. */
  lemma BlankTitleSendsNothing(s: State, title: string, ok: bool)
    requires IsBlank(title)
    ensures AddTodo(TitleTyped(s, title), ok) == Effect(TitleTyped(s, title), None, false)
  {
  }

  /** Typing into the form and submitting posts exactly what was typed, and a
      success leaves the form empty again. */
  lemma TypeThenAdd(s: State, title: string, description: string)
    requires !IsBlank(title)
    ensures var e := AddTodo(DescriptionTyped(TitleTyped(s, title), description), true);
      e.sent == Some(Create(NewTodo(title, description, false))) && e.refetch
      && e.state.newTitle == "" && e.state.newDescription == "" && e.state.todos == s.todos
  {
  }

  /** A new draft replaces an earlier one. */
  lemma StartEditingReplacesDraft(s: State, a: Todo, b: Todo)
    ensures StartEditing(StartEditing(s, a), b) == StartEditing(s, b)
  {
  }

  /** Opening and cancelling an edit returns to the idle state unchanged. */
  lemma CancelUndoesStart(s: State, todo: Todo)
    requires s.editing.None?
    ensures CancelEdit(StartEditing(s, todo)) == s
  {
  }

  /** Editing the title of `todo` and saving puts `todo` with only its title
      changed: id, description, completion and creation time pass through. */
  lemma EditTitleThenSave(s: State, todo: Todo, title: string, ok: bool)
    requires !IsBlank(title)
    ensures var e := SaveEdit(EditChanged(StartEditing(s, todo), Title, title), ok);
      e.sent == Some(Replace(todo.id, Todo(todo.id, title, todo.description, todo.completed, todo.createdAt)))
      && e.refetch == ok
      && e.state.todos == s.todos
      && e.state.editing == (if ok then None else Some(Todo(todo.id, title, todo.description, todo.completed, todo.createdAt)))
  {
  }

  /** A failed save can be retried: the state, draft included, is as before. */
  lemma FailedSaveKeepsDraft(s: State)
    ensures SaveEdit(s, false).state == s
    ensures SaveEdit(SaveEdit(s, false).state, true) == SaveEdit(s, true)
  {
  }
}
