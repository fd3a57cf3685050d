/**
 * The `App` component as a state container: its four pieces of state are
 * fields, and each handler updates them in place. Requests go out through the
 * `sent` result; the network's answer comes in as `ok` (and, for a fetch, the
 * returned list). A handler that asks for a refetch says so in `refetch`; the
 * fetch itself is not awaited, and its answer arrives through `ApplyFetch`.
 */
module Component {
  import opened Wrappers
  import opened Whitespace
  import opened Records
  import Transitions

  class TodoClient {
    var todos: seq<Todo>
    var newTitle: string
    var newDescription: string
    var editing: Option<Todo>

    /** The component's state as a value. */
    function Model(): Transitions.State
      reads this
    {
      Transitions.State(todos, newTitle, newDescription, editing)
    }

    /** Mounting: an empty list, empty inputs, no draft. */
    constructor ()
      ensures Model() == Transitions.Initial()
    {
      todos := [];
      newTitle := "";
      newDescription := "";
      editing := None;
    }

    /** The completion of `fetchTodos`: `ok` when the status was ok and the
        body parsed as JSON, `data` the list it held. */
    method ApplyFetch(ok: bool, data: seq<Todo>)
      modifies this
      ensures Model() == Transitions.Fetched(old(Model()), ok, data)
    {
      if ok {
        todos := data;
      }
    }

    /** The title input's `onChange`. */
    method SetNewTitle(value: string)
      modifies this
      ensures Model() == Transitions.TitleTyped(old(Model()), value)
    {
      newTitle := value;
    }

    /** The description input's `onChange`. */
    method SetNewDescription(value: string)
      modifies this
      ensures Model() == Transitions.DescriptionTyped(old(Model()), value)
    {
      newDescription := value;
    }

    /** `addTodo`: `ok` when the POST's status was ok and its body parsed. */
    method AddTodo(ok: bool) returns (sent: Option<Request>, refetch: bool)
      modifies this
      ensures Transitions.Effect(Model(), sent, refetch) == Transitions.AddTodo(old(Model()), ok)
    {
      if Trim(newTitle) == "" {
        return None, false;
      }
      sent := Some(Create(NewRecord(newTitle, newDescription)));
      if !ok {
        return sent, false;
      }
      newTitle := "";
      newDescription := "";
      refetch := true;
    }

    /** `toggleComplete`: puts `todo` with its completion negated; `ok` when
        the PUT's status was ok and its body parsed. No state changes here. */
    method ToggleComplete(todo: Todo, ok: bool) returns (sent: Option<Request>, refetch: bool)
      ensures sent == Some(Replace(todo.id, Toggled(todo)))
      ensures refetch == ok
    {
      var updated := Toggled(todo);
      sent := Some(Replace(todo.id, updated));
      refetch := ok;
    }

    /** `deleteTodo`: deletes the item `id`; `ok` when the status was ok. No
        state changes here: the item leaves the list only with the refetch. */
    method DeleteTodo(id: Id, ok: bool) returns (sent: Option<Request>, refetch: bool)
      ensures sent == Some(Delete(id))
      ensures refetch == ok
    {
      sent := Some(Delete(id));
      refetch := ok;
    }

    /** `startEditing`. */
    method StartEditing(todo: Todo)
      modifies this
      ensures Model() == Transitions.StartEditing(old(Model()), todo)
    {
      editing := Some(todo);
    }

    /** `handleEditChange`, called only from the open edit form. */
    method HandleEditChange(name: Field, value: string)
      requires editing.Some?
      modifies this
      ensures Model() == Transitions.EditChanged(old(Model()), name, value)
    {
      editing := Some(WithField(editing.value, name, value));
    }

    /** `saveEdit`: `ok` when the PUT's status was ok and its body parsed. */
    method SaveEdit(ok: bool) returns (sent: Option<Request>, refetch: bool)
      modifies this
      ensures Transitions.Effect(Model(), sent, refetch) == Transitions.SaveEdit(old(Model()), ok)
    {
      if editing.None? || Trim(editing.value.title) == "" {
        return None, false;
      }
      sent := Some(Replace(editing.value.id, editing.value));
      if !ok {
        return sent, false;
      }
      editing := None;
      refetch := true;
    }

    /** `cancelEdit`. */
    method CancelEdit()
      modifies this
      ensures Model() == Transitions.CancelEdit(old(Model()))
    {
      editing := None;
    }
  }

  /** Two sessions whose steps combine several handlers' contracts:
      toggling the record just sent again puts the original record,
      and an edit whose title was blanked cannot be saved but can be
      cancelled, leaving the list as fetched. */
  method Walkthrough(a: Todo)
  {
    var client := new TodoClient();
    client.ApplyFetch(true, [a]);

    var sent, refetch := client.ToggleComplete(a, true);
    sent, refetch := client.ToggleComplete(sent.value.record, true);
    ToggledTwice(a);
    assert sent == Some(Replace(a.id, a));

    client.StartEditing(a);
    client.HandleEditChange(Title, "   ");
    sent, refetch := client.SaveEdit(true);
    assert sent == None && client.editing.Some?;
    client.CancelEdit();
    assert client.editing == None && client.todos == [a];
  }
}
