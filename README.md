# To-do list client, modelled in Dafny

This project models the client of a small to-do list web application. The
client is the React component `App` in `frontend/src/App.js`. It holds an
ordered list of to-do records, the two inputs of the "add" form, and at most
one draft being edited. Its handlers change that state:

- fetch the list;
- create, toggle, delete and save items through a REST collection;
- open, change and cancel the edit form.

Every successful write is followed by a refetch that is not awaited; a failed write asks for none.

Layout:

- `wrappers.dfy`: `Option`.
- `whitespace.dfy`: JavaScript's `String.prototype.trim` over the ECMAScript
  WhiteSpace and LineTerminator characters. `IsBlank` is proved to be
  exactly the strings that `trim` maps to `""`.
- `records.dfy`: the `Todo` record, the create payload `NewTodo` and the
  `Request`s sent to the server. Also the record builders: the new item,
  the toggled record and the field merge of the edit form.
- `transitions.dfy`: the component state as a value. Each state-changing
  handler is a function from the old state and the network outcome to an
  `Effect`: the new state, the request sent, and whether a refetch was asked
  for. Lemmas here relate several calls.
- `todo_client.dfy`: the class `TodoClient`. Its fields are the component's
  state and its methods are the handlers. Every state-changing method is
  proved to leave `Model()` and its results equal to the `Transitions`
  function. The `Walkthrough` method runs two short sessions through the
  class: a double toggle, and a blanked edit that cannot be saved and is
  then cancelled. The network is a parameter: `ok` says whether the response had
  an ok status and its body parsed (for a delete, only the status). `ApplyFetch` delivers the answer to a
  refetch.

## Model

| member | source | states |
|---|---|---|
| `Whitespace.TrimStart` | frontend/src/App.js:57 | the result is a suffix of the input, empty or starting with a non-whitespace character, and what was dropped is all whitespace |
| `Whitespace.TrimEnd` | frontend/src/App.js:57 | the result is a prefix of the input, empty or ending with a non-whitespace character, and what was dropped is all whitespace |
| `Whitespace.Trim` | frontend/src/App.js:145 | the trimmed string is the slice of the input left after dropping its blank prefix and blank suffix, and has no whitespace at either end |
| `Whitespace.BlankIffTrimEmpty` | frontend/src/App.js:57 | `!s.trim()` holds exactly when every character of `s` is whitespace, in both directions |
| `Records.NewRecord` | frontend/src/App.js:59-63 | the create payload carries title and description exactly as typed (the title is not trimmed), has `completed` false and has no id |
| `Records.Toggled` | frontend/src/App.js:89 | the toggled record differs from the input in `completed` only |
| `Records.ToggledTwice` | frontend/src/App.js:89 | toggling twice gives back the original record |
| `Records.WithField` | frontend/src/App.js:137-140 | after typing, the named input shows the typed value, the other input shows what it did before, and id, completion and creation time are kept |
| `Records.WithFieldLastWins` | frontend/src/App.js:137-140 | typing into the same input twice keeps only the last value |
| `Records.WithFieldCommutes` | frontend/src/App.js:137-140 | changes to different inputs give the same draft in either order |
| `Records.WithFieldRestores` | frontend/src/App.js:137-140 | typing back the value the draft already holds for a field leaves the draft unchanged |
| `Records.TouchedNullDescription` | frontend/src/App.js:228 | a null description, displayed as `""`, becomes `Some("")` once its input is typed into and cleared, so the draft differs from the original |
| `Transitions.Initial` | frontend/src/App.js:24-30 | the component starts with an empty list, empty inputs and no draft |
| `Transitions.Fetched` | frontend/src/App.js:41-52 | a successful fetch replaces the list wholesale with the server's sequence in its order; a failed one changes nothing; inputs and draft are never touched |
| `Transitions.TitleTyped` | frontend/src/App.js:185 | only the title input changes |
| `Transitions.DescriptionTyped` | frontend/src/App.js:190 | only the description input changes |
| `Transitions.AddTodo` | frontend/src/App.js:55-85 | a blank title sends nothing and changes nothing; otherwise the typed inputs are posted with `completed` false; only on success are both inputs cleared and a refetch asked for; the list and the draft never change |
| `Transitions.StartEditing` | frontend/src/App.js:130-132 | the draft becomes a copy of the item, whatever it was; list and inputs are unchanged |
| `Transitions.EditChanged` | frontend/src/App.js:135-141 | only the named field of the draft changes; id, completion, creation time and the other field keep their values; nothing outside the draft changes |
| `Transitions.SaveEdit` | frontend/src/App.js:144-166 | no draft or a blank draft title sends nothing and changes nothing; otherwise the whole draft is put to its own id; success clears the draft and asks for a refetch, failure leaves the state as it was |
| `Transitions.CancelEdit` | frontend/src/App.js:169-171 | the draft is cleared and list and inputs are unchanged |
| `Transitions.LastFetchWins` | frontend/src/App.js:48 | after a successful fetch, the list is that fetch's data, whatever the earlier fetch did |
| `Transitions.BlankTitleSendsNothing` | frontend/src/App.js:57 | submitting a whitespace-only title issues no request and leaves the state unchanged, for either network outcome |
| `Transitions.TypeThenAdd` | frontend/src/App.js:59-81 | typing a non-blank title and a description and submitting successfully posts exactly those values, clears the form and keeps the list |
| `Transitions.StartEditingReplacesDraft` | frontend/src/App.js:131 | opening an edit replaces the earlier draft |
| `Transitions.CancelUndoesStart` | frontend/src/App.js:130-132 | from the idle state, opening and cancelling an edit returns to the same state |
| `Transitions.EditTitleThenSave` | frontend/src/App.js:130-166 | opening an edit, changing the title and saving puts the item with only its title changed; success closes the form, failure keeps the changed draft; the list is unchanged |
| `Transitions.FailedSaveKeepsDraft` | frontend/src/App.js:156-165 | a failed save leaves the state as it was, so retrying behaves as the first attempt would have |
| `Component.TodoClient.constructor` | frontend/src/App.js:24-30 | the fields start at the initial state |
| `Component.TodoClient.ApplyFetch` | frontend/src/App.js:41-52 | the new state is `Transitions.Fetched` of the old one |
| `Component.TodoClient.SetNewTitle` | frontend/src/App.js:185 | the new state is `Transitions.TitleTyped` of the old one |
| `Component.TodoClient.SetNewDescription` | frontend/src/App.js:190 | the new state is `Transitions.DescriptionTyped` of the old one |
| `Component.TodoClient.AddTodo` | frontend/src/App.js:55-85 | new state, request and refetch flag are those of `Transitions.AddTodo` |
| `Component.TodoClient.ToggleComplete` | frontend/src/App.js:88-109 | puts the toggled record to the item's own id and asks for a refetch exactly on success; no state changes |
| `Component.TodoClient.DeleteTodo` | frontend/src/App.js:112-127 | deletes the item by id and asks for a refetch exactly on success; no state changes, so the item stays listed until a refetch |
| `Component.TodoClient.StartEditing` | frontend/src/App.js:130-132 | the new state is `Transitions.StartEditing` of the old one |
| `Component.TodoClient.HandleEditChange` | frontend/src/App.js:135-141 | the new state is `Transitions.EditChanged` of the old one |
| `Component.TodoClient.SaveEdit` | frontend/src/App.js:144-166 | new state, request and refetch flag are those of `Transitions.SaveEdit` |
| `Component.TodoClient.CancelEdit` | frontend/src/App.js:169-171 | the new state is `Transitions.CancelEdit` of the old one |

## Left out

- The HTTP calls, URLs, headers and JSON encoding (frontend/src/App.js:33, 43, 66-72, 92-98, 114-116, 148-154) are network I/O. A handler's request is its `sent` result. The response is the `ok` flag, plus the list for a fetch. A body that fails to parse counts as not ok.
- Overlapping requests and the order in which their refetches land are not modelled. The refetches at frontend/src/App.js:81, 105, 123 and 162 are not awaited, and nothing orders them. A refetch is a `refetch` flag, and its answer is a later `ApplyFetch`.
- The fetch on mount (frontend/src/App.js:36-38), the rendering, the date formatting of `created_at` and the `console.error` logging are left out. They are UI or I/O and do not change the state.
- Records hold exactly the five fields `id`, `title`, `description`, `completed` and `created_at`. The server's model file is not part of this model, so any other fields it sends are not represented. The list has to be an array of such records.
- The server side is not modelled: `todo/todo/urls.py`, `todo/list/views.py`, `todo/list/serializers.py` and `todo/list/admin.py`. Behaviour that depends on what the server does with a request is not stated, and neither is the newest-first order of its list. That includes the created item appearing after a refetch and the deleted item vanishing.
- Component.TodoClient.HandleEditChange: requires an open draft. The edit form that calls the handler exists only while there is one. With no draft, JavaScript would spread `null` into a record holding only the typed field, which a `Todo` cannot represent.
- Edit-form inputs other than `title` and `description` do not exist in the page. That is why `Field` has only these two.
- Component.TodoClient.AddTodo, Component.TodoClient.SaveEdit, Component.TodoClient.ToggleComplete and Component.TodoClient.DeleteTodo: each runs as one atomic step from the click to the response. The model assumes no event arrives while the request is pending. In the page, text typed into the add form during a pending POST is wiped when it succeeds (frontend/src/App.js:79-80). A draft opened during a pending save is closed when that save succeeds, while the PUT carries the draft captured at the click (frontend/src/App.js:161).
- A Dafny `string` is a sequence of Unicode scalar values, while a JavaScript string is a sequence of UTF-16 code units. Lone surrogates therefore cannot be represented. `trim` strips no surrogate, so this changes no blank-title decision.
