/** The row shown for one todo in the list. */
module ListViewModel {
  import opened Wrappers
  import opened Models

  datatype TodoListItem = TodoListItem(id: int, title: string, subtitle: string, isCompleted: bool)

  const UnknownUser: string := "Unknown User"

  /** Projects a todo, with its resolved user if any, onto a row. `capitalize`
      stands for Foundation's `String.capitalized`, left uninterpreted. */
  function ListItem(todo: Todo, user: Option<User>, capitalize: string -> string): (row: TodoListItem)
    ensures row.id == todo.id
    ensures row.title == capitalize(todo.title)
    ensures row.subtitle == (if user.Some? then user.value.name else UnknownUser)
    ensures row.isCompleted == todo.completed
  {
    TodoListItem(
      todo.id,
      capitalize(todo.title),
      match user { case Some(u) => u.name case None => UnknownUser },
      todo.completed)
  }

  /** Whether a row is the projection of a todo for some resolution of its user. */
  predicate ShowsTodo(row: TodoListItem, todo: Todo, capitalize: string -> string)
  {
    row.id == todo.id && row.title == capitalize(todo.title) && row.isCompleted == todo.completed
  }

  /** The row for "write tests" by Ada: title capitalized word by word, subtitle the user's name. */
  lemma WriteTestsByAda(capitalize: string -> string, ada: User)
    requires capitalize("write tests") == "Write Tests"
    requires ada.name == "Ada"
    ensures ListItem(Todo(1, "write tests", false, Some(7)), Some(ada), capitalize)
         == TodoListItem(1, "Write Tests", "Ada", false)
  {
  }
}
