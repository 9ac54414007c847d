/** The records the app fetches: todos, users and one page of todos. */
module Models {
  import opened Wrappers

  /** One to-do item as the todos endpoint returns it. */
  datatype Todo = Todo(id: int, title: string, completed: bool, userId: Option<int>)

  /** One user as the users endpoint returns it; the contact fields may be missing. */
  datatype User = User(
    id: int,
    name: string,
    username: Option<string>,
    email: Option<string>,
    phone: Option<string>,
    website: Option<string>)

  /** A batch of todos with the position it was cut from. */
  datatype PaginatedTodos = PaginatedTodos(
    todos: seq<Todo>,
    currentPage: int,
    pageSize: int,
    totalCount: Option<int>)
  {
    /** Whether a later page may hold more todos. With a known total this
        depends only on the page arithmetic, without one only on whether
        this batch was empty. */
    predicate HasMore()
    {
      match totalCount
      case Some(total) => currentPage * pageSize < total
      case None => todos != []
    }

    /** The page to ask for next, present exactly when there may be more. */
    function NextPage(): (next: Option<int>)
      ensures next.Some? <==> HasMore()
      ensures next.Some? ==> next.value == currentPage + 1 && next.value > currentPage
    {
      if HasMore() then Some(currentPage + 1) else None
    }
  }

  /** With a total, the batch contents do not affect `HasMore`. */
  lemma HasMoreIgnoresBatchWhenTotalKnown(p: PaginatedTodos, q: PaginatedTodos)
    requires p.totalCount.Some? && p.totalCount == q.totalCount
    requires p.currentPage == q.currentPage && p.pageSize == q.pageSize
    ensures p.HasMore() <==> q.HasMore()
  {
  }

  /** Without a total, `HasMore` holds exactly for a non-empty batch. */
  lemma HasMoreWithoutTotal(p: PaginatedTodos)
    requires p.totalCount.None?
    ensures p.HasMore() <==> |p.todos| > 0
  {
  }
}
