/** The list coordinator: owns the pagination guard, the accumulated todos and
    their rows, and the id-to-user index. Gestures from the view and the
    completions of API calls arrive as event methods, one at a time; what the
    presenter sends out (view calls and API requests) is appended to `effects`. */
module Presenter {
  import opened Wrappers
  import opened Models
  import opened Decimal
  import opened Pagination
  import opened ApiClient
  import opened ListViewModel
  import opened DetailsViewModel

  /** An error delivered by an API implementation: one of the client's own
      errors, or any other error, known only by its description. */
  datatype FetchError = Api(error: APIError) | Other(cause: SystemError)

  const ServerErrorPrefix: string := "Server returned status code "

  /** The message shown for an error. */
  function ErrorMessage(e: FetchError): (message: string)
    ensures e == Api(InvalidURL) ==> message == "Failed to build request URL."
    ensures e == Api(InvalidResponse) ==> message == "Received invalid server response."
    ensures e.Api? && e.error.ServerError? ==>
      message == ServerErrorPrefix + IntToString(e.error.statusCode) + "."
    ensures e.Api? && e.error.Decoding? ==>
      message == "Failed to decode response: " + e.error.cause.localizedDescription
    ensures e.Api? && e.error.Underlying? ==> message == e.error.cause.localizedDescription
    ensures e.Other? ==> message == e.cause.localizedDescription
  {
    match e
    case Api(InvalidURL) => "Failed to build request URL."
    case Api(InvalidResponse) => "Received invalid server response."
    case Api(ServerError(statusCode)) => ServerErrorPrefix + IntToString(statusCode) + "."
    case Api(Decoding(cause)) => "Failed to decode response: " + cause.localizedDescription
    case Api(Underlying(cause)) => cause.localizedDescription
    case Other(cause) => cause.localizedDescription
  }

  /** A server-error message names its status code: distinct codes give distinct messages. */
  lemma ServerErrorMessageNamesCode(a: int, b: int)
    requires ErrorMessage(Api(ServerError(a))) == ErrorMessage(Api(ServerError(b)))
    ensures a == b
  {
    var ma, mb := ErrorMessage(Api(ServerError(a))), ErrorMessage(Api(ServerError(b)));
    var n := |ServerErrorPrefix|;
    assert ma[n..|ma| - 1] == IntToString(a);
    assert mb[n..|mb| - 1] == IntToString(b);
    IntToStringInjective(a, b);
  }

  predicate UniqueIds(users: seq<User>)
  {
    forall i, j :: 0 <= i < j < |users| ==> users[i].id != users[j].id
  }

  /** `Dictionary(uniqueKeysWithValues:)` over the users keyed by id: every
      user is found under its id, and every entry is one of the users, filed
      under its own id. */
  function UserIndex(users: seq<User>): (index: map<int, User>)
    requires UniqueIds(users)
    ensures forall i :: 0 <= i < |users| ==> users[i].id in index && index[users[i].id] == users[i]
    ensures forall id :: id in index ==> index[id] in users && index[id].id == id
  {
    if users == [] then map[]
    else
      var earlier, last := users[..|users| - 1], users[|users| - 1];
      assert users == earlier + [last];
      var index := UserIndex(earlier);
      assert forall i :: 0 <= i < |earlier| ==> earlier[i] == users[i] && earlier[i].id != last.id;
      index[last.id := last]
  }

  /** The todo's user id, if it has one, looked up in the index. */
  function ResolveUser(todo: Todo, usersById: map<int, User>): (user: Option<User>)
    ensures user.Some? <==> todo.userId.Some? && todo.userId.value in usersById
    ensures user.Some? ==> user.value == usersById[todo.userId.value]
  {
    match todo.userId
    case Some(id) => if id in usersById then Some(usersById[id]) else None
    case None => None
  }

  /** The position of the first todo with the given id, as `first(where:)` finds it. */
  function FirstWithId(todos: seq<Todo>, id: int): (found: Option<nat>)
    ensures found.Some? ==> found.value < |todos| && todos[found.value].id == id
    ensures found.Some? ==> forall j :: 0 <= j < found.value ==> todos[j].id != id
    ensures found.None? ==> forall j :: 0 <= j < |todos| ==> todos[j].id != id
  {
    if todos == [] then None
    else if todos[0].id == id then Some(0)
    else match FirstWithId(todos[1..], id)
      case Some(k) => Some(k + 1)
      case None => None
  }

  /** The rows for a page of todos, each with its user resolved through the index. */
  function ListItems(todos: seq<Todo>, usersById: map<int, User>, capitalize: string -> string): (rows: seq<TodoListItem>)
    ensures |rows| == |todos|
    ensures forall i :: 0 <= i < |todos| ==> rows[i] == ListItem(todos[i], ResolveUser(todos[i], usersById), capitalize)
  {
    seq(|todos|, i requires 0 <= i < |todos| => ListItem(todos[i], ResolveUser(todos[i], usersById), capitalize))
  }

  /** A page fetch that has been issued and whose completion has not yet run,
      with the `reset` flag its completion captured. */
  datatype PageRequest = PageRequest(page: int, reset: bool)

  /** A call the presenter makes on its view or on its API client. */
  datatype Effect =
    | ShowLoading(isLoading: bool)
    | SetFooterLoading(isLoading: bool)
    | ShowTodos(rows: seq<TodoListItem>, reset: bool)
    | ShowError(message: string)
    | ShowTodoDetails(details: TodoDetails)
    | RequestUsers
    | RequestTodos(page: int, limit: int)

  /** What `loadNextPage` sends out once the guard has answered `page`. */
  function NextPageEffects(page: Option<int>, limit: int): seq<Effect>
  {
    match page
    case Some(p) => [SetFooterLoading(true), RequestTodos(p, limit)]
    case None => []
  }

  /** How close to the end of the list a displayed row triggers the next page. */
  const PrefetchDistance: int := 5

  class TodoListPresenter {
    const pageSize: int
    /** Foundation's `String.capitalized`, left uninterpreted. */
    const capitalize: string -> string
    const paginationState: PaginationState
    var cachedViewModels: seq<TodoListItem>
    var cachedTodos: seq<Todo>
    var usersById: map<int, User>
    var effects: seq<Effect>
    var pendingPages: seq<PageRequest>
    var pendingUserFetches: nat

    /** Row `i` shows the id, capitalized title and completion flag of todo `i`,
        and while the guard is loading, the last page issued is the one after
        the current page. */
    ghost predicate Valid()
      reads this, paginationState
    {
      && |cachedViewModels| == |cachedTodos|
      && (forall i :: 0 <= i < |cachedTodos| ==> ShowsTodo(cachedViewModels[i], cachedTodos[i], capitalize))
      && (paginationState.isLoading ==>
            pendingPages != [] && pendingPages[|pendingPages| - 1].page == paginationState.currentPage + 1)
    }

    constructor (capitalize: string -> string, pageSize: int)
      ensures Valid() && fresh(paginationState)
      ensures this.capitalize == capitalize && this.pageSize == pageSize
      ensures paginationState.Snapshot() == Initial
      ensures cachedViewModels == [] && cachedTodos == [] && usersById == map[]
      ensures effects == [] && pendingPages == [] && pendingUserFetches == 0
    {
      this.capitalize := capitalize;
      this.pageSize := pageSize;
      paginationState := new PaginationState();
      cachedViewModels := [];
      cachedTodos := [];
      usersById := map[];
      effects := [];
      pendingPages := [];
      pendingUserFetches := 0;
    }

    method ViewDidLoad()
      requires Valid()
      modifies this, paginationState
      ensures Valid()
      ensures cachedTodos == [] && cachedViewModels == [] && usersById == old(usersById)
      ensures old(usersById) == map[] ==>
        && paginationState.Snapshot() == Initial
        && effects == old(effects) + [ShowLoading(true), RequestUsers]
        && pendingPages == old(pendingPages) && pendingUserFetches == old(pendingUserFetches) + 1
      ensures old(usersById) != map[] ==>
        && paginationState.Snapshot() == Pager(0, true, true)
        && effects == old(effects) + [ShowLoading(true), SetFooterLoading(true), RequestTodos(1, pageSize)]
        && pendingPages == old(pendingPages) + [PageRequest(1, true)]
        && pendingUserFetches == old(pendingUserFetches)
    {
      LoadFirstPage();
    }

    method DidPullToRefresh()
      requires Valid()
      modifies this, paginationState
      ensures Valid()
      ensures cachedTodos == [] && cachedViewModels == [] && usersById == old(usersById)
      ensures old(usersById) == map[] ==>
        && paginationState.Snapshot() == Initial
        && effects == old(effects) + [ShowLoading(true), RequestUsers]
        && pendingPages == old(pendingPages) && pendingUserFetches == old(pendingUserFetches) + 1
      ensures old(usersById) != map[] ==>
        && paginationState.Snapshot() == Pager(0, true, true)
        && effects == old(effects) + [ShowLoading(true), SetFooterLoading(true), RequestTodos(1, pageSize)]
        && pendingPages == old(pendingPages) + [PageRequest(1, true)]
        && pendingUserFetches == old(pendingUserFetches)
    {
      LoadFirstPage();
    }

    /** A row at `index` was displayed: near the end of the list, ask for the next page. */
    method DidReachItem(index: int)
      requires Valid()
      modifies this, paginationState
      ensures Valid()
      ensures index < |old(cachedViewModels)| - PrefetchDistance ==>
        && paginationState.Snapshot() == old(paginationState.Snapshot())
        && effects == old(effects) && pendingPages == old(pendingPages)
      ensures index >= |old(cachedViewModels)| - PrefetchDistance ==>
        && paginationState.Snapshot() == Start(old(paginationState.Snapshot())).0
        && effects == old(effects) + NextPageEffects(Start(old(paginationState.Snapshot())).1, pageSize)
        && pendingPages == old(pendingPages)
             + (match Start(old(paginationState.Snapshot())).1
                case Some(p) => [PageRequest(p, false)]
                case None => [])
      ensures cachedTodos == old(cachedTodos) && cachedViewModels == old(cachedViewModels)
      ensures usersById == old(usersById) && pendingUserFetches == old(pendingUserFetches)
    {
      if index < |cachedViewModels| - PrefetchDistance {
        return;
      }
      LoadNextPage(false);
    }

    /** A row was tapped: show the details of the first todo with that id, if any. */
    method DidSelectTodo(id: int)
      modifies this`effects
      ensures FirstWithId(cachedTodos, id).None? ==> effects == old(effects)
      ensures FirstWithId(cachedTodos, id).Some? ==>
        var todo := cachedTodos[FirstWithId(cachedTodos, id).value];
        effects == old(effects) + [ShowTodoDetails(Details(todo, ResolveUser(todo, usersById), capitalize))]
    {
      match FirstWithId(cachedTodos, id) {
        case None =>
          return;
        case Some(i) =>
          var todo := cachedTodos[i];
          var details := BuildDetails(todo, ResolveUser(todo, usersById), capitalize);
          effects := effects + [ShowTodoDetails(details)];
      }
    }

    /** Initial load and refresh: reset the guard, drop the accumulated list,
        show the loading indicator, then load users if the index is empty
        and page 1 (with `reset`) otherwise. */
    method LoadFirstPage()
      requires Valid()
      modifies this, paginationState
      ensures Valid()
      ensures cachedTodos == [] && cachedViewModels == [] && usersById == old(usersById)
      ensures old(usersById) == map[] ==>
        && paginationState.Snapshot() == Initial
        && effects == old(effects) + [ShowLoading(true), RequestUsers]
        && pendingPages == old(pendingPages) && pendingUserFetches == old(pendingUserFetches) + 1
      ensures old(usersById) != map[] ==>
        && paginationState.Snapshot() == Pager(0, true, true)
        && effects == old(effects) + [ShowLoading(true), SetFooterLoading(true), RequestTodos(1, pageSize)]
        && pendingPages == old(pendingPages) + [PageRequest(1, true)]
        && pendingUserFetches == old(pendingUserFetches)
    {
      paginationState.Reset();
      cachedViewModels := [];
      cachedTodos := [];
      effects := effects + [ShowLoading(true)];
      if usersById != map[] {
        LoadNextPage(true);
      } else {
        effects := effects + [RequestUsers];
        pendingUserFetches := pendingUserFetches + 1;
      }
    }

    /** Claims the next page from the guard and, if one is granted, issues its
        fetch; the completion will replace the list when `reset` is set and
        append to it otherwise. */
    method LoadNextPage(reset: bool)
      requires Valid()
      modifies this`effects, this`pendingPages, paginationState
      ensures Valid()
      ensures paginationState.Snapshot() == Start(old(paginationState.Snapshot())).0
      ensures effects == old(effects) + NextPageEffects(Start(old(paginationState.Snapshot())).1, pageSize)
      ensures pendingPages == old(pendingPages)
        + (match Start(old(paginationState.Snapshot())).1
           case Some(p) => [PageRequest(p, reset)]
           case None => [])
    {
      var page := paginationState.StartLoadingNextPage();
      match page {
        case None =>
          return;
        case Some(p) =>
          effects := effects + [SetFooterLoading(true), RequestTodos(p, pageSize)];
          pendingPages := pendingPages + [PageRequest(p, reset)];
      }
    }

    /** The completion of the pending page fetch `pendingPages[i]`, with the
        result the API delivered. On success the page replaces or extends the
        list and its rows are shown; on failure the list is kept, the guard is
        left ready to retry the same page, and the error is shown. */
    method PageFetchCompleted(i: nat, result: Result<PaginatedTodos, FetchError>)
      requires Valid()
      requires i < |pendingPages|
      modifies this, paginationState
      ensures Valid()
      ensures pendingPages == old(pendingPages[..i] + pendingPages[i + 1..])
      ensures usersById == old(usersById) && pendingUserFetches == old(pendingUserFetches)
      ensures result.Success? ==>
        var page, reset := result.value, old(pendingPages[i].reset);
        var rows := ListItems(page.todos, usersById, capitalize);
        && paginationState.Snapshot() == Complete(old(paginationState.Snapshot()), page)
        && cachedTodos == (if reset then page.todos else old(cachedTodos) + page.todos)
        && cachedViewModels == (if reset then rows else old(cachedViewModels) + rows)
        && effects == old(effects) + [SetFooterLoading(false), ShowLoading(false), ShowTodos(rows, reset)]
      ensures result.Failure? ==>
        && paginationState.Snapshot() == Fail(old(paginationState.Snapshot()))
        && cachedTodos == old(cachedTodos) && cachedViewModels == old(cachedViewModels)
        && effects == old(effects)
             + [SetFooterLoading(false), ShowLoading(false), ShowError(ErrorMessage(result.error))]
    {
      var request := pendingPages[i];
      pendingPages := pendingPages[..i] + pendingPages[i + 1..];
      effects := effects + [SetFooterLoading(false)];
      match result {
        case Success(page) =>
          paginationState.CompleteLoading(page);
          var rows := ListItems(page.todos, usersById, capitalize);
          if request.reset {
            cachedTodos := page.todos;
            cachedViewModels := rows;
          } else {
            cachedTodos := cachedTodos + page.todos;
            cachedViewModels := cachedViewModels + rows;
          }
          effects := effects + [ShowLoading(false), ShowTodos(rows, request.reset)];
        case Failure(error) =>
          paginationState.CompleteLoadingWithError();
          effects := effects + [ShowLoading(false), ShowError(ErrorMessage(error))];
      }
    }

    /** The completion of a users fetch: index the users on success, show the
        error on failure, and in both cases go on to load page 1 with `reset`.
        Duplicate user ids would make the dictionary initializer trap. */
    method UsersFetchCompleted(result: Result<seq<User>, FetchError>)
      requires Valid()
      requires pendingUserFetches > 0
      requires result.Success? ==> UniqueIds(result.value)
      modifies this, paginationState
      ensures Valid()
      ensures pendingUserFetches == old(pendingUserFetches) - 1
      ensures cachedTodos == old(cachedTodos) && cachedViewModels == old(cachedViewModels)
      ensures paginationState.Snapshot() == Start(old(paginationState.Snapshot())).0
      ensures result.Success? ==>
        && usersById == UserIndex(result.value)
        && effects == old(effects) + NextPageEffects(Start(old(paginationState.Snapshot())).1, pageSize)
      ensures result.Failure? ==>
        && usersById == old(usersById)
        && effects == old(effects) + [ShowError(ErrorMessage(result.error))]
             + NextPageEffects(Start(old(paginationState.Snapshot())).1, pageSize)
      ensures pendingPages == old(pendingPages)
        + (match Start(old(paginationState.Snapshot())).1
           case Some(p) => [PageRequest(p, true)]
           case None => [])
    {
      pendingUserFetches := pendingUserFetches - 1;
      match result {
        case Success(users) =>
          usersById := UserIndex(users);
        case Failure(error) =>
          effects := effects + [ShowError(ErrorMessage(error))];
      }
      LoadNextPage(true);
    }
  }

  /** The users fetch fails and page 1 then brings three todos: the error is
      shown once, and the three rows, in order, all say "Unknown User". */
  method UsersFailThenFirstPage(capitalize: string -> string, usersError: FetchError, todos: seq<Todo>)
    returns (effects: seq<Effect>, rows: seq<TodoListItem>)
    requires |todos| == 3
    ensures effects == [
      ShowLoading(true), RequestUsers, ShowError(ErrorMessage(usersError)),
      SetFooterLoading(true), RequestTodos(1, 20),
      SetFooterLoading(false), ShowLoading(false), ShowTodos(rows, true)]
    ensures |rows| == 3
    ensures forall i :: 0 <= i < 3 ==> rows[i].id == todos[i].id && rows[i].subtitle == UnknownUser
  {
    var presenter := new TodoListPresenter(capitalize, 20);
    presenter.ViewDidLoad();
    assert presenter.effects == [ShowLoading(true), RequestUsers];
    assert presenter.paginationState.Snapshot() == Initial && presenter.usersById == map[];
    presenter.UsersFetchCompleted(Failure(usersError));
    assert presenter.pendingPages == [PageRequest(1, true)];
    assert presenter.effects == [
      ShowLoading(true), RequestUsers, ShowError(ErrorMessage(usersError)),
      SetFooterLoading(true), RequestTodos(1, 20)];
    assert presenter.usersById == map[];
    var page := Paginate(todos, 1, 20);
    assert page.todos == todos;
    presenter.PageFetchCompleted(0, Success(page));
    assert presenter.cachedViewModels == ListItems(todos, map[], capitalize);
    effects := presenter.effects;
    rows := presenter.cachedViewModels;
  }

  /** A presenter whose users fetch succeeded and which then loaded page 1 of 45 todos. */
  method FirstPageLoaded(capitalize: string -> string, ada: User, todos: seq<Todo>)
    returns (presenter: TodoListPresenter)
    requires |todos| == 45
    ensures fresh(presenter) && fresh(presenter.paginationState)
    ensures presenter.Valid() && presenter.pageSize == 20
    ensures presenter.usersById != map[]
    ensures |presenter.cachedViewModels| == 20
    ensures presenter.paginationState.Snapshot() == Pager(1, false, true)
    ensures presenter.pendingPages == []
  {
    presenter := new TodoListPresenter(capitalize, 20);
    presenter.ViewDidLoad();
    assert presenter.paginationState.Snapshot() == Initial && presenter.usersById == map[];
    presenter.UsersFetchCompleted(Success([ada]));
    assert presenter.usersById != map[] by {
      assert ada.id in presenter.usersById;
    }
    assert presenter.pendingPages == [PageRequest(1, true)];
    FortyFiveTodosInPagesOfTwenty(todos);
    presenter.PageFetchCompleted(0, Success(Paginate(todos, 1, 20)));
  }

  /** The same presenter after it issued page 2 and was then refreshed: page 1
      (with `reset`) is issued again while page 2 is pending. */
  method RefreshWithPageTwoPending(capitalize: string -> string, ada: User, todos: seq<Todo>)
    returns (presenter: TodoListPresenter)
    requires |todos| == 45
    ensures fresh(presenter) && fresh(presenter.paginationState)
    ensures presenter.Valid() && presenter.pageSize == 20
    ensures presenter.usersById != map[]
    ensures presenter.cachedTodos == [] && presenter.cachedViewModels == []
    ensures presenter.paginationState.Snapshot() == Pager(0, true, true)
    ensures presenter.pendingPages == [PageRequest(2, false), PageRequest(1, true)]
  {
    presenter := FirstPageLoaded(capitalize, ada, todos);
    presenter.DidReachItem(19);
    assert presenter.pendingPages == [PageRequest(2, false)];
    presenter.DidPullToRefresh();
  }

  /** The old page 2 answers first: its todos are appended to the emptied list
      and the guard moves to page 2 with nothing loading, while page 1 is still
      pending. No completion is discarded as stale. */
  method StalePageTwoApplied(capitalize: string -> string, ada: User, todos: seq<Todo>)
    returns (presenter: TodoListPresenter)
    requires |todos| == 45
    ensures fresh(presenter) && fresh(presenter.paginationState)
    ensures presenter.Valid() && presenter.pageSize == 20
    ensures presenter.cachedTodos == todos[20..40] && |presenter.cachedViewModels| == 20
    ensures presenter.paginationState.Snapshot() == Pager(2, false, true)
    ensures presenter.pendingPages == [PageRequest(1, true)]
  {
    presenter := RefreshWithPageTwoPending(capitalize, ada, todos);
    FortyFiveTodosInPagesOfTwenty(todos);
    var page := Paginate(todos, 2, 20);
    assert page.todos == todos[20..40] && page.currentPage == 2 && page.HasMore();
    presenter.PageFetchCompleted(0, Success(page));
  }

  /** The guard, reopened by the stale page, grants page 3 when the end of the
      list is reached, beside the pending page 1. */
  method PageThreeBesidePageOne(capitalize: string -> string, ada: User, todos: seq<Todo>)
    returns (presenter: TodoListPresenter)
    requires |todos| == 45
    ensures fresh(presenter) && fresh(presenter.paginationState)
    ensures presenter.Valid() && presenter.pageSize == 20
    ensures presenter.cachedTodos == todos[20..40]
    ensures presenter.paginationState.Snapshot() == Pager(2, true, true)
    ensures presenter.pendingPages == [PageRequest(1, true), PageRequest(3, false)]
  {
    presenter := StalePageTwoApplied(capitalize, ada, todos);
    presenter.DidReachItem(19);
  }

  /** Page 1 answers next: it replaces the list and moves the guard back to
      page 1 with nothing loading, although page 3 is still pending. */
  method PageOneAfterPageThreeIssued(capitalize: string -> string, ada: User, todos: seq<Todo>)
    returns (presenter: TodoListPresenter)
    requires |todos| == 45
    ensures fresh(presenter) && fresh(presenter.paginationState)
    ensures presenter.Valid() && presenter.pageSize == 20
    ensures presenter.cachedTodos == todos[0..20]
    ensures presenter.paginationState.Snapshot() == Pager(1, false, true)
    ensures presenter.pendingPages == [PageRequest(3, false)]
  {
    presenter := PageThreeBesidePageOne(capitalize, ada, todos);
    FortyFiveTodosInPagesOfTwenty(todos);
    var first := Paginate(todos, 1, 20);
    assert first.todos == todos[0..20] && first.currentPage == 1 && first.HasMore();
    presenter.PageFetchCompleted(0, Success(first));
  }

  /** A refresh reopens the guard while an earlier fetch is still pending. With
      page 2 in flight, a refresh issues page 1 again; the old page 2 answers
      first and is applied, and reaching the end of the list then issues page 3
      beside the pending page 1. Once page 1 and then page 3 answer, the list
      holds pages 1 and 3 only, and the guard reports nothing more: page 2 is
      lost until the next refresh. */
  method StalePageAfterRefresh(capitalize: string -> string, ada: User, todos: seq<Todo>)
    returns (listed: seq<Todo>, state: Pager, pending: seq<PageRequest>)
    requires |todos| == 45
    ensures listed == todos[0..20] + todos[40..45]
    ensures state == Pager(3, false, false)
    ensures pending == []
  {
    var presenter := PageOneAfterPageThreeIssued(capitalize, ada, todos);
    FortyFiveTodosInPagesOfTwenty(todos);
    var third := Paginate(todos, 3, 20);
    assert third.todos == todos[40..45] && third.currentPage == 3 && !third.HasMore();
    presenter.PageFetchCompleted(0, Success(third));
    listed := presenter.cachedTodos;
    state := presenter.paginationState.Snapshot();
    pending := presenter.pendingPages;
  }
}
