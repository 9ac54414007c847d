# todosApp pagination core in Dafny

This project models the logic behind the todo list of the todosApp iOS app and proves properties of it:

- **The pagination guard** (`PaginationState`). It holds three fields, `currentPage`, `isLoading` and `hasMore`. Between resets it lets at most one page fetch be in flight. A reset clears `isLoading`, so a refresh reopens the guard while an earlier fetch is still pending. The guard stops once the data is exhausted and leaves a failed page retryable.
- **The page record** (`PaginatedTodos`), with its derived `hasMore` and `nextPage`.
- **The API client** (`TodosAPIClient`). The model covers:
  - its error taxonomy (`APIError`);
  - the fixed order in which a finished data task is classified;
  - the static slicer `paginate`, which cuts 1-indexed pages out of the cached list;
  - the cache dispatch of `fetchTodos` and `fetchUsers`. Later pages of todos are served from the cache; users are fetched once.
- **The list presenter** (`TodoListPresenter`). It is modelled as a sequential state machine:
  - gestures and API completions arrive as event methods;
  - every call the presenter makes on its view or on the API client is appended to an `effects` log;
  - issued page fetches are kept in `pendingPages`, each with the `reset` flag its completion captured.
- **The two view-model projections**: the list row (`TodoListItemViewModel`) and the details screen (`TodoDetailsViewModel`).

Modules:

| module | file | role |
|---|---|---|
| `Wrappers` | `wrappers.dfy` | `Option` and `Result` |
| `Decimal` | `decimal.dfy` | Swift's decimal rendering of an `Int` (`"\(n)"`), with its inverse |
| `Models` | `models.dfy` | `Todo`, `User`, `PaginatedTodos` |
| `Pagination` | `pagination_state.dfy` | the `PaginationState` class and a value-level `Pager` specification of it |
| `ApiClient` | `api_client.dfy` | errors, classification, `paginate`, the client class |
| `PagingSession` | `paging_session.dfy` | the guard driven page after page against `paginate` |
| `ListViewModel` | `list_view_model.dfy` | the list row |
| `DetailsViewModel` | `details_view_model.dfy` | the details rows |
| `Presenter` | `presenter.dfy` | `TodoListPresenter` and its error messages |

How the imperative code maps to Dafny:

- Stateful objects become classes with `modifies` clauses: `PaginationState`, `TodosAPIClient` and `TodoListPresenter`.
- Each method is proved against a specification function of its inputs and old state:
  - `Start`, `Complete` and `Fail` for the guard;
  - `FetchTodosStep` and `FetchUsersStep` for the client;
  - `Details` for the details initializer, which the source builds by successive appends (`BuildDetails`).
- The presenter keeps a class invariant, `Valid`:
  - the row list and the todo list have equal length;
  - every row shows the id, the capitalized title and the completion flag of the todo at the same index (the invariant does not fix the subtitle, which depends on the user index at the time the page arrived);
  - while the guard is loading, the last page issued is the one after the current page. The converse does not hold: after a refresh, an earlier fetch can still be pending while the guard is idle.

With 45 todos in pages of 20, page 3 already reports that there is nothing more (`3 * 20 >= 45`). The guard therefore never requests an (empty) fourth page. `FortyFiveTodosInPagesOfTwenty` and `LoadsWholeListThenStops` state this.

## Model

| member | source | states |
|---|---|---|
| Models.PaginatedTodos.NextPage | TodosApp/Sources/Models/Todo.swift:30-32 | the next page is present exactly when `HasMore()` holds; it is then `currentPage + 1`, strictly after the current page |
| Models.HasMoreIgnoresBatchWhenTotalKnown | TodosApp/Sources/Models/Todo.swift:23-26 | with a known total, `hasMore` depends only on page, page size and total, not on the batch contents |
| Models.HasMoreWithoutTotal | TodosApp/Sources/Models/Todo.swift:27 | without a total, `hasMore` holds exactly when the batch is non-empty |
| Pagination.PaginationState.constructor | TodosApp/Sources/Models/PaginationState.swift:11-13 | a new guard is at page 0, not loading, with more to load |
| Pagination.PaginationState.Reset | TodosApp/Sources/Models/PaginationState.swift:15-19 | whatever the prior state, the guard returns to page 0, not loading, with more to load |
| Pagination.PaginationState.StartLoadingNextPage | TodosApp/Sources/Models/PaginationState.swift:21-25 | while loading or exhausted, returns no page and changes nothing; otherwise returns `currentPage + 1`, sets `isLoading`, and leaves `currentPage` and `hasMore` unchanged |
| Pagination.PaginationState.CompleteLoading | TodosApp/Sources/Models/PaginationState.swift:27-31 | takes the page number and `hasMore` from the page and clears `isLoading` |
| Pagination.PaginationState.CompleteLoadingWithError | TodosApp/Sources/Models/PaginationState.swift:33-35 | clears only `isLoading` |
| Pagination.AtMostOneInFlight | TodosApp/Sources/Models/PaginationState.swift:22-23 | of two starts with no completion between them, the second returns no page |
| Pagination.FailedPageIsRetried | TodosApp/Sources/Models/PaginationState.swift:21-35 | after a start and a failure, the next start claims the same page in the same state |
| Pagination.ExhaustedStaysExhausted | TodosApp/Sources/Models/PaginationState.swift:22-31 | after completing a page with no more data, no page is claimed |
| Pagination.CompletionAdvancesToNextPage | TodosApp/Sources/Models/PaginationState.swift:21-31 | after completing a page, the next claimed page is that page's `nextPage` |
| Decimal.IntToString | TodosApp/Sources/Scenes/TodoDetails/TodoDetailsViewModel.swift:20 | the rendering of an `Int` is non-empty and starts with a minus sign exactly for negative numbers |
| Decimal.NatRoundTrip | TodosApp/Sources/Scenes/TodoDetails/TodoDetailsViewModel.swift:20 | reading back the digits of a natural number gives the number |
| Decimal.IntRoundTrip | TodosApp/Sources/Scenes/TodoDetails/TodoDetailsViewModel.swift:20 | reading back the rendering of any integer, sign included, gives the integer |
| Decimal.IntToStringInjective | TodosApp/Sources/Scenes/TodoList/TodoListPresenter.swift:136 | distinct integers render as distinct strings |
| ApiClient.Classify | TodosApp/Sources/Network/TodosApiClient.swift:63-89 | checks in fixed order: a transport error gives `underlying`; a non-HTTP reply or a 2xx reply without a body gives `invalidResponse`; a status outside 200..<300 gives `serverError` with that status; an undecodable body gives `decoding`; success exactly when all checks pass, carrying the decoded value; never `invalidURL` |
| ApiClient.Paginate | TodosApp/Sources/Network/TodosApiClient.swift:152-166 | every result carries the requested page, the limit and the full count; page <= 0 or limit <= 0 gives an empty batch; otherwise the batch has length `min(limit, count - start)` (0 past the end), and its item `j` is todo `(page-1)*limit + j` |
| ApiClient.PageIsSlice | TodosApp/Sources/Network/TodosApiClient.swift:156-158 | page `k` is the contiguous slice between the ends of pages `k-1` and `k` |
| ApiClient.PagesConcatenate | TodosApp/Sources/Network/TodosApiClient.swift:156-158 | pages 1 to `k` laid end to end are exactly the first `min(k*limit, count)` todos |
| ApiClient.HasMorePredictsNextPage | TodosApp/Sources/Network/TodosApiClient.swift:152-166 | a sliced page reports `hasMore` exactly when the following page is non-empty |
| ApiClient.FortyFiveTodosInPagesOfTwenty | TodosApp/Sources/Network/TodosApiClient.swift:152-166 | 45 todos in pages of 20 give batches of 20, 20 and 5, then an empty page; page 3 reports no more |
| ApiClient.FetchTodosStep | TodosApp/Sources/Network/TodosApiClient.swift:43-93 | a page after 1 with a non-empty cache is served from the cache without a request; otherwise a request is made if the URL resolves (else `invalidURL`); its classified failure is passed on and leaves the cache; its success replaces the cache, and the page is sliced from the new cache |
| ApiClient.CacheIsTransparent | TodosApp/Sources/Network/TodosApiClient.swift:48-51 | a later page served from the cache equals the page a fresh request would give if the server returned the cached list |
| ApiClient.FetchUsersStep | TodosApp/Sources/Network/TodosApiClient.swift:95-142 | once users are cached they are returned without a request; otherwise the classified response is the result; the cache changes only on success, to the users returned |
| ApiClient.UsersFetchedOnce | TodosApp/Sources/Network/TodosApiClient.swift:98-101 | after one successful users fetch, every later call issues no request and returns the same users |
| ApiClient.TodosAPIClient.constructor | TodosApp/Sources/Network/TodosApiClient.swift:32-41 | the client starts with an empty todo cache and no user cache |
| ApiClient.TodosAPIClient.FetchTodos | TodosApp/Sources/Network/TodosApiClient.swift:43-93 | whether a request is made, the result and the new todo cache are those of `FetchTodosStep` on the old cache; only `cachedTodos` may change |
| ApiClient.TodosAPIClient.FetchUsers | TodosApp/Sources/Network/TodosApiClient.swift:95-142 | whether a request is made, the result and the new user cache are those of `FetchUsersStep` on the old cache; only `cachedUsers` may change |
| PagingSession.PagesNeeded | TodosApp/Sources/Network/TodosApiClient.swift:156-158 | the number of pages a list takes: at least one, covering the list, and with no page after the first wholly past its end |
| PagingSession.LoadsWholeListThenStops | TodosApp/Sources/Models/PaginationState.swift:21-31 | from a fresh guard, claiming and completing pages against `paginate` loads the whole list once, in order, and ends on the last page with nothing more, however many further rounds are tried |
| PagingSession.SessionLoadsConsecutivePages | TodosApp/Sources/Network/TodosApiClient.swift:152-166 | the todos that session loads are pages 1 to `PagesNeeded` laid end to end |
| ListViewModel.ListItem | TodosApp/Sources/Scenes/TodoList/TodoListViewModel.swift:16-21 | the row has the todo's id, its capitalized title, its completion flag, and the user's name as subtitle, or "Unknown User" without a user |
| ListViewModel.WriteTestsByAda | TodosApp/Sources/Scenes/TodoList/TodoListViewModel.swift:16-21 | a concrete row: "write tests" by Ada gives "Write Tests" with subtitle "Ada" |
| DetailsViewModel.ContactItemsShowTheirFields | TodosApp/Sources/Scenes/TodoDetails/TodoDetailsViewModel.swift:29-40 | each contact row is labelled with the name of the field it shows, and shows that field's non-empty value |
| DetailsViewModel.ShownRanksIncrease | TodosApp/Sources/Scenes/TodoDetails/TodoDetailsViewModel.swift:29-40 | the contact rows appear in the fixed order Username, Email, Phone, Website |
| DetailsViewModel.ShownRanksAreTheFilledFields | TodosApp/Sources/Scenes/TodoDetails/TodoDetailsViewModel.swift:29-40 | a contact field has a row exactly when it is present and non-empty |
| DetailsViewModel.UserRows | TodosApp/Sources/Scenes/TodoDetails/TodoDetailsViewModel.swift:27-43 | with a user: "User Name" with the user's name, then the contact rows; without one: the single row ("User", "Unknown User") |
| DetailsViewModel.Details | TodosApp/Sources/Scenes/TodoDetails/TodoDetailsViewModel.swift:19-46 | the title is "Todo #" and the id; the first two rows are ("Title", capitalized title) and ("Completed", "Yes"/"No"); the user rows follow |
| DetailsViewModel.DetailsHaveThreeToSevenRows | TodosApp/Sources/Scenes/TodoDetails/TodoDetailsViewModel.swift:22-45 | the details always have between 3 and 7 rows |
| DetailsViewModel.NavigationTitleNamesTodo | TodosApp/Sources/Scenes/TodoDetails/TodoDetailsViewModel.swift:20 | the navigation title is "Todo #" followed by a decimal numeral that reads back as the todo's id |
| DetailsViewModel.DetailsWithoutUser | TodosApp/Sources/Scenes/TodoDetails/TodoDetailsViewModel.swift:41-43 | without a user there are exactly three rows, the third ("User", "Unknown User") |
| DetailsViewModel.AppendIfFilled | TodosApp/Sources/Scenes/TodoDetails/TodoDetailsViewModel.swift:29-31 | one conditional append: a row is added exactly when the field is present and non-empty |
| DetailsViewModel.AppendContactRows | TodosApp/Sources/Scenes/TodoDetails/TodoDetailsViewModel.swift:29-40 | the four conditional appends add exactly the contact rows |
| DetailsViewModel.AppendUserRows | TodosApp/Sources/Scenes/TodoDetails/TodoDetailsViewModel.swift:27-40 | the user branch appends exactly the user rows |
| DetailsViewModel.BuildDetails | TodosApp/Sources/Scenes/TodoDetails/TodoDetailsViewModel.swift:19-46 | the initializer's successive appends build exactly `Details` |
| Presenter.ErrorMessage | TodosApp/Sources/Scenes/TodoList/TodoListPresenter.swift:128-144 | each `APIError` case has its fixed text; the server-error text embeds the status code; wrapped errors and other errors show their localized description |
| Presenter.ServerErrorMessageNamesCode | TodosApp/Sources/Scenes/TodoList/TodoListPresenter.swift:135-136 | two server-error messages are equal only for equal status codes |
| Presenter.UserIndex | TodosApp/Sources/Scenes/TodoList/TodoListPresenter.swift:119 | for users with distinct ids, every user is found under its id, and every entry is one of the users filed under its own id |
| Presenter.ResolveUser | TodosApp/Sources/Scenes/TodoList/TodoListPresenter.swift:87 | a todo's user is found exactly when it has a user id that is in the index, and is then the indexed user |
| Presenter.FirstWithId | TodosApp/Sources/Scenes/TodoList/TodoListPresenter.swift:59 | finds the position of the first todo with the id, or reports that no todo has it |
| Presenter.ListItems | TodosApp/Sources/Scenes/TodoList/TodoListPresenter.swift:86-89 | one row per todo, in order, each the projection of the todo with its resolved user |
| Presenter.TodoListPresenter.constructor | TodosApp/Sources/Scenes/TodoList/TodoListPresenter.swift:27-39 | the presenter starts with a fresh guard, empty lists and index, and nothing sent or pending |
| Presenter.TodoListPresenter.ViewDidLoad | TodosApp/Sources/Scenes/TodoList/TodoListPresenter.swift:45-47 | the first load, as `LoadFirstPage` states it |
| Presenter.TodoListPresenter.DidPullToRefresh | TodosApp/Sources/Scenes/TodoList/TodoListPresenter.swift:49-51 | a refresh, as `LoadFirstPage` states it |
| Presenter.TodoListPresenter.DidReachItem | TodosApp/Sources/Scenes/TodoList/TodoListPresenter.swift:53-56 | a row more than 5 from the end changes nothing; otherwise the guard is asked for the next page, and a fetch is issued (with footer) only if it grants one; the lists are untouched |
| Presenter.TodoListPresenter.DidSelectTodo | TodosApp/Sources/Scenes/TodoList/TodoListPresenter.swift:58-63 | an unknown id sends nothing; otherwise the details of the first todo with that id, with its resolved user, are shown |
| Presenter.TodoListPresenter.LoadFirstPage | TodosApp/Sources/Scenes/TodoList/TodoListPresenter.swift:65-73 | resets the guard and empties both lists, then shows loading; with an empty index it requests users and claims no page; otherwise it issues page 1 with `reset` |
| Presenter.TodoListPresenter.LoadNextPage | TodosApp/Sources/Scenes/TodoList/TodoListPresenter.swift:75-79 | the guard moves as `Start` says; a granted page shows the footer and is requested, and is recorded as pending with its `reset` flag; a refused one sends nothing |
| Presenter.TodoListPresenter.PageFetchCompleted | TodosApp/Sources/Scenes/TodoList/TodoListPresenter.swift:79-104 | the request leaves the pending list; on success the guard completes with the page, the page and its rows replace the lists (reset) or extend them, and exactly those rows are shown; on failure the guard keeps its page, the lists are unchanged and the error message is shown; the class invariant holds after |
| Presenter.TodoListPresenter.UsersFetchCompleted | TodosApp/Sources/Scenes/TodoList/TodoListPresenter.swift:114-124 | on success the index becomes the users keyed by id; on failure it is kept and the error message is shown; in both cases page 1 is then claimed with `reset` |
| Presenter.UsersFailThenFirstPage | TodosApp/Sources/Scenes/TodoList/TodoListPresenter.swift:65-124 | a first load whose users fetch fails: the error is shown once, page 1 is then loaded, and its three rows all say "Unknown User" |
| Presenter.FirstPageLoaded | TodosApp/Sources/Scenes/TodoList/TodoListPresenter.swift:65-124 | a first load whose users fetch succeeds and whose page 1 of 45 todos arrives: 20 rows, the guard on page 1 with more to load, nothing pending |
| Presenter.RefreshWithPageTwoPending | TodosApp/Sources/Scenes/TodoList/TodoListPresenter.swift:49-79 | reaching the end issues page 2; a refresh then empties the lists and issues page 1 again while page 2 is still pending |
| Presenter.StalePageTwoApplied | TodosApp/Sources/Scenes/TodoList/TodoListPresenter.swift:79-98 | the old page 2 answering first is applied: the emptied list becomes page 2 and the guard moves to page 2 with nothing loading, while page 1 is pending |
| Presenter.PageThreeBesidePageOne | TodosApp/Sources/Scenes/TodoList/TodoListPresenter.swift:53-79 | the guard reopened by the stale page grants page 3, which is issued beside the pending page 1 |
| Presenter.PageOneAfterPageThreeIssued | TodosApp/Sources/Scenes/TodoList/TodoListPresenter.swift:79-98 | page 1 then replaces the list and moves the guard back to page 1, idle, although page 3 is pending |
| Presenter.StalePageAfterRefresh | TodosApp/Sources/Scenes/TodoList/TodoListPresenter.swift:65-104 | when page 3 answers too, the list holds pages 1 and 3 only and the guard reports nothing more: page 2 is lost until the next refresh |

## Left out

- Networking, JSON decoding and threads are not modelled. `URLSession` data tasks, `JSONDecoder` and the `DispatchQueue.main.async` hops are reduced to an `Exchange` value, passed in as a parameter. The exchange says what the transport delivered, including whether the body decodes. Completions are event methods that run one at a time.
- Building the request URL is reduced to a constant, `urlResolves`. It says whether `URL(string:relativeTo:)` succeeds for the base URL.
- `[weak self]` captures and a deallocated client or presenter are not modelled. Without them, a completion could be dropped. The model assumes the objects live, and that the view is attached, so `attach(view:)` is left out.
- Foundation's `String.capitalized` and the `localizedDescription` of errors are uninterpreted: a `capitalize` parameter and a `SystemError` description string.
- `Int` is unbounded in the model. Swift traps on overflow, for example in `(page - 1) * limit` for huge pages; this is not modelled.
- `Presenter.UsersFetchCompleted`: requires distinct user ids on success. `Dictionary(uniqueKeysWithValues:)` traps on a duplicate key, and the model does not reproduce the trap.
- `Pagination.PaginationState`: the source has a value-type struct stored in the presenter. The model uses a separate object that the presenter owns and never shares.
- `Presenter.UserIndex`: does not state the number of entries. It states membership both ways, which already determines the map.
- The presenter keeps no generation counter, as in the source. A page completion is accepted whichever order completions arrive in, stale or not. `StalePageAfterRefresh` and the steps before it show a page lost this way.
- The view controllers, `TodosCache` (file storage, unused by the app), the app delegate, the builder and the build configuration are not part of this model.
