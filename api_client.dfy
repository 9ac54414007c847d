/** The todos API client: its error taxonomy, the fixed order in which a
    response is classified, the slicing of the cached todo list into pages,
    and the cache dispatch of `fetchTodos` and `fetchUsers`. The network
    itself is reduced to an `Exchange` value: what the transport delivered. */
module ApiClient {
  import opened Wrappers
  import opened Models

  /** A Foundation error, known only by its localized description. */
  datatype SystemError = SystemError(localizedDescription: string)

  datatype APIError =
    | InvalidURL
    | InvalidResponse
    | ServerError(statusCode: int)
    | Decoding(cause: SystemError)
    | Underlying(cause: SystemError)

  /** The response object of a finished data task: an HTTP response with its
      status, or anything else (including no response at all). */
  datatype Reply = NotHttp | Http(statusCode: int)

  /** A response body together with what decoding it as JSON yields. */
  datatype Payload<T> = Decodes(value: T) | Malformed(error: SystemError)

  /** What a data task hands to its completion handler. */
  datatype Exchange<T> = Exchange(transportError: Option<SystemError>, reply: Reply, data: Option<Payload<T>>)

  /** The successful (2xx) status class of section 15.3 of RFC 9110. */
  predicate IsSuccessStatus(statusCode: int)
  {
    200 <= statusCode < 300
  }

  /** The checks a completion handler makes, in their fixed order: transport
      error, non-HTTP response, status outside 2xx, missing body, undecodable body. */
  function Classify<T>(x: Exchange<T>): (r: Result<T, APIError>)
    ensures r.Success? <==>
      x.transportError.None? && x.reply.Http? && IsSuccessStatus(x.reply.statusCode)
      && x.data.Some? && x.data.value.Decodes?
    ensures r.Success? ==> r.value == x.data.value.value
    ensures x.transportError.Some? ==> r == Failure(Underlying(x.transportError.value))
    ensures r == Failure(InvalidResponse) <==>
      x.transportError.None? && (x.reply.NotHttp? || (IsSuccessStatus(x.reply.statusCode) && x.data.None?))
    ensures (r.Failure? && r.error.ServerError?) <==>
      x.transportError.None? && x.reply.Http? && !IsSuccessStatus(x.reply.statusCode)
    ensures r.Failure? && r.error.ServerError? ==> r.error.statusCode == x.reply.statusCode
    ensures (r.Failure? && r.error.Decoding?) <==>
      x.transportError.None? && x.reply.Http? && IsSuccessStatus(x.reply.statusCode)
      && x.data.Some? && x.data.value.Malformed?
    ensures r != Failure(InvalidURL)
  {
    if x.transportError.Some? then Failure(Underlying(x.transportError.value))
    else if x.reply.NotHttp? then Failure(InvalidResponse)
    else if !IsSuccessStatus(x.reply.statusCode) then Failure(ServerError(x.reply.statusCode))
    else if x.data.None? then Failure(InvalidResponse)
    else match x.data.value
      case Decodes(v) => Success(v)
      case Malformed(e) => Failure(Decoding(e))
  }

  function Max(a: int, b: int): int { if a < b then b else a }
  function Min(a: int, b: int): int { if a < b then a else b }

  /** The 1-indexed page `page` of `limit` todos cut out of the full list. */
  function Paginate(todos: seq<Todo>, page: int, limit: int): (p: PaginatedTodos)
    ensures p.currentPage == page && p.pageSize == limit && p.totalCount == Some(|todos|)
    ensures page <= 0 || limit <= 0 ==> p.todos == []
    ensures page > 0 && limit > 0 ==>
      |p.todos| == (if (page - 1) * limit < |todos| then Min(limit, |todos| - (page - 1) * limit) else 0)
    ensures forall j :: 0 <= j < |p.todos| ==>
      0 <= (page - 1) * limit + j < |todos| && p.todos[j] == todos[(page - 1) * limit + j]
  {
    if page <= 0 then
      PaginatedTodos([], page, limit, Some(|todos|))
    else
      var start := Max(0, (page - 1) * limit);
      var end := Min(start + limit, |todos|);
      PaginatedTodos(if start < end then todos[start..end] else [], page, limit, Some(|todos|))
  }

  /** Pages 1 to `k` laid end to end. */
  function PagesUpTo(todos: seq<Todo>, limit: int, k: nat): seq<Todo>
  {
    if k == 0 then [] else PagesUpTo(todos, limit, k - 1) + Paginate(todos, k, limit).todos
  }

  /** Page `k` is the slice of the list between the ends of pages `k - 1` and `k`. */
  lemma PageIsSlice(todos: seq<Todo>, limit: int, k: nat)
    requires limit > 0 && k > 0
    ensures Min((k - 1) * limit, |todos|) <= Min(k * limit, |todos|)
    ensures Paginate(todos, k, limit).todos == todos[Min((k - 1) * limit, |todos|)..Min(k * limit, |todos|)]
  {
    var start := (k - 1) * limit;
    assert 0 <= start && k * limit == start + limit;
  }

  /** Consecutive pages tile the list: pages 1 to `k` are exactly its first
      `min(k * limit, count)` todos, in order, with no gap and no repeat. */
  lemma {:induction false} PagesConcatenate(todos: seq<Todo>, limit: int, k: nat)
    requires limit > 0
    ensures PagesUpTo(todos, limit, k) == todos[..Min(k * limit, |todos|)]
  {
    if k > 0 {
      PagesConcatenate(todos, limit, k - 1);
      PageIsSlice(todos, limit, k);
      var lo, hi := Min((k - 1) * limit, |todos|), Min(k * limit, |todos|);
      var page := Paginate(todos, k, limit).todos;
      assert PagesUpTo(todos, limit, k) == todos[..lo] + page;
      assert page == todos[lo..hi];
      assert todos[..lo] + todos[lo..hi] == todos[..hi];
    }
  }

  /** A page reports `HasMore` exactly when the following page is non-empty. */
  lemma HasMorePredictsNextPage(todos: seq<Todo>, page: int, limit: int)
    requires page >= 0 && limit > 0
    ensures Paginate(todos, page, limit).HasMore() <==> Paginate(todos, page + 1, limit).todos != []
  {
    assert (page + 1 - 1) * limit == page * limit;
  }

  /** 45 todos in pages of 20: batches of 20, 20 and 5; page 3 reports no more, and page 4 is empty. */
  lemma FortyFiveTodosInPagesOfTwenty(todos: seq<Todo>)
    requires |todos| == 45
    ensures Paginate(todos, 1, 20).todos == todos[0..20] && Paginate(todos, 1, 20).HasMore()
    ensures Paginate(todos, 2, 20).todos == todos[20..40] && Paginate(todos, 2, 20).HasMore()
    ensures Paginate(todos, 3, 20).todos == todos[40..45] && !Paginate(todos, 3, 20).HasMore()
    ensures Paginate(todos, 4, 20).todos == [] && !Paginate(todos, 4, 20).HasMore()
  {
  }

  /** What one `fetchTodos` call does: whether it went to the network, the
      client's todo cache afterwards, and the result handed to the completion. */
  datatype TodosFetch = TodosFetch(requested: bool, cache: seq<Todo>, result: Result<PaginatedTodos, APIError>)

  function FetchTodosStep(cache: seq<Todo>, urlResolves: bool, page: int, limit: int, x: Exchange<seq<Todo>>): (o: TodosFetch)
    ensures o.requested <==> !(page > 1 && cache != []) && urlResolves
    ensures page > 1 && cache != [] ==> o.cache == cache && o.result == Success(Paginate(cache, page, limit))
    ensures o.result.Success? ==> o.result.value == Paginate(o.cache, page, limit)
    ensures o.requested && Classify(x).Success? ==> o.cache == Classify(x).value && o.result.Success?
    ensures o.requested && Classify(x).Failure? ==> o.result == Failure(Classify(x).error)
    ensures !o.requested && !(page > 1 && cache != []) ==> o.result == Failure(InvalidURL)
    ensures o.result.Failure? ==> o.cache == cache
  {
    if page > 1 && cache != [] then
      TodosFetch(false, cache, Success(Paginate(cache, page, limit)))
    else if !urlResolves then
      TodosFetch(false, cache, Failure(InvalidURL))
    else match Classify(x)
      case Success(todos) => TodosFetch(true, todos, Success(Paginate(todos, page, limit)))
      case Failure(e) => TodosFetch(true, cache, Failure(e))
  }

  /** The exchange of a server that answers 200 with the given list. */
  function Serves<T>(v: T): Exchange<T>
  {
    Exchange(None, Http(200), Some(Decodes(v)))
  }

  /** The cache is transparent: a later page served from the cache is the page
      a fresh request would produce if the server still returned the cached list. */
  lemma CacheIsTransparent(cache: seq<Todo>, urlResolves: bool, page: int, limit: int, x: Exchange<seq<Todo>>)
    requires page > 1 && cache != []
    ensures FetchTodosStep(cache, urlResolves, page, limit, x).result
         == FetchTodosStep([], true, page, limit, Serves(cache)).result
  {
  }

  /** What one `fetchUsers` call does. */
  datatype UsersFetch = UsersFetch(requested: bool, cache: Option<seq<User>>, result: Result<seq<User>, APIError>)

  function FetchUsersStep(cache: Option<seq<User>>, urlResolves: bool, x: Exchange<seq<User>>): (o: UsersFetch)
    ensures o.requested <==> cache.None? && urlResolves
    ensures cache.Some? ==> o.cache == cache && o.result == Success(cache.value)
    ensures o.requested ==> o.result == Classify(x)
    ensures o.cache != cache ==> cache.None? && o.result.Success? && o.cache == Some(o.result.value)
    ensures o.result.Failure? ==> o.cache == cache
    ensures !o.requested && cache.None? ==> o.result == Failure(InvalidURL)
  {
    if cache.Some? then
      UsersFetch(false, cache, Success(cache.value))
    else if !urlResolves then
      UsersFetch(false, cache, Failure(InvalidURL))
    else match Classify(x)
      case Success(users) => UsersFetch(true, Some(users), Success(users))
      case Failure(e) => UsersFetch(true, cache, Failure(e))
  }

  /** Users are fetched at most once: after one success every later call
      answers with the same users and issues no request. */
  lemma UsersFetchedOnce(cache: Option<seq<User>>, urlResolves: bool, x: Exchange<seq<User>>, y: Exchange<seq<User>>)
    requires FetchUsersStep(cache, urlResolves, x).result.Success?
    ensures var first := FetchUsersStep(cache, urlResolves, x);
            var later := FetchUsersStep(first.cache, urlResolves, y);
            !later.requested && later.cache == first.cache && later.result == first.result
  {
  }

  /** The client object: the two caches it keeps between calls. */
  class TodosAPIClient {
    /** Whether the endpoint URLs can be built from the base URL. */
    const urlResolves: bool
    var cachedTodos: seq<Todo>
    var cachedUsers: Option<seq<User>>

    constructor (urlResolves: bool)
      ensures this.urlResolves == urlResolves && cachedTodos == [] && cachedUsers == None
    {
      this.urlResolves := urlResolves;
      cachedTodos := [];
      cachedUsers := None;
    }

    /** Answers later pages from the cache; otherwise requests the whole list,
        replaces the cache with it on success, and slices the page from it.
        `x` is what the network delivers if a request is made. */
    method FetchTodos(page: int, limit: int, x: Exchange<seq<Todo>>) returns (requested: bool, result: Result<PaginatedTodos, APIError>)
      modifies this`cachedTodos
      ensures var o := FetchTodosStep(old(cachedTodos), urlResolves, page, limit, x);
              requested == o.requested && result == o.result && cachedTodos == o.cache
    {
      if page > 1 && cachedTodos != [] {
        requested := false;
        result := Success(Paginate(cachedTodos, page, limit));
        return;
      }
      if !urlResolves {
        requested := false;
        result := Failure(InvalidURL);
        return;
      }
      requested := true;
      match Classify(x)
      case Success(todos) =>
        cachedTodos := todos;
        result := Success(Paginate(cachedTodos, page, limit));
      case Failure(e) =>
        result := Failure(e);
    }

    /** Answers from the user cache once it is set; otherwise requests the
        users and caches them on success. */
    method FetchUsers(x: Exchange<seq<User>>) returns (requested: bool, result: Result<seq<User>, APIError>)
      modifies this`cachedUsers
      ensures var o := FetchUsersStep(old(cachedUsers), urlResolves, x);
              requested == o.requested && result == o.result && cachedUsers == o.cache
    {
      if cachedUsers.Some? {
        requested := false;
        result := Success(cachedUsers.value);
        return;
      }
      if !urlResolves {
        requested := false;
        result := Failure(InvalidURL);
        return;
      }
      requested := true;
      match Classify(x)
      case Success(users) =>
        cachedUsers := Some(users);
        result := Success(users);
      case Failure(e) =>
        result := Failure(e);
    }
  }
}
