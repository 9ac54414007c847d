/** The pagination guard driven against a client that slices one fixed todo
    list: what a sequence of successful page loads accumulates. */
module PagingSession {
  import opened Wrappers
  import opened Models
  import opened Pagination
  import opened ApiClient

  /** The number of pages a list of `count` todos takes: at least one, since
      even an empty list is learned from an (empty) first page. */
  function PagesNeeded(count: nat, limit: int): (k: nat)
    requires limit > 0
    ensures k >= 1
    ensures count <= k * limit
    ensures k == 1 || (k - 1) * limit < count
    decreases count
  {
    if count <= limit then 1
    else
      var k := 1 + PagesNeeded(count - limit, limit);
      assert k * limit == (k - 1) * limit + limit;
      k
  }

  /** Up to `n` rounds of: claim the next page; if one is claimed, load it
      from `todos` and complete. Returns the final state and the todos loaded,
      in order. */
  function Drive(s: Pager, todos: seq<Todo>, limit: int, n: nat): (Pager, seq<Todo>)
    decreases n
  {
    if n == 0 then (s, [])
    else
      var (claimed, page) := Start(s);
      if page.None? then (s, [])
      else
        var batch := Paginate(todos, page.value, limit);
        var (final, rest) := Drive(Complete(claimed, batch), todos, limit, n - 1);
        (final, batch.todos + rest)
  }

  /** The idle state after `k` completed pages. */
  function AfterPages(count: nat, limit: int, k: nat): Pager
  {
    Pager(k, false, k == 0 || k * limit < count)
  }

  lemma MulMonotone(a: nat, b: nat, c: nat)
    requires a <= b
    ensures a * c <= b * c
  {
  }

  /** One round from the state after `k` pages, when more pages remain: page
      `k + 1` is claimed, its batch continues the list where the first `k`
      pages stopped, and completing it gives the state after `k + 1` pages. */
  lemma RoundAfterPages(todos: seq<Todo>, limit: int, k: nat)
    requires limit > 0
    requires k < PagesNeeded(|todos|, limit)
    ensures var s := AfterPages(|todos|, limit, k);
            var batch := Paginate(todos, k + 1, limit);
            && Start(s) == (s.(isLoading := true), Some(k + 1))
            && Complete(s.(isLoading := true), batch) == AfterPages(|todos|, limit, k + 1)
            && batch.todos + todos[Min((k + 1) * limit, |todos|)..] == todos[Min(k * limit, |todos|)..]
  {
    var count := |todos|;
    MulMonotone(k, PagesNeeded(count, limit) - 1, limit);
    assert k == 0 || k * limit < count;
    assert (k + 1 - 1) * limit == k * limit;
    assert (k + 1) * limit == k * limit + limit;
    var batch := Paginate(todos, k + 1, limit);
    if k * limit < count {
      assert batch.todos == todos[k * limit..Min(k * limit + limit, count)];
    } else {
      assert batch.todos == [];
    }
  }

  lemma {:induction false} DriveFrom(todos: seq<Todo>, limit: int, k: nat, n: nat)
    requires limit > 0
    requires k <= PagesNeeded(|todos|, limit)
    requires n >= PagesNeeded(|todos|, limit) - k
    ensures Drive(AfterPages(|todos|, limit, k), todos, limit, n)
         == (AfterPages(|todos|, limit, PagesNeeded(|todos|, limit)), todos[Min(k * limit, |todos|)..])
    decreases n
  {
    var count, total := |todos|, PagesNeeded(|todos|, limit);
    var s := AfterPages(count, limit, k);
    if k == total {
      assert !s.hasMore && Start(s).1 == None;
      assert Min(k * limit, count) == count;
      assert todos[count..] == [];
    } else {
      RoundAfterPages(todos, limit, k);
      DriveFrom(todos, limit, k + 1, n - 1);
    }
  }

  /** Loading page after page from a fresh state loads the whole list exactly
      once, in order, and then stops: the state ends on the last page with
      nothing more to load, however many further rounds are attempted. */
  lemma LoadsWholeListThenStops(todos: seq<Todo>, limit: int, n: nat)
    requires limit > 0
    requires n >= PagesNeeded(|todos|, limit)
    ensures Drive(Initial, todos, limit, n) == (Pager(PagesNeeded(|todos|, limit), false, false), todos)
  {
    assert AfterPages(|todos|, limit, 0) == Initial;
    DriveFrom(todos, limit, 0, n);
  }

  /** The todos loaded by that session are pages 1 to `PagesNeeded` laid end to end. */
  lemma SessionLoadsConsecutivePages(todos: seq<Todo>, limit: int)
    requires limit > 0
    ensures Drive(Initial, todos, limit, PagesNeeded(|todos|, limit)).1
         == PagesUpTo(todos, limit, PagesNeeded(|todos|, limit))
  {
    var k := PagesNeeded(|todos|, limit);
    LoadsWholeListThenStops(todos, limit, k);
    PagesConcatenate(todos, limit, k);
  }
}
