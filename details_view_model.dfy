/** The details screen of one todo: a title and an ordered list of label/value rows. */
module DetailsViewModel {
  import opened Wrappers
  import opened Models
  import opened Decimal

  datatype InfoItem = InfoItem(title: string, value: string)

  datatype TodoDetails = TodoDetails(navigationTitle: string, items: seq<InfoItem>)

  /** The optional contact fields of a user, in the order they are shown. */
  const ContactLabels: seq<string> := ["Username", "Email", "Phone", "Website"]

  function ContactField(u: User, rank: nat): Option<string>
    requires rank < 4
  {
    if rank == 0 then u.username
    else if rank == 1 then u.email
    else if rank == 2 then u.phone
    else u.website
  }

  /** A field is shown when it is present and not the empty string. */
  predicate Filled(field: Option<string>)
  {
    field.Some? && field.value != ""
  }

  /** A row titled `title` showing `field`, if the field is filled; no row otherwise. */
  function FilledRow(title: string, field: Option<string>): seq<InfoItem>
  {
    if Filled(field) then [InfoItem(title, field.value)] else []
  }

  /** The row for the contact field at `rank`, if that field is filled. */
  function ContactItem(u: User, rank: nat): seq<InfoItem>
    requires rank < 4
  {
    FilledRow(ContactLabels[rank], ContactField(u, rank))
  }

  /** The rows for the contact fields from position `rank` on. */
  function ContactItemsFrom(u: User, rank: nat): (rows: seq<InfoItem>)
    requires rank <= 4
    ensures |rows| <= 4 - rank
    decreases 4 - rank
  {
    if rank == 4 then [] else ContactItem(u, rank) + ContactItemsFrom(u, rank + 1)
  }

  /** The positions, in `ContactLabels`, of the rows `ContactItemsFrom(u, rank)` yields;
      each lies at or after `rank`. */
  function ShownRanks(u: User, rank: nat): (ranks: seq<nat>)
    requires rank <= 4
    ensures forall i :: 0 <= i < |ranks| ==> rank <= ranks[i] < 4
    decreases 4 - rank
  {
    if rank == 4 then []
    else
      var rest := ShownRanks(u, rank + 1);
      if Filled(ContactField(u, rank)) then
        assert forall i :: 1 <= i < |[rank] + rest| ==> ([rank] + rest)[i] == rest[i - 1];
        [rank] + rest
      else rest
  }

  /** Row `i` of the contact rows shows the filled field at position `ranks[i]`,
      labelled with its name. */
  lemma {:induction false} ContactItemsShowTheirFields(u: User, rank: nat)
    requires rank <= 4
    ensures var rows, ranks := ContactItemsFrom(u, rank), ShownRanks(u, rank);
      && |rows| == |ranks|
      && forall i :: 0 <= i < |rows| ==>
           && rank <= ranks[i] < 4
           && rows[i].title == ContactLabels[ranks[i]]
           && ContactField(u, ranks[i]) == Some(rows[i].value)
           && rows[i].value != ""
    decreases 4 - rank
  {
    if rank < 4 {
      ContactItemsShowTheirFields(u, rank + 1);
      var rest, restRanks := ContactItemsFrom(u, rank + 1), ShownRanks(u, rank + 1);
      var rows, ranks := ContactItemsFrom(u, rank), ShownRanks(u, rank);
      if Filled(ContactField(u, rank)) {
        assert rows == [InfoItem(ContactLabels[rank], ContactField(u, rank).value)] + rest;
        assert ranks == [rank] + restRanks;
        forall i | 1 <= i < |rows|
          ensures rank <= ranks[i] < 4
          ensures rows[i].title == ContactLabels[ranks[i]]
          ensures ContactField(u, ranks[i]) == Some(rows[i].value) && rows[i].value != ""
        {
          assert rows[i] == rest[i - 1] && ranks[i] == restRanks[i - 1];
        }
      } else {
        assert rows == rest && ranks == restRanks;
      }
    }
  }

  /** The positions of the contact rows strictly increase: the rows keep the fixed order. */
  lemma {:induction false} ShownRanksIncrease(u: User, rank: nat)
    requires rank <= 4
    ensures forall i, j :: 0 <= i < j < |ShownRanks(u, rank)| ==> ShownRanks(u, rank)[i] < ShownRanks(u, rank)[j]
    decreases 4 - rank
  {
    if rank < 4 {
      ShownRanksIncrease(u, rank + 1);
      var restRanks, ranks := ShownRanks(u, rank + 1), ShownRanks(u, rank);
      if Filled(ContactField(u, rank)) {
        assert ranks == [rank] + restRanks;
        forall i, j | 0 <= i < j < |ranks|
          ensures ranks[i] < ranks[j]
        {
          assert ranks[j] == restRanks[j - 1];
          if i > 0 {
            assert ranks[i] == restRanks[i - 1];
          }
        }
      } else {
        assert ranks == restRanks;
      }
    }
  }

  /** A contact field is shown exactly when it is filled. */
  lemma {:induction false} ShownRanksAreTheFilledFields(u: User, rank: nat)
    requires rank <= 4
    ensures forall q :: rank <= q < 4 ==> (Filled(ContactField(u, q)) <==> q in ShownRanks(u, rank))
    decreases 4 - rank
  {
    if rank < 4 {
      ShownRanksAreTheFilledFields(u, rank + 1);
      var restRanks, ranks := ShownRanks(u, rank + 1), ShownRanks(u, rank);
      assert rank !in restRanks by {
        assert forall i :: 0 <= i < |restRanks| ==> rank + 1 <= restRanks[i];
      }
      assert ranks == (if Filled(ContactField(u, rank)) then [rank] else []) + restRanks;
      forall q | rank <= q < 4
        ensures Filled(ContactField(u, q)) <==> q in ranks
      {
        assert q in ranks <==> (q == rank && Filled(ContactField(u, rank))) || q in restRanks;
      }
    }
  }

  /** The rows after Title and Completed: the user's name and filled contact
      fields, or a single "User: Unknown User" row when no user was resolved. */
  function UserRows(user: Option<User>): (rows: seq<InfoItem>)
    ensures |rows| >= 1
    ensures user.None? ==> rows == [InfoItem("User", "Unknown User")]
    ensures user.Some? ==> rows[0] == InfoItem("User Name", user.value.name) && rows[1..] == ContactItemsFrom(user.value, 0)
  {
    match user
    case Some(u) => [InfoItem("User Name", u.name)] + ContactItemsFrom(u, 0)
    case None => [InfoItem("User", "Unknown User")]
  }

  /** What `TodoDetailsViewModel.init(todo:user:)` builds. */
  function Details(todo: Todo, user: Option<User>, capitalize: string -> string): (d: TodoDetails)
    ensures d.navigationTitle == "Todo #" + IntToString(todo.id)
    ensures |d.items| >= 3
    ensures d.items[0] == InfoItem("Title", capitalize(todo.title))
    ensures d.items[1] == InfoItem("Completed", if todo.completed then "Yes" else "No")
    ensures d.items[2..] == UserRows(user)
  {
    var fixed := [
      InfoItem("Title", capitalize(todo.title)),
      InfoItem("Completed", if todo.completed then "Yes" else "No")
    ];
    TodoDetails("Todo #" + IntToString(todo.id), fixed + UserRows(user))
  }

  /** The details have at least the three fixed rows and at most the four
      contact rows besides. */
  lemma DetailsHaveThreeToSevenRows(todo: Todo, user: Option<User>, capitalize: string -> string)
    ensures 3 <= |Details(todo, user, capitalize).items| <= 7
  {
    if user.Some? {
      var rows := Details(todo, user, capitalize).items;
      assert |rows| == 3 + |ContactItemsFrom(user.value, 0)|;
    }
  }

  lemma ContactItemsUnrolled(u: User)
    ensures ContactItemsFrom(u, 0) == ContactItem(u, 0) + ContactItem(u, 1) + ContactItem(u, 2) + ContactItem(u, 3)
  {
    assert ContactItemsFrom(u, 3) == ContactItem(u, 3);
  }


  /** One conditional step of the initializer: append a row for the field when it is present and not empty. */
  method AppendIfFilled(details: seq<InfoItem>, title: string, field: Option<string>) returns (extended: seq<InfoItem>)
    ensures extended == details + FilledRow(title, field)
  {
    extended := details;
    if field.Some? && field.value != "" {
      extended := extended + [InfoItem(title, field.value)];
    }
  }

  /** The contact part of the branch taken when a user is given: each filled contact field
      in turn. */
  method AppendContactRows(details: seq<InfoItem>, u: User) returns (extended: seq<InfoItem>)
    ensures extended == details + ContactItemsFrom(u, 0)
  {
    extended := AppendIfFilled(details, "Username", u.username);
    ghost var contacts := ContactItem(u, 0);
    assert extended == details + contacts;
    extended := AppendIfFilled(extended, "Email", u.email);
    contacts := contacts + ContactItem(u, 1);
    assert extended == details + contacts;
    extended := AppendIfFilled(extended, "Phone", u.phone);
    contacts := contacts + ContactItem(u, 2);
    assert extended == details + contacts;
    extended := AppendIfFilled(extended, "Website", u.website);
    contacts := contacts + ContactItem(u, 3);
    ContactItemsUnrolled(u);
  }

  lemma ConcatAssociates<T>(a: seq<T>, b: seq<T>, c: seq<T>)
    ensures a + b + c == a + (b + c)
  {
  }

  /** The branch of the initializer taken when a user is given: the user's name, then each
      filled contact field in turn. */
  method AppendUserRows(details: seq<InfoItem>, u: User) returns (extended: seq<InfoItem>)
    ensures extended == details + UserRows(Some(u))
  {
    var named := details + [InfoItem("User Name", u.name)];
    extended := AppendContactRows(named, u);
    ConcatAssociates(details, [InfoItem("User Name", u.name)], ContactItemsFrom(u, 0));
  }

  /** The initializer as written: start with the two fixed rows and append the
      user rows one by one. */
  method BuildDetails(todo: Todo, user: Option<User>, capitalize: string -> string) returns (d: TodoDetails)
    ensures d == Details(todo, user, capitalize)
  {
    var navigationTitle := "Todo #" + IntToString(todo.id);
    var details := [
      InfoItem("Title", capitalize(todo.title)),
      InfoItem("Completed", if todo.completed then "Yes" else "No")
    ];
    match user {
      case Some(u) =>
        details := AppendUserRows(details, u);
      case None =>
        details := details + [InfoItem("User", "Unknown User")];
    }
    d := TodoDetails(navigationTitle, details);
  }

  /** The navigation title names the todo: reading the number after "Todo #" gives its id. */
  lemma NavigationTitleNamesTodo(todo: Todo, user: Option<User>, capitalize: string -> string)
    ensures var t := Details(todo, user, capitalize).navigationTitle;
            |t| > 6 && t[..6] == "Todo #"
            && (t[6] == '-' ==> IsDigits(t[7..]))
            && (t[6] != '-' ==> IsDigits(t[6..]))
            && ParseInt(t[6..]) == todo.id
  {
    var t := Details(todo, user, capitalize).navigationTitle;
    assert t[6..] == IntToString(todo.id);
    IntRoundTrip(todo.id);
    assert t[7..] == IntToString(todo.id)[1..];
  }

  /** Without a user the details are exactly Title, Completed and "User: Unknown User". */
  lemma DetailsWithoutUser(todo: Todo, capitalize: string -> string)
    ensures Details(todo, None, capitalize).items == [
      InfoItem("Title", capitalize(todo.title)),
      InfoItem("Completed", if todo.completed then "Yes" else "No"),
      InfoItem("User", "Unknown User")]
  {
  }
}
