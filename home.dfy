/**
 * The directory page (src/pages/Home.tsx): it fetches the user list once, keeps it with
 * a loading flag and an error message, and shows the users whose name contains the
 * search term, ignoring case.
 */
module Home {
  import opened Wrappers
  import opened Types

  // ---------------------------------------------------------------- ASCII case

  function LowerChar(c: char): char
  {
    if 'A' <= c <= 'Z' then (c as int + 32) as char else c
  }

  function UpperChar(c: char): char
  {
    if 'a' <= c <= 'z' then (c as int - 32) as char else c
  }

  /** `toLowerCase`, restricted to ASCII letters. */
  function ToLower(s: string): (r: string)
    ensures |r| == |s| && forall k :: 0 <= k < |s| ==> r[k] == LowerChar(s[k])
  {
    seq(|s|, k requires 0 <= k < |s| => LowerChar(s[k]))
  }

  /** `toUpperCase`, restricted to ASCII letters. */
  function ToUpper(s: string): (r: string)
    ensures |r| == |s| && forall k :: 0 <= k < |s| ==> r[k] == UpperChar(s[k])
  {
    seq(|s|, k requires 0 <= k < |s| => UpperChar(s[k]))
  }

  /** Lower-casing forgets exactly the case a term was typed in. */
  lemma LowerForgetsCase(t: string)
    ensures ToLower(ToLower(t)) == ToLower(t)
    ensures ToLower(ToUpper(t)) == ToLower(t)
  {
    assert forall k :: 0 <= k < |t| ==> LowerChar(LowerChar(t[k])) == LowerChar(t[k]);
    assert forall k :: 0 <= k < |t| ==> LowerChar(UpperChar(t[k])) == LowerChar(t[k]);
  }

  /** `s.includes(sub)`: `sub` occurs in `s` at some position. */
  predicate Includes(s: string, sub: string)
  {
    exists i :: 0 <= i <= |s| - |sub| && sub <= s[i..]
  }

  /** The predicate handed to `filter`. */
  predicate Matches(u: User, term: string)
  {
    Includes(ToLower(u.name), ToLower(term))
  }

  // ---------------------------------------------------------------- the search filter

  /** `users.filter(...)`: the users whose lower-cased name contains the lower-cased term. */
  function Filter(users: seq<User>, term: string): (r: seq<User>)
    ensures |r| <= |users|
    ensures forall u :: u in r <==> u in users && Matches(u, term)
  {
    if users == [] then []
    else if Matches(users[0], term) then [users[0]] + Filter(users[1..], term)
    else Filter(users[1..], term)
  }

  /** `xs` is `ys` with some elements left out and the rest kept in order. */
  predicate IsSubsequence<T(==)>(xs: seq<T>, ys: seq<T>)
    decreases |ys|
  {
    xs == [] ||
    (ys != [] && ((xs[0] == ys[0] && IsSubsequence(xs[1..], ys[1..])) || IsSubsequence(xs, ys[1..])))
  }

  /** The filter keeps the order of the list it is given. */
  lemma {:induction false} FilterIsSubsequence(users: seq<User>, term: string)
    ensures IsSubsequence(Filter(users, term), users)
  {
    if users != [] {
      FilterIsSubsequence(users[1..], term);
    }
  }

  /** The filter keeps every occurrence of a matching user and drops every other user. */
  lemma {:induction false} FilterKeepsEveryMatch(users: seq<User>, term: string, u: User)
    ensures multiset(Filter(users, term))[u] == if Matches(u, term) then multiset(users)[u] else 0
  {
    if users != [] {
      FilterKeepsEveryMatch(users[1..], term, u);
      assert users == [users[0]] + users[1..];
    }
  }

  /** Terms that lower-case to the same string give the same result. */
  lemma {:induction false} FilterIgnoresTermCase(users: seq<User>, t1: string, t2: string)
    requires ToLower(t1) == ToLower(t2)
    ensures Filter(users, t1) == Filter(users, t2)
  {
    if users != [] {
      FilterIgnoresTermCase(users[1..], t1, t2);
    }
  }

  /** In particular, typing the term in upper or lower case changes nothing. */
  lemma FilterSameForAnyCase(users: seq<User>, term: string)
    ensures Filter(users, ToUpper(term)) == Filter(users, term)
    ensures Filter(users, ToLower(term)) == Filter(users, term)
  {
    LowerForgetsCase(term);
    FilterIgnoresTermCase(users, ToUpper(term), term);
    FilterIgnoresTermCase(users, ToLower(term), term);
  }

  /** The empty term is contained in every name, so it shows the whole list. */
  lemma {:induction false} FilterEmptyTermKeepsAll(users: seq<User>)
    ensures Filter(users, "") == users
  {
    if users != [] {
      assert "" <= ToLower(users[0].name)[0..];
      FilterEmptyTermKeepsAll(users[1..]);
    }
  }

  /** A lower-case prefix of a mixed-case name finds it. */
  lemma FilterFindsByLowerCasePrefix()
    ensures var leanne := User(None, "Leanne Graham", "Sincere@april.biz", None, None, None, None, None);
      Filter([leanne], "leanne") == [leanne]
  {
    var leanne := User(None, "Leanne Graham", "Sincere@april.biz", None, None, None, None, None);
    assert ToLower("leanne") <= ToLower(leanne.name)[0..];
    assert Matches(leanne, "leanne");
  }

  // ---------------------------------------------------------------- the page

  const FetchUsersFailed := "Failed to fetch users"

  /** What the page renders, in order of precedence. */
  datatype HomeView = Loading | ErrorMessage(message: string) | NoUsersFound | UserTable(rows: seq<User>)

  class HomePage {
    var users: seq<User>
    var loading: bool
    var error: Option<string>
    var searchTerm: string

    /** The initial state: no users, loading, no error, empty search. */
    constructor ()
      ensures users == [] && loading && error == None && searchTerm == ""
    {
      users := [];
      loading := true;
      error := None;
      searchTerm := "";
    }

    /** `fetchUsers`, given the outcome of the listing request. */
    method FetchUsers(response: Response<seq<User>>)
      modifies this
      ensures !loading
      ensures searchTerm == old(searchTerm)
      ensures response.Ok? ==> users == response.data && error == old(error)
      ensures response.Failed? ==> users == old(users) && error == Some(FetchUsersFailed)
    {
      match response {
        case Ok(data) =>
          users := data;
        case Failed =>
          error := Some(FetchUsersFailed);
      }
      loading := false;
    }

    /** Typing in the search box. */
    method SetSearchTerm(term: string)
      modifies this`searchTerm
      ensures searchTerm == term
    {
      searchTerm := term;
    }

    /** `handleClearSearch`. */
    method ClearSearch()
      modifies this`searchTerm
      ensures searchTerm == ""
      ensures FilteredUsers() == users
    {
      searchTerm := "";
      FilterEmptyTermKeepsAll(users);
    }

    /** `filteredUsers`, recomputed from the state on every render. */
    function FilteredUsers(): seq<User>
      reads this
    {
      Filter(users, searchTerm)
    }

    /** The render: loading first, then the error, then the table or its empty notice. */
    function View(): (v: HomeView)
      reads this
      ensures v == Loading <==> loading
      ensures v.ErrorMessage? <==> !loading && IsTruthy(error)
      ensures v.ErrorMessage? ==> v.message == error.value
      ensures v == NoUsersFound <==> !loading && !IsTruthy(error) && |FilteredUsers()| == 0
      ensures v.UserTable? ==> v.rows == FilteredUsers() && v.rows != []
    {
      if loading then Loading
      else if IsTruthy(error) then ErrorMessage(error.value)
      else if |FilteredUsers()| == 0 then NoUsersFound
      else UserTable(FilteredUsers())
    }
  }

  /** Mounting the page and completing the one fetch it makes. */
  method Mount(response: Response<seq<User>>) returns (page: HomePage)
    ensures !page.loading && page.searchTerm == ""
    ensures response.Ok? ==> page.users == response.data && page.error == None
    ensures response.Ok? ==> page.View() == if response.data == [] then NoUsersFound else UserTable(response.data)
    ensures response.Failed? ==> page.users == [] && page.View() == ErrorMessage("Failed to fetch users")
  {
    page := new HomePage();
    page.FetchUsers(response);
    FilterEmptyTermKeepsAll(page.users);
  }
}
