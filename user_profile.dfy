/**
 * The profile page (src/pages/UserProfile.tsx): it resolves the route's `id` first
 * against the records stored under "addedUsers", then against the directory API, and
 * shows the record as six labelled rows.
 */
module UserProfile {
  import opened Wrappers
  import opened Types
  import opened Storage

  // ---------------------------------------------------------------- local lookup

  /** `u.id === id` with `id` the route string: only a string id with the same text matches. */
  predicate IdMatches(u: User, id: string)
  {
    u.id == Some(StringId(id))
  }

  /** The position `find` stops at: the first matching record, or the length when none matches. */
  function FirstMatch(users: seq<User>, id: string): (k: nat)
    ensures k <= |users|
    ensures forall j :: 0 <= j < k ==> !IdMatches(users[j], id)
    ensures k < |users| ==> IdMatches(users[k], id)
  {
    if users == [] then 0
    else if IdMatches(users[0], id) then 0
    else 1 + FirstMatch(users[1..], id)
  }

  /**
   * The local step of `fetchUser`: the first stored record whose `id` is the route
   * string. A missing or empty slot is skipped, and a parse error or a non-array
   * (where `find` throws) is caught, so each of those is simply no match.
   */
  function FindLocal(stored: Slot<User>, id: string): (r: Option<User>)
    ensures r.Some? <==> stored.Array? && exists u :: u in stored.items && IdMatches(u, id)
    ensures r.Some? ==> r.value.id == Some(StringId(id)) && r.value in stored.items
    ensures r.Some? ==>
      exists k :: (0 <= k < |stored.items| && stored.items[k] == r.value
                   && forall j :: 0 <= j < k ==> !IdMatches(stored.items[j], id))
  {
    match stored
    case Array(items) =>
      var k := FirstMatch(items, id);
      if k < |items| then Some(items[k]) else None
    case _ => None
  }

  /** A record whose `id` is a number, or missing, is never found by a route string. */
  lemma NonStringIdsNeverMatch(users: seq<User>, id: string)
    requires forall u :: u in users ==> u.id.None? || u.id.value.NumberId?
    ensures FindLocal(Array(users), id) == None
  {
  }

  /**
   * A stored form record read through the `User` shape: it has no `id`, its age is
   * present, and its role is a field the shape does not mention.
   */
  function StoredAsUser(d: UserFormData): User
  {
    User(None, d.name, d.email, Some(d.age), None, None, None, None)
  }

  /** What the add-user page writes is never found locally, so the profile always asks the API. */
  lemma AddedUsersNeverFoundLocally(added: seq<UserFormData>, id: string)
    ensures FindLocal(ReadAs(Serialize(added), StoredAsUser), id) == None
  {
    var users := ReadAs(Serialize(added), StoredAsUser).items;
    forall u | u in users ensures u.id.None? {
      var k :| 0 <= k < |users| && users[k] == u;
    }
    NonStringIdsNeverMatch(users, id);
  }

  // ---------------------------------------------------------------- display

  const NotAvailable := "N/A"

  /** `value || "N/A"`: a missing or empty text shows as "N/A". */
  function OrNotAvailable(value: Option<string>): (r: string)
    ensures value.Some? && value.value != "" ==> r == value.value
    ensures value.None? || value.value == "" ==> r == "N/A"
    ensures r != ""
  {
    if value.Some? && value.value != "" then value.value else NotAvailable
  }

  /** The address line: its four parts joined by ", ". */
  function AddressLine(a: Address): (r: string)
    ensures |r| == |a.street| + |a.suite| + |a.city| + |a.zipcode| + 6
    ensures var i1 := |a.street|;
      r[..i1] == a.street && r[i1..i1 + 2] == ", "
    ensures var i2 := |a.street| + 2;
      r[i2..i2 + |a.suite|] == a.suite && r[i2 + |a.suite|..i2 + |a.suite| + 2] == ", "
    ensures var i3 := |a.street| + 2 + |a.suite| + 2;
      r[i3..i3 + |a.city|] == a.city && r[i3 + |a.city|..i3 + |a.city| + 2] == ", "
    ensures r[|r| - |a.zipcode|..] == a.zipcode
  {
    a.street + ", " + a.suite + ", " + a.city + ", " + a.zipcode
  }

  datatype Row = Row(heading: string, value: string)

  /** The six rows of the profile table. */
  function ProfileRows(u: User): (rows: seq<Row>)
    ensures |rows| == 6
    ensures rows[0] == Row("Name", u.name) && rows[1] == Row("Email", u.email)
    ensures rows[2].heading == "Phone" && rows[3].heading == "Website"
    ensures rows[4].heading == "Company" && rows[5].heading == "Address"
    ensures rows[2].value == "N/A" <==> u.phone.None? || u.phone.value in {"", "N/A"}
    ensures rows[3].value == "N/A" <==> u.website.None? || u.website.value in {"", "N/A"}
    ensures rows[4].value == "N/A" <==> u.company.None? || u.company.value.name in {"", "N/A"}
    ensures rows[5].value == "N/A" <==> u.address.None?
    ensures u.phone.Some? && u.phone.value != "" ==> rows[2].value == u.phone.value
    ensures u.website.Some? && u.website.value != "" ==> rows[3].value == u.website.value
    ensures u.company.Some? && u.company.value.name != "" ==> rows[4].value == u.company.value.name
    ensures u.address.Some? ==> rows[5].value == AddressLine(u.address.value)
  {
    [ Row("Name", u.name),
      Row("Email", u.email),
      Row("Phone", OrNotAvailable(u.phone)),
      Row("Website", OrNotAvailable(u.website)),
      Row("Company", OrNotAvailable(if u.company.Some? then Some(u.company.value.name) else None)),
      Row("Address", if u.address.Some? then AddressLine(u.address.value) else NotAvailable) ]
  }

  // ---------------------------------------------------------------- the page

  const FetchUserFailed := "Failed to fetch user"

  /** What the page renders, in order of precedence. */
  datatype ProfileView = Loading | ErrorMessage(message: string) | UserNotFound | Profile(rows: seq<Row>)

  class ProfilePage {
    /** The `:id` route parameter. */
    const id: string
    var user: Option<User>
    var loading: bool
    var error: Option<string>

    constructor (id: string)
      ensures this.id == id && user == None && loading && error == None
    {
      this.id := id;
      user := None;
      loading := true;
      error := None;
    }

    /**
     * `fetchUser`, given the stored slot and the outcome the API request would have.
     * `requested` tells whether the request is made at all.
     */
    method FetchUser(stored: Slot<User>, remote: Response<User>) returns (requested: bool)
      modifies this
      ensures !loading
      ensures requested <==> FindLocal(stored, id).None?
      ensures !requested ==> user == FindLocal(stored, id) && error == None
      ensures requested && remote.Ok? ==> user == Some(remote.data) && error == None
      ensures requested && remote.Failed? ==> user == old(user) && error == Some(FetchUserFailed)
    {
      loading := true;
      error := None;
      var local := FindLocal(stored, id);
      if local.Some? {
        user := local;
        loading := false;
        requested := false;
        return;
      }
      requested := true;
      match remote {
        case Ok(data) =>
          user := Some(data);
        case Failed =>
          error := Some(FetchUserFailed);
      }
      loading := false;
    }

    /** The render: loading, then the error, then "User not found", then the profile table. */
    function View(): (v: ProfileView)
      reads this
      ensures v == Loading <==> loading
      ensures v.ErrorMessage? <==> !loading && IsTruthy(error)
      ensures v.ErrorMessage? ==> v.message == error.value
      ensures v == UserNotFound <==> !loading && !IsTruthy(error) && user.None?
      ensures v.Profile? ==> user.Some? && v.rows == ProfileRows(user.value)
    {
      if loading then Loading
      else if IsTruthy(error) then ErrorMessage(error.value)
      else if user.None? then UserNotFound
      else Profile(ProfileRows(user.value))
    }
  }

  /** Opening a profile: a local match wins without a request; otherwise the API decides. */
  method OpenProfile(id: string, stored: Slot<User>, remote: Response<User>) returns (page: ProfilePage, requested: bool)
    ensures page.id == id && !page.loading
    ensures FindLocal(stored, id).Some? ==>
      !requested && page.View() == Profile(ProfileRows(FindLocal(stored, id).value))
    ensures FindLocal(stored, id).None? && remote.Ok? ==>
      requested && page.View() == Profile(ProfileRows(remote.data))
    ensures FindLocal(stored, id).None? && remote.Failed? ==>
      requested && page.View() == ErrorMessage("Failed to fetch user")
  {
    page := new ProfilePage(id);
    requested := page.FetchUser(stored, remote);
  }
}
