/** The user management page: the search filter over profiles, the header count and the
    table of matching users with their role and status badges. */
module AdminUsers {
  import opened Wrappers
  import opened Text
  import opened Records

  // ----- the search -----

  /** The text a user's name is searched in: `(u.name ?? u.email ?? "").toLowerCase()`. */
  function SearchName(u: Profile): string {
    Lower(u.name.GetOr(u.email.GetOr("")))
  }

  /** The text a user's company is searched in: `(u.company ?? "").toLowerCase()`. */
  function SearchCompany(u: Profile): string {
    Lower(u.company.GetOr(""))
  }

  /** A user matches when the lower-cased term occurs in the searched name or company. */
  predicate Matches(search: string, u: Profile) {
    Contains(SearchName(u), Lower(search)) || Contains(SearchCompany(u), Lower(search))
  }

  /** `filtered`: the users that match, in their original order. */
  function Filtered(search: string, users: seq<Profile>): (r: seq<Profile>)
    ensures |r| <= |users|
  {
    if users == [] then []
    else Filtered(search, users[..|users| - 1]) + (if Matches(search, users[|users| - 1]) then [users[|users| - 1]] else [])
  }

  /** A user is listed exactly when it is one of the users and matches the search. */
  lemma {:induction false} FilteredMembers(search: string, users: seq<Profile>, u: Profile)
    ensures u in Filtered(search, users) <==> u in users && Matches(search, u)
  {
    if users != [] {
      var init := users[..|users| - 1];
      FilteredMembers(search, init, u);
      assert users == init + [users[|users| - 1]];
    }
  }

  /** The positions in `users` of the listed users. */
  function FilteredIndices(search: string, users: seq<Profile>): (idx: seq<nat>)
    ensures |idx| == |Filtered(search, users)|
    ensures forall k :: 0 <= k < |idx| ==> idx[k] < |users| && Filtered(search, users)[k] == users[idx[k]]
  {
    if users == [] then []
    else
      var n := |users| - 1;
      var before := FilteredIndices(search, users[..n]);
      assert forall k :: 0 <= k < |before| ==> users[..n][before[k]] == users[before[k]];
      before + (if Matches(search, users[n]) then [n] else [])
  }

  /** The listed users keep their relative order: their positions strictly increase, so the
      list is a subsequence of the users. */
  lemma {:induction false} FilteredKeepsOrder(search: string, users: seq<Profile>)
    ensures forall i, j :: 0 <= i < j < |FilteredIndices(search, users)| ==>
      FilteredIndices(search, users)[i] < FilteredIndices(search, users)[j]
  {
    if users != [] {
      FilteredKeepsOrder(search, users[..|users| - 1]);
    }
  }

  /** An empty search lists every user. */
  lemma {:induction false} EmptySearchKeepsAll(users: seq<Profile>)
    ensures Filtered("", users) == users
  {
    if users != [] {
      EmptySearchKeepsAll(users[..|users| - 1]);
      ContainsEmpty(SearchName(users[|users| - 1]));
      assert Lower("") == "";
    }
  }

  // ----- the table -----

  const ActiveClass := "bg-foreground text-background"
  const InactiveClass := "bg-muted text-muted-foreground"

  /** The text of the status badge, `u.status ?? "Active"`. */
  function StatusText(u: Profile): (s: string)
    ensures u.status.None? ==> s == "Active"
    ensures u.status.Some? ==> s == u.status.value
  {
    u.status.GetOr("Active")
  }

  /** The badge style as the page writes it: active only for a stored "Active" status. */
  function StatusClassAsWritten(u: Profile): (c: string)
    ensures c == ActiveClass <==> u.status == Some("Active")
  {
    if u.status == Some("Active") then ActiveClass else InactiveClass
  }

  /** A user without a stored status shows the text "Active" in the inactive style. */
  lemma MissingStatusMisstyled(u: Profile)
    requires u.status.None?
    ensures StatusText(u) == "Active" && StatusClassAsWritten(u) == InactiveClass
  {
  }

  /** The badge style matching the badge text: active exactly when the text says "Active". */
  function StatusClass(u: Profile): (c: string)
    ensures c == ActiveClass <==> StatusText(u) == "Active"
    ensures c == InactiveClass <==> StatusText(u) != "Active"
  {
    if StatusText(u) == "Active" then ActiveClass else InactiveClass
  }

  /** One row: the name (or e-mail), company, role badge, device placeholder and status badge. */
  datatype UserRow = UserRow(name: Option<string>, company: string, role: string, devices: string,
                             status: string, statusClass: string)

  /** The row of one user as the page renders it: a missing company shows "—", a missing role
      "Client", and the badge is styled active only for a stored "Active" status. */
  function RowOf(u: Profile): (r: UserRow)
    ensures r.name == (if u.name.Some? then u.name else u.email)
    ensures r.company == u.company.GetOr("—") && r.role == u.role.GetOr("Client")
    ensures r.status == StatusText(u)
    ensures r.statusClass == ActiveClass <==> u.status == Some("Active")
    ensures r.statusClass == InactiveClass <==> u.status != Some("Active")
  {
    UserRow(if u.name.Some? then u.name else u.email, u.company.GetOr("—"), u.role.GetOr("Client"), "—",
            StatusText(u), StatusClassAsWritten(u))
  }

  /** The row with the corrected badge style: it differs from the rendered row only in the
      style, and only for a user without a stored status. */
  function CorrectedRowOf(u: Profile): (r: UserRow)
    ensures r.statusClass == ActiveClass <==> r.status == "Active"
    ensures r.statusClass != RowOf(u).statusClass <==> u.status.None?
    ensures r.(statusClass := RowOf(u).statusClass) == RowOf(u)
  {
    RowOf(u).(statusClass := StatusClass(u))
  }

  /** The header's "N registered clients" counts every user, whatever the search. */
  function HeaderCount(search: string, users: seq<Profile>): (n: nat)
    ensures n == |users| && n >= |Filtered(search, users)|
  {
    |users|
  }

  /** The table body: a loading row, then "No users yet." when no user matches, otherwise
      one row per matching user in order. */
  function UsersTable(loading: bool, search: string, users: seq<Profile>): (t: TableBody<UserRow>)
    ensures loading ==> t == Placeholder("Loading users…")
    ensures !loading && Filtered(search, users) == [] ==> t == Placeholder("No users yet.")
    ensures !loading && Filtered(search, users) != [] ==>
      var f := Filtered(search, users);
      t.DataRows? && |t.rows| == |f| && forall k :: 0 <= k < |f| ==> t.rows[k] == RowOf(f[k])
  {
    var f := Filtered(search, users);
    if loading then Placeholder("Loading users…")
    else if |f| == 0 then Placeholder("No users yet.")
    else DataRows(seq(|f|, k requires 0 <= k < |f| => RowOf(f[k])))
  }

  /** With an empty search and at least one user, the table has a row for every user. */
  lemma EmptySearchShowsEveryone(users: seq<Profile>)
    requires users != []
    ensures UsersTable(false, "", users).DataRows?
    ensures |UsersTable(false, "", users).rows| == |users|
  {
    EmptySearchKeepsAll(users);
  }
}
