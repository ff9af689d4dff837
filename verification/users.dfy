/**
 * The user-management table: users left-joined with their total session time
 * by email, narrowed by a username search and an account-status selector,
 * shown thirty to a page, with a toggle per status flag.
 */
module Users {
  import opened Wrappers
  import opened Seqs
  import opened Text

  /** A row of the users endpoint (JSON keys id, username, email, is_active, is_staff, is_superuser). */
  datatype User = User(id: int, username: string, email: string, isActive: bool, isStaff: bool, isSuperuser: bool)

  /** A row of the session-duration endpoint (userEmail, Total_Session_Duration, Total_Session_Duration_Txt). */
  datatype DurationRow = DurationRow(userEmail: string, totalSessionDuration: int, totalSessionDurationTxt: string)

  /** A user spread into a new object together with the two duration fields of the join. */
  datatype MergedUser = MergedUser(user: User, totalSessionDuration: int, totalSessionDurationTxt: string)

  /** The text shown for a user without any duration row. */
  const NoDurationTxt := "0 minutes"

  // ---------------------------------------------------------------------------
  // The join

  /** Row `j` is the first row of `rows` whose email is `email`. */
  ghost predicate IsFirstMatch(rows: seq<DurationRow>, email: string, j: int)
  {
    && 0 <= j < |rows|
    && rows[j].userEmail == email
    && forall k :: 0 <= k < j ==> rows[k].userEmail != email
  }

  /** The position `rows.find(item => item.userEmail === email)` stops at, if any. */
  function FindDuration(rows: seq<DurationRow>, email: string): (r: Option<nat>)
    ensures r.Some? ==> IsFirstMatch(rows, email, r.value)
    ensures r.None? ==> forall j :: 0 <= j < |rows| ==> rows[j].userEmail != email
    decreases |rows|
  {
    if rows == [] then None
    else if rows[0].userEmail == email then Some(0)
    else
      match FindDuration(rows[1..], email)
      case None => None
      case Some(j) => Some(j + 1)
  }

  /**
   * The join, stated without reference to how it is computed: `m` is `u` with
   * the duration fields of the first row for `u`'s email, or with 0 and
   * "0 minutes" when there is no such row.
   */
  ghost predicate JoinedWith(m: MergedUser, u: User, rows: seq<DurationRow>)
  {
    && m.user == u
    && ((exists j :: IsFirstMatch(rows, u.email, j)
           && m.totalSessionDuration == rows[j].totalSessionDuration
           && m.totalSessionDurationTxt == rows[j].totalSessionDurationTxt)
        || ((forall j :: 0 <= j < |rows| ==> rows[j].userEmail != u.email)
           && m.totalSessionDuration == 0
           && m.totalSessionDurationTxt == NoDurationTxt))
  }

  function MergeUser(u: User, rows: seq<DurationRow>): (m: MergedUser)
    ensures JoinedWith(m, u, rows)
  {
    match FindDuration(rows, u.email)
    case Some(j) => MergedUser(u, rows[j].totalSessionDuration, rows[j].totalSessionDurationTxt)
    case None => MergedUser(u, 0, NoDurationTxt)
  }

  /** `mergedUsers`: one merged user per user, in the users' order. */
  function Merge(users: seq<User>, rows: seq<DurationRow>): (r: seq<MergedUser>)
    ensures |r| == |users|
    ensures forall i :: 0 <= i < |r| ==> JoinedWith(r[i], users[i], rows)
  {
    seq(|users|, i requires 0 <= i < |users| => MergeUser(users[i], rows))
  }

  /** The first match is unique, so the join determines each merged user completely. */
  lemma JoinIsFunctional(m: MergedUser, u: User, rows: seq<DurationRow>)
    requires JoinedWith(m, u, rows)
    ensures m == MergeUser(u, rows)
  {
    var n := MergeUser(u, rows);
    if j :| (IsFirstMatch(rows, u.email, j)
         && m.totalSessionDuration == rows[j].totalSessionDuration
         && m.totalSessionDurationTxt == rows[j].totalSessionDurationTxt)
    {
      var k := FindDuration(rows, u.email).value;
      assert j == k by {
        if j < k {
          assert rows[j].userEmail == u.email;
        }
      }
    }
  }

  // ---------------------------------------------------------------------------
  // The two filters

  /** The username search: both sides lower-cased, compared as the filter type says; contains by default. */
  predicate MatchesSearch(m: MergedUser, searchTerm: string, filterType: string)
  {
    var name := Lower(m.user.username);
    var term := Lower(searchTerm);
    if filterType == "startsWith" then StartsWith(name, term)
    else if filterType == "endsWith" then EndsWith(name, term)
    else Includes(name, term)
  }

  /** The status selector: active, inactive, staff or superusers; any other value keeps everyone. */
  predicate MatchesActivity(m: MergedUser, filterActive: string)
  {
    if filterActive == "active" then m.user.isActive
    else if filterActive == "inactive" then !m.user.isActive
    else if filterActive == "staff" then m.user.isStaff
    else if filterActive == "superusers" then m.user.isSuperuser
    else true
  }

  function SearchFilter(merged: seq<MergedUser>, searchTerm: string, filterType: string): seq<MergedUser>
  {
    Filter(merged, m => MatchesSearch(m, searchTerm, filterType))
  }

  /** `filteredUsers`: the search filter, then the status filter. */
  function FilterUsers(merged: seq<MergedUser>, searchTerm: string, filterType: string, filterActive: string): (r: seq<MergedUser>)
    ensures forall m :: m in r <==>
      m in merged && MatchesSearch(m, searchTerm, filterType) && MatchesActivity(m, filterActive)
  {
    Filter(SearchFilter(merged, searchTerm, filterType), m => MatchesActivity(m, filterActive))
  }

  /** Both filters together keep an order-preserving subsequence of the merged list. */
  lemma FilterUsersIsSubsequence(merged: seq<MergedUser>, searchTerm: string, filterType: string, filterActive: string)
    ensures IsSubsequence(FilterUsers(merged, searchTerm, filterType, filterActive), merged)
    ensures FilterUsers(merged, searchTerm, filterType, filterActive)
         == Filter(merged, m => MatchesSearch(m, searchTerm, filterType) && MatchesActivity(m, filterActive))
  {
    FilterFusion(merged, m => MatchesSearch(m, searchTerm, filterType), m => MatchesActivity(m, filterActive),
      m => MatchesSearch(m, searchTerm, filterType) && MatchesActivity(m, filterActive));
    FilterIsSubsequence(merged, m => MatchesSearch(m, searchTerm, filterType) && MatchesActivity(m, filterActive));
  }

  /**
   * What each search mode means: a prefix, a suffix, or (for "contains" and any
   * unknown mode) an occurrence anywhere, of the lower-cased term in the
   * lower-cased username.
   */
  lemma SearchModes(m: MergedUser, searchTerm: string, filterType: string)
    ensures filterType == "startsWith" ==>
      (MatchesSearch(m, searchTerm, filterType) <==> |searchTerm| <= |m.user.username| && Lower(m.user.username)[..|searchTerm|] == Lower(searchTerm))
    ensures filterType == "endsWith" ==>
      (MatchesSearch(m, searchTerm, filterType) <==> |searchTerm| <= |m.user.username| && Lower(m.user.username)[|m.user.username| - |searchTerm|..] == Lower(searchTerm))
    ensures filterType != "startsWith" && filterType != "endsWith" ==>
      (MatchesSearch(m, searchTerm, filterType) <==> exists i :: OccursAt(Lower(m.user.username), Lower(searchTerm), i))
  {
    IncludesIffOccurs(Lower(m.user.username), Lower(searchTerm));
  }

  /** The search ignores ASCII case on both sides. */
  lemma SearchIgnoresCase(m: MergedUser, searchTerm: string, filterType: string)
    ensures MatchesSearch(m, Lower(searchTerm), filterType) == MatchesSearch(m, searchTerm, filterType)
    ensures MatchesSearch(m.(user := m.user.(username := Lower(m.user.username))), searchTerm, filterType)
         == MatchesSearch(m, searchTerm, filterType)
  {
    LowerIdempotent(searchTerm);
    LowerIdempotent(m.user.username);
  }

  /** An empty search term with the "all" selector shows every merged user, in every search mode. */
  lemma EmptySearchKeepsAll(merged: seq<MergedUser>, filterType: string)
    ensures FilterUsers(merged, "", filterType, "all") == merged
  {
    forall m | m in merged
      ensures MatchesSearch(m, "", filterType)
    {
      assert Lower("") == "";
    }
    FilterKeepsAll(merged, m => MatchesSearch(m, "", filterType));
    FilterKeepsAll(merged, m => MatchesActivity(m, "all"));
  }

  /** A selector value other than the four known ones leaves the search result untouched. */
  lemma UnknownSelectorKeepsSearchResult(merged: seq<MergedUser>, searchTerm: string, filterType: string, filterActive: string)
    requires filterActive !in ["active", "inactive", "staff", "superusers"]
    ensures FilterUsers(merged, searchTerm, filterType, filterActive) == SearchFilter(merged, searchTerm, filterType)
  {
    FilterKeepsAll(SearchFilter(merged, searchTerm, filterType), m => MatchesActivity(m, filterActive));
  }

  /** "active" and "inactive" split the search result between them. */
  lemma ActiveInactiveSplit(merged: seq<MergedUser>, searchTerm: string, filterType: string)
    ensures |FilterUsers(merged, searchTerm, filterType, "active")| + |FilterUsers(merged, searchTerm, filterType, "inactive")|
         == |SearchFilter(merged, searchTerm, filterType)|
  {
    FilterPartition(SearchFilter(merged, searchTerm, filterType),
      m => MatchesActivity(m, "active"), m => MatchesActivity(m, "inactive"));
  }

  // ---------------------------------------------------------------------------
  // Pagination

  /** `usersPerPage`. */
  const UsersPerPage: nat := 30

  /** `Math.ceil(n / usersPerPage)`: the number of page buttons. */
  function PageCount(n: nat): (c: nat)
    ensures (c - 1) * UsersPerPage < n <= c * UsersPerPage
  {
    (n + UsersPerPage - 1) / UsersPerPage
  }

  /** `filtered.slice(indexOfFirstUser, indexOfLastUser)` for `indexOfLastUser = page * usersPerPage`. */
  function PageOf<T>(filtered: seq<T>, page: int): seq<T>
  {
    var last := page * UsersPerPage;
    Slice(filtered, last - UsersPerPage, last)
  }

  /** Page `p` (counting from 1) is the stretch of at most thirty users starting at `(p - 1) * 30`. */
  lemma PageContents<T>(filtered: seq<T>, page: int)
    requires page >= 1
    ensures Min((page - 1) * UsersPerPage, |filtered|) <= Min(page * UsersPerPage, |filtered|)
    ensures PageOf(filtered, page) == filtered[Min((page - 1) * UsersPerPage, |filtered|)..Min(page * UsersPerPage, |filtered|)]
    ensures |PageOf(filtered, page)| <= UsersPerPage
  {
    SliceNonNegative(filtered, page * UsersPerPage - UsersPerPage, page * UsersPerPage);
  }

  /** A page past the page count shows nothing (the list can shrink under a page left selected). */
  lemma PagePastCountIsEmpty<T>(filtered: seq<T>, page: int)
    requires page > PageCount(|filtered|)
    ensures PageOf(filtered, page) == []
  {
    var c := PageCount(|filtered|);
    assert (page - 1) * UsersPerPage >= c * UsersPerPage;
  }

  /** Pages 1 to k, one after the other. */
  function Pages<T>(filtered: seq<T>, k: nat): seq<T>
  {
    if k == 0 then [] else Pages(filtered, k - 1) + PageOf(filtered, k)
  }

  lemma {:induction false} PagesArePrefix<T>(filtered: seq<T>, k: nat)
    ensures Pages(filtered, k) == filtered[..Min(k * UsersPerPage, |filtered|)]
  {
    if k > 0 {
      PagesArePrefix(filtered, k - 1);
      PageContents(filtered, k);
      var a := Min((k - 1) * UsersPerPage, |filtered|);
      var b := Min(k * UsersPerPage, |filtered|);
      assert filtered[..a] + filtered[a..b] == filtered[..b];
    }
  }

  /** Reading every page button in turn shows the whole filtered list exactly once, in order. */
  lemma PagesReassemble<T>(filtered: seq<T>)
    ensures Pages(filtered, PageCount(|filtered|)) == filtered
  {
    PagesArePrefix(filtered, PageCount(|filtered|));
    assert filtered[..|filtered|] == filtered;
  }

  // ---------------------------------------------------------------------------
  // Status toggles

  datatype StatusField = IsActive | IsStaff | IsSuperuser

  /** The JSON key a status flag is sent under. */
  function FieldKey(f: StatusField): string
  {
    match f
    case IsActive => "is_active"
    case IsStaff => "is_staff"
    case IsSuperuser => "is_superuser"
  }

  /** The endpoint each checkbox posts to. */
  function Endpoint(f: StatusField): string
  {
    match f
    case IsActive => "https://dj-render-ldb1.onrender.com/suspend/"
    case IsStaff => "https://dj-render-ldb1.onrender.com/update_user_staff_status/"
    case IsSuperuser => "https://dj-render-ldb1.onrender.com/update_user_superuser_status/"
  }

  function Status(u: User, f: StatusField): bool
  {
    match f
    case IsActive => u.isActive
    case IsStaff => u.isStaff
    case IsSuperuser => u.isSuperuser
  }

  /** `{ ...u, [statusField]: b }`. */
  function WithStatus(u: User, f: StatusField, b: bool): (v: User)
    ensures Status(v, f) == b
    ensures forall g :: g != f ==> Status(v, g) == Status(u, g)
    ensures v.id == u.id && v.username == u.username && v.email == u.email
  {
    match f
    case IsActive => u.(isActive := b)
    case IsStaff => u.(isStaff := b)
    case IsSuperuser => u.(isSuperuser := b)
  }

  /** The POST body of a toggle: the user's email and the flag's new value as "True" or "False". */
  datatype ToggleBody = ToggleBody(email: string, key: string, value: string)

  function ToggleRequest(u: User, f: StatusField): (b: ToggleBody)
    ensures b.email == u.email && b.key == FieldKey(f)
    ensures b.value == "False" <==> Status(u, f)
    ensures b.value == "True" <==> !Status(u, f)
  {
    ToggleBody(u.email, FieldKey(f), if Status(u, f) then "False" else "True")
  }

  /** The flag value a request body asks the server to store. */
  function RequestedStatus(b: ToggleBody): bool
  {
    b.value == "True"
  }

  /** `users.map(u => u.email === email ? { ...u, [f]: !u[f] } : u)`. */
  function Toggled(users: seq<User>, email: string, f: StatusField): (r: seq<User>)
    ensures |r| == |users|
    ensures forall i :: 0 <= i < |r| && users[i].email == email ==>
      r[i] == WithStatus(users[i], f, !Status(users[i], f))
    ensures forall i :: 0 <= i < |r| && users[i].email != email ==> r[i] == users[i]
  {
    seq(|users|, i requires 0 <= i < |users| =>
      if users[i].email == email then WithStatus(users[i], f, !Status(users[i], f)) else users[i])
  }

  /** Only the toggled flag of the matching users changes; every other field and user stays. */
  lemma ToggleChangesOnlyField(users: seq<User>, email: string, f: StatusField, i: int)
    requires 0 <= i < |users|
    ensures Status(Toggled(users, email, f)[i], f) == (if users[i].email == email then !Status(users[i], f) else Status(users[i], f))
    ensures forall g :: g != f ==> Status(Toggled(users, email, f)[i], g) == Status(users[i], g)
    ensures Toggled(users, email, f)[i].email == users[i].email
    ensures Toggled(users, email, f)[i].id == users[i].id
    ensures Toggled(users, email, f)[i].username == users[i].username
  {
  }

  /** Toggling the same flag twice restores the list. */
  lemma ToggleTwiceRestores(users: seq<User>, email: string, f: StatusField)
    ensures Toggled(Toggled(users, email, f), email, f) == users
  {
    var once := Toggled(users, email, f);
    var twice := Toggled(once, email, f);
    forall i | 0 <= i < |users|
      ensures twice[i] == users[i]
    {
      if users[i].email == email {
        var u := users[i];
        match f
        case IsActive => assert twice[i] == u.(isActive := u.isActive);
        case IsStaff => assert twice[i] == u.(isStaff := u.isStaff);
        case IsSuperuser => assert twice[i] == u.(isSuperuser := u.isSuperuser);
      }
    }
  }

  /** The clicked user's flag ends up at the value the request asked for. */
  lemma ToggleAgreesWithRequest(users: seq<User>, i: int, f: StatusField)
    requires 0 <= i < |users|
    ensures Status(Toggled(users, users[i].email, f)[i], f) == RequestedStatus(ToggleRequest(users[i], f))
  {
  }

  // ---------------------------------------------------------------------------
  // The component's state

  /** The table's React state: the fetched lists, the three filter inputs, the page and the loading flag. */
  class UsersTable {
    var users: seq<User>
    var sessionDurations: seq<DurationRow>
    var searchTerm: string
    var filterType: string
    var currentPage: int
    var filterActive: string
    var isLoading: bool

    constructor ()
      ensures users == [] && sessionDurations == []
      ensures searchTerm == "" && filterType == "contains" && filterActive == "all"
      ensures currentPage == 1 && isLoading
    {
      users := [];
      sessionDurations := [];
      searchTerm := "";
      filterType := "contains";
      currentPage := 1;
      filterActive := "all";
      isLoading := true;
    }

    /** The users request resolved: `setUsers(data)`, then the loading screen goes away. */
    method UsersFetched(data: seq<User>)
      modifies this`users, this`isLoading
      ensures users == data && !isLoading
    {
      users := data;
      isLoading := false;
    }

    /** The durations request resolved: `setSessionDurations(rows)`. */
    method DurationsFetched(rows: seq<DurationRow>)
      modifies this`sessionDurations
      ensures sessionDurations == rows
    {
      sessionDurations := rows;
    }

    method SetSearchTerm(term: string)
      modifies this`searchTerm
      ensures searchTerm == term
    {
      searchTerm := term;
    }

    method SetFilterType(mode: string)
      modifies this`filterType
      ensures filterType == mode
    {
      filterType := mode;
    }

    method SetFilterActive(selector: string)
      modifies this`filterActive
      ensures filterActive == selector
    {
      filterActive := selector;
    }

    /** `paginate(pageNumber)`. */
    method Paginate(pageNumber: int)
      modifies this`currentPage
      ensures currentPage == pageNumber
    {
      currentPage := pageNumber;
    }

    function Filtered(): seq<MergedUser>
      reads this
    {
      FilterUsers(Merge(users, sessionDurations), searchTerm, filterType, filterActive)
    }

    /** What the table lists: nothing while loading, otherwise the current page. */
    function CurrentUsers(): (r: Option<seq<MergedUser>>)
      reads this
      ensures r.None? <==> isLoading
      ensures r.Some? ==> |r.value| <= UsersPerPage
      ensures r.Some? && currentPage >= 1 ==> r.value == Filtered()[Min((currentPage - 1) * UsersPerPage, |Filtered()|)..Min(currentPage * UsersPerPage, |Filtered()|)]
    {
      if isLoading then None
      else
        var page := PageOf(Filtered(), currentPage);
        assert |page| <= UsersPerPage by {
          if currentPage >= 1 { PageContents(Filtered(), currentPage); }
        }
        if currentPage >= 1 then PageContents(Filtered(), currentPage); Some(page)
        else Some(page)
    }

    /**
     * A checkbox was clicked for `user` (a row of the current page): the endpoint
     * and body that are posted, and the `users` list of the render the click
     * happened in, which the request's `.then` callback later maps over.
     */
    method ToggleUserStatus(user: MergedUser, field: StatusField) returns (url: string, body: ToggleBody, captured: seq<User>)
      ensures url == Endpoint(field)
      ensures body == ToggleRequest(user.user, field)
      ensures captured == users
    {
      url := Endpoint(field);
      body := ToggleRequest(user.user, field);
      captured := users;
    }

    /**
     * The request's promise resolved: `setUsers` with the flag flipped for every
     * user with `email`, computed from the list captured at the click, whatever
     * the list is by now.
     */
    method ToggleResolved(captured: seq<User>, email: string, field: StatusField)
      modifies this`users
      ensures users == Toggled(captured, email, field)
    {
      users := Toggled(captured, email, field);
    }

    /**
     * The update the toggle is meant to make: the flip applied to the list as it
     * is when the request resolves (`setUsers(prev => ...)`).
     */
    method ToggleResolvedFresh(email: string, field: StatusField)
      modifies this`users
      ensures users == Toggled(old(users), email, field)
    {
      users := Toggled(users, email, field);
    }
  }

  /**
   * Two users are toggled before either request resolves: both callbacks map
   * the same captured list, so the second `setUsers` undoes the first flip.
   */
  method OverlappingTogglesScenario() returns (final: seq<User>)
    ensures |final| == 2
    ensures final[0].isActive && !final[1].isActive
  {
    var ann := User(1, "ann", "ann@example.com", true, false, false);
    var bob := User(2, "bob", "bob@example.com", true, false, false);
    var table := new UsersTable();
    table.UsersFetched([ann, bob]);
    var _, _, first := table.ToggleUserStatus(MergedUser(ann, 0, NoDurationTxt), IsActive);
    var _, _, second := table.ToggleUserStatus(MergedUser(bob, 0, NoDurationTxt), IsActive);
    table.ToggleResolved(first, ann.email, IsActive);
    table.ToggleResolved(second, bob.email, IsActive);
    final := table.users;
  }

  /** Flips for two different emails applied one after the other both take effect, in either order. */
  lemma SequencedTogglesKeepBoth(users: seq<User>, e1: string, e2: string, f: StatusField, i: int)
    requires e1 != e2 && 0 <= i < |users|
    ensures Status(Toggled(Toggled(users, e1, f), e2, f)[i], f)
         == (if users[i].email == e1 || users[i].email == e2 then !Status(users[i], f) else Status(users[i], f))
    ensures Toggled(Toggled(users, e1, f), e2, f) == Toggled(Toggled(users, e2, f), e1, f)
  {
    var a := Toggled(Toggled(users, e1, f), e2, f);
    var b := Toggled(Toggled(users, e2, f), e1, f);
    assert |a| == |b|;
    forall k | 0 <= k < |a|
      ensures a[k] == b[k]
    {
    }
  }

  /** With the intended update, toggling two users before either request resolves keeps both flips. */
  method SequencedTogglesScenario() returns (final: seq<User>)
    ensures |final| == 2
    ensures !final[0].isActive && !final[1].isActive
  {
    var ann := User(1, "ann", "ann@example.com", true, false, false);
    var bob := User(2, "bob", "bob@example.com", true, false, false);
    var table := new UsersTable();
    table.UsersFetched([ann, bob]);
    var _, _, _ := table.ToggleUserStatus(MergedUser(ann, 0, NoDurationTxt), IsActive);
    var _, _, _ := table.ToggleUserStatus(MergedUser(bob, 0, NoDurationTxt), IsActive);
    table.ToggleResolvedFresh(ann.email, IsActive);
    table.ToggleResolvedFresh(bob.email, IsActive);
    final := table.users;
  }
}
