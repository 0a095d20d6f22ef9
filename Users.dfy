/**
 * The mock user service: a module-level array of users that `getUsers` searches,
 * filters and pages, and that `createUser`, `updateUser` and `deleteUser` replace
 * by a new array. The simulated network delay is not modelled.
 */
module Users {
  import opened JsText

  /** A point in time: an ISO-8601 text, or `new Date(year, monthIndex, day)` in local time. */
  datatype Instant = Iso(text: string) | LocalMidnight(year: int, monthIndex: int, day: int)

  datatype User = User(id: int, name: string, email: string, role: string, status: string,
                       createdAt: Instant, lastLogin: Option<Instant>)

  /** The data `createUser` is called with; an `id` in it wins over the generated one. */
  datatype NewUser = NewUser(id: Option<int>, name: string, email: string, role: string, status: string)

  /** The data `updateUser` is called with: every field it carries wins in the merge. */
  datatype Patch = Patch(id: Option<int>, name: Option<string>, email: Option<string>,
                         role: Option<string>, status: Option<string>,
                         createdAt: Option<Instant>, lastLogin: Option<Option<Instant>>)

  /** A parameter with a default. */
  function Pick<T>(given: Option<T>, otherwise: T): T {
    if given.Some? then given.value else otherwise
  }

  // ----- seed data -----

  const FirstUser := User(1, "John Doe", "john@example.com", "user", "active",
                          Iso("2024-01-15T10:00:00Z"), Some(Iso("2024-03-19T15:30:00Z")))

  /** The `i`-th generated user of the seed. */
  function Generated(i: nat): User {
    User(i + 2, "User " + IntToString(i + 2), "user" + IntToString(i + 2) + "@example.com",
         if i % 3 == 0 then "moderator" else "user",
         if i % 5 == 0 then "inactive" else "active",
         LocalMidnight(2024, 0, i + 1), Some(LocalMidnight(2024, 2, i + 1)))
  }

  const Seed: seq<User> := [FirstUser] + seq(20, i requires 0 <= i => Generated(i))

  lemma SeedFacts()
    ensures |Seed| == 21
    ensures forall k :: 0 <= k < |Seed| ==> Seed[k].id == k + 1
    ensures Seed[0].role == "user" && Seed[0].status == "active"
    ensures forall k :: 1 <= k < |Seed| ==> (Seed[k].role == "moderator" <==> (k - 1) % 3 == 0)
    ensures forall k :: 1 <= k < |Seed| ==> (Seed[k].status == "inactive" <==> (k - 1) % 5 == 0)
  {
    forall k | 1 <= k < |Seed|
      ensures Seed[k] == Generated(k - 1)
    {
    }
  }

  // ----- getUsers -----

  /** The criteria of a `getUsers` call; a `search`, `role` or `status` of "" is not applied. */
  datatype Query = Query(page: Option<int>, perPage: Option<int>, search: string, role: string, status: string)

  const DefaultPage := 1
  const DefaultPerPage := 10

  predicate MatchesSearch(u: User, searchLower: string) {
    Contains(ToLower(u.name), searchLower) || Contains(ToLower(u.email), searchLower)
  }

  /** Whether a user passes all three criteria of `q`. */
  predicate Matches(u: User, q: Query) {
    && (q.search == "" || MatchesSearch(u, ToLower(q.search)))
    && (q.role == "" || u.role == q.role)
    && (q.status == "" || u.status == q.status)
  }

  /** The users passing `q`, in store order. */
  function Filtered(us: seq<User>, q: Query): (r: seq<User>)
    ensures |r| <= |us|
    ensures forall k :: 0 <= k < |r| ==> Matches(r[k], q)
  {
    Filter(us, u => Matches(u, q))
  }

  /** `Math.ceil(total / perPage)`; `None` where JavaScript gives `Infinity` or `NaN`. */
  function PageCount(total: nat, perPage: int): (r: Option<int>)
    ensures r.None? <==> perPage == 0
  {
    if perPage == 0 then None
    else if perPage > 0 then Some((total + perPage - 1) / perPage)
    else Some(-(total / -perPage))
  }

  datatype Pagination = Pagination(total: nat, totalPages: Option<int>, currentPage: int, perPage: int)
  datatype UserPage = UserPage(users: seq<User>, pagination: Pagination)

  /** What `getUsers(q)` resolves to on the store `us`. */
  function Listed(us: seq<User>, q: Query): UserPage {
    var page := Pick(q.page, DefaultPage);
    var perPage := Pick(q.perPage, DefaultPerPage);
    var filtered := Filtered(us, q);
    var start := (page - 1) * perPage;
    UserPage(Slice(filtered, start, start + perPage),
             Pagination(|filtered|, PageCount(|filtered|, perPage), page, perPage))
  }

  /** A user is kept exactly when it is in the store and passes the criteria. */
  lemma FilteredMembers(us: seq<User>, q: Query, u: User)
    ensures u in Filtered(us, q) <==> u in us && Matches(u, q)
  {
    FilterMembers(us, u => Matches(u, q), u);
  }

  /** With no criteria the whole store is listed. */
  lemma NoCriteriaKeepsAll(us: seq<User>, q: Query)
    requires q.search == "" && q.role == "" && q.status == ""
    ensures Filtered(us, q) == us
  {
    FilterKeepsAll(us, u => Matches(u, q));
  }

  /** Every listed user is a stored user that passes the criteria. */
  lemma ListedMatch(us: seq<User>, q: Query)
    ensures forall k :: 0 <= k < |Listed(us, q).users| ==>
      Listed(us, q).users[k] in us && Matches(Listed(us, q).users[k], q)
  {
    var page := Pick(q.page, DefaultPage);
    var perPage := Pick(q.perPage, DefaultPerPage);
    var filtered := Filtered(us, q);
    var start := (page - 1) * perPage;
    SliceMembers(filtered, start, start + perPage);
    forall k | 0 <= k < |Listed(us, q).users|
      ensures Listed(us, q).users[k] in us && Matches(Listed(us, q).users[k], q)
    {
      FilteredMembers(us, q, Listed(us, q).users[k]);
    }
  }

  /** For a positive page size, the page count is the least number of pages holding every user. */
  lemma PageCountIsCeiling(total: nat, perPage: int)
    requires perPage > 0
    ensures var n := PageCount(total, perPage).value;
      n >= 0 && (n - 1) * perPage < total <= n * perPage
  {
    var n := (total + perPage - 1) / perPage;
    var rem := (total + perPage - 1) % perPage;
    assert total + perPage - 1 == n * perPage + rem;
    assert n * perPage == total + perPage - 1 - rem;
    assert (n - 1) * perPage == n * perPage - perPage;
  }

  /** On a page from 1 on with a positive page size: at most `perPage` users, exactly the slice
      of the filtered list the page covers, and none past the last page. */
  lemma PageBounds(us: seq<User>, q: Query)
    requires Pick(q.page, DefaultPage) >= 1 && Pick(q.perPage, DefaultPerPage) > 0
    ensures var r := Listed(us, q); var page := Pick(q.page, DefaultPage);
      var perPage := Pick(q.perPage, DefaultPerPage); var filtered := Filtered(us, q);
      var start := PageStart(page, perPage);
      && |r.users| <= perPage
      && (start <= |filtered| ==>
            r.users == filtered[start..if start + perPage <= |filtered| then start + perPage else |filtered|])
      && (page > r.pagination.totalPages.value ==> r.users == [])
  {
    var page := Pick(q.page, DefaultPage);
    var perPage := Pick(q.perPage, DefaultPerPage);
    var filtered := Filtered(us, q);
    var start := PageStart(page, perPage);
    SliceWindow(filtered, start, perPage);
    PageCountIsCeiling(|filtered|, perPage);
    if page > PageCount(|filtered|, perPage).value {
      PastLastPage(|filtered|, page, perPage);
    }
  }

  /** `(page - 1) * perPage` for a page from 1 on. */
  function PageStart(page: int, perPage: nat): (r: nat)
    requires page >= 1
    ensures r == (page - 1) * perPage
  {
    (page - 1) * perPage
  }

  /** A page after the last one starts at or after the end of the list. */
  lemma PastLastPage(total: nat, page: int, perPage: int)
    requires perPage > 0 && page >= 1
    requires page > PageCount(total, perPage).value
    ensures (page - 1) * perPage >= total
  {
    var n := PageCount(total, perPage).value;
    PageCountIsCeiling(total, perPage);
    assert page - 1 >= n;
    MulMonotone(n, page - 1, perPage);
  }

  lemma MulMonotone(a: int, b: int, c: nat)
    requires a <= b
    ensures a * c <= b * c
  {
    assert b * c - a * c == (b - a) * c;
  }

  // ----- lookup and updates -----

  /** `us.findIndex(u => u.id === id)` */
  function IndexOfId(us: seq<User>, id: int): (r: int)
    ensures -1 <= r < |us|
    ensures r == -1 <==> forall k :: 0 <= k < |us| ==> us[k].id != id
    ensures r >= 0 ==> us[r].id == id && forall k :: 0 <= k < r ==> us[k].id != id
  {
    if us == [] then -1
    else if us[0].id == id then 0
    else
      var r := IndexOfId(us[1..], id);
      if r == -1 then -1 else r + 1
  }

  /** The user `createUser(data)` builds on a store of `count` users at time `now`. */
  function Created(count: nat, data: NewUser, now: string): User {
    User(Pick(data.id, count + 1), data.name, data.email, data.role, data.status, Iso(now), None)
  }

  /** `{ ...u, ...patch }` */
  function Merge(u: User, patch: Patch): User {
    User(Pick(patch.id, u.id), Pick(patch.name, u.name), Pick(patch.email, u.email),
         Pick(patch.role, u.role), Pick(patch.status, u.status),
         Pick(patch.createdAt, u.createdAt), Pick(patch.lastLogin, u.lastLogin))
  }

  /** The store after `updateUser(id, patch)` finds `id`. */
  function UpdatedStore(us: seq<User>, id: int, patch: Patch): seq<User>
    requires IndexOfId(us, id) >= 0
  {
    var index := IndexOfId(us, id);
    us[index := Merge(us[index], patch)]
  }

  /** The store after `deleteUser(id)`. */
  function Deleted(us: seq<User>, id: int): seq<User> {
    Filter(us, (u: User) => u.id != id)
  }

  /** Merging a patch a second time changes nothing more. */
  lemma MergeIdempotent(u: User, patch: Patch)
    ensures Merge(Merge(u, patch), patch) == Merge(u, patch)
  {
  }

  /** An update replaces the first user with the id by the merge, keeping its place; a later
      lookup of the id, when the patch keeps the id, finds the merged user there. */
  lemma UpdateReplacesFirst(us: seq<User>, id: int, patch: Patch)
    requires IndexOfId(us, id) >= 0
    ensures var index := IndexOfId(us, id); var r := UpdatedStore(us, id, patch);
      && |r| == |us|
      && (forall k :: 0 <= k < |us| && k != index ==> r[k] == us[k])
      && (patch.id.None? ==> IndexOfId(r, id) == index && r[index] == Merge(us[index], patch))
  {
    var index := IndexOfId(us, id);
    var m := Merge(us[index], patch);
    var r := UpdatedStore(us, id, patch);
    assert r == us[index := m];
    if patch.id.None? {
      assert m.id == id;
      assert forall k :: 0 <= k < index ==> r[k].id != id;
    }
  }

  /** After a delete no user has the id, and every other user stays. */
  lemma DeleteRemovesAll(us: seq<User>, id: int, u: User)
    ensures IndexOfId(Deleted(us, id), id) == -1
    ensures u in Deleted(us, id) <==> u in us && u.id != id
  {
    FilterMembers(us, (u: User) => u.id != id, u);
  }

  /** Ids are not unique: on a store with ids 1..n in order, deleting user 1 and creating a
      user without an id gives the new user the id of the last stored one. */
  lemma CreateAfterDeleteReusesId(us: seq<User>, data: NewUser, now: string)
    requires |us| >= 2 && data.id.None?
    requires forall k :: 0 <= k < |us| ==> us[k].id == k + 1
    ensures var after := Deleted(us, 1);
      |after| == |us| - 1 && Created(|after|, data, now).id == after[|after| - 1].id
  {
    FilterKeepsAll(us[1..], (u: User) => u.id != 1);
    assert us == [us[0]] + us[1..];
    assert Deleted(us, 1) == us[1..];
  }

  /** The seed itself is such a store. */
  lemma SeedReusesId(data: NewUser, now: string)
    requires data.id.None?
    ensures var after := Deleted(Seed, 1);
      |after| == 20 && Created(|after|, data, now).id == after[19].id == 21
  {
    SeedFacts();
    CreateAfterDeleteReusesId(Seed, data, now);
  }

  /** The three filter passes of `getUsers`, each applied only when its criterion is set. */
  method FilterUsers(users: seq<User>, q: Query) returns (filtered: seq<User>)
    ensures filtered == Filtered(users, q)
  {
    ghost var bySearch := (u: User) => q.search == "" || MatchesSearch(u, ToLower(q.search));
    ghost var byRole := (u: User) => bySearch(u) && (q.role == "" || u.role == q.role);
    ghost var byAll := (u: User) => byRole(u) && (q.status == "" || u.status == q.status);
    filtered := users;
    if q.search != "" {
      var searchLower := ToLower(q.search);
      filtered := Filter(filtered, u => MatchesSearch(u, searchLower));
      FilterSame(users, u => MatchesSearch(u, searchLower), bySearch);
    } else {
      FilterKeepsAll(users, bySearch);
    }
    assert filtered == Filter(users, bySearch);
    if q.role != "" {
      var role := q.role;
      FilterFilter(users, bySearch, (u: User) => u.role == role, byRole);
      filtered := Filter(filtered, (u: User) => u.role == role);
    } else {
      FilterSame(users, bySearch, byRole);
    }
    assert filtered == Filter(users, byRole);
    if q.status != "" {
      var status := q.status;
      FilterFilter(users, byRole, (u: User) => u.status == status, byAll);
      filtered := Filter(filtered, (u: User) => u.status == status);
    } else {
      FilterSame(users, byRole, byAll);
    }
    FilterSame(users, byAll, u => Matches(u, q));
  }

  /** The module-level `users` array. */
  class UserStore {
    var users: seq<User>

    constructor()
      ensures users == Seed
    {
      users := Seed;
    }

    /** `userApi.getUsers(q)`; the search and the two filters narrow the list in turn. */
    method GetUsers(q: Query) returns (r: UserPage)
      ensures r == Listed(users, q)
    {
      var page := Pick(q.page, DefaultPage);
      var perPage := Pick(q.perPage, DefaultPerPage);
      var filtered := FilterUsers(users, q);
      var total := |filtered|;
      var totalPages := PageCount(total, perPage);
      var start := (page - 1) * perPage;
      var end := start + perPage;
      r := UserPage(Slice(filtered, start, end), Pagination(total, totalPages, page, perPage));
    }

    /** `userApi.getUser(id)` */
    method GetUser(id: int) returns (r: Result<User>)
      ensures r.Error? <==> forall k :: 0 <= k < |users| ==> users[k].id != id
      ensures r.Error? ==> r.message == "User not found"
      ensures r.Ok? ==> r.value == users[IndexOfId(users, id)]
    {
      var index := IndexOfId(users, id);
      if index == -1 {
        return Error("User not found");
      }
      return Ok(users[index]);
    }

    /** `userApi.createUser(data)` at time `now`. */
    method CreateUser(data: NewUser, now: string) returns (newUser: User)
      modifies this
      ensures newUser == Created(|old(users)|, data, now)
      ensures users == old(users) + [newUser]
    {
      newUser := Created(|users|, data, now);
      users := users + [newUser];
    }

    /** `userApi.updateUser(id, patch)` */
    method UpdateUser(id: int, patch: Patch) returns (r: Result<User>)
      modifies this
      ensures IndexOfId(old(users), id) == -1 ==> r == Error("User not found") && users == old(users)
      ensures IndexOfId(old(users), id) >= 0 ==>
        && r == Ok(Merge(old(users)[IndexOfId(old(users), id)], patch))
        && users == UpdatedStore(old(users), id, patch)
    {
      var index := IndexOfId(users, id);
      if index == -1 {
        return Error("User not found");
      }
      var updated := Merge(users[index], patch);
      assert users[..index] + [updated] + users[index + 1..] == users[index := updated];
      users := users[..index] + [updated] + users[index + 1..];
      return Ok(updated);
    }

    /** `userApi.deleteUser(id)` */
    method DeleteUser(id: int) returns (r: Result<bool>)
      modifies this
      ensures IndexOfId(old(users), id) == -1 ==> r == Error("User not found") && users == old(users)
      ensures IndexOfId(old(users), id) >= 0 ==> r == Ok(true) && users == Deleted(old(users), id)
    {
      var index := IndexOfId(users, id);
      if index == -1 {
        return Error("User not found");
      }
      users := Filter(users, (u: User) => u.id != id);
      return Ok(true);
    }
  }
}
