/** `UsersService` over the users table and the cache. Listing builds its
    filter options but reads through one cache entry whose key never depends
    on the query; `update` reports an absent id without throwing; `remove`
    throws for an absent id and evicts the listing from the cache.
    Failures of the cache and of the delete statement are inputs. */
module UsersService {
  import opened Common
  import opened Query
  import opened Exceptions
  import Ability

  /** A row of the users table; the password, phone, verification and reset
      columns are not modelled. */
  datatype User = User(id: int, email: string, firstName: string, lastName: string, role: Ability.Role)

  /** `PartialType(CreateUserDto)` restricted to the modelled columns. */
  datatype UpdateUserDto = UpdateUserDto(email: Option<string>, firstName: Option<string>, lastName: Option<string>, role: Option<Ability.Role>)

  /** The query after the validation pipe has applied its defaults. */
  datatype FindAllUsersDto = FindAllUsersDto(
    search: Option<string>, role: Option<Ability.Role>, sortBy: Option<string>, sortOrder: SortOrder,
    limit: int, offset: int)

  /** `{ success, message, data?: { id } }`. */
  datatype ApiResponse = ApiResponse(success: bool, message: string, data: Option<int>)

  /** The one cache key every listing reads and writes. */
  const UsersCacheKey := "users"

  const UserUpdated := "User updated successfully"
  const UserDeleted := "User deleted successfully"
  const FailedToDeleteUser := "Failed to delete user"

  function UserNotFound(id: int): string {
    "User with ID " + NumberText(id) + " not found"
  }

  /** `repository.update(id, dto)` on one row: the given columns change, the others stay. */
  function ApplyUpdate(u: User, dto: UpdateUserDto): (r: User)
    ensures r.id == u.id
    ensures r.email == dto.email.GetOr(u.email) && r.firstName == dto.firstName.GetOr(u.firstName)
    ensures r.lastName == dto.lastName.GetOr(u.lastName) && r.role == dto.role.GetOr(u.role)
  {
    User(u.id, dto.email.GetOr(u.email), dto.firstName.GetOr(u.firstName), dto.lastName.GetOr(u.lastName), dto.role.GetOr(u.role))
  }

  /** The condition object gives `column` exactly `constraint`. */
  predicate Constrains(c: Condition, column: string, constraint: Constraint) {
    column in c && c[column] == constraint
  }

  /** The options `findAll` builds: a search makes `where` a disjunction of
      email, first-name and last-name matches; a role is added to every
      condition object; an empty `where` is dropped. `sortBy` and
      `sortOrder` are read but never used, so `order` stays empty. */
  function FindOptionsFor(query: FindAllUsersDto): (options: FindOptions)
    ensures options.take == query.limit && options.skip == query.offset
    ensures options.order == map[]
    ensures TruthyText(query.search) ==>
      && options.where.Some? && options.where.value.AnyOf?
      && |Disjuncts(options.where)| == 3
      && Constrains(Disjuncts(options.where)[0], "email", Like(Contains(query.search.value)))
      && Constrains(Disjuncts(options.where)[1], "firstName", Like(Contains(query.search.value)))
      && Constrains(Disjuncts(options.where)[2], "lastName", Like(Contains(query.search.value)))
      && Disjuncts(options.where)[0].Keys - {"role"} == {"email"}
      && Disjuncts(options.where)[1].Keys - {"role"} == {"firstName"}
      && Disjuncts(options.where)[2].Keys - {"role"} == {"lastName"}
    ensures !TruthyText(query.search) && query.role.Some? ==>
      options.where == Some(Single(map["role" := EqualsRole(query.role.value)]))
    ensures options.where.None? <==> !TruthyText(query.search) && query.role.None?
    ensures !TruthyText(query.search) ==> options.where.None? || options.where.value.Single?
    ensures forall c :: c in Disjuncts(options.where) ==>
      (query.role.Some? ==> Constrains(c, "role", EqualsRole(query.role.value))) &&
      (query.role.None? ==> "role" !in c)
  {
    var pattern := Contains(query.search.GetOr(""));
    var searched :=
      if TruthyText(query.search)
      then AnyOf([map["email" := Like(pattern)], map["firstName" := Like(pattern)], map["lastName" := Like(pattern)]])
      else Single(map[]);
    var where := if query.role.Some? then Conjoin(searched, "role", EqualsRole(query.role.value)) else searched;
    DropEmptyWhere(FindOptions(Some(where), map[], query.limit, query.offset))
  }

  /** What reading the listing through the cache produces: the list
      returned, the cache afterwards, and whether the database was queried. */
  datatype CacheRead = CacheRead(users: seq<User>, cache: map<string, seq<User>>, queried: bool)

  /** The cache protocol of `findAll`. A present entry is a hit (an empty list
      is truthy, so it counts) unless the read fails; a failed read is
      treated as a miss. On a miss the database result is returned and
      written back, unless the write fails. */
  function ReadThrough(cache: map<string, seq<User>>, getFails: bool, setFails: bool, dbResult: seq<User>): (r: CacheRead)
    ensures r.queried <==> getFails || UsersCacheKey !in cache
    ensures !r.queried ==> r.users == cache[UsersCacheKey] && r.cache == cache
    ensures r.queried ==> r.users == dbResult
    ensures r.queried && setFails ==> r.cache == cache
    ensures r.queried && !setFails ==> UsersCacheKey in r.cache && r.cache[UsersCacheKey] == dbResult
    ensures forall k :: k != UsersCacheKey ==> (k in r.cache <==> k in cache) && (k in cache ==> r.cache[k] == cache[k])
  {
    if !getFails && UsersCacheKey in cache then CacheRead(cache[UsersCacheKey], cache, false)
    else if setFails then CacheRead(dbResult, cache, true)
    else CacheRead(dbResult, cache[UsersCacheKey := dbResult], true)
  }

  class UsersService {
    var users: map<int, User>
    var cache: map<string, seq<User>>

    ghost predicate Valid()
      reads this
    {
      forall id :: id in users ==> users[id].id == id
    }

    constructor ()
      ensures Valid() && users == map[] && cache == map[]
    {
      users := map[];
      cache := map[];
    }

    /** `findAll`. `getFails` and `setFails` say whether the cache read and
        write fail, `dbResult` stands for what the repository returns for the
        options. `issued` is the options sent to the repository, or None
        when the cache answered. */
    method FindAll(query: FindAllUsersDto, getFails: bool, setFails: bool, dbResult: seq<User>)
      returns (result: seq<User>, issued: Option<FindOptions>)
      modifies this
      ensures users == old(users)
      ensures result == ReadThrough(old(cache), getFails, setFails, dbResult).users
      ensures cache == ReadThrough(old(cache), getFails, setFails, dbResult).cache
      ensures issued.Some? <==> ReadThrough(old(cache), getFails, setFails, dbResult).queried
      ensures issued.Some? ==> issued.value == FindOptionsFor(query)
    {
      var options := FindOptionsFor(query);
      if !getFails && UsersCacheKey in cache {
        return cache[UsersCacheKey], None;
      }
      result, issued := dbResult, Some(options);
      if !setFails {
        cache := cache[UsersCacheKey := dbResult];
      }
    }

    /** `findOne`: NotFoundException for an absent id. The debug write of a
        test entry to the cache is not modelled. */
    method FindOne(id: int) returns (r: Thrown<User>)
      requires Valid()
      ensures id !in users ==> r == Threw(NotFoundException(UserNotFound(id)))
      ensures id in users ==> r == Returned(users[id]) && r.value.id == id
    {
      if id !in users {
        return Threw(NotFoundException(UserNotFound(id)));
      }
      r := Returned(users[id]);
    }

    /** `findByEmail`: some user with that email, or None when there is none. */
    method FindByEmail(email: string) returns (r: Option<User>)
      ensures r.None? <==> forall id :: id in users ==> users[id].email != email
      ensures r.Some? ==> r.value.email == email && exists id :: id in users && users[id] == r.value
    {
      if id :| id in users && users[id].email == email {
        r := Some(users[id]);
      } else {
        r := None;
      }
    }

    /** `update`: an absent id is answered with `success: false` and changes
        nothing; otherwise the row is updated. The cache is never touched. */
    method Update(id: int, dto: UpdateUserDto) returns (r: ApiResponse)
      requires Valid()
      modifies this
      ensures Valid() && cache == old(cache)
      ensures id !in old(users) ==> r == ApiResponse(false, UserNotFound(id), None) && users == old(users)
      ensures id in old(users) ==>
        r == ApiResponse(true, UserUpdated, None) && users == old(users)[id := ApplyUpdate(old(users)[id], dto)]
    {
      if id !in users {
        return ApiResponse(false, UserNotFound(id), None);
      }
      users := users[id := ApplyUpdate(users[id], dto)];
      r := ApiResponse(true, UserUpdated, None);
    }

    /** `remove`: NotFoundException for an absent id. Otherwise the row is
        deleted and the listing evicted; a failing delete changes nothing,
        and a failing eviction, caught by the same handler, reports failure
        although the row is already gone. */
    method Remove(id: int, deleteFails: bool, evictFails: bool) returns (r: Thrown<ApiResponse>)
      requires Valid()
      modifies this
      ensures Valid()
      ensures id !in old(users) ==>
        r == Threw(NotFoundException(UserNotFound(id))) && users == old(users) && cache == old(cache)
      ensures id in old(users) && deleteFails ==>
        r == Returned(ApiResponse(false, FailedToDeleteUser, None)) && users == old(users) && cache == old(cache)
      ensures id in old(users) && !deleteFails && evictFails ==>
        r == Returned(ApiResponse(false, FailedToDeleteUser, None)) && users == old(users) - {id} && cache == old(cache)
      ensures id in old(users) && !deleteFails && !evictFails ==>
        && r == Returned(ApiResponse(true, UserDeleted, Some(id)))
        && users == old(users) - {id} && cache == old(cache) - {UsersCacheKey}
    {
      if id !in users {
        return Threw(NotFoundException(UserNotFound(id)));
      }
      if deleteFails {
        return Returned(ApiResponse(false, FailedToDeleteUser, None));
      }
      users := users - {id};
      if evictFails {
        return Returned(ApiResponse(false, FailedToDeleteUser, None));
      }
      cache := cache - {UsersCacheKey};
      r := Returned(ApiResponse(true, UserDeleted, Some(id)));
    }
  }

  /** Two listings with the same search, role and page get the same options,
      whatever they ask about sorting. */
  lemma SortingIsIgnored(q1: FindAllUsersDto, q2: FindAllUsersDto)
    requires q1.search == q2.search && q1.role == q2.role && q1.limit == q2.limit && q1.offset == q2.offset
    ensures FindOptionsFor(q1) == FindOptionsFor(q2)
  {
  }

  /** Once a listing has been written to the cache, every later listing
      whose read succeeds returns it, whatever the database now holds and
      whatever that listing's filters are. */
  lemma CachedListingIsServedToEveryQuery(cache: map<string, seq<User>>, getFails: bool, first: seq<User>, later: seq<User>, setFails: bool)
    ensures var written := ReadThrough(cache, getFails, false, first);
      ReadThrough(written.cache, false, setFails, later).users == written.users
    ensures var written := ReadThrough(cache, getFails, false, first);
      !ReadThrough(written.cache, false, setFails, later).queried
  {
  }

  /** After a successful eviction the next listing whose read succeeds goes
      to the database and caches what it gets. */
  lemma EvictionForcesFreshListing(cache: map<string, seq<User>>, dbResult: seq<User>)
    ensures ReadThrough(cache - {UsersCacheKey}, false, false, dbResult).queried
    ensures ReadThrough(cache - {UsersCacheKey}, false, false, dbResult).users == dbResult
    ensures ReadThrough(cache - {UsersCacheKey}, false, false, dbResult).cache == cache[UsersCacheKey := dbResult]
  {
    assert (cache - {UsersCacheKey})[UsersCacheKey := dbResult] == cache[UsersCacheKey := dbResult];
  }
}
