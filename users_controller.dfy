/** `UsersController`: the policies its routes declare for the class-level
    `PoliciesGuard`, the page and limit defaults of `findAll`, and the error
    mapping of `remove`. */
module UsersController {
  import opened Common
  import opened Ability
  import opened Policies
  import opened Exceptions
  import opened Pagination
  import UsersService

  datatype Route = VerifyEmail | FindAll | FindOne | UpdateUser | RemoveUser

  /** The `@CheckPolicies` handlers of each route; routes without the
      decorator have no metadata. */
  function DeclaredPolicies(route: Route): (declared: Option<seq<PolicyHandler>>)
    ensures declared.None? <==> route == VerifyEmail || route == FindOne
    ensures route == FindAll ==> declared == Some([CanPolicy(Read, UserSubject)])
    ensures route == UpdateUser ==> declared == Some([CanPolicy(Update, UserSubject)])
    ensures route == RemoveUser ==> declared == Some([CanPolicy(Delete, UserSubject)])
  {
    match route
    case VerifyEmail => None
    case FindAll => Some([CanPolicy(Read, UserSubject)])
    case FindOne => None
    case UpdateUser => Some([CanPolicy(Update, UserSubject)])
    case RemoveUser => Some([CanPolicy(Delete, UserSubject)])
  }

  /** Whether the guard lets the user reach the route. The path id of
      `PATCH :id` and `DELETE :id` is no input to it. */
  function Admits(route: Route, user: Requester): bool {
    CanActivate(DeclaredPolicies(route), user)
  }

  /** Listing users: ADMIN and STAFF pass, CUSTOMER is refused. */
  lemma ListingUsersNeedsStaff(user: Requester)
    ensures Admits(FindAll, user) <==> user.role != Customer
  {
    SinglePolicyMatchesTable(Read, UserSubject, user);
  }

  /** Updating a user: the type-level check lets ADMIN and every CUSTOMER
      through, whichever user the path names, and refuses STAFF. */
  lemma UpdatingUsersSkipsOwnership(user: Requester)
    ensures Admits(UpdateUser, user) <==> user.role != Staff
  {
    SinglePolicyMatchesTable(Update, UserSubject, user);
  }

  /** Deleting a user: ADMIN only. */
  lemma RemovingUsersNeedsAdmin(user: Requester)
    ensures Admits(RemoveUser, user) <==> user.role == Admin
  {
    SinglePolicyMatchesTable(Delete, UserSubject, user);
  }

  /** `GET :id` and `POST verify-email` declare no policy: the policies guard
      passes every requester the JWT guard before it has authenticated. */
  lemma UndeclaredRoutesAdmitEveryone(user: Requester)
    ensures Admits(FindOne, user) && Admits(VerifyEmail, user)
  {
    NoHandlersAllow(DeclaredPolicies(FindOne), user);
  }

  /** `findAll`'s `{ page = 1, limit = 10 }`: a value given in the query is
      kept, an absent one takes its default. */
  function ListPagination(page: Option<int>, limit: Option<int>): (p: PaginationDto)
    ensures p.page == page.GetOr(DefaultPage) && p.limit == limit.GetOr(DefaultLimit)
  {
    PaginationDto(page.GetOr(1), limit.GetOr(10))
  }

  /** Without query values the controller asks for the DTO's own defaults. */
  lemma ListDefaultsAgreeWithDto()
    ensures ListPagination(None, None) == DefaultPagination
    ensures Valid(ListPagination(None, None))
  {
  }

  /** `remove`'s try/catch: a result passes through, a NotFoundException is
      rethrown unchanged, and any other error becomes
      `NotFoundException('Failed to delete user')`. */
  function RemoveResponse<T>(serviceResult: Thrown<T>): (r: Thrown<T>)
    ensures serviceResult.Returned? ==> r == serviceResult
    ensures serviceResult.Threw? && IsNotFoundException(serviceResult.error) ==> r == serviceResult
    ensures serviceResult.Threw? && !IsNotFoundException(serviceResult.error) ==>
      r == Threw(NotFoundException(UsersService.FailedToDeleteUser))
  {
    match serviceResult
    case Returned(_) => serviceResult
    case Threw(e) => if IsNotFoundException(e) then serviceResult else Threw(NotFoundException(UsersService.FailedToDeleteUser))
  }

  /** Every failure the service throws leaves the controller as a
      NotFoundException, so the exception filter answers 404. Failures the
      service reports in its result are not thrown and pass unchanged. */
  lemma RemoveFailuresAre404<T>(serviceResult: Thrown<T>, path: string, httpMethod: string)
    requires RemoveResponse(serviceResult).Threw?
    ensures IsNotFoundException(RemoveResponse(serviceResult).error)
    ensures Catch(RemoveResponse(serviceResult).error, path, httpMethod).statusCode == NotFoundStatus
  {
  }

  /** `DELETE /users/:id` behind the guard: the service's removal seen
      through the controller's try/catch. An absent id reaches the client as
      a 404; a failed delete or a failed eviction is caught by the service
      and answered as an ordinary result with `success: false`. */
  method Remove(service: UsersService.UsersService, id: int, deleteFails: bool, evictFails: bool)
    returns (r: Thrown<UsersService.ApiResponse>)
    requires service.Valid()
    modifies service
    ensures service.Valid()
    ensures id !in old(service.users) ==>
      r == Threw(NotFoundException(UsersService.UserNotFound(id))) && StatusOf(r.error) == NotFoundStatus
    ensures id in old(service.users) && (deleteFails || evictFails) ==>
      r == Returned(UsersService.ApiResponse(false, UsersService.FailedToDeleteUser, None))
    ensures id in old(service.users) && !deleteFails && !evictFails ==>
      r == Returned(UsersService.ApiResponse(true, UsersService.UserDeleted, Some(id)))
    ensures id !in old(service.users) || deleteFails ==>
      service.users == old(service.users) && service.cache == old(service.cache)
    ensures id in old(service.users) && !deleteFails ==> service.users == old(service.users) - {id}
    ensures id in old(service.users) && !deleteFails ==>
      service.cache == if evictFails then old(service.cache) else old(service.cache) - {UsersService.UsersCacheKey}
  {
    var result := service.Remove(id, deleteFails, evictFails);
    r := RemoveResponse(result);
  }
}
