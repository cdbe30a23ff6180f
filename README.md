# Authorization, paging and table services of a NestJS e-commerce API

This project is a Dafny model of the core of a NestJS e-commerce backend. It covers:

- **Authorization.** `AbilityFactory.createForUser` builds CASL rules per role (ADMIN, STAFF, everyone else). A small CASL-style evaluator is written here, because the `@casl/ability` library is not part of this model. `PoliciesGuard` runs the `@CheckPolicies` handlers of a route against a fresh ability. `UsersController` declares which policy each route needs.
- **Paging.** The `PaginationDto` offset and the `meta` block of `PaginatedResponseDto`.
- **Table-backed services.**
  - Carts, orders, payments, products, categories and users are classes holding `map<int, Row>` tables.
  - Orders also hold their items table. Users also hold the cache.
  - Lookups report `NotFound` before `Unauthorized`. Updates change exactly the row they name.
  - Removals delete exactly the row they name. Removing an order also deletes its items, and removing a user also evicts the cached user listing.
  - The `FindManyOptions` that each `findAll` hands to its repository are kept as data (module `Query`). A `where` is one condition object or a list of them, and the list is read as a disjunction. The database never evaluates these options in the model.
- **Error responses.** `AllExceptionsFilter.catch` derives the status and the message of the error response.

Every role other than ADMIN and STAFF gets the customer rules. The three roles are `Ability.Role`.

The validation pipe runs with `transform: true`. So the query DTOs reach the services with their defaults applied: `sortOrder` ASC, `limit` 10, `offset` 0. They are modelled as plain values.

## Model

| member | source | states |
|---|---|---|
| Ability.DetectSubjectType | src/casl/ability.factory.ts:34-36 | an instance's subject type is its entity class, never `all` |
| Ability.LastApplicableRuleDecides | src/casl/ability.factory.ts:34-36 | `can`, the CASL evaluator the built ability is checked with, holds iff some applicable allowing rule is followed by no applicable rule |
| Ability.ConditionedCannotSkipsTypeLevelChecks | src/casl/ability.factory.ts:34-36 | in `can`, a conditioned `cannot` rule is skipped by a type-level check and denies an instance of a relevant type whose field matches |
| Ability.CreateForUser | src/casl/ability.factory.ts:16-37 | every role gets at least one rule, and no rule is a `cannot` rule |
| Ability.CanWithoutCannotRules | src/casl/ability.factory.ts:16-37 | without `cannot` rules an ability allows exactly when some rule applies, so rule order is irrelevant |
| Ability.CreateForUserMatchesTable | src/casl/ability.factory.ts:19-35 | `can` on the built ability agrees, for every role, action and subject (type or instance), with the role table `Permitted` |
| Ability.AdminMayDoAnything | src/casl/ability.factory.ts:19-20 | ADMIN may perform every action on every subject |
| Ability.StaffMayReadAnything | src/casl/ability.factory.ts:21-23 | STAFF may read every subject |
| Ability.StaffWrites | src/casl/ability.factory.ts:21-24 | STAFF creates and updates exactly products and orders, and never deletes or manages |
| Ability.CustomerReads | src/casl/ability.factory.ts:27 | CUSTOMER reads exactly products and reviews |
| Ability.CustomerCreates | src/casl/ability.factory.ts:28 | CUSTOMER creates exactly reviews and orders |
| Ability.CustomerUpdatesOwnUserOnly | src/casl/ability.factory.ts:29 | CUSTOMER may update a user instance iff its id is theirs |
| Ability.CustomerChangesOwnReviewOnly | src/casl/ability.factory.ts:30-31 | CUSTOMER may update or delete a review instance iff its `userId` is theirs |
| Ability.CustomerTypeLevelSkipsConditions | src/casl/ability.factory.ts:29-31 | a check against the User or Review type ignores the ownership conditions and passes |
| Ability.CustomerDefaultDeny | src/casl/ability.factory.ts:25-32 | CUSTOMER deletes nothing but reviews, manages nothing, and never reads users or orders |
| Ability.OnlyAdminDeletesUsers | src/casl/ability.factory.ts:19-32 | deleting the User type is allowed iff the role is ADMIN |
| Policies.ExecPolicyHandler | src/common/guards/policies.guard.ts:29-34 | a function handler is called with the ability, a handler object's `handle` is called otherwise |
| Policies.DeclaredHandlers | src/common/guards/policies.guard.ts:16-19 | missing policy metadata reads as no handlers, present metadata as itself |
| Policies.Every | src/common/guards/policies.guard.ts:24-26 | `every` is true iff every handler returns true |
| Policies.EvaluatedHandlers | src/common/guards/policies.guard.ts:24-26 | handlers run in order up to and including the first that fails, or all of them when all pass |
| Policies.CanActivate | src/common/guards/policies.guard.ts:15-27 | the guard admits iff every declared handler accepts the ability built for the user; no metadata counts as no handlers |
| Policies.NoHandlersAllow | src/common/guards/policies.guard.ts:16-19 | a route with no or empty policy metadata admits everyone |
| Policies.SinglePolicyMatchesTable | src/common/guards/policies.guard.ts:15-34 | a route guarded by one `can(a, T)` handler admits exactly the users the role table permits on type T |
| UsersController.DeclaredPolicies | src/users/users.controller.ts:37-66 | `findAll`, `update` and `remove` declare one `can(Read/Update/Delete, User)` handler each; `verifyEmail` and `findOne` declare none |
| UsersController.ListingUsersNeedsStaff | src/users/users.controller.ts:37-40 | `GET /users` admits ADMIN and STAFF and refuses CUSTOMER |
| UsersController.UpdatingUsersSkipsOwnership | src/users/users.controller.ts:55-60 | `PATCH /users/:id` admits ADMIN and every CUSTOMER whatever the id, and refuses STAFF |
| UsersController.RemovingUsersNeedsAdmin | src/users/users.controller.ts:63-66 | `DELETE /users/:id` admits ADMIN only |
| UsersController.UndeclaredRoutesAdmitEveryone | src/users/users.controller.ts:30-53 | `GET /users/:id` and `POST /users/verify-email` pass the policies guard for every authenticated requester |
| UsersController.ListPagination | src/users/users.controller.ts:42-45 | a page or limit given in the query is kept, an absent one takes 1 or 10 |
| UsersController.ListDefaultsAgreeWithDto | src/users/users.controller.ts:42-45 | the controller's defaults equal the DTO defaults and satisfy the DTO's declared bounds |
| UsersController.RemoveResponse | src/users/users.controller.ts:66-76 | results and NotFoundExceptions pass through; any other error becomes NotFoundException('Failed to delete user') |
| UsersController.RemoveFailuresAre404 | src/users/users.controller.ts:66-76 | every failure the service throws reaches the client as a 404 |
| UsersController.Remove | src/users/users.controller.ts:63-76 | end to end: an absent id is a NotFoundException (404); a failed delete or eviction is a normal result with `success: false`; otherwise success with the id; the users table loses exactly the row unless absent or the delete fails, and the cached listing is evicted only on full success |
| Pagination.Skip | src/common/dto/pagination.dto.ts:18-20 | the offset of a valid page is non-negative, and 0 on page 1 |
| Pagination.TotalPages | src/common/dto/pagination.dto.ts:40 | the ceiling of total/limit: 0 for no rows, otherwise the least page count whose pages hold all rows |
| Pagination.Paginate | src/common/dto/pagination.dto.ts:34-44 | the response carries the data unchanged, echoes total, page and limit, and sets totalPages, hasNextPage and hasPreviousPage |
| Pagination.HasNextPageIffBeforeLastPage | src/common/dto/pagination.dto.ts:40-41 | `hasNextPage` holds iff page < totalPages |
| Pagination.LastPageHasNoNext | src/common/dto/pagination.dto.ts:40-42 | the last page of a non-empty result has no next page, and it has a previous page iff it is not page 1 |
| Pagination.NonEmptyPageIffWithinCount | src/common/dto/pagination.dto.ts:18-20 | for a valid page and a non-empty result, the page's offset is below `total` iff the page is within `totalPages` |
| Exceptions.StatusOf | src/common/filters/all-exceptions.filter.ts:23-26 | an HTTP exception answers with its own status, anything else with 500 |
| Exceptions.MessageOf | src/common/filters/all-exceptions.filter.ts:28-41 | a string body verbatim; an object's truthy `message`, else its JSON; otherwise 'Internal server error' |
| Exceptions.Catch | src/common/filters/all-exceptions.filter.ts:18-58 | the error response carries the derived status and message and the request's path and method |
| Exceptions.ServiceExceptionsReachClient | src/common/filters/all-exceptions.filter.ts:23-49 | a NotFound or Unauthorized exception with a non-empty message reaches the client as 404 or 401 with that message |
| Exceptions.NonHttpErrorsAreInternal | src/common/filters/all-exceptions.filter.ts:23-41 | every non-HTTP error becomes 500 'Internal server error' |
| Query.Conjoin | src/products/products.service.ts:35-41 | every condition object gains the column and keeps the rest, and the number of condition objects is unchanged |
| Query.WhereIsEmpty | src/products/products.service.ts:66-68 | a `where` is empty iff it is an object without keys or an empty list |
| Query.DropEmptyWhere | src/products/products.service.ts:66-71 | `where` is removed exactly when it is empty; order, take and skip are kept |
| Query.SortOrderFor | src/products/products.service.ts:61-65 | order is `{sortBy: sortOrder}` when `sortBy` is given, `{createdAt: DESC}` otherwise |
| Query.ConjoinedIsNotEmpty | src/products/products.service.ts:35-71 | an applied filter never leaves an empty `where`, so it is never dropped |
| Cart.ApplyUpdate | src/cart/cart.service.ts:85 | the given columns change, the others stay |
| Cart.Access | src/cart/cart.service.ts:60-74 | an absent id is NotFound, another user's cart is Unauthorized, an own cart is returned |
| Cart.CartService.Create | src/cart/cart.service.ts:17-20 | the stored cart belongs to the authenticated user, not to the DTO's `userId` |
| Cart.CartService.FindAll | src/cart/cart.service.ts:23-56 | a truthy `userId` filters, 0 or none drops `where`; sort and page as requested |
| Cart.CartService.FindOne | src/cart/cart.service.ts:60-74 | the result is the existence-then-ownership guard `Access` |
| Cart.CartService.Update | src/cart/cart.service.ts:77-87 | a refused update changes nothing; an allowed one changes that cart only and returns it |
| Cart.CartService.Remove | src/cart/cart.service.ts:90-99 | a refused removal changes nothing; an allowed one deletes that cart only |
| Cart.UpdateCanHandOverCart | src/cart/cart.service.ts:77-87 | an update carrying another `userId` hands the cart over, and the former owner is refused afterwards |
| Cart.AbsentCartIsNotFoundForAll | src/cart/cart.service.ts:60-63 | an absent cart is NotFound for every requester |
| Orders.UpperChar | src/orders/orders.service.ts:25 | upper-casing maps letters and digits to upper-case letters and digits |
| Orders.UpperCase | src/orders/orders.service.ts:25 | upper-casing keeps the length and works character by character |
| Orders.Merge | src/orders/orders.service.ts:53 | the given columns override, the rest and the order number stay |
| Orders.Access | src/orders/orders.service.ts:34-45 | NotFound for an absent id, then Unauthorized for another user's order |
| Orders.WithoutItemsOf | src/orders/orders.service.ts:63-65 | exactly the items of the order are removed |
| Orders.OrdersService.Create | src/orders/orders.service.ts:22-28 | the order belongs to the authenticated user and its number is the generated text upper-cased |
| Orders.OrdersService.FindAll | src/orders/orders.service.ts:30-32 | every stored order and nothing else is returned |
| Orders.OrdersService.FindOne | src/orders/orders.service.ts:34-45 | the result is `Access` |
| Orders.OrdersService.Update | src/orders/orders.service.ts:47-55 | NotFound changes nothing; otherwise the DTO is merged whoever owns the order |
| Orders.OrdersService.Remove | src/orders/orders.service.ts:57-68 | NotFound changes nothing; otherwise the order and exactly its items are deleted |
| Orders.OrderNumberShape | src/orders/orders.service.ts:25 | a generated order number is ten upper-case letters or digits |
| Orders.RemovalLeavesNoOrphans | src/orders/orders.service.ts:63-67 | after a removal no item refers to the order, and every other order's items remain |
| Payments.ApplyUpdate | src/payments/payments.service.ts:58 | the given columns change, the others stay |
| Payments.Access | src/payments/payments.service.ts:33-47 | NotFound for an absent id, Unauthorized when the order is missing or belongs to another user |
| Payments.PaymentsService.Create | src/payments/payments.service.ts:20-24 | the DTO is saved as given, and `userId` has no effect |
| Payments.PaymentsService.FindAll | src/payments/payments.service.ts:27-29 | every stored payment and nothing else is returned |
| Payments.PaymentsService.FindOne | src/payments/payments.service.ts:33-47 | the result is `Access` |
| Payments.PaymentsService.Update | src/payments/payments.service.ts:50-60 | NotFound changes nothing; otherwise the DTO is applied for any requester |
| Payments.PaymentsService.Remove | src/payments/payments.service.ts:63-72 | NotFound changes nothing; otherwise that payment is deleted for any requester |
| Payments.PaymentOwnershipFollowsOrder | src/payments/payments.service.ts:42-44 | a payment without an order is refused to all; otherwise it is readable iff the requester owns the order |
| Products.PriceFilter | src/products/products.service.ts:42-60 | a price constraint exists iff a bound is given (0 included): Between for both, ≥ for min only, ≤ for max only |
| Products.FiltersApplied | src/products/products.service.ts:29-60 | search, category and price stages give a name/description disjunction or one object, each carrying exactly the given filters and no other column |
| Products.ApplyUpdate | src/products/products.service.ts:84 | the given columns change, the others stay |
| Products.ProductsService.Create | src/products/products.service.ts:17-19 | the DTO is saved, active unless it says otherwise |
| Products.ProductsService.FindAll | src/products/products.service.ts:21-73 | search gives a name/description disjunction, otherwise a single object; category and price are in every condition and no other column is; `where` is dropped iff no filter |
| Products.ProductsService.FindOne | src/products/products.service.ts:75-81 | NotFound for an absent id, the stored product otherwise |
| Products.ProductsService.Update | src/products/products.service.ts:83-85 | no existence check; an absent id leaves the table unchanged |
| Products.ProductsService.Remove | src/products/products.service.ts:87-89 | exactly that id is gone afterwards, whether or not it existed |
| Categories.ApplyUpdate | src/categories/categories.service.ts:58 | the given columns change, the others stay |
| Categories.CategoriesService.Create | src/categories/categories.service.ts:16-18 | the built entity carries the DTO, has no id and is not stored |
| Categories.CategoriesService.FindAll | src/categories/categories.service.ts:20-47 | search gives a one-element name disjunction, no search drops `where`; sort and page as requested |
| Categories.CategoriesService.FindOne | src/categories/categories.service.ts:49-55 | NotFound iff the id is absent, otherwise the category with that id |
| Categories.CategoriesService.Update | src/categories/categories.service.ts:57-59 | no existence check; an absent id leaves the table unchanged |
| Categories.CategoriesService.Remove | src/categories/categories.service.ts:61-63 | exactly that id is gone afterwards |
| UsersService.ApplyUpdate | src/users/users.service.ts:104 | the given columns change, the others stay |
| UsersService.FindOptionsFor | src/users/users.service.ts:26-53 | search gives a three-way disjunction whose objects match email, firstName and lastName alone (plus the role); without search `where` is one object or absent; a role is in every condition; `order` stays empty; `where` is dropped iff no filter |
| UsersService.ReadThrough | src/users/users.service.ts:55-77 | a present key is a hit unless the read fails; a miss returns the database result and caches it unless the write fails |
| UsersService.UsersService.FindAll | src/users/users.service.ts:26-78 | the listing follows `ReadThrough`, and the options go to the database only on a miss |
| UsersService.UsersService.FindOne | src/users/users.service.ts:80-90 | NotFoundException('User with ID n not found') for an absent id |
| UsersService.UsersService.FindByEmail | src/users/users.service.ts:92-94 | some user with that email, or None iff there is none |
| UsersService.UsersService.Update | src/users/users.service.ts:96-109 | an absent id gives `success: false` and changes nothing; otherwise the row is updated; the cache is untouched |
| UsersService.UsersService.Remove | src/users/users.service.ts:110-134 | an absent id throws NotFound; a failed delete changes nothing; a failed eviction reports failure although the row is gone; otherwise the row is deleted and the listing evicted |
| UsersService.SortingIsIgnored | src/users/users.service.ts:27-33 | listings differing only in `sortBy`/`sortOrder` issue the same options |
| UsersService.CachedListingIsServedToEveryQuery | src/users/users.service.ts:55-64 | once a listing is cached, every later listing with a successful read returns it, whatever its filters and the database |
| UsersService.EvictionForcesFreshListing | src/users/users.service.ts:119-121 | after eviction, the next listing queries the database and caches the result |

## Left out

- The CASL library itself: only the behaviour the rules use is modelled. That is rule matching with `manage` and `all`, the last applicable rule deciding, `cannot` rules, equality conditions on instances, and class-level checks that do not evaluate conditions (a conditioned `can` rule passes them, a conditioned `cannot` rule is skipped).
- Authentication (JWT strategy, `auth.service.ts`), bcrypt hashing, email sending, logging and the throttler: these are effects or foreign calls.
- The reviews service: it passes its calls straight to the repository and makes no existence or ownership checks of its own.
- The database:
  - SQL evaluation of the `FindManyOptions` is not modelled, so the rows returned by `find` are not part of this model. `UsersService.FindAll` takes the database result as a parameter.
  - Relation loading is not modelled. The orders table stands for a payment's loaded `order`.
  - Timestamps are not modelled, and neither are TypeORM's errors (an empty `update`, a unique-email violation).
- Decimal money columns are integers. Columns irrelevant to the behaviour (images, addresses, the order status, passwords, phone, tokens) are omitted. The payment status enum is kept as text.
- The JSON `metadata` column of payments is not modelled, so `PaymentsService.create` and `update` do not show it being saved.
- Cart.CartService.Create: the `items` of `CreateCartDto` are not modelled; `cart.service.ts:17-20` spreads them into `repository.create`, but the `items` relation of the cart entity has no cascade, so `save` does not persist them.
- Products.ProductsService.Create, Payments.PaymentsService.Create, Cart.CartService.Create, Orders.OrdersService.Create: the key the database assigns is a parameter `newId`. The random order number is a parameter, constrained to what the generator produces.
- UsersService.UsersService.FindAll: cache entry TTLs and expiry are not modelled. Cache read and write failures are boolean inputs.
- UsersService.UsersService.FindOne: the debug write and read of a test cache entry are not modelled.
- `UsersService.create` is not part of this model; it is a plain save whose password is hashed by an entity hook.
- The `update-*.dto` files, the category entity and the role enum are not part of this model.
  - Updates are modelled as `PartialType` of the create DTOs.
  - A category has a name and an optional description.
  - Roles are compared as enum values.
- The `findAllPaginated` and `verifyEmail` service methods called by `users.controller.ts` are not defined in the users service, so only the controller's pagination defaults and policies are modelled.
- UsersController.ListPagination: `Number(page)` on text that is not a number (NaN) and on fractional values is not modelled; page and limit are integers.
- Pagination.TotalPages: requires `limit >= 1`, the bound `PaginationDto` declares. It is assumed here: the only `PaginationDto` built (in `UsersController.findAll`) gets `Number(limit)` assigned directly and is never validated. A limit of 0 (division by zero) is not modelled.
- Exceptions.MessageOf: an array-valued `message` (as from the validation pipe) is not modelled; a message is text.
- Exceptions.Catch: the timestamp field of the error response, the logging call and the response writing are not modelled.
