/** `CartService` over the carts table. A cart is looked up by id first and
    then checked against the requester: an absent id is NotFound, another
    user's cart is Unauthorized, and the service grants no exemption to any
    role. */
module Cart {
  import opened Common
  import opened Query

  /** A row of the carts table (its items live in another table). */
  datatype Cart = Cart(id: int, userId: int, total: int)

  datatype CreateCartDto = CreateCartDto(userId: int, total: Option<int>)

  /** `PartialType(CreateCartDto)`: every column optional. */
  datatype UpdateCartDto = UpdateCartDto(userId: Option<int>, total: Option<int>)

  /** The query after the validation pipe has applied its defaults. */
  datatype FindAllCartsDto = FindAllCartsDto(userId: Option<int>, sortBy: Option<string>, sortOrder: SortOrder, limit: int, offset: int)

  /** `repository.update(id, dto)` on one row: the given columns change, the others stay. */
  function ApplyUpdate(cart: Cart, dto: UpdateCartDto): (r: Cart)
    ensures r.id == cart.id
    ensures dto.userId.Some? ==> r.userId == dto.userId.value
    ensures dto.userId.None? ==> r.userId == cart.userId
    ensures dto.total.Some? ==> r.total == dto.total.value
    ensures dto.total.None? ==> r.total == cart.total
  {
    Cart(cart.id, dto.userId.GetOr(cart.userId), dto.total.GetOr(cart.total))
  }

  /** The guard shared by `findOne`, `update` and `remove`: existence first,
      then ownership. */
  function Access(carts: map<int, Cart>, id: int, userId: int): (r: Outcome<Cart>)
    ensures id !in carts <==> r == NotFound
    ensures r == Unauthorized <==> id in carts && carts[id].userId != userId
    ensures r.Ok? ==> id in carts && r.value == carts[id] && r.value.userId == userId
  {
    if id !in carts then NotFound
    else if carts[id].userId != userId then Unauthorized
    else Ok(carts[id])
  }

  class CartService {
    var carts: map<int, Cart>

    ghost predicate Valid()
      reads this
    {
      forall id :: id in carts ==> carts[id].id == id
    }

    constructor ()
      ensures Valid() && carts == map[]
    {
      carts := map[];
    }

    /** `create`: the stored cart belongs to the authenticated user whatever
        `userId` the DTO carries; `newId` is the key the database assigns. */
    method Create(dto: CreateCartDto, userId: int, newId: int) returns (cart: Cart)
      requires Valid() && newId !in carts
      modifies this
      ensures Valid()
      ensures cart == Cart(newId, userId, dto.total.GetOr(0))
      ensures carts == old(carts)[newId := cart]
    {
      cart := Cart(newId, userId, dto.total.GetOr(0));
      carts := carts[newId := cart];
    }

    /** `findAll`'s options: filter on `userId` only when it is truthy (0 is
        not), sort by the requested column or newest first, page by `limit`
        and `offset`. */
    method FindAll(query: FindAllCartsDto) returns (options: FindOptions)
      ensures options.take == query.limit && options.skip == query.offset
      ensures options.order == SortOrderFor(query.sortBy, query.sortOrder)
      ensures TruthyNumber(query.userId) ==> options.where == Some(Single(map["userId" := EqualsNumber(query.userId.value)]))
      ensures !TruthyNumber(query.userId) ==> options.where.None?
    {
      options := InitialOptions(query.limit, query.offset);
      if query.userId.Some? && query.userId.value != 0 {
        options := options.(where := Some(Single(map["userId" := EqualsNumber(query.userId.value)])));
      }
      if query.sortBy.Some? && query.sortBy.value != "" {
        options := options.(order := options.order[query.sortBy.value := query.sortOrder]);
      } else {
        options := options.(order := map["createdAt" := Desc]);
      }
      options := DropEmptyWhere(options);
    }

    /** `findOne`. */
    method FindOne(id: int, userId: int) returns (r: Outcome<Cart>)
      ensures r == Access(carts, id, userId)
    {
      if id !in carts {
        return NotFound;
      }
      var cart := carts[id];
      if cart.userId != userId {
        return Unauthorized;
      }
      r := Ok(cart);
    }

    /** `update`: on NotFound or Unauthorized nothing changes; otherwise only
        that cart changes and the refreshed row is returned. */
    method Update(id: int, dto: UpdateCartDto, userId: int) returns (r: Outcome<Cart>)
      requires Valid()
      modifies this
      ensures Valid()
      ensures !Access(old(carts), id, userId).Ok? ==> r == Access(old(carts), id, userId) && carts == old(carts)
      ensures Access(old(carts), id, userId).Ok? ==>
        carts == old(carts)[id := ApplyUpdate(old(carts)[id], dto)] && r == Ok(carts[id])
    {
      var found := FindOne(id, userId);
      if !found.Ok? {
        return found;
      }
      carts := carts[id := ApplyUpdate(carts[id], dto)];
      r := Ok(carts[id]);
    }

    /** `remove`: on NotFound or Unauthorized nothing changes; otherwise
        exactly that cart is deleted. */
    method Remove(id: int, userId: int) returns (r: Outcome<()>)
      requires Valid()
      modifies this
      ensures Valid()
      ensures !Access(old(carts), id, userId).Ok? ==>
        carts == old(carts) && (r == NotFound <==> id !in old(carts)) && (r == Unauthorized <==> id in old(carts))
      ensures Access(old(carts), id, userId).Ok? ==> r == Ok(()) && carts == old(carts) - {id}
    {
      var found := FindOne(id, userId);
      if found.NotFound? {
        return NotFound;
      } else if found.Unauthorized? {
        return Unauthorized;
      }
      carts := carts - {id};
      r := Ok(());
    }
  }

  /** An update can hand a cart to another user: `UpdateCartDto` may carry a
      `userId`, and after such an update the former owner is refused. */
  lemma UpdateCanHandOverCart(carts: map<int, Cart>, id: int, owner: int, dto: UpdateCartDto)
    requires Access(carts, id, owner).Ok?
    requires dto.userId.Some? && dto.userId.value != owner
    ensures Access(carts[id := ApplyUpdate(carts[id], dto)], id, owner) == Unauthorized
    ensures Access(carts[id := ApplyUpdate(carts[id], dto)], id, dto.userId.value).Ok?
  {
  }

  /** Whether a cart exists cannot be learned from someone else's refusal
      pattern: an absent id is NotFound for every requester. */
  lemma AbsentCartIsNotFoundForAll(carts: map<int, Cart>, id: int, a: int, b: int)
    requires id !in carts
    ensures Access(carts, id, a) == Access(carts, id, b) == NotFound
  {
  }
}
