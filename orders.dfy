/** `OrdersService` over the orders and order-items tables. Only `findOne`
    checks ownership; `update` and `remove` act on any existing order. */
module Orders {
  import opened Common

  /** A row of the orders table; money is kept in integral units and the
      address and status columns are not modelled. */
  datatype Order = Order(id: int, orderNumber: string, userId: int, subtotal: int, tax: int, shipping: int, total: int)

  /** A row of the order-items table, linked to its order by `orderId`. */
  datatype OrderItem = OrderItem(id: int, orderId: int, productId: int, quantity: int, price: int)

  datatype CreateOrderDto = CreateOrderDto(userId: int, subtotal: int, tax: int, shipping: int, total: int)

  /** `PartialType(CreateOrderDto)`: every column optional. */
  datatype UpdateOrderDto = UpdateOrderDto(userId: Option<int>, subtotal: Option<int>, tax: Option<int>, shipping: Option<int>, total: Option<int>)

  predicate IsAlphanumeric(c: char) {
    ('0' <= c <= '9') || ('a' <= c <= 'z') || ('A' <= c <= 'Z')
  }

  predicate IsUpperAlphanumeric(c: char) {
    ('0' <= c <= '9') || ('A' <= c <= 'Z')
  }

  /** `toUpperCase` on one ASCII character. */
  function UpperChar(c: char): (u: char)
    ensures IsAlphanumeric(c) ==> IsUpperAlphanumeric(u)
    ensures 'a' <= c <= 'z' ==> u as int == c as int - 32
    ensures !('a' <= c <= 'z') ==> u == c
  {
    if 'a' <= c <= 'z' then (c as int - 32) as char else c
  }

  /** `toUpperCase` on an ASCII string. */
  function UpperCase(s: string): (u: string)
    ensures |u| == |s|
    ensures forall i :: 0 <= i < |s| ==> u[i] == UpperChar(s[i])
  {
    if s == [] then [] else [UpperChar(s[0])] + UpperCase(s[1..])
  }

  /** `ordersRepository.merge(order, dto)`: the given columns override, the others stay. */
  function Merge(order: Order, dto: UpdateOrderDto): (r: Order)
    ensures r.id == order.id && r.orderNumber == order.orderNumber
    ensures r.userId == dto.userId.GetOr(order.userId)
    ensures r.subtotal == dto.subtotal.GetOr(order.subtotal) && r.tax == dto.tax.GetOr(order.tax)
    ensures r.shipping == dto.shipping.GetOr(order.shipping) && r.total == dto.total.GetOr(order.total)
  {
    Order(order.id, order.orderNumber, dto.userId.GetOr(order.userId), dto.subtotal.GetOr(order.subtotal),
      dto.tax.GetOr(order.tax), dto.shipping.GetOr(order.shipping), dto.total.GetOr(order.total))
  }

  /** `findOne`'s guard: existence first, then the order's owner. */
  function Access(orders: map<int, Order>, id: int, userId: int): (r: Outcome<Order>)
    ensures id !in orders <==> r == NotFound
    ensures r == Unauthorized <==> id in orders && orders[id].userId != userId
    ensures r.Ok? ==> id in orders && r.value == orders[id]
  {
    if id !in orders then NotFound
    else if orders[id].userId != userId then Unauthorized
    else Ok(orders[id])
  }

  /** The items table once the items of one order are removed. */
  function WithoutItemsOf(items: map<int, OrderItem>, orderId: int): (r: map<int, OrderItem>)
    ensures forall k :: k in r ==> k in items && r[k] == items[k] && r[k].orderId != orderId
    ensures forall k :: k in items && items[k].orderId != orderId ==> k in r
  {
    map k | k in items && items[k].orderId != orderId :: items[k]
  }

  class OrdersService {
    var orders: map<int, Order>
    var items: map<int, OrderItem>

    ghost predicate Valid()
      reads this
    {
      && (forall id :: id in orders ==> orders[id].id == id)
      && (forall id :: id in items ==> items[id].id == id)
    }

    constructor ()
      ensures Valid() && orders == map[] && items == map[]
    {
      orders := map[];
      items := map[];
    }

    /** `create`: the order belongs to the authenticated user and its number
        is the generated 10-character alphanumeric string in upper case.
        `generated` stands for the random generator's output and `newId` for
        the key the database assigns; the DTO's items are not saved. */
    method Create(dto: CreateOrderDto, userId: int, generated: string, newId: int) returns (order: Order)
      requires Valid() && newId !in orders
      requires |generated| == 10 && forall i :: 0 <= i < |generated| ==> IsAlphanumeric(generated[i])
      modifies this
      ensures Valid() && items == old(items)
      ensures order.id == newId && order.userId == userId
      ensures order.orderNumber == UpperCase(generated)
      ensures order.subtotal == dto.subtotal && order.tax == dto.tax && order.shipping == dto.shipping && order.total == dto.total
      ensures orders == old(orders)[newId := order]
    {
      order := Order(newId, UpperCase(generated), userId, dto.subtotal, dto.tax, dto.shipping, dto.total);
      orders := orders[newId := order];
    }

    /** `findAll`: every stored order, for any caller. */
    method FindAll() returns (all: set<Order>)
      requires Valid()
      ensures forall id :: id in orders ==> orders[id] in all
      ensures forall o :: o in all ==> o.id in orders && orders[o.id] == o
    {
      all := set id | id in orders :: orders[id];
    }

    /** `findOne`. */
    method FindOne(id: int, userId: int) returns (r: Outcome<Order>)
      ensures r == Access(orders, id, userId)
    {
      if id !in orders {
        return NotFound;
      }
      var order := orders[id];
      if order.userId != userId {
        return Unauthorized;
      }
      r := Ok(order);
    }

    /** `update`: NotFound for an absent id; otherwise the DTO is merged into
        the stored order whoever owns it. */
    method Update(id: int, dto: UpdateOrderDto, userId: int) returns (r: Outcome<Order>)
      requires Valid()
      modifies this
      ensures Valid() && items == old(items)
      ensures id !in old(orders) ==> r == NotFound && orders == old(orders)
      ensures id in old(orders) ==> r == Ok(Merge(old(orders)[id], dto)) && orders == old(orders)[id := r.value]
    {
      if id !in orders {
        return NotFound;
      }
      var merged := Merge(orders[id], dto);
      orders := orders[id := merged];
      r := Ok(merged);
    }

    /** `remove`: NotFound for an absent id; otherwise the order's items are
        removed, then the order, and nothing else changes. */
    method Remove(id: int, userId: int) returns (r: Outcome<()>)
      requires Valid()
      modifies this
      ensures Valid()
      ensures id !in old(orders) ==> r == NotFound && orders == old(orders) && items == old(items)
      ensures id in old(orders) ==>
        r == Ok(()) && orders == old(orders) - {id} && items == WithoutItemsOf(old(items), id)
    {
      if id !in orders {
        return NotFound;
      }
      items := WithoutItemsOf(items, id);
      orders := orders - {id};
      r := Ok(());
    }
  }

  /** A generated order number is ten upper-case letters or digits. */
  lemma OrderNumberShape(generated: string)
    requires |generated| == 10 && forall i :: 0 <= i < |generated| ==> IsAlphanumeric(generated[i])
    ensures |UpperCase(generated)| == 10
    ensures forall i :: 0 <= i < 10 ==> IsUpperAlphanumeric(UpperCase(generated)[i])
  {
    forall i | 0 <= i < 10
      ensures IsUpperAlphanumeric(UpperCase(generated)[i])
    {
      assert UpperCase(generated)[i] == UpperChar(generated[i]);
    }
  }

  /** After a removal no item refers to the removed order, and the items of
      every other order are all still there. */
  lemma RemovalLeavesNoOrphans(items: map<int, OrderItem>, id: int, other: int)
    requires other != id
    ensures forall k :: k in WithoutItemsOf(items, id) ==> WithoutItemsOf(items, id)[k].orderId != id
    ensures forall k :: k in items && items[k].orderId == other ==>
      k in WithoutItemsOf(items, id) && WithoutItemsOf(items, id)[k] == items[k]
  {
  }
}
