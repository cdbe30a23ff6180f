/** `PaymentsService` over the payments table. Ownership is decided through
    the payment's order, and only in `findOne`; the `userId` that `create`,
    `update` and `remove` receive has no effect. */
module Payments {
  import opened Common
  import Orders

  /** A row of the payments table; the amount is kept in integral units, the
      status enum as text, and the JSON `metadata` column is not modelled. */
  datatype Payment = Payment(id: int, orderId: int, amount: int, currency: string, paymentMethod: string, transactionId: string, status: string)

  datatype CreatePaymentDto = CreatePaymentDto(orderId: int, amount: int, currency: string, paymentMethod: string, transactionId: string, status: string)

  /** `PartialType(CreatePaymentDto)`: every column optional. */
  datatype UpdatePaymentDto = UpdatePaymentDto(
    orderId: Option<int>, amount: Option<int>, currency: Option<string>,
    paymentMethod: Option<string>, transactionId: Option<string>, status: Option<string>)

  /** `repository.update(id, dto)` on one row: the given columns change, the others stay. */
  function ApplyUpdate(p: Payment, dto: UpdatePaymentDto): (r: Payment)
    ensures r.id == p.id
    ensures r.orderId == dto.orderId.GetOr(p.orderId) && r.amount == dto.amount.GetOr(p.amount)
    ensures r.currency == dto.currency.GetOr(p.currency) && r.paymentMethod == dto.paymentMethod.GetOr(p.paymentMethod)
    ensures r.transactionId == dto.transactionId.GetOr(p.transactionId) && r.status == dto.status.GetOr(p.status)
  {
    Payment(p.id, dto.orderId.GetOr(p.orderId), dto.amount.GetOr(p.amount), dto.currency.GetOr(p.currency),
      dto.paymentMethod.GetOr(p.paymentMethod), dto.transactionId.GetOr(p.transactionId), dto.status.GetOr(p.status))
  }

  /** `findOne`'s guard: the payment must exist, then its order must be
      loaded and belong to the requester. */
  function Access(payments: map<int, Payment>, orders: map<int, Orders.Order>, id: int, userId: int): (r: Outcome<Payment>)
    ensures id !in payments <==> r == NotFound
    ensures r == Unauthorized <==>
      id in payments && (payments[id].orderId !in orders || orders[payments[id].orderId].userId != userId)
    ensures r.Ok? ==> id in payments && r.value == payments[id]
  {
    if id !in payments then NotFound
    else if payments[id].orderId !in orders || orders[payments[id].orderId].userId != userId then Unauthorized
    else Ok(payments[id])
  }

  class PaymentsService {
    var payments: map<int, Payment>

    ghost predicate Valid()
      reads this
    {
      forall id :: id in payments ==> payments[id].id == id
    }

    constructor ()
      ensures Valid() && payments == map[]
    {
      payments := map[];
    }

    /** `create`: the DTO is saved as given; `newId` is the key the database assigns. */
    method Create(dto: CreatePaymentDto, userId: int, newId: int) returns (payment: Payment)
      requires Valid() && newId !in payments
      modifies this
      ensures Valid()
      ensures payment == Payment(newId, dto.orderId, dto.amount, dto.currency, dto.paymentMethod, dto.transactionId, dto.status)
      ensures payments == old(payments)[newId := payment]
    {
      payment := Payment(newId, dto.orderId, dto.amount, dto.currency, dto.paymentMethod, dto.transactionId, dto.status);
      payments := payments[newId := payment];
    }

    /** `findAll`: every stored payment, for any caller. */
    method FindAll() returns (all: set<Payment>)
      requires Valid()
      ensures forall id :: id in payments ==> payments[id] in all
      ensures forall p :: p in all ==> p.id in payments && payments[p.id] == p
    {
      all := set id | id in payments :: payments[id];
    }

    /** `findOne`, with the orders table standing for the loaded `order` relation. */
    method FindOne(id: int, userId: int, orders: map<int, Orders.Order>) returns (r: Outcome<Payment>)
      ensures r == Access(payments, orders, id, userId)
    {
      if id !in payments {
        return NotFound;
      }
      var payment := payments[id];
      if payment.orderId !in orders || orders[payment.orderId].userId != userId {
        return Unauthorized;
      }
      r := Ok(payment);
    }

    /** `update`: NotFound for an absent id; otherwise the DTO is applied and
        the refreshed row returned, whoever asks. */
    method Update(id: int, dto: UpdatePaymentDto, userId: int) returns (r: Outcome<Payment>)
      requires Valid()
      modifies this
      ensures Valid()
      ensures id !in old(payments) ==> r == NotFound && payments == old(payments)
      ensures id in old(payments) ==>
        r == Ok(ApplyUpdate(old(payments)[id], dto)) && payments == old(payments)[id := r.value]
    {
      if id !in payments {
        return NotFound;
      }
      payments := payments[id := ApplyUpdate(payments[id], dto)];
      r := Ok(payments[id]);
    }

    /** `remove`: NotFound for an absent id; otherwise exactly that payment
        is deleted, whoever asks. */
    method Remove(id: int, userId: int) returns (r: Outcome<()>)
      requires Valid()
      modifies this
      ensures Valid()
      ensures id !in old(payments) ==> r == NotFound && payments == old(payments)
      ensures id in old(payments) ==> r == Ok(()) && payments == old(payments) - {id}
    {
      if id !in payments {
        return NotFound;
      }
      payments := payments - {id};
      r := Ok(());
    }
  }

  /** A payment whose order is missing is refused to every requester, and
      one whose order exists is readable by exactly that order's owner. */
  lemma PaymentOwnershipFollowsOrder(payments: map<int, Payment>, orders: map<int, Orders.Order>, id: int, userId: int)
    requires id in payments
    ensures payments[id].orderId !in orders ==> Access(payments, orders, id, userId) == Unauthorized
    ensures payments[id].orderId in orders ==>
      (Access(payments, orders, id, userId).Ok? <==> orders[payments[id].orderId].userId == userId)
  {
  }
}
