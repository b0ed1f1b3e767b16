/** The order orchestration: validate an order, resolve its gateway, charge
    it, refuse a declined payment or a duplicate order number, then stage and
    commit the receipt. */
module Billing {
  import opened Wrappers
  import opened Models
  import opened Gateways
  import opened ReceiptStore
  import opened GatewayFactories

  const OrderNumberRequired := "Order number is required"
  const UserIdRequired := "User ID is required"
  const AmountNotPositive := "Payable amount must be greater than zero"
  const GatewayRequired := "Payment gateway is required"

  /** An order every guard of `ValidateOrder` lets through. */
  predicate ValidOrder(order: OrderRequest) {
    && !IsBlank(order.orderNumber)
    && !IsBlank(order.userId)
    && order.payableAmount > 0
    && !IsBlank(order.paymentGateway)
  }

  /** The four guards, in their fixed order; the first that fails is the only
      error reported. */
  function ValidateOrder(order: OrderRequest): (r: Outcome<BillingError>)
    ensures r.Pass? <==> ValidOrder(order)
    ensures r.Fail? ==> r.error.Validation?
  {
    if IsBlank(order.orderNumber) then Fail(Validation(OrderNumberRequired))
    else if IsBlank(order.userId) then Fail(Validation(UserIdRequired))
    else if order.payableAmount <= 0 then Fail(Validation(AmountNotPositive))
    else if IsBlank(order.paymentGateway) then Fail(Validation(GatewayRequired))
    else Pass
  }

  /** The validation rules as a table: which field each one guards and what
      it reports. */
  datatype Rule = OrderNumberRule | UserIdRule | AmountRule | GatewayRule

  const Rules: seq<Rule> := [OrderNumberRule, UserIdRule, AmountRule, GatewayRule]

  predicate Violates(rule: Rule, order: OrderRequest) {
    match rule
    case OrderNumberRule => IsBlank(order.orderNumber)
    case UserIdRule => IsBlank(order.userId)
    case AmountRule => order.payableAmount <= 0
    case GatewayRule => IsBlank(order.paymentGateway)
  }

  function RuleMessage(rule: Rule): string {
    match rule
    case OrderNumberRule => OrderNumberRequired
    case UserIdRule => UserIdRequired
    case AmountRule => AmountNotPositive
    case GatewayRule => GatewayRequired
  }

  /** The first violated rule in table order decides the reported error. */
  lemma ValidationReportsFirstViolation(order: OrderRequest, i: int)
    requires 0 <= i < |Rules| && Violates(Rules[i], order)
    requires forall j :: 0 <= j < i ==> !Violates(Rules[j], order)
    ensures ValidateOrder(order) == Fail(Validation(RuleMessage(Rules[i])))
  {
    if i > 0 { assert !Violates(Rules[0], order); }
    if i > 1 { assert !Violates(Rules[1], order); }
    if i > 2 { assert !Violates(Rules[2], order); }
  }

  /** An order passes exactly when it violates no rule of the table. */
  lemma ValidationPassesIffNoViolation(order: OrderRequest)
    ensures ValidateOrder(order) == Pass <==> forall j :: 0 <= j < |Rules| ==> !Violates(Rules[j], order)
  {
    if ValidateOrder(order) != Pass {
      assert Violates(Rules[0], order) || Violates(Rules[1], order)
          || Violates(Rules[2], order) || Violates(Rules[3], order);
    }
  }

  /** When several rules are violated, the later ones are never reported. */
  lemma LaterViolationsNotReported(order: OrderRequest, i: int, k: int)
    requires 0 <= i < k < |Rules|
    requires Violates(Rules[i], order) && Violates(Rules[k], order)
    ensures ValidateOrder(order) != Fail(Validation(RuleMessage(Rules[k])))
  {
  }

  /** The invalid requests of the service tests are all refused, each with the
      message of its own guard; amounts are in hundredths. */
  lemma InvalidRequestsRejected()
    ensures ValidateOrder(OrderRequest(None, Some("USER456"), 10000, Some("TestGateway"), Some("Test order")))
         == Fail(Validation(OrderNumberRequired))
    ensures ValidateOrder(OrderRequest(Some("ORD123"), None, 10000, Some("TestGateway"), Some("Test order")))
         == Fail(Validation(UserIdRequired))
    ensures ValidateOrder(OrderRequest(Some("ORD123"), Some("USER456"), 0, Some("TestGateway"), Some("Test order")))
         == Fail(Validation(AmountNotPositive))
    ensures ValidateOrder(OrderRequest(Some("ORD123"), Some("USER456"), -1000, Some("TestGateway"), Some("Test order")))
         == Fail(Validation(AmountNotPositive))
    ensures ValidateOrder(OrderRequest(Some("ORD123"), Some("USER456"), 10000, None, Some("Test order")))
         == Fail(Validation(GatewayRequired))
    ensures ValidateOrder(OrderRequest(Some("ORD123"), Some("USER456"), 10000, Some("TestGateway"), Some("Test order")))
         == Pass
  {
  }

  /** The reason given for a declined payment: the gateway's message, or a
      default naming the order. */
  function DeclineMessage(payment: PaymentResult, orderNumber: string): string {
    match payment.message
    case Some(m) => m
    case None => "Payment failed for order " + orderNumber
  }

  function DuplicateOrderMessage(orderNumber: string): string {
    "Order number " + orderNumber + " already exists"
  }

  function ReceiptNotFoundMessage(orderNumber: string): string {
    "Receipt for order " + orderNumber + " not found"
  }

  /** The receipt built for a paid order. */
  function NewReceipt(order: OrderRequest, payment: PaymentResult, id: string, now: int): Receipt
    requires ValidOrder(order)
  {
    Receipt(id, order.orderNumber.value, order.userId.value, order.payableAmount,
            order.paymentGateway.value, now, payment.transactionId, order.description)
  }

  /** The order gets as far as the gateway. */
  ghost predicate Charged(order: OrderRequest, gateways: map<string, Gateway>) {
    ValidOrder(order) && order.paymentGateway.value in gateways
  }

  /** The order gets as far as the store: charged, accepted, and new. */
  ghost predicate Persists(order: OrderRequest, gateways: map<string, Gateway>, payment: PaymentResult,
                           committed: seq<Receipt>)
  {
    Charged(order, gateways) && payment.isSuccess && !HasOrderNumber(committed, order.orderNumber.value)
  }

  class BillingService {
    const factory: GatewayFactory
    const repository: ReceiptRepository

    constructor (factory: GatewayFactory, repository: ReceiptRepository)
      ensures this.factory == factory && this.repository == repository
    {
      this.factory := factory;
      this.repository := repository;
    }

    /** Processes one order. `payment` is what the resolved gateway answers,
        `id` the generated receipt id and `now` the current time; `charged`
        tells which gateway, if any, was asked to take the payment. */
    method ProcessOrder(order: OrderRequest, payment: PaymentResult, id: string, now: int)
      returns (r: Result<Receipt, BillingError>, ghost charged: Option<Gateway>)
      requires repository.Valid()
      modifies repository
      ensures repository.Valid()
      // an invalid order reports its first failing guard
      ensures ValidateOrder(order).Fail? ==> r == Failure(ValidateOrder(order).error)
      // an unregistered gateway id is reported unchanged
      ensures ValidOrder(order) && order.paymentGateway.value !in old(factory.Gateways()) ==>
                r == Failure(NotFound(NoGatewayMessage(order.paymentGateway.value)))
      // the gateway is charged exactly when the order is valid and its gateway registered
      ensures charged.Some? <==> Charged(order, old(factory.Gateways()))
      ensures charged.Some? ==> charged.value == old(factory.Gateways())[order.paymentGateway.value]
      // a declined payment
      ensures Charged(order, old(factory.Gateways())) && !payment.isSuccess ==>
                r == Failure(PaymentProcessing(DeclineMessage(payment, order.orderNumber.value)))
      // a duplicate order number, detected only after the charge
      ensures Charged(order, old(factory.Gateways())) && payment.isSuccess
              && HasOrderNumber(old(repository.committed), order.orderNumber.value) ==>
                r == Failure(Validation(DuplicateOrderMessage(order.orderNumber.value)))
      // no exit before the store touches it
      ensures !Persists(order, old(factory.Gateways()), payment, old(repository.committed)) ==>
                repository.staged == old(repository.staged) && repository.committed == old(repository.committed)
      // the receipt is staged and everything staged is committed, or the save is refused
      ensures Persists(order, old(factory.Gateways()), payment, old(repository.committed)) ==>
                var receipt := NewReceipt(order, payment, id, now);
                if Consistent(old(repository.committed) + (old(repository.staged) + [receipt])) then
                  && r == Success(receipt)
                  && repository.committed == old(repository.committed) + (old(repository.staged) + [receipt])
                  && repository.staged == []
                else
                  && r == Failure(StorageError)
                  && repository.committed == old(repository.committed)
                  && repository.staged == old(repository.staged) + [receipt]
      // nothing is committed by a failing call
      ensures r.Failure? ==> repository.committed == old(repository.committed)
      // a returned receipt copies the order and the payment
      ensures r.Success? ==> ValidOrder(order)
      ensures r.Success? ==>
                && r.value.id == id
                && r.value.orderNumber == order.orderNumber.value
                && r.value.userId == order.userId.value
                && r.value.amount == order.payableAmount
                && r.value.paymentGateway == order.paymentGateway.value
                && r.value.processedDate == now
                && r.value.transactionId == payment.transactionId
                && r.value.description == order.description
      // with nothing else staged, a paid new order with a transaction id and a fresh id is always stored
      ensures Persists(order, old(factory.Gateways()), payment, old(repository.committed))
              && old(repository.staged) == [] && payment.transactionId.Some?
              && IdUnused(old(repository.committed), id) ==>
                r.Success?
    {
      charged := None;
      var valid := ValidateOrder(order);
      if valid.Fail? {
        r := Failure(valid.error);
        return;
      }
      var gatewayId := order.paymentGateway.value;
      var lookup := factory.GetGateway(gatewayId);
      if lookup.Failure? {
        r := Failure(lookup.error);
        return;
      }
      charged := Some(lookup.value);
      if !payment.isSuccess {
        r := Failure(PaymentProcessing(DeclineMessage(payment, order.orderNumber.value)));
        return;
      }
      var receipt := NewReceipt(order, payment, id, now);
      var alreadyStored := repository.OrderNumberExists(order.orderNumber.value);
      if alreadyStored {
        r := Failure(Validation(DuplicateOrderMessage(order.orderNumber.value)));
        return;
      }
      ghost var before, pending := repository.committed, repository.staged;
      repository.Add(receipt);
      if pending == [] && receipt.transactionId.Some? && IdUnused(before, id) {
        assert pending + [receipt] == [receipt];
        CommitFreshReceipt(before, receipt);
      }
      var saved := repository.SaveChanges();
      if saved.Fail? {
        r := Failure(saved.error);
        return;
      }
      r := Success(receipt);
    }

    /** The stored receipt for an order number, or NotFound. */
    method GetReceipt(orderNumber: string) returns (r: Result<Receipt, BillingError>)
      ensures r.Success? <==> HasOrderNumber(repository.committed, orderNumber)
      ensures r.Success? ==> r.value in repository.committed && r.value.orderNumber == orderNumber
      ensures r.Failure? ==> r.error == NotFound(ReceiptNotFoundMessage(orderNumber))
      ensures repository.Valid() ==>
                forall i :: 0 <= i < |repository.committed| && repository.committed[i].orderNumber == orderNumber ==>
                  r == Success(repository.committed[i])
    {
      var found := repository.GetByOrderNumber(orderNumber);
      if found.None? {
        return Failure(NotFound(ReceiptNotFoundMessage(orderNumber)));
      }
      return Success(found.value);
    }
  }

  /** Submitting an order a second time after it succeeded: the second
      submission still charges the gateway, is then refused as a duplicate,
      and the store keeps only the first receipt. */
  method ResubmissionChargedThenRefused(service: BillingService, order: OrderRequest,
                                        first: PaymentResult, second: PaymentResult,
                                        firstId: string, secondId: string, firstTime: int, secondTime: int)
    returns (r1: Result<Receipt, BillingError>, r2: Result<Receipt, BillingError>,
             ghost charged1: Option<Gateway>, ghost charged2: Option<Gateway>)
    requires service.repository.Valid()
    modifies service.repository
    ensures r1.Success? ==> ValidOrder(order) && charged1.Some? && charged2 == charged1
    ensures r1.Success? && second.isSuccess ==>
              && r2 == Failure(Validation(DuplicateOrderMessage(order.orderNumber.value)))
              && service.repository.committed == old(service.repository.committed) + (old(service.repository.staged) + [r1.value])
  {
    r1, charged1 := service.ProcessOrder(order, first, firstId, firstTime);
    if r1.Success? {
      var c := service.repository.committed;
      assert c[|c| - 1] == r1.value;
    }
    r2, charged2 := service.ProcessOrder(order, second, secondId, secondTime);
  }

  /** A receipt returned by a successful submission is exactly what a later
      lookup of its order number returns. */
  method ProcessedOrderIsRetrievable(service: BillingService, order: OrderRequest, payment: PaymentResult,
                                     id: string, now: int)
    returns (r: Result<Receipt, BillingError>, found: Result<Receipt, BillingError>)
    requires service.repository.Valid()
    requires ValidOrder(order)
    modifies service.repository
    ensures r.Success? ==> found == r
    ensures r.Failure? && !HasOrderNumber(old(service.repository.committed), order.orderNumber.value) ==>
              found == Failure(NotFound(ReceiptNotFoundMessage(order.orderNumber.value)))
  {
    ghost var charged;
    r, charged := service.ProcessOrder(order, payment, id, now);
    found := service.GetReceipt(order.orderNumber.value);
    if r.Success? {
      var c := service.repository.committed;
      assert c[|c| - 1] == r.value;
    }
  }
}
