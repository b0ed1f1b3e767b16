/** The development registry: the same dictionary as the production one,
    plus a bootstrap step that installs the two mock providers. */
module MockGateways {
  import opened Wrappers
  import opened Models
  import opened Gateways

  class MockPaymentGatewayFactory {
    var gateways: map<string, Gateway>

    constructor ()
      ensures gateways == map[]
    {
      gateways := map[];
    }

    /** Resolves an id; a missing id is a NotFound error naming that id. */
    method GetGateway(gatewayId: string) returns (r: Result<Gateway, BillingError>)
      ensures r.Success? <==> gatewayId in gateways
      ensures r.Success? ==> r.value == gateways[gatewayId]
      ensures r.Failure? ==> r.error == NotFound(NoGatewayMessage(gatewayId))
    {
      if gatewayId !in gateways {
        return Failure(NotFound(NoGatewayMessage(gatewayId)));
      }
      return Success(gateways[gatewayId]);
    }

    /** Binds an id to a gateway, silently replacing an earlier binding. */
    method RegisterGateway(gatewayId: string, gateway: Gateway)
      modifies this
      ensures gateways == old(gateways)[gatewayId := gateway]
      ensures forall id :: id != gatewayId ==>
        (id in gateways <==> id in old(gateways)) && (id in gateways ==> gateways[id] == old(gateways)[id])
    {
      gateways := gateways[gatewayId := gateway];
    }

    /** Registers the mock Stripe gateway under "Stripe", then the mock PayPal
        gateway under "PayPal", overwriting whatever those ids held. */
    method InitializeDefaultGateways()
      modifies this
      ensures gateways == old(gateways)["Stripe" := MockStripe]["PayPal" := MockPayPal]
      ensures "Stripe" in gateways && gateways["Stripe"] == MockStripe
      ensures "PayPal" in gateways && gateways["PayPal"] == MockPayPal
      ensures forall id :: id != "Stripe" && id != "PayPal" ==>
        (id in gateways <==> id in old(gateways)) && (id in gateways ==> gateways[id] == old(gateways)[id])
    {
      RegisterGateway("Stripe", MockStripe);
      RegisterGateway("PayPal", MockPayPal);
    }
  }

  /** On any mock registry, after bootstrap "Stripe" and "PayPal" resolve to
      the two mock providers. */
  method DefaultGatewaysResolve(factory: MockPaymentGatewayFactory)
    returns (stripe: Result<Gateway, BillingError>, payPal: Result<Gateway, BillingError>)
    modifies factory
    ensures stripe == Success(MockStripe)
    ensures payPal == Success(MockPayPal)
  {
    factory.InitializeDefaultGateways();
    stripe := factory.GetGateway("Stripe");
    payPal := factory.GetGateway("PayPal");
  }

  /** An id nobody registered is reported with its own name in the message. */
  method UnregisteredGatewayFails() returns (r: Result<Gateway, BillingError>)
    ensures r == Failure(NotFound("No payment gateway registered for ID: NonExistentGateway"))
  {
    var factory := new MockPaymentGatewayFactory();
    r := factory.GetGateway("NonExistentGateway");
    assert NoGatewayMessage("NonExistentGateway") == "No payment gateway registered for ID: NonExistentGateway";
  }

  /** On any mock registry, registering and then resolving the same id yields
      the registered gateway. */
  method MockRegisterThenResolve(factory: MockPaymentGatewayFactory, gatewayId: string, gateway: Gateway)
    returns (r: Result<Gateway, BillingError>)
    modifies factory
    ensures r == Success(gateway)
  {
    factory.RegisterGateway(gatewayId, gateway);
    r := factory.GetGateway(gatewayId);
  }

  /** On any mock registry, a later registration under the same id replaces
      the earlier one. */
  method MockRegistrationOverwrites(factory: MockPaymentGatewayFactory, gatewayId: string,
                                    first: Gateway, second: Gateway)
    returns (r: Result<Gateway, BillingError>)
    modifies factory
    ensures r == Success(second)
  {
    factory.RegisterGateway(gatewayId, first);
    factory.RegisterGateway(gatewayId, second);
    r := factory.GetGateway(gatewayId);
  }

  /** On any mock registry, bootstrapping replaces a custom gateway registered
      earlier under "Stripe". */
  method DefaultsOverwriteEarlierRegistration(factory: MockPaymentGatewayFactory, custom: Gateway)
    returns (r: Result<Gateway, BillingError>)
    modifies factory
    ensures r == Success(MockStripe)
  {
    factory.RegisterGateway("Stripe", custom);
    factory.InitializeDefaultGateways();
    r := factory.GetGateway("Stripe");
  }
}
