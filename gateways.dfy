/** Payment gateways and the production gateway registry. */
module Gateways {
  import opened Wrappers
  import opened Models

  /** The gateway implementations a registry can hold: the two mock
      providers and any other implementation, told apart by a tag. */
  datatype Gateway = MockStripe | MockPayPal | Other(tag: nat)

  function NoGatewayMessage(gatewayId: string): string {
    "No payment gateway registered for ID: " + gatewayId
  }

  /** The registry used outside development: starts empty and is filled only
      through `RegisterGateway`. */
  class PaymentGatewayFactory {
    var gateways: map<string, Gateway>

    constructor ()
      ensures gateways == map[]
    {
      gateways := map[];
    }

    /** Resolves an id; a missing id is a NotFound error naming that id. */
    method GetGateway(gatewayId: string) returns (r: Result<Gateway, BillingError>)
      ensures r.Success? <==> gatewayId in gateways
      ensures r.Success? ==> r.value == gateways[gatewayId]
      ensures r.Failure? ==> r.error == NotFound(NoGatewayMessage(gatewayId))
    {
      if gatewayId !in gateways {
        return Failure(NotFound(NoGatewayMessage(gatewayId)));
      }
      return Success(gateways[gatewayId]);
    }

    /** Binds an id to a gateway, silently replacing an earlier binding. */
    method RegisterGateway(gatewayId: string, gateway: Gateway)
      modifies this
      ensures gateways == old(gateways)[gatewayId := gateway]
      ensures forall id :: id != gatewayId ==>
        (id in gateways <==> id in old(gateways)) && (id in gateways ==> gateways[id] == old(gateways)[id])
    {
      gateways := gateways[gatewayId := gateway];
    }
  }

  /** A registry that has just been built resolves no id at all. */
  method FreshRegistryResolvesNothing(gatewayId: string) returns (r: Result<Gateway, BillingError>)
    ensures r == Failure(NotFound(NoGatewayMessage(gatewayId)))
  {
    var factory := new PaymentGatewayFactory();
    r := factory.GetGateway(gatewayId);
  }

  /** On any registry, registering and then resolving the same id yields the
      registered gateway. */
  method RegisterThenResolve(factory: PaymentGatewayFactory, gatewayId: string, gateway: Gateway)
    returns (r: Result<Gateway, BillingError>)
    modifies factory
    ensures r == Success(gateway)
  {
    factory.RegisterGateway(gatewayId, gateway);
    r := factory.GetGateway(gatewayId);
  }

  /** On any registry, two registrations under one id raise no error, and the
      second one wins. */
  method LastRegistrationWins(factory: PaymentGatewayFactory, gatewayId: string, first: Gateway, second: Gateway)
    returns (r: Result<Gateway, BillingError>)
    modifies factory
    ensures r == Success(second)
  {
    factory.RegisterGateway(gatewayId, first);
    factory.RegisterGateway(gatewayId, second);
    r := factory.GetGateway(gatewayId);
  }
}
