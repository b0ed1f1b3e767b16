/** The registry interface the billing service depends on, as the closed set
    of its two implementations. */
module GatewayFactories {
  import opened Wrappers
  import opened Models
  import opened Gateways
  import opened MockGateways

  datatype GatewayFactory =
    | Production(production: PaymentGatewayFactory)
    | Development(development: MockPaymentGatewayFactory)
  {
    ghost function Repr(): set<object> {
      if Production? then {production} else {development}
    }

    /** The id-to-gateway mapping of whichever registry this is. */
    function Gateways(): map<string, Gateway>
      reads Repr()
    {
      if Production? then production.gateways else development.gateways
    }

    /** Dispatches the lookup to the underlying registry. */
    method GetGateway(gatewayId: string) returns (r: Result<Gateway, BillingError>)
      ensures r.Success? <==> gatewayId in Gateways()
      ensures r.Success? ==> r.value == Gateways()[gatewayId]
      ensures r.Failure? ==> r.error == NotFound(NoGatewayMessage(gatewayId))
    {
      match this
      case Production(f) => r := f.GetGateway(gatewayId);
      case Development(f) => r := f.GetGateway(gatewayId);
    }
  }
}
