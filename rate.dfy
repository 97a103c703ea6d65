/**
 * `UPSClient.rate`: builds the shipment with the default flags, marks it
 * for negotiated rates, hands it to the carrier gateway and turns the reply
 * into a status and a quote list, or a fault into a `Failure`. The gateway is
 * a parameter of the model: it stands for the remote `ProcessRate` call.
 */
module RateService {
  import opened Wrappers
  import opened Domain
  import opened ShipmentBuilder
  import opened RateNormalizer
  import opened Fault

  datatype RateResponse = RateResponse(statusDescription: string, ratedShipments: seq<RatedShipment>)

  /** What the gateway gives back: a response, or a web fault with its document. */
  datatype GatewayReply = Response(response: RateResponse) | WebFault(document: Element)

  /** `{'status': ..., 'info': ...}` */
  datatype RateReply = RateReply(status: string, info: seq<RateQuote>)

  /** The credentials the security header reads, in the order it reads them. */
  const SECURITY_KEYS: seq<string> := ["username", "password", "access_license"]

  /**
   * The key of the `KeyError` the security header raises: the first of its
   * credentials that is missing, or none when all are present.
   */
  function MissingSecurityKey(credentials: map<string, string>): (k: Option<string>)
    ensures k.None? <==> forall i :: 0 <= i < |SECURITY_KEYS| ==> SECURITY_KEYS[i] in credentials
    ensures k.Some? ==> exists i :: 0 <= i < |SECURITY_KEYS| && SECURITY_KEYS[i] == k.value
                                    && SECURITY_KEYS[i] !in credentials
                                    && forall j :: 0 <= j < i ==> SECURITY_KEYS[j] in credentials
  {
    var keys := SECURITY_KEYS;
    assert |keys| == 3;
    if keys[0] !in credentials then Some(keys[0])
    else if keys[1] !in credentials then Some(keys[1])
    else if keys[2] !in credentials then Some(keys[2])
    else None
  }

  method Rate(client: UpsClient, schema: Schema, packages: seq<Package>, shipper: Address, recipient: Address,
              packagingType: string, gateway: Shipment -> GatewayReply)
    returns (r: Result<RateReply, Failure>)
    ensures MissingSecurityKey(client.credentials).Some? ==>
      r == Err(KeyError(MissingSecurityKey(client.credentials).value))
    ensures MissingSecurityKey(client.credentials).None? ==>
      var built := ShipmentOf(client, schema, packages, shipper, recipient, packagingType, DEFAULT_OPTIONS);
      built.Err? ==> r == Err(built.error)
    ensures MissingSecurityKey(client.credentials).None? ==>
      var built := ShipmentOf(client, schema, packages, shipper, recipient, packagingType, DEFAULT_OPTIONS);
      built.Ok? ==>
        var reply := gateway(built.value.(negotiatedRatesIndicator := true));
        && (reply.Response? ==>
              && r.Ok?
              && r.value.status == reply.response.statusDescription
              && |r.value.info| == |reply.response.ratedShipments|
              && forall i :: 0 <= i < |r.value.info| ==> r.value.info[i] == QuoteOf(reply.response.ratedShipments[i]))
        && (reply.WebFault? ==> r == Err(TranslateFault(reply.document)))
  {
    var missing := MissingSecurityKey(client.credentials);
    if missing.Some? {
      return Err(KeyError(missing.value));
    }
    var built := CreateShipment(client, schema, packages, shipper, recipient, packagingType, DEFAULT_OPTIONS);
    if built.Err? {
      return Err(built.error);
    }
    var shipment := built.value.(negotiatedRatesIndicator := true);
    match gateway(shipment)
    case Response(response) =>
      var info := NormalizeRates(response.ratedShipments);
      r := Ok(RateReply(response.statusDescription, info));
    case WebFault(document) =>
      r := Err(TranslateFault(document));
  }

  /**
   * Credentials with the three security keys but no shipper number pass the
   * header and fail at the shipper number, before anything is sent.
   */
  lemma MissingShipperNumberScenario(client: UpsClient, schema: Schema, packages: seq<Package>,
                                     shipper: Address, recipient: Address, packagingType: string)
    requires client.credentials == map["username" := "", "password" := "", "access_license" := ""]
    ensures MissingSecurityKey(client.credentials).None?
    ensures ShipmentOf(client, schema, packages, shipper, recipient, packagingType, DEFAULT_OPTIONS)
         == Err(KeyError(SHIPPER_NUMBER))
  {
    assert SHIPPER_NUMBER !in client.credentials;
  }
}
