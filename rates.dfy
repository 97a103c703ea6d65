/** Turning the carrier's rated shipments into the client's quote list. */
module RateNormalizer {
  import opened Wrappers
  import opened Tables

  /** One rated shipment of a response: its service code and charges (monetary values as text). */
  datatype RatedShipment = RatedShipment(
    serviceCode: string,
    negotiatedTotal: Option<string>,
    totalCharges: string)

  /** One quote of the result: the `service`, `package`, `delivery_day` and `cost` entries. */
  datatype RateQuote = RateQuote(service: string, package: string, deliveryDay: string, cost: string)

  const UNKNOWN_SERVICE_PREFIX: string := "Unknown Service: "

  /** The code has an entry in `SERVICES`. */
  predicate IsListed(code: string)
  {
    exists i :: 0 <= i < |SERVICES| && SERVICES[i].0 == code
  }

  /** The display name of a service code: its `SERVICES` entry, or a label embedding the code. */
  function ServiceName(code: string): (name: string)
    ensures IsListed(code) ==> (code, name) in SERVICES
    ensures !IsListed(code) ==> name == UNKNOWN_SERVICE_PREFIX + code
  {
    DictGet(SERVICES, code).GetOr(UNKNOWN_SERVICE_PREFIX + code)
  }

  /** A listed code gives exactly its listed name; any other code its "Unknown Service" label. */
  lemma ServiceNameOfListed(code: string, name: string)
    ensures ServiceName(code) == name <==>
      if IsListed(code) then (code, name) in SERVICES else name == UNKNOWN_SERVICE_PREFIX + code
  {
    ServicesHaveDistinctCodes();
    DictGetDistinct(SERVICES, code, name);
    if (code, name) in SERVICES {
      var i :| 0 <= i < |SERVICES| && SERVICES[i] == (code, name);
      assert SERVICES[i].0 == code;
    }
  }

  lemma ServiceNameExamples()
    ensures ServiceName("03") == "UPS Ground"
    ensures ServiceName("08") == "UPS Worldwide Expedited"
  {
    assert SERVICES[0] == ("03", "UPS Ground");
    ServiceNameOfListed("03", "UPS Ground");
    assert SERVICES[10] == ("08", "UPS Worldwide Expedited");
    ServiceNameOfListed("08", "UPS Worldwide Expedited");
  }

  /** An unlisted code still gets a quote name: its "Unknown Service" label. */
  lemma UnknownServiceExample()
    ensures ServiceName("99") == "Unknown Service: 99"
  {
    assert !IsListed("99");
  }

  /** The quote for one rated shipment. */
  function QuoteOf(r: RatedShipment): (q: RateQuote)
    ensures r.negotiatedTotal.Some? ==> q.cost == r.negotiatedTotal.value
    ensures r.negotiatedTotal.None? ==> q.cost == r.totalCharges
    ensures q.service == ServiceName(r.serviceCode)
    ensures q.package == "" && q.deliveryDay == ""
  {
    var cost := match r.negotiatedTotal
      case Some(negotiated) => negotiated
      case None => r.totalCharges;
    RateQuote(ServiceName(r.serviceCode), "", "", cost)
  }

  /** The loop over `response.RatedShipment`: one quote per rated shipment, in response order. */
  method NormalizeRates(rated: seq<RatedShipment>) returns (info: seq<RateQuote>)
    ensures |info| == |rated|
    ensures forall i :: 0 <= i < |rated| ==> info[i] == QuoteOf(rated[i])
  {
    info := [];
    for k := 0 to |rated|
      invariant |info| == k
      invariant forall i :: 0 <= i < k ==> info[i] == QuoteOf(rated[i])
    {
      var r := rated[k];
      var unknownService := UNKNOWN_SERVICE_PREFIX + r.serviceCode;
      var cost: string;
      if r.negotiatedTotal.Some? {
        cost := r.negotiatedTotal.value;
      } else {
        cost := r.totalCharges;
      }
      info := info + [RateQuote(DictGet(SERVICES, r.serviceCode).GetOr(unknownService), "", "", cost)];
    }
  }
}
