/**
 * The values the client reads and its configuration. `Address` and
 * `Package` carry exactly the attributes the client reads; the numbers of a
 * package are integers, and Python's truthiness of a number is `!= 0`, of a
 * string `!= ""`.
 */
module Domain {

  datatype Address = Address(
    name: string,
    companyName: string,
    address1: string,
    address2: string,
    city: string,
    state: string,
    zip: string,
    country: string,
    isResidence: bool)

  /** `value`, `requireSignature` and `reference` are "absent" when falsy (0 or ""). */
  datatype Package = Package(
    length: int,
    width: int,
    height: int,
    weight: int,
    value: int,
    requireSignature: int,
    reference: string)

  /** The client's configuration: credentials and the unit and currency codes. */
  datatype UpsClient = UpsClient(
    credentials: map<string, string>,
    weightUnit: string,
    dimensionUnit: string,
    currencyCode: string,
    debug: bool)

  const SHIPPER_NUMBER: string := "shipper_number"

  /** A client built with only credentials gets kilograms, centimetres and US dollars. */
  function NewClient(credentials: map<string, string>): (c: UpsClient)
    ensures c.credentials == credentials
    ensures c.weightUnit == "KGS" && c.dimensionUnit == "CM" && c.currencyCode == "USD"
  {
    UpsClient(credentials, "KGS", "CM", "USD", true)
  }

  /** What a rate call can fail with. */
  datatype Failure =
    | KeyError(key: string)              // a credential the builder reads is missing
    | UPSError(message: string)          // the carrier answered with a fault
    | MalformedFault(missingPath: seq<string>)  // the fault lacks the expected error node
}
