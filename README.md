# UPS rate client: request building and response normalising

This project models the core of the `UPSClient` rate client in Dafny and proves
properties about it. The client turns packages and two addresses into a UPS
shipment record and, after the carrier's `ProcessRate` call, turns the reply
into a status text and a list of quotes. When the carrier answers with a fault,
the client turns it into a `UPSError` message. The model covers four things:

- **Country normalisation** (`Country`). The texts "usa" and "united states", in
  any letter case, become "US". Every other text is returned unchanged. A
  `StateProvinceCode` is sent only for the normalised codes US, CA and IE.
- **Shipment building** (`ShipmentBuilder`). There is one package entry per
  input package, in input order, with the packaging code, unit codes,
  and the optional delivery confirmation, declared value and reference number.
  The shipper and recipient get display names cut to 35 characters, the
  address block, the shipper number and the residential indicator. The service
  code is fixed at "08". `CreateShipment` is the loop-based builder. Its
  contract ties it to the function `ShipmentOf`, and the properties are proved
  about that function.
- **Rate normalising** (`RateNormalizer`). There is one quote per rated
  shipment. Its cost is the negotiated total when present, otherwise the
  published total. Its name comes from `SERVICES`, or is "Unknown Service:
  <code>" for an unlisted code. `package` and `delivery_day` are empty.
  `NormalizeRates` is the loop.
- **Fault messages** (`Fault`). The message is "UPS Error <code>: <description>",
  read from the primary-error-code nodes. When a node is missing, the result is
  a `MalformedFault` and never a message.

`RateService.Rate` puts these together. The remote call is a parameter
`gateway: Shipment -> GatewayReply`, which returns a response or a web fault.

Supporting modules: `Wrappers` (Option, Result), `Text` (Python's `lower()` for
ASCII letters, the slice `s[:n]`, and `str(int)` with its inverse), `Tables` (the
`SERVICES` and `PACKAGES` tables and `dict(table).get(key)`), and `Domain`
(`Address`, `Package`, the client configuration, and the failure kinds).

Modelling choices:
- Package numbers are integers and text fields are strings. Python's
  truthiness of a number is `!= 0` and of a string is `!= ""`. Monetary values
  in a reply are text and are passed through unchanged.
- The `hasattr` probe on the package type becomes `PackagingField`. It has three
  cases because the source's `if`/`elif` has no `else`. When the schema has
  neither attribute, no packaging code is set.
- Catching `TypeNotFound` for reference numbers becomes the flag
  `Schema.referenceNumberType`. When it is false, the reference is skipped and
  the build still succeeds.
- Reading `credentials['shipper_number']` raises `KeyError` when the key is
  missing. The model returns `Err(KeyError("shipper_number"))`. Before it
  builds the shipment, `rate` reads `username`, `password` and
  `access_license` for the security header. The first of them that is missing
  gives its own `KeyError`.
- The builder does not reject an empty package list. It builds a shipment with
  no package entries, and the model follows that code.
- Walking the fault tree follows the XML library the client calls. Each step
  takes the first child with that name. An empty path reaches nothing. An
  element with empty text reads as `None`, and `'%s' % None` formats it as
  "None".
- The comment above the state rule names Puerto Rico. The code tests
  `('US', 'CA', 'IE')`, and the model follows the code.

## Model

| member | source | states |
|---|---|---|
| `Text.Lower` | ups/client.py:92 | `lower()` keeps the length and lowers every character independently |
| `Text.LowerEqualsIff` | ups/client.py:92 | comparing `s.lower()` with a lower-case word is exactly a letter-by-letter, either-case comparison |
| `Text.Prefix` | ups/client.py:143-144 | `s[:n]` is the first min(n, len s) characters of `s` |
| `Text.NatToDecimal` | ups/client.py:127 | `str` of a non-negative integer is all digits, at least one, with no leading zero |
| `Text.IntToDecimal` | ups/client.py:127 | `str(i)` starts with '-' exactly for negative `i`; the rest is at least one digit, with no leading zero |
| `Text.IntToDecimalRoundTrip` | ups/client.py:127 | parsing `str(i)` gives back `i` |
| `Text.IntToDecimalInjective` | ups/client.py:127 | distinct signature levels give distinct confirmation texts |
| `Tables.DictGet` | ups/client.py:202 | `dict(table).get(key)` is absent exactly when no pair has the key, and otherwise returns the value of the last pair with the key |
| `Tables.DictGetDistinct` | ups/client.py:202 | with distinct keys, the dict returns `v` for `k` exactly when `(k, v)` is in the table |
| `Tables.ServicesHaveDistinctCodes` | ups/client.py:13-26 | no service code is listed twice |
| `Tables.PackagesHaveDistinctCodes` | ups/client.py:28-37 | no packaging code is listed twice |
| `Domain.NewClient` | ups/client.py:59-65 | the default units are KGS and CM, and the default currency is USD |
| `Country.NormalizeCountryCode` | ups/client.py:87-92 | "usa" and "united states" in any case give "US"; any other text is returned exactly as given |
| `Country.NormalizeIdempotent` | ups/client.py:87-92 | normalising twice equals normalising once |
| `Country.NormalizesToUS` | ups/client.py:87-92 | the result is "US" if and only if the input is "US" or a United States spelling |
| `Country.StateAppliesAfterNormalizing` | ups/client.py:149-166 | a state is sent if and only if the country is "US", "CA" or "IE" as written, or a United States spelling |
| `Country.OtherCountriesUnchanged` | ups/client.py:87-92 | "brazil", "BR" and "us" stay as they are, and "ca" gets no state |
| `Country.UnitedStatesSpellings` | ups/client.py:87-92 | "USA" and "United States" become "US" |
| `ShipmentBuilder.PackageEntryOf` | ups/client.py:110-139 | the entry has the box shape in the schema's packaging attribute, the configured units and the package's dimensions and weight unchanged; it has delivery confirmation, exactly `str(require_signature)`, exactly when enabled and `require_signature` is truthy; it has declared value (currency and value) exactly when `value` is truthy; it has one reference exactly when enabled, present and supported, otherwise none |
| `ShipmentBuilder.PackageEntries` | ups/client.py:110-141 | one entry per package, entry i built from package i |
| `ShipmentBuilder.PackageEntriesAppend` | ups/client.py:110-141 | entries follow input order: the entries of `a + b` are those of `a` followed by those of `b` |
| `ShipmentBuilder.DisplayName` | ups/client.py:143-145 | the name is the company name if it is non-empty, else the personal name, cut to its first min(35, length) characters |
| `ShipmentBuilder.PartyAddressOf` | ups/client.py:146-166 | the address lines are `[address1, address2]`; city and postal code are copied; the country is normalised; the state is present if and only if the normalised country is US, CA or IE, and is then the party's state |
| `ShipmentBuilder.ShipperOf` | ups/client.py:143-151 | the shipper carries the shipper number and is never residential |
| `ShipmentBuilder.ShipToOf` | ups/client.py:153-169 | the recipient has no shipper number and is residential if and only if `is_residence` |
| `ShipmentBuilder.ShipmentOf` | ups/client.py:107-175 | the build succeeds if and only if the credentials hold a shipper number, and fails with that `KeyError` otherwise; there is one entry per package in order; the parties are as above; the service code is "08" whatever the inputs |
| `ShipmentBuilder.CreateShipment` | ups/client.py:107-175 | the loop-based builder returns exactly `ShipmentOf` of its inputs |
| `ShipmentBuilder.NoStateOutsideAllowList` | ups/client.py:162-166 | in a built shipment, a party lacks `StateProvinceCode` if and only if its normalised country is outside US, CA, IE |
| `ShipmentBuilder.BrazilScenario` | ups/client.py:107-175 | two parties in "brazil" and one package 2x3x4 of weight 5: one entry with those values and no options; country stays "brazil"; no state for either party |
| `ShipmentBuilder.UsaShipperScenario` | ups/client.py:149-164 | a shipper in "usa" is sent with country "US" and its state |
| `RateNormalizer.ServiceName` | ups/client.py:202-212 | a listed code gives its `SERVICES` name; an unlisted code gives "Unknown Service: " + code |
| `RateNormalizer.ServiceNameOfListed` | ups/client.py:202-212 | the name equals `n` if and only if `(code, n)` is listed, or the code is unlisted and `n` is the Unknown Service label |
| `RateNormalizer.ServiceNameExamples` | ups/client.py:13-26 | "03" is "UPS Ground" and "08" is "UPS Worldwide Expedited" |
| `RateNormalizer.UnknownServiceExample` | ups/client.py:206-212 | the unlisted code "99" is named "Unknown Service: 99" |
| `RateNormalizer.QuoteOf` | ups/client.py:205-216 | the cost is the negotiated total when present, else the published total; the service is the looked-up name; `package` and `delivery_day` are empty |
| `RateNormalizer.NormalizeRates` | ups/client.py:204-216 | the loop gives one quote per rated shipment, quote i being that of shipment i |
| `Fault.GetChild` | ups/client.py:45-46 | a child is found if and only if one has the name, and the child found is the first child with that name |
| `Fault.ChildAtPath` | ups/client.py:45-46 | an empty path reaches nothing; a node reached carries the last name of the path |
| `Fault.ChildAtPathStep` | ups/client.py:45-46 | walking `p + [n]` is walking `p`, then taking the first child named `n` of the node reached |
| `Fault.ChildAtPathFound` | ups/client.py:45-46 | a path reaches a node if and only if its first name is found among the children and the rest of the path is empty or reaches a node from there |
| `Fault.GetText` | ups/client.py:45-46 | `getText()` is absent exactly for an empty text, and otherwise is the text |
| `Fault.Format` | ups/client.py:47 | `'%s'` gives the text itself, or "None" for a missing text |
| `Fault.TranslateFault` | ups/client.py:40-49 | a message exists if and only if both the code and the description nodes exist, and is then "UPS Error <code>: <description>"; otherwise the result is a malformed fault naming the first missing path |
| `Fault.CarrierFaultPaths` | ups/client.py:45-46 | in a carrier fault tree both paths reach the code and description nodes |
| `Fault.CarrierFaultMessage` | ups/client.py:45-49 | a carrier fault with code c and description d gives exactly "UPS Error c: d" |
| `Fault.EmptyCodeReadsAsNone` | ups/client.py:45-47 | a code node without text is reported as "None" |
| `Fault.MissingDetailIsMalformed` | ups/client.py:45 | a fault without a `detail` node is malformed at the code path |
| `Fault.SplitMessage` | ups/client.py:47 | whatever it reads back recomposes the message it was read from, with a code free of ':' |
| `Fault.MessageRoundTrip` | ups/client.py:47 | a code without ':' and the description are recovered from the message |
| `RateService.MissingSecurityKey` | ups/client.py:73-79 | the `KeyError` key is the first of username, password, access_license missing from the credentials, and there is none exactly when all three are present |
| `RateService.MissingShipperNumberScenario` | ups/client.py:180-195 | credentials with the three security keys and no shipper number pass the header and fail the build with `KeyError('shipper_number')` |
| `RateService.Rate` | ups/client.py:177-221 | a missing security credential gives its `KeyError` before anything is built; a failed build is returned as is; otherwise the shipment, marked for negotiated rates, goes to the gateway; a response gives its status unchanged and one quote per rated shipment in order; a web fault gives the translated fault |

## Left out

- SOAP plumbing: client construction, WSDL URL building, the namespace-prefix plugin, the endpoint location, and the `ProcessRate` call (ups/client.py:52-54, 94-105, 179-181, 199-200). These are library calls and network I/O. The gateway is a function parameter of `Rate`.
- `_add_security_header` (ups/client.py:68-85) builds a SOAP header from the credentials. Only its three credential lookups, and the `KeyError` when one is missing, are modelled, by `RateService.MissingSecurityKey`. The header elements and namespaces are library objects.
- The request, classification and pickup objects (ups/client.py:183-192) hold fixed codes that are passed only to the gateway. The model's gateway receives only the shipment.
- The `namespace` argument of `_create_shipment` only names the schema namespace for the object factory.
- The WSDL directory in `UPSClient.__init__` (ups/client.py:60-61) is a filesystem path. The `debug` flag is stored and never used.
- `Text.Lower`: lowers only 'A'..'Z', because Python's Unicode case mapping of other characters is not modelled.
- Package numbers are integers: floating-point or `Decimal` dimensions, weights and values are not modelled. A boolean `require_signature` would format as "True", which is not modelled.
- `Address` fields are strings. A `None` company name, which would fail on slicing, is not modelled.
- Every rated shipment has a published total. The `AttributeError` the source raises when that total is missing is not modelled.
- A `UPSError` keeps only its message, not the fault and document objects it also stores.
- How the XML library resolves a path on a whole reply document (namespaces, the document root) is not part of this model. The path is walked from the node it is given.
