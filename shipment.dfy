/**
 * Building the shipment record sent with a rate request: one package entry
 * per input package, then the shipper and the recipient, then the fixed
 * service selector.
 */
module ShipmentBuilder {
  import opened Wrappers
  import opened Text
  import opened Domain
  import opened Country

  /**
   * Which packaging attribute the schema's package type offers. The client
   * probes `Packaging` first, then `PackagingType`, and sets neither when the
   * schema has neither.
   */
  datatype PackagingField = Packaging | PackagingType | NoPackagingField

  /** What the active schema supports: its packaging attribute and whether it has a reference-number type. */
  datatype Schema = Schema(packagingField: PackagingField, referenceNumberType: bool)

  /** The builder's keyword flags; both default to true. */
  datatype BuildOptions = BuildOptions(createReferenceNumber: bool, canAddDeliveryConfirmation: bool)

  const DEFAULT_OPTIONS: BuildOptions := BuildOptions(true, true)

  /** The longest party name the carrier accepts. */
  const NAME_LIMIT: nat := 35

  datatype Dimensions = Dimensions(unit: string, length: int, width: int, height: int)
  datatype PackageWeight = PackageWeight(unit: string, weight: int)
  datatype DeclaredValue = DeclaredValue(currencyCode: string, monetaryValue: int)
  datatype PackageServiceOptions = PackageServiceOptions(
    deliveryConfirmation: Option<string>,
    declaredValue: Option<DeclaredValue>)

  /** One package entry of the shipment; an unset attribute is `None` (or an empty list). */
  datatype PackageEntry = PackageEntry(
    packaging: Option<string>,
    packagingType: Option<string>,
    dimensions: Dimensions,
    weight: PackageWeight,
    serviceOptions: PackageServiceOptions,
    referenceNumbers: seq<string>)

  datatype PartyAddress = PartyAddress(
    addressLines: seq<string>,
    city: string,
    postalCode: string,
    countryCode: string,
    stateProvinceCode: Option<string>,
    residentialIndicator: bool)

  datatype Party = Party(name: string, address: PartyAddress, shipperNumber: Option<string>)

  datatype Service = Service(code: string, description: string)

  /**
   * The shipment record. `shipmentServiceOptions` is the empty marker the
   * builder always sets; `negotiatedRatesIndicator` records whether the
   * negotiated-rates marker is present.
   */
  datatype Shipment = Shipment(
    packages: seq<PackageEntry>,
    shipper: Party,
    shipTo: Party,
    service: Service,
    shipmentServiceOptions: string,
    negotiatedRatesIndicator: bool)

  /** The package entry built for one input package. */
  function PackageEntryOf(client: UpsClient, schema: Schema, boxShape: string, options: BuildOptions, p: Package): (e: PackageEntry)
    ensures e.packaging.Some? <==> schema.packagingField == Packaging
    ensures e.packagingType.Some? <==> schema.packagingField == PackagingType
    ensures e.packaging.Some? ==> e.packaging.value == boxShape
    ensures e.packagingType.Some? ==> e.packagingType.value == boxShape
    ensures e.dimensions == Dimensions(client.dimensionUnit, p.length, p.width, p.height)
    ensures e.weight == PackageWeight(client.weightUnit, p.weight)
    ensures e.serviceOptions.deliveryConfirmation.Some? <==> options.canAddDeliveryConfirmation && p.requireSignature != 0
    ensures e.serviceOptions.deliveryConfirmation.Some? ==>
      e.serviceOptions.deliveryConfirmation.value == IntToDecimal(p.requireSignature)
    ensures e.serviceOptions.deliveryConfirmation.Some? ==>
      ParseInt(e.serviceOptions.deliveryConfirmation.value) == Some(p.requireSignature)
    ensures e.serviceOptions.declaredValue.Some? <==> p.value != 0
    ensures e.serviceOptions.declaredValue.Some? ==>
      e.serviceOptions.declaredValue.value == DeclaredValue(client.currencyCode, p.value)
    ensures |e.referenceNumbers| <= 1
    ensures e.referenceNumbers != [] <==>
      options.createReferenceNumber && p.reference != "" && schema.referenceNumberType
    ensures e.referenceNumbers != [] ==> e.referenceNumbers[0] == p.reference
  {
    IntToDecimalRoundTrip(p.requireSignature);
    var packaging := if schema.packagingField == Packaging then Some(boxShape) else None;
    var packagingType := if schema.packagingField == PackagingType then Some(boxShape) else None;
    var confirmation :=
      if options.canAddDeliveryConfirmation && p.requireSignature != 0
      then Some(IntToDecimal(p.requireSignature)) else None;
    var declared := if p.value != 0 then Some(DeclaredValue(client.currencyCode, p.value)) else None;
    var references :=
      if options.createReferenceNumber && p.reference != "" && schema.referenceNumberType
      then [p.reference] else [];
    PackageEntry(
      packaging, packagingType,
      Dimensions(client.dimensionUnit, p.length, p.width, p.height),
      PackageWeight(client.weightUnit, p.weight),
      PackageServiceOptions(confirmation, declared),
      references)
  }

  /** The entries for a list of packages, one per package, in order. */
  function PackageEntries(client: UpsClient, schema: Schema, boxShape: string, options: BuildOptions, ps: seq<Package>): (es: seq<PackageEntry>)
    ensures |es| == |ps|
    ensures forall i :: 0 <= i < |ps| ==> es[i] == PackageEntryOf(client, schema, boxShape, options, ps[i])
  {
    if ps == [] then []
    else [PackageEntryOf(client, schema, boxShape, options, ps[0])]
         + PackageEntries(client, schema, boxShape, options, ps[1..])
  }

  /** Building the entries of two lists one after the other is building the entries of their concatenation. */
  lemma PackageEntriesAppend(client: UpsClient, schema: Schema, boxShape: string, options: BuildOptions, a: seq<Package>, b: seq<Package>)
    ensures PackageEntries(client, schema, boxShape, options, a + b)
         == PackageEntries(client, schema, boxShape, options, a) + PackageEntries(client, schema, boxShape, options, b)
  {
  }

  /**
   * `company_name[:35] or name[:35]`: the company name when it is not empty,
   * otherwise the personal name, cut to its first 35 characters.
   */
  function DisplayName(a: Address): (r: string)
    ensures var chosen := if a.companyName != "" then a.companyName else a.name;
      |r| == (if |chosen| < NAME_LIMIT then |chosen| else NAME_LIMIT) && r == chosen[..|r|]
  {
    var company := Prefix(a.companyName, NAME_LIMIT);
    var personal := Prefix(a.name, NAME_LIMIT);
    if company != "" then company else personal
  }

  /** The address block shared by shipper and recipient. */
  function PartyAddressOf(a: Address): (r: PartyAddress)
    ensures r.addressLines == [a.address1, a.address2]
    ensures r.city == a.city && r.postalCode == a.zip
    ensures r.countryCode == NormalizeCountryCode(a.country)
    ensures r.stateProvinceCode.Some? <==> r.countryCode in STATE_COUNTRIES
    ensures r.stateProvinceCode.Some? ==> r.stateProvinceCode.value == a.state
    ensures !r.residentialIndicator
  {
    var country := NormalizeCountryCode(a.country);
    PartyAddress(
      [a.address1, a.address2], a.city, a.zip, country,
      if StateApplies(country) then Some(a.state) else None,
      false)
  }

  /** The shipper: display name, address and the account's shipper number; never residential. */
  function ShipperOf(a: Address, shipperNumber: string): (r: Party)
    ensures r.name == DisplayName(a) && r.address == PartyAddressOf(a)
    ensures r.shipperNumber == Some(shipperNumber)
    ensures !r.address.residentialIndicator
  {
    Party(DisplayName(a), PartyAddressOf(a), Some(shipperNumber))
  }

  /** The recipient: no shipper number; residential exactly when the address is a residence. */
  function ShipToOf(a: Address): (r: Party)
    ensures r.name == DisplayName(a)
    ensures r.address == PartyAddressOf(a).(residentialIndicator := a.isResidence)
    ensures r.shipperNumber.None?
    ensures r.address.residentialIndicator <==> a.isResidence
  {
    var address := PartyAddressOf(a);
    Party(DisplayName(a), address.(residentialIndicator := a.isResidence), None)
  }

  /** The service selector is pinned to Worldwide Expedited, whatever the request. */
  const FIXED_SERVICE: Service := Service("08", "Service Code")

  /**
   * The shipment the builder produces, or the `KeyError` raised when the
   * credentials hold no shipper number.
   */
  function ShipmentOf(client: UpsClient, schema: Schema, packages: seq<Package>, shipper: Address,
                      recipient: Address, boxShape: string, options: BuildOptions): (r: Result<Shipment, Failure>)
    ensures r.Ok? <==> SHIPPER_NUMBER in client.credentials
    ensures r.Err? ==> r.error == KeyError(SHIPPER_NUMBER)
    ensures r.Ok? ==> |r.value.packages| == |packages|
    ensures r.Ok? ==> forall i :: 0 <= i < |packages| ==>
      r.value.packages[i] == PackageEntryOf(client, schema, boxShape, options, packages[i])
    ensures r.Ok? ==> r.value.shipper == ShipperOf(shipper, client.credentials[SHIPPER_NUMBER])
    ensures r.Ok? ==> r.value.shipTo == ShipToOf(recipient)
    ensures r.Ok? ==> r.value.service.code == "08"
    ensures r.Ok? ==> r.value.shipmentServiceOptions == "" && !r.value.negotiatedRatesIndicator
  {
    if SHIPPER_NUMBER !in client.credentials then Err(KeyError(SHIPPER_NUMBER))
    else Ok(Shipment(
      PackageEntries(client, schema, boxShape, options, packages),
      ShipperOf(shipper, client.credentials[SHIPPER_NUMBER]),
      ShipToOf(recipient),
      FIXED_SERVICE, "", false))
  }

  /**
   * `_create_shipment`: creates the entry of each package in turn and appends
   * it, then fills in the shipper, the recipient and the service.
   */
  method CreateShipment(client: UpsClient, schema: Schema, packages: seq<Package>, shipper: Address,
                        recipient: Address, boxShape: string, options: BuildOptions)
    returns (r: Result<Shipment, Failure>)
    ensures r == ShipmentOf(client, schema, packages, shipper, recipient, boxShape, options)
  {
    var entries: seq<PackageEntry> := [];
    var i := 0;
    while i < |packages|
      invariant 0 <= i <= |packages|
      invariant |entries| == i
      invariant forall k :: 0 <= k < i ==> entries[k] == PackageEntryOf(client, schema, boxShape, options, packages[k])
    {
      var p := packages[i];
      var packaging: Option<string> := None;
      var packagingType: Option<string> := None;
      if schema.packagingField == Packaging {
        packaging := Some(boxShape);
      } else if schema.packagingField == PackagingType {
        packagingType := Some(boxShape);
      }
      var dimensions := Dimensions(client.dimensionUnit, p.length, p.width, p.height);
      var weight := PackageWeight(client.weightUnit, p.weight);
      var confirmation: Option<string> := None;
      if options.canAddDeliveryConfirmation && p.requireSignature != 0 {
        confirmation := Some(IntToDecimal(p.requireSignature));
      }
      var declared: Option<DeclaredValue> := None;
      if p.value != 0 {
        declared := Some(DeclaredValue(client.currencyCode, p.value));
      }
      var references: seq<string> := [];
      if options.createReferenceNumber && p.reference != "" {
        // a schema without the reference-number type skips the reference silently
        if schema.referenceNumberType {
          references := references + [p.reference];
        }
      }
      entries := entries + [PackageEntry(packaging, packagingType, dimensions, weight,
                                         PackageServiceOptions(confirmation, declared), references)];
      i := i + 1;
    }
    if SHIPPER_NUMBER !in client.credentials {
      return Err(KeyError(SHIPPER_NUMBER));
    }
    var from := Party(DisplayName(shipper), PartyAddressOf(shipper), Some(client.credentials[SHIPPER_NUMBER]));
    var to := Party(DisplayName(recipient), PartyAddressOf(recipient).(residentialIndicator := recipient.isResidence), None);
    assert entries == PackageEntries(client, schema, boxShape, options, packages);
    r := Ok(Shipment(entries, from, to, FIXED_SERVICE, "", false));
  }

  /** A party outside the state countries is sent without any `StateProvinceCode`. */
  lemma NoStateOutsideAllowList(client: UpsClient, schema: Schema, packages: seq<Package>,
                                  shipper: Address, recipient: Address, boxShape: string, options: BuildOptions)
    requires SHIPPER_NUMBER in client.credentials
    ensures var s := ShipmentOf(client, schema, packages, shipper, recipient, boxShape, options).value;
      && (s.shipper.address.stateProvinceCode.None? <==> !StateApplies(NormalizeCountryCode(shipper.country)))
      && (s.shipTo.address.stateProvinceCode.None? <==> !StateApplies(NormalizeCountryCode(recipient.country)))
  {
  }

  /** Both parties in "brazil", one 2x3x4 package of weight 5: no state codes, the country text kept. */
  lemma BrazilScenario(client: UpsClient, schema: Schema, shipper: Address, recipient: Address)
    requires SHIPPER_NUMBER in client.credentials
    requires shipper.country == "brazil" && recipient.country == "brazil"
    ensures var r := ShipmentOf(client, schema, [Package(2, 3, 4, 5, 0, 0, "")], shipper, recipient, "21", DEFAULT_OPTIONS);
      && r.Ok?
      && |r.value.packages| == 1
      && r.value.packages[0].dimensions == Dimensions(client.dimensionUnit, 2, 3, 4)
      && r.value.packages[0].weight == PackageWeight(client.weightUnit, 5)
      && r.value.packages[0].serviceOptions == PackageServiceOptions(None, None)
      && r.value.packages[0].referenceNumbers == []
      && r.value.shipper.address.countryCode == "brazil" && r.value.shipTo.address.countryCode == "brazil"
      && r.value.shipper.address.stateProvinceCode.None? && r.value.shipTo.address.stateProvinceCode.None?
  {
    OtherCountriesUnchanged();
  }

  /** A shipper in "usa" is sent as "US", with its state. */
  lemma UsaShipperScenario(client: UpsClient, schema: Schema, packages: seq<Package>, shipper: Address, recipient: Address)
    requires SHIPPER_NUMBER in client.credentials
    requires shipper.country == "usa"
    ensures var r := ShipmentOf(client, schema, packages, shipper, recipient, "02", DEFAULT_OPTIONS);
      && r.Ok?
      && r.value.shipper.address.countryCode == "US"
      && r.value.shipper.address.stateProvinceCode == Some(shipper.state)
  {
    assert SpelledInAnyCase("usa", "usa");
  }
}
