/**
 * The reverse-geocoding payload, the normalised address record built from it
 * in getAddressFromLocation, and formatAddress on top of that record.
 */
module Address {
  import opened Wrappers
  import opened JsValues

  /** `{ name }` parts of the address component (neighbourhood, building). */
  datatype NamedPart = NamedPart(name: Option<string>)

  datatype StreetNumber = StreetNumber(street: Option<string>, number: Option<string>)

  /** `regeocode.addressComponent` as the service returns it. */
  datatype AddressComponent = AddressComponent(
    province: Option<string>,
    city: Option<string>,
    district: Option<string>,
    township: Option<string>,
    towncode: Option<string>,
    neighborhood: Option<NamedPart>,
    building: Option<NamedPart>,
    streetNumber: Option<StreetNumber>)

  datatype Regeocode = Regeocode(formattedAddress: Option<string>, addressComponent: AddressComponent)

  /** The normalised address record handed to callers and stored in the cache. */
  datatype AddressRecord = AddressRecord(
    formattedAddress: Option<string>,
    province: Option<string>,
    city: Option<string>,
    district: Option<string>,
    township: Option<string>,
    towncode: Option<string>,
    neighborhood: string,
    building: string,
    streetNumber: string,
    shortAddress: string)

  /** `part?.name || ""`. */
  function PartName(part: Option<NamedPart>): (r: string)
    ensures r != "" <==> part.Some? && Truthy(part.value.name)
    ensures r != "" ==> r == part.value.name.value
  {
    match part
    case None => ""
    case Some(p) => OrElse(p.name, "")
  }

  /** Builds the record of lines 81-92 from a successful reverse-geocoding answer. */
  function Normalise(g: Regeocode): (r: AddressRecord)
    // fields passed through unchanged
    ensures r.formattedAddress == g.formattedAddress
    ensures r.province == g.addressComponent.province
    ensures r.district == g.addressComponent.district
    ensures r.township == g.addressComponent.township
    ensures r.towncode == g.addressComponent.towncode
    // a missing or empty city is replaced by the province
    ensures Truthy(g.addressComponent.city) ==> r.city == g.addressComponent.city
    ensures !Truthy(g.addressComponent.city) ==> r.city == g.addressComponent.province
    // optional parts default to the empty string
    ensures r.neighborhood == PartName(g.addressComponent.neighborhood)
    ensures r.building == PartName(g.addressComponent.building)
    ensures g.addressComponent.streetNumber.None? ==> r.streetNumber == ""
    ensures g.addressComponent.streetNumber.Some? ==>
      r.streetNumber == Interpolate(g.addressComponent.streetNumber.value.street)
                        + Interpolate(g.addressComponent.streetNumber.value.number)
    // the short form is district then township
    ensures r.shortAddress == Interpolate(g.addressComponent.district) + Interpolate(g.addressComponent.township)
  {
    var c := g.addressComponent;
    AddressRecord(
      g.formattedAddress,
      c.province,
      Or(c.city, c.province),
      c.district,
      c.township,
      c.towncode,
      PartName(c.neighborhood),
      PartName(c.building),
      match c.streetNumber
      case Some(sn) => Interpolate(sn.street) + Interpolate(sn.number)
      case None => "",
      Interpolate(c.district) + Interpolate(c.township))
  }

  /** The normalised city is usable exactly when the service gave a city or a province. */
  lemma CityFallback(g: Regeocode)
    ensures Truthy(Normalise(g).city) <==> Truthy(g.addressComponent.city) || Truthy(g.addressComponent.province)
  {
  }

  const UnknownLocation: string := "未知位置"

  /**
   * `formatAddress(addressData, type)`; `style` is `None` when the caller
   * leaves `type` out, which means "full". `None` in the result is what the
   * JavaScript returns when the chosen field is itself `undefined`.
   */
  function FormatAddress(addressData: Option<AddressRecord>, style: Option<string>): (r: Option<string>)
    ensures addressData.None? ==> r == Some(UnknownLocation)
    ensures addressData.Some? ==>
      var a := addressData.value;
      var key := style.GetOr("full");
      && (key == "short" ==> r == Some(a.shortAddress))
      && (key == "medium" ==> r == Some(Interpolate(a.district) + Interpolate(a.township) + a.building))
      && (key == "province-city" ==> r == Some(Interpolate(a.province) + Interpolate(a.district)))
      && (key !in {"short", "medium", "province-city"} ==> r == a.formattedAddress)
  {
    match addressData
    case None => Some(UnknownLocation)
    case Some(a) =>
      match style.GetOr("full")
      case "full" => a.formattedAddress
      case "short" => Some(a.shortAddress)
      case "medium" => Some(Interpolate(a.district) + Interpolate(a.township) + a.building)
      case "province-city" => Some(Interpolate(a.province) + Interpolate(a.district))
      case _ => a.formattedAddress
  }

  /** An unrecognised style key formats exactly like the default one. */
  lemma {:induction false} UnknownStyleIsFull(a: Option<AddressRecord>, key: string)
    requires key !in {"full", "short", "medium", "province-city"}
    ensures FormatAddress(a, Some(key)) == FormatAddress(a, None)
    ensures FormatAddress(a, None) == FormatAddress(a, Some("full"))
  {
  }

  /** On a normalised record the medium form is the short form followed by the building. */
  lemma MediumExtendsShort(g: Regeocode)
    ensures FormatAddress(Some(Normalise(g)), Some("medium")).Some?
    ensures FormatAddress(Some(Normalise(g)), Some("medium")).value
         == FormatAddress(Some(Normalise(g)), Some("short")).value + Normalise(g).building
  {
  }

  /** Example: a record with district "D", township "T", building "B". */
  lemma FormatExamples()
    ensures
      var a := AddressRecord(Some("X"), Some("P"), Some("P"), Some("D"), Some("T"), None, "", "B", "", "Y");
      && FormatAddress(Some(a), Some("short")) == Some("Y")
      && FormatAddress(Some(a), Some("medium")) == Some("DTB")
      && FormatAddress(Some(a), None) == Some("X")
      && FormatAddress(None, Some("short")) == Some("未知位置")
  {
    assert "D" + "T" + "B" == "DTB";
  }
}
