/** The entity shape of the catalog (src/lib/types.ts): an address record
    tagged by its planet, with a common part, an optional Earth postal
    group and an optional Mars lot. */
module Types {

  /** `undefined` versus a present value, for the optional members of the record. */
  datatype Option<T> = None | Some(value: T)

  /** The `PlanetType` enum; its wire values are "earth" and "mars". */
  datatype PlanetType = Earth | Mars

  /** The `addressType` union "shipping" | "billing". */
  datatype AddressType = Shipping | Billing

  /** An `Address`. `id`, `label` (here `labelText`, as `label` is a Dafny keyword), `name` and `phone` are always present;
      the Earth group and `marsLot` are each optional and independent of
      the tag, so the type itself does not keep them exclusive. */
  datatype Address = Address(
    id: string,
    planetType: PlanetType,
    addressType: AddressType,
    labelText: string,
    name: string,
    phone: string,
    addressLine: Option<string>,
    country: Option<string>,
    state: Option<string>,
    city: Option<string>,
    zipCode: Option<string>,
    marsLot: Option<string>)

  /** The string value of a `PlanetType` member. */
  function PlanetTag(p: PlanetType): (s: string)
    ensures s == "earth" || s == "mars"
  {
    match p
    case Earth => "earth"
    case Mars => "mars"
  }

  /** Reads a planet tag back; only the two enum values are accepted. */
  function ParsePlanet(s: string): (r: Option<PlanetType>)
    ensures r.Some? <==> s == "earth" || s == "mars"
    ensures r.Some? ==> PlanetTag(r.value) == s
  {
    if s == "earth" then Some(Earth)
    else if s == "mars" then Some(Mars)
    else None
  }

  lemma PlanetTagRoundTrip(p: PlanetType)
    ensures ParsePlanet(PlanetTag(p)) == Some(p)
  {
  }

  /** The string value of an `addressType`. */
  function AddressTypeTag(t: AddressType): (s: string)
    ensures s == "shipping" || s == "billing"
  {
    match t
    case Shipping => "shipping"
    case Billing => "billing"
  }

  /** Reads an address type back; only "shipping" and "billing" are accepted. */
  function ParseAddressType(s: string): (r: Option<AddressType>)
    ensures r.Some? <==> s == "shipping" || s == "billing"
    ensures r.Some? ==> AddressTypeTag(r.value) == s
  {
    if s == "shipping" then Some(Shipping)
    else if s == "billing" then Some(Billing)
    else None
  }

  lemma AddressTypeTagRoundTrip(t: AddressType)
    ensures ParseAddressType(AddressTypeTag(t)) == Some(t)
  {
  }

  /** The two planet tags are distinct, so the tag determines the member. */
  lemma PlanetTagInjective(p: PlanetType, q: PlanetType)
    ensures PlanetTag(p) == PlanetTag(q) <==> p == q
  {
    if p != q {
      assert PlanetTag(p)[0] != PlanetTag(q)[0];
    }
  }

  /** A record may carry both an Earth group and a Mars lot: nothing in the
      type rules it out. */
  lemma TypeAllowsBothGroups()
    ensures exists a: Address :: a.addressLine.Some? && a.marsLot.Some?
  {
    var a := Address("1", Mars, Shipping, "Casa", "Ana", "12345678",
                     Some("Rua A"), Some("Brazil"), Some("SP"), Some("SP"), Some("12345"), Some("1234"));
    assert a.addressLine.Some? && a.marsLot.Some?;
  }
}
