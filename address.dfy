/**
 * The one-line shipping address stored on an order: the parts Telegram
 * reports that are present, in a fixed order, joined by ", ".
 */
module Address {
  import opened Text

  /** Telegram's shipping address; an absent part is the empty string. */
  datatype ShippingAddress = ShippingAddress(
    countryCode: string,
    state: string,
    city: string,
    streetLine1: string,
    streetLine2: string,
    postCode: string)

  const Russia := "Россия"
  const Kazakhstan := "Казахстан"
  const Belarus := "Беларусь"
  const StreetPrefix := "ул. "
  const PostCodePrefix := "индекс: "
  const Separator := ", "

  /** The country as written: the upper-cased code, with the three neighbouring codes spelled out. */
  function CountryName(code: string): (name: string)
    ensures Upper(code) == "RU" ==> name == Russia
    ensures Upper(code) == "KZ" ==> name == Kazakhstan
    ensures Upper(code) == "BY" ==> name == Belarus
    ensures Upper(code) !in {"RU", "KZ", "BY"} ==> name == Upper(code)
  {
    var country := Upper(code);
    if country == "RU" then Russia
    else if country == "KZ" then Kazakhstan
    else if country == "BY" then Belarus
    else country
  }

  /** `[x]` when `present`, else nothing. */
  function When(present: bool, x: string): (r: seq<string>)
    ensures |r| == if present then 1 else 0
  {
    if present then [x] else []
  }

  /**
   * The parts in order: the country if a code is given; the state if given
   * and different from the city; the city, always; the first street line
   * after "ул. "; the second street line; the post code after "индекс: ".
   */
  function AddressParts(a: ShippingAddress): (parts: seq<string>)
  {
    When(a.countryCode != "", CountryName(a.countryCode))
    + When(a.state != "" && a.state != a.city, a.state)
    + [a.city]
    + When(a.streetLine1 != "", StreetPrefix + a.streetLine1)
    + When(a.streetLine2 != "", a.streetLine2)
    + When(a.postCode != "", PostCodePrefix + a.postCode)
  }

  /**
   * `format_address(address)`: the list of parts is built by conditional
   * appends and joined with ", ".
   */
  method FormatAddress(a: ShippingAddress) returns (s: string)
    ensures s == Join(AddressParts(a), Separator)
  {
    var parts: seq<string> := [];
    if a.countryCode != "" {
      parts := parts + [CountryName(a.countryCode)];
    }
    ghost var country := When(a.countryCode != "", CountryName(a.countryCode));
    assert parts == country;
    if a.state != "" && a.state != a.city {
      parts := parts + [a.state];
    }
    ghost var head := country + When(a.state != "" && a.state != a.city, a.state) + [a.city];
    parts := parts + [a.city];
    assert parts == head;
    if a.streetLine1 != "" {
      parts := parts + [StreetPrefix + a.streetLine1];
    }
    head := head + When(a.streetLine1 != "", StreetPrefix + a.streetLine1);
    assert parts == head;
    if a.streetLine2 != "" {
      parts := parts + [a.streetLine2];
    }
    head := head + When(a.streetLine2 != "", a.streetLine2);
    assert parts == head;
    if a.postCode != "" {
      parts := parts + [PostCodePrefix + a.postCode];
    }
    assert parts == AddressParts(a);
    s := Join(parts, Separator);
  }

  /** How many of the optional parts are present. */
  function Present(a: ShippingAddress): nat
  {
    (if a.countryCode != "" then 1 else 0)
    + (if a.state != "" && a.state != a.city then 1 else 0)
    + (if a.streetLine1 != "" then 1 else 0)
    + (if a.streetLine2 != "" then 1 else 0)
    + (if a.postCode != "" then 1 else 0)
  }

  /**
   * The city is always a part, right after the country and the state that
   * are present; besides it there is one part per optional field present.
   */
  lemma CityAlwaysListed(a: ShippingAddress)
    ensures |AddressParts(a)| == Present(a) + 1
    ensures var at := (if a.countryCode != "" then 1 else 0) + (if a.state != "" && a.state != a.city then 1 else 0);
      AddressParts(a)[at] == a.city
  {
  }

  /** A state equal to the city is not repeated: the parts are the same as with no state. */
  lemma StateSameAsCityDropped(a: ShippingAddress)
    requires a.state == a.city
    ensures AddressParts(a) == AddressParts(a.(state := ""))
  {
  }

  /** The country code is read case-insensitively: any code names the country its upper-case form names. */
  lemma CountryCodeIgnoresCase(code: string)
    ensures CountryName(code) == CountryName(Upper(code))
  {
    UpperIdempotent(code);
  }

  /** The first street line is always shown after its prefix, the post code after its own. */
  lemma StreetAndPostCodePrefixed(a: ShippingAddress)
    requires a.streetLine1 != "" && a.postCode != ""
    ensures StreetPrefix + a.streetLine1 in AddressParts(a)
    ensures AddressParts(a)[|AddressParts(a)| - 1] == PostCodePrefix + a.postCode
  {
    var parts := AddressParts(a);
    var at := (if a.countryCode != "" then 1 else 0) + (if a.state != "" && a.state != a.city then 1 else 0) + 1;
    assert parts[at] == StreetPrefix + a.streetLine1;
  }
}
