/** The station card of the current front-end
    (src/components/GasStationCard.tsx): its navigation link and its badge. */
module GasStationCard {
  import opened Types

  const GEO_SCHEME := "geo:"
  const MAPS_BASE := "https://www.google.com/maps/"
  const MAPS_DIRECTIONS := MAPS_BASE + "dir/?api=1&destination="
  const MAPS_SEARCH := MAPS_BASE + "search/?api=1&query="

  /** The three kinds of link the card can produce. */
  datatype UrlKind = GeoLink | Directions | Search | Unknown

  /** Tells the kind of a link from its prefix alone. */
  function KindOf(url: string): UrlKind
  {
    if GEO_SCHEME <= url then GeoLink
    else if MAPS_DIRECTIONS <= url then Directions
    else if MAPS_SEARCH <= url then Search
    else Unknown
  }

  /** `lat,lon` as the template strings print it. */
  function LatLon(location: Coordinates, fmt: real -> string): string
  {
    fmt(location.latitude) + "," + fmt(location.longitude)
  }

  /** `getNavigationUrl`. `isMobile` stands for the user-agent test,
      `encode` for `encodeURIComponent` and `fmt` for number-to-text. */
  function NavigationUrl(station: GasStation, isMobile: bool, encode: string -> string, fmt: real -> string): (url: string)
    ensures station.location.Some? && isMobile ==>
      url == GEO_SCHEME + LatLon(station.location.value, fmt) + "?q=" + LatLon(station.location.value, fmt)
             + "(" + encode(station.name) + ")"
    ensures station.location.Some? && !isMobile ==>
      url == MAPS_DIRECTIONS + LatLon(station.location.value, fmt)
    ensures station.location.None? ==>
      url == MAPS_SEARCH + encode(station.name + " " + station.address)
  {
    match station.location
    case Some(location) =>
      if isMobile then
        GEO_SCHEME + LatLon(location, fmt) + "?q=" + LatLon(location, fmt) + "(" + encode(station.name) + ")"
      else
        MAPS_DIRECTIONS + LatLon(location, fmt)
    case None =>
      MAPS_SEARCH + encode(station.name + " " + station.address)
  }

  lemma PrefixOf(prefix: string, rest: string)
    ensures prefix <= prefix + rest
  {
    assert (prefix + rest)[..|prefix|] == prefix;
  }

  /** The branch taken can be read back from the link: a geo link exactly
      for a located station on a mobile device, a directions link for a
      located station elsewhere, a text search when the station has no
      coordinates. */
  lemma NavigationUrlKind(station: GasStation, isMobile: bool, encode: string -> string, fmt: real -> string)
    ensures KindOf(NavigationUrl(station, isMobile, encode, fmt)) ==
      if station.location.None? then Search else if isMobile then GeoLink else Directions
  {
    var url := NavigationUrl(station, isMobile, encode, fmt);
    match station.location
    case Some(location) =>
      if isMobile {
        var rest := LatLon(location, fmt) + "?q=" + LatLon(location, fmt) + "(" + encode(station.name) + ")";
        assert url == GEO_SCHEME + rest;
        PrefixOf(GEO_SCHEME, rest);
      } else {
        var rest := LatLon(location, fmt);
        assert url == MAPS_DIRECTIONS + rest;
        PrefixOf(MAPS_DIRECTIONS, rest);
        assert url[0] == MAPS_DIRECTIONS[0] == 'h';
      }
    case None =>
      var rest := encode(station.name + " " + station.address);
      assert url == MAPS_SEARCH + rest;
      PrefixOf(MAPS_SEARCH, rest);
      assert url[0] == MAPS_SEARCH[0] == 'h';
      assert url[28] == MAPS_SEARCH[28] == 's' != MAPS_DIRECTIONS[28];
  }

  /** The device type changes the link if and only if the station has coordinates. */
  lemma MobileMattersIffLocated(station: GasStation, encode: string -> string, fmt: real -> string)
    ensures NavigationUrl(station, true, encode, fmt) == NavigationUrl(station, false, encode, fmt)
            <==> station.location.None?
  {
    NavigationUrlKind(station, true, encode, fmt);
    NavigationUrlKind(station, false, encode, fmt);
  }

  /** The number on the card's badge: one-based position in the list. */
  function BadgeNumber(index: nat): (n: nat)
    ensures n >= 1
    ensures n - 1 == index
  {
    index + 1
  }
}
