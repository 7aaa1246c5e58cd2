/** The station card of the older front-end
    (components/GasStationCard.tsx): always a text search link. */
module LegacyGasStationCard {
  import opened Types
  import GasStationCard

  /** `mapsUrl`: a maps search for "name address". */
  function MapsUrl(station: GasStation, encode: string -> string): (url: string)
    ensures url == GasStationCard.MAPS_SEARCH + encode(station.name + " " + station.address)
    ensures GasStationCard.KindOf(url) == GasStationCard.Search
  {
    var url := GasStationCard.MAPS_SEARCH + encode(station.name + " " + station.address);
    GasStationCard.NavigationUrlKind(station.(location := None), false, encode, (x: real) => "");
    url
  }

  /** The link does not depend on the station's coordinates. */
  lemma MapsUrlIgnoresLocation(station: GasStation, location: Option<Coordinates>, encode: string -> string)
    ensures MapsUrl(station.(location := location), encode) == MapsUrl(station, encode)
  {
  }

  /** The older card's link is the newer card's link for a station without
      coordinates, on any device. */
  lemma MapsUrlIsNewFallback(station: GasStation, isMobile: bool, encode: string -> string, fmt: real -> string)
    requires station.location.None?
    ensures MapsUrl(station, encode) == GasStationCard.NavigationUrl(station, isMobile, encode, fmt)
  {
  }

  /** The distance line is rendered only for a present, non-empty distance. */
  function ShowsDistance(station: GasStation): (shown: bool)
    ensures shown ==> station.distance.Some? && |station.distance.value| > 0
    ensures station.distance.Some? && station.distance.value != "" ==> shown
  {
    match station.distance
    case Some(d) => d != ""
    case None => false
  }

  /** The number on the card's badge: the same one-based position as the newer card. */
  function BadgeNumber(index: nat): (n: nat)
    ensures n == GasStationCard.BadgeNumber(index)
    ensures n >= 1
  {
    index + 1
  }
}
