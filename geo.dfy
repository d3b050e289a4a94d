/** Values shared by the map page and the script hook: coordinates, the four viewport corners,
    the body of the store search request and the store records it returns. */
module Geo {

  datatype Option<T> = None | Some(value: T)

  /** A point as the map SDK's LatLng carries it. Coordinates are only compared with 0 and
      passed through, so they are kept as reals. */
  datatype LatLng = LatLng(lat: real, lng: real)

  /** The viewport corners the bounds helper reports for a map (the store's boundsCoords). */
  datatype BoundsCoords = BoundsCoords(coordsNorthEast: LatLng, coordsSouthWest: LatLng)

  /** The body of POST /lotto-stores. */
  datatype FetchBody = FetchBody(northEastLat: real, northEastLon: real, southWestLat: real, southWestLon: real)

  /** One lottery store as the endpoint returns it; coordinates already numeric. */
  datatype StoreRecord = StoreRecord(id: int, name: string, lat: real, lon: real)

  /** The data endpoint: what POST /lotto-stores answers for a body. */
  type Fetch = FetchBody -> seq<StoreRecord>

  /** Fallback centre used when the location permission is refused. */
  const DenyCenter := LatLng(36.2, 127.8)

  /** Fixed whole-country box fetched when the location permission is refused. */
  const DenyBox := FetchBody(38.0, 132.0, 33.0, 124.0)

  const ZeroBounds := BoundsCoords(LatLng(0.0, 0.0), LatLng(0.0, 0.0))

  /** The zero guard of the position handlers: a reading is used only when NEITHER coordinate is 0. */
  predicate Usable(p: LatLng)
  {
    p.lat != 0.0 && p.lng != 0.0
  }

  /** All four corner coordinates are non-zero. */
  predicate NonZeroCorners(b: BoundsCoords)
  {
    b.coordsNorthEast.lat != 0.0 && b.coordsNorthEast.lng != 0.0 &&
    b.coordsSouthWest.lat != 0.0 && b.coordsSouthWest.lng != 0.0
  }

  /** The request body built from the corners: north-east to the northEast fields,
      south-west to the southWest fields. */
  function RequestBody(b: BoundsCoords): FetchBody
  {
    FetchBody(b.coordsNorthEast.lat, b.coordsNorthEast.lng, b.coordsSouthWest.lat, b.coordsSouthWest.lng)
  }

  /** The corners a request body describes. */
  function CornersOf(body: FetchBody): BoundsCoords
  {
    BoundsCoords(LatLng(body.northEastLat, body.northEastLon), LatLng(body.southWestLat, body.southWestLon))
  }

  /** The body carries exactly the corners it was built from, and every body is built from
      the corners it names: no field is dropped, swapped or altered. */
  lemma RequestBodyRoundTrip(b: BoundsCoords, body: FetchBody)
    ensures CornersOf(RequestBody(b)) == b
    ensures RequestBody(CornersOf(body)) == body
    ensures RequestBody(b) == body <==> b == CornersOf(body)
  {
  }

  /** The fixed fallback box is itself a non-zero viewport with north-east above and right of south-west. */
  lemma DenyBoxIsProperBox()
    ensures NonZeroCorners(CornersOf(DenyBox))
    ensures DenyBox.northEastLat > DenyBox.southWestLat && DenyBox.northEastLon > DenyBox.southWestLon
  {
  }
}
