/** The two shared stores the map page and the hook write: the map store (the map handle and
    deleteMap) and the map event store (corners, centre coordinates and zoom). */
module Stores {
  import opened Geo
  import opened Naver

  /** useMapStore. The store's own code is not part of this model: deleteMap is taken to release
      the map handle (the map is gone once its scripts are), and each call is counted. */
  class MapStore {
    var mapHandle: NaverMap?
    var deleteMapCalls: nat

    constructor ()
      ensures mapHandle == null && deleteMapCalls == 0
    {
      mapHandle, deleteMapCalls := null, 0;
    }

    /** deleteMap: forget the map handle. */
    method DeleteMap()
      modifies this
      ensures mapHandle == null && deleteMapCalls == old(deleteMapCalls) + 1
    {
      mapHandle := null;
      deleteMapCalls := deleteMapCalls + 1;
    }
  }

  /** useMapEventInfoStore. */
  class MapEventInfo {
    var boundsCoords: BoundsCoords
    var latitude: real
    var longitude: real
    var zoomLevel: real

    constructor (zoomLevel: real)
      ensures boundsCoords == ZeroBounds && latitude == 0.0 && longitude == 0.0
      ensures this.zoomLevel == zoomLevel
    {
      boundsCoords, latitude, longitude := ZeroBounds, 0.0, 0.0;
      this.zoomLevel := zoomLevel;
    }
  }
}
