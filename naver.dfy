/** Stand-ins for the naver maps SDK. Only what the core reads or writes is kept: a map's
    creation options and live view (centre, zoom, the corners the bounds helper reports),
    and a marker's map and position. */
module Naver {
  import opened Geo

  /** What window.naver holds when a handler runs. */
  datatype NaverGlobal = NoNaver | NaverWithoutMaps | NaverWithMaps
  {
    /** `window.naver` is truthy. */
    predicate HasNaver() { !NoNaver? }

    /** `window.naver && window.naver.maps` is truthy. */
    predicate HasMaps() { NaverWithMaps? }
  }

  /** A naver.maps.Map. The SDK owns the live view; `bounds` stands for what getBoundsCoords
      reports for it. */
  class NaverMap {
    const createdCenter: LatLng
    const createdZoom: real
    var center: LatLng
    var zoom: real
    var bounds: BoundsCoords

    /** `new naver.maps.Map(div, {center, zoom})`; `bounds` is the region the SDK computes for
        the mount target. The new map reports the centre and zoom it was created with. */
    constructor (center: LatLng, zoom: real, bounds: BoundsCoords)
      ensures createdCenter == center && createdZoom == zoom
      ensures this.center == center && this.zoom == zoom && this.bounds == bounds
    {
      createdCenter, createdZoom := center, zoom;
      this.center, this.zoom, this.bounds := center, zoom, bounds;
    }
  }

  /** A naver.maps.Marker: the map it is attached to (null once detached) and its position. */
  class Marker {
    var attachedTo: NaverMap?
    var position: LatLng

    constructor (attachedTo: NaverMap?, position: LatLng)
      ensures this.attachedTo == attachedTo && this.position == position
    {
      this.attachedTo, this.position := attachedTo, position;
    }

    /** `marker.setMap(m)`; `setMap(null)` detaches it. */
    method SetMap(m: NaverMap?)
      modifies this
      ensures attachedTo == m && position == old(position)
    {
      attachedTo := m;
    }

    /** `marker.setPosition(p)`. */
    method SetPosition(p: LatLng)
      modifies this
      ensures position == p && attachedTo == old(attachedTo)
    {
      position := p;
    }
  }
}
