/** The reusable script / geolocation hook: the single main-script effect, the mobile
    classification, the granted and refused branches, the position request and the watch
    that moves the user-position marker. */
module ScriptLoadHook {
  import opened Geo
  import opened Dom
  import opened Naver
  import opened Stores

  /** Windows narrower than this many pixels count as mobile. */
  const MobileWidthLimit: int := 769

  /** Zoom of the fallback map created by the hook when the permission is refused. */
  const HookDenyZoom: real := 7.0

  /** The document after the script effect: every copy of the main script removed, the others
      kept in order, and one new main script appended whose onload is handleGetCurrentPosition. */
  function SingleMainScript(s: seq<Script>): seq<Script>
  {
    Without(s, MainScriptUrl) + [Script(MainScriptUrl, RunHandleGetCurrentPosition)]
  }

  /** Whatever number of main scripts the document had (none, one or several), afterwards it has
      exactly one, that one runs handleGetCurrentPosition, no other script's count changes, and
      running the effect again leaves the same (src, onload) list. The element itself is
      replaced each time: `ScriptLoadHook.mainScriptAppends` counts those replacements. */
  lemma SingleMainScriptSpec(s: seq<Script>, v: Url)
    ensures Count(SingleMainScript(s), MainScriptUrl) == 1
    ensures forall i :: 0 <= i < |SingleMainScript(s)| && SingleMainScript(s)[i].src == MainScriptUrl ==>
      SingleMainScript(s)[i].onload == RunHandleGetCurrentPosition
    ensures v != MainScriptUrl ==> Count(SingleMainScript(s), v) == Count(s, v)
    ensures SingleMainScript(SingleMainScript(s)) == SingleMainScript(s)
  {
    var kept := Without(s, MainScriptUrl);
    var main := [Script(MainScriptUrl, RunHandleGetCurrentPosition)];
    CountConcat(kept, main, MainScriptUrl);
    CountConcat(kept, main, v);
    CountZeroIffNone(kept, MainScriptUrl);
    WithoutConcat(kept, main, MainScriptUrl);
    WithoutAbsent(kept, MainScriptUrl);
    assert Without(main, MainScriptUrl) == [];
  }

  /** Whether the handler's reading leads to a map: a position with no zero coordinate, and the
      maps SDK loaded. */
  predicate CreatesMap(position: Option<LatLng>, naver: NaverGlobal)
  {
    position.Some? && Usable(position.value) && naver.HasMaps()
  }

  /** The granted handler throws: window.naver exists but naver.maps does not, so
      createMapInstance returns undefined and the next member access on it fails. */
  predicate PermissionThrows(position: Option<LatLng>, naver: NaverGlobal)
  {
    position.Some? && Usable(position.value) && naver.HasNaver() && !naver.HasMaps()
  }

  class ScriptLoadHook {
    const doc: Document
    const mapStore: MapStore
    const info: MapEventInfo
    /** The caller passed setDeny. */
    const hasSetDeny: bool
    /** The caller passed setLottoStoreData. */
    const hasSetLottoStoreData: bool
    const needCurrentPosition: bool
    /** The caller's deny state, as written through setDeny. */
    var deny: bool
    /** The caller's records, as written through setLottoStoreData. */
    var lottoStoreData: seq<StoreRecord>
    /** Every POST /lotto-stores body sent, in order. */
    var requests: seq<FetchBody>
    /** userMarker.current. */
    var userMarker: Marker?
    var mobile: bool
    /** Number of getCurrentPosition requests made. */
    var positionRequests: nat
    /** Number of watchPosition subscriptions started. */
    var watches: nat
    /** Number of main-script elements the script effect has appended; each one loads anew and
        runs handleGetCurrentPosition when it has. */
    var mainScriptAppends: nat

    constructor (doc: Document, mapStore: MapStore, info: MapEventInfo,
                 hasSetDeny: bool, hasSetLottoStoreData: bool, needCurrentPosition: bool, innerWidth: int)
      ensures this.doc == doc && this.mapStore == mapStore && this.info == info
      ensures this.hasSetDeny == hasSetDeny && this.hasSetLottoStoreData == hasSetLottoStoreData
      ensures this.needCurrentPosition == needCurrentPosition
      ensures mobile == (innerWidth < MobileWidthLimit)
      ensures userMarker == null && requests == [] && positionRequests == 0 && watches == 0
      ensures mainScriptAppends == 0
    {
      this.doc, this.mapStore, this.info := doc, mapStore, info;
      this.hasSetDeny, this.hasSetLottoStoreData := hasSetDeny, hasSetLottoStoreData;
      this.needCurrentPosition := needCurrentPosition;
      deny, lottoStoreData, requests, userMarker := false, [], [], null;
      mobile := !(innerWidth >= MobileWidthLimit);
      positionRequests, watches, mainScriptAppends := 0, 0, 0;
    }

    /** handleResize: mobile exactly when the window is narrower than 769 pixels. */
    method HandleResize(windowWidth: int)
      modifies this`mobile
      ensures mobile == (windowWidth < MobileWidthLimit)
    {
      if windowWidth >= MobileWidthLimit {
        mobile := false;
      } else {
        mobile := true;
      }
    }

    /** createMapInstance: a new map at (lat, lng) with the given zoom, or none when the maps SDK
        is not loaded. `sdkBounds` is the region the SDK computes for the new map. */
    method CreateMapInstance(lat: real, lng: real, zoomLevelParam: real, naver: NaverGlobal, sdkBounds: BoundsCoords)
      returns (mapInstance: NaverMap?)
      ensures (mapInstance != null) == naver.HasMaps()
      ensures mapInstance != null ==>
        fresh(mapInstance) && mapInstance.createdCenter == LatLng(lat, lng) &&
        mapInstance.createdZoom == zoomLevelParam && mapInstance.bounds == sdkBounds
    {
      if naver.HasMaps() {
        var center := LatLng(lat, lng);
        mapInstance := new NaverMap(center, zoomLevelParam, sdkBounds);
      } else {
        mapInstance := null;
      }
    }

    /** handleLocationWatch: store the reading and move the user marker there if one exists;
        it never creates a marker. */
    method HandleLocationWatch(position: Option<LatLng>, naver: NaverGlobal)
      modifies info, userMarker
      ensures userMarker == old(userMarker)
      ensures info.boundsCoords == old(info.boundsCoords) && info.zoomLevel == old(info.zoomLevel)
      ensures position.None? ==> unchanged(info)
      ensures position.Some? ==> info.latitude == position.value.lat && info.longitude == position.value.lng
      ensures userMarker != null ==> userMarker.attachedTo == old(userMarker.attachedTo)
      ensures userMarker != null && position.Some? && Usable(position.value) && naver.HasMaps() ==>
        userMarker.position == position.value
      ensures userMarker != null && !(position.Some? && Usable(position.value) && naver.HasMaps()) ==>
        userMarker.position == old(userMarker.position)
    {
      if position.None? {
        return;
      }
      var coords := position.value;
      info.latitude := coords.lat;
      info.longitude := coords.lng;
      if coords.lat == 0.0 || coords.lng == 0.0 {
        return;
      }
      if naver.HasNaver() && userMarker != null {
        // With naver but no naver.maps the LatLng constructor throws before the marker moves.
        if naver.HasMaps() {
          userMarker.SetPosition(coords);
        }
      }
    }

    /** handleLocationPermission. `completed` is false when the handler throws. */
    method HandleLocationPermission(position: Option<LatLng>, naver: NaverGlobal, sdkBounds: BoundsCoords, fetch: Fetch)
      returns (completed: bool)
      modifies this`deny, this`userMarker, this`requests, this`lottoStoreData, info, mapStore
      ensures deny == if hasSetDeny then false else old(deny)
      ensures completed == !PermissionThrows(position, naver)
      ensures position.None? ==> unchanged(info)
      ensures position.Some? ==> info.latitude == position.value.lat && info.longitude == position.value.lng
      ensures !CreatesMap(position, naver) ==>
        info.boundsCoords == old(info.boundsCoords) && info.zoomLevel == old(info.zoomLevel) &&
        unchanged(mapStore) && userMarker == old(userMarker) &&
        requests == old(requests) && lottoStoreData == old(lottoStoreData)
      ensures CreatesMap(position, naver) ==>
        var m := mapStore.mapHandle;
        m != null && fresh(m) && m.createdCenter == position.value && m.createdZoom == old(info.zoomLevel) &&
        info.boundsCoords == m.bounds && m.bounds == sdkBounds && info.zoomLevel == m.zoom &&
        mapStore.deleteMapCalls == old(mapStore.deleteMapCalls) &&
        (mobile ==> userMarker != null && fresh(userMarker) &&
                    userMarker.attachedTo == m && userMarker.position == position.value) &&
        (!mobile ==> userMarker == old(userMarker)) &&
        (hasSetLottoStoreData ==>
          requests == old(requests) + [RequestBody(m.bounds)] && lottoStoreData == fetch(RequestBody(m.bounds))) &&
        (!hasSetLottoStoreData ==> requests == old(requests) && lottoStoreData == old(lottoStoreData))
    {
      if hasSetDeny {
        deny := false;
      }
      if position.None? {
        return true;
      }
      var coords := position.value;
      info.latitude := coords.lat;
      info.longitude := coords.lng;
      if coords.lat == 0.0 || coords.lng == 0.0 {
        return true;
      }
      if naver.HasNaver() {
        var initialMapInstance := CreateMapInstance(coords.lat, coords.lng, info.zoomLevel, naver, sdkBounds);
        if initialMapInstance == null {
          // The marker's LatLng (on mobile) or getZoom() on undefined throws here.
          return false;
        }
        if mobile {
          var userLocationForNow := LatLng(coords.lat, coords.lng);
          userMarker := new Marker(initialMapInstance, userLocationForNow);
        }
        var initialBoundsCoords := initialMapInstance.bounds;
        var zoom := initialMapInstance.zoom;
        info.boundsCoords := initialBoundsCoords;
        mapStore.mapHandle := initialMapInstance;
        info.zoomLevel := zoom;
        if hasSetLottoStoreData {
          var body := RequestBody(initialBoundsCoords);
          var locationData := fetch(body);
          requests := requests + [body];
          lottoStoreData := locationData;
        }
      }
      return true;
    }

    /** handleLocationError: the fallback map at zoom 7 and, for a caller that takes records,
        the fixed box. With naver but no naver.maps the stored map becomes undefined and the
        box is still fetched. */
    method HandleLocationError(naver: NaverGlobal, sdkBounds: BoundsCoords, fetch: Fetch)
      modifies this`deny, this`requests, this`lottoStoreData, mapStore
      ensures deny == if hasSetDeny then true else old(deny)
      ensures mapStore.deleteMapCalls == old(mapStore.deleteMapCalls)
      ensures naver.HasMaps() ==>
        var m := mapStore.mapHandle;
        m != null && fresh(m) && m.createdCenter == DenyCenter && m.createdZoom == HookDenyZoom
      ensures naver.HasNaver() && !naver.HasMaps() ==> mapStore.mapHandle == null
      ensures !naver.HasNaver() ==> unchanged(mapStore)
      ensures naver.HasNaver() && hasSetLottoStoreData ==>
        requests == old(requests) + [DenyBox] && lottoStoreData == fetch(DenyBox)
      ensures !(naver.HasNaver() && hasSetLottoStoreData) ==>
        requests == old(requests) && lottoStoreData == old(lottoStoreData)
    {
      if hasSetDeny {
        deny := true;
      }
      if naver.HasNaver() {
        var initialMapInstance := CreateMapInstance(DenyCenter.lat, DenyCenter.lng, HookDenyZoom, naver, sdkBounds);
        mapStore.mapHandle := initialMapInstance;
        if hasSetLottoStoreData {
          var locationDenyData := fetch(DenyBox);
          requests := requests + [DenyBox];
          lottoStoreData := locationDenyData;
        }
      }
    }

    /** handleGetCurrentPosition: ask for the position only when the caller wants it, naver is
        loaded and geolocation is available. The answer comes back as OnCurrentPosition or
        HandleLocationError. */
    method HandleGetCurrentPosition(naver: NaverGlobal, hasGeolocation: bool)
      modifies this`positionRequests
      ensures positionRequests ==
        old(positionRequests) + (if needCurrentPosition && naver.HasNaver() && hasGeolocation then 1 else 0)
    {
      if needCurrentPosition && naver.HasNaver() && hasGeolocation {
        positionRequests := positionRequests + 1;
      }
    }

    /** The success callback of getCurrentPosition: run the granted handler, then, on mobile and
        only if the handler completed, start watching the position. */
    method OnCurrentPosition(position: Option<LatLng>, naver: NaverGlobal, sdkBounds: BoundsCoords, fetch: Fetch)
      modifies this`deny, this`userMarker, this`requests, this`lottoStoreData, this`watches, info, mapStore
      ensures watches == old(watches) + (if mobile && !PermissionThrows(position, naver) then 1 else 0)
      ensures deny == if hasSetDeny then false else old(deny)
      ensures position.None? ==> unchanged(info)
      ensures position.Some? ==> info.latitude == position.value.lat && info.longitude == position.value.lng
      ensures !CreatesMap(position, naver) ==>
        info.boundsCoords == old(info.boundsCoords) && info.zoomLevel == old(info.zoomLevel) &&
        unchanged(mapStore) && userMarker == old(userMarker) &&
        requests == old(requests) && lottoStoreData == old(lottoStoreData)
      ensures CreatesMap(position, naver) ==>
        var m := mapStore.mapHandle;
        m != null && fresh(m) && m.createdCenter == position.value && m.createdZoom == old(info.zoomLevel) &&
        info.boundsCoords == m.bounds && m.bounds == sdkBounds && info.zoomLevel == m.zoom &&
        mapStore.deleteMapCalls == old(mapStore.deleteMapCalls) &&
        (mobile ==> userMarker != null && fresh(userMarker) &&
                    userMarker.attachedTo == m && userMarker.position == position.value) &&
        (!mobile ==> userMarker == old(userMarker)) &&
        (hasSetLottoStoreData ==>
          requests == old(requests) + [RequestBody(sdkBounds)] && lottoStoreData == fetch(RequestBody(sdkBounds))) &&
        (!hasSetLottoStoreData ==> requests == old(requests) && lottoStoreData == old(lottoStoreData))
    {
      var completed := HandleLocationPermission(position, naver, sdkBounds, fetch);
      if completed && mobile {
        watches := watches + 1;
      }
    }

    /** The script effect: remove every main script, then append a new one whose onload is
        handleGetCurrentPosition, also when an identical one was there. */
    method EnsureSingleMainScript()
      modifies doc, this`mainScriptAppends
      ensures doc.scripts == SingleMainScript(old(doc.scripts))
      ensures mainScriptAppends == old(mainScriptAppends) + 1
    {
      var existingScripts := Count(doc.scripts, MainScriptUrl);
      if existingScripts > 0 {
        var k := 0;
        while k < existingScripts
          modifies doc
          invariant 0 <= k <= existingScripts
          invariant Count(doc.scripts, MainScriptUrl) == existingScripts - k
          invariant Without(doc.scripts, MainScriptUrl) == Without(old(doc.scripts), MainScriptUrl)
        {
          WithoutRemoveFirst(doc.scripts, MainScriptUrl);
          doc.RemoveFirstWithSrc(MainScriptUrl);
          k := k + 1;
        }
      }
      WithoutAbsent(doc.scripts, MainScriptUrl);
      var script := Script(MainScriptUrl, RunHandleGetCurrentPosition);
      doc.AppendChild(script);
      mainScriptAppends := mainScriptAppends + 1;
    }
  }
}
