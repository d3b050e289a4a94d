/** Client runs of the map page that use only the contracts of its members: the refused flow
    and the granted flow from a fresh document and fresh stores. */
module Scenarios {
  import opened Geo
  import opened Dom
  import opened Naver
  import opened Stores
  import opened HomeMap
  import opened ScriptLoadHook

  method DeniedFlow(fetch: Fetch, sdkBounds: BoundsCoords)
  {
    var doc := new Document([]);
    var store := new MapStore();
    var info := new MapEventInfo(13.0);
    var page := new MapPage(doc, store, info);

    page.InjectScripts(true);
    LoadTwiceFromAbsent([], MainScriptUrl);
    assert |doc.scripts| == 5;

    // On mount, before any answer, deny is still false: the all-zero corners are fetched.
    page.OnBoundsOrZoomChange(fetch);
    assert page.requests == [RequestBody(ZeroBounds)];

    page.HandleLocationError(NaverWithMaps, sdkBounds, fetch);
    assert store.mapHandle != null && store.mapHandle.createdCenter == DenyCenter;
    assert page.requests == [RequestBody(ZeroBounds), DenyBox];

    var drawn := page.OnDataOrMapChange(NaverWithMaps);
    assert drawn && |page.markers| == |fetch(DenyBox)|;

    // Unmount: all five scripts go and the map handle is released.
    page.RemoveScripts();
    PresentPlusMissing(ScriptUrls, Injected(ScriptUrls, []));
    assert store.mapHandle == null;
  }

  method GrantedFlow(fetch: Fetch, sdkBounds: BoundsCoords)
  {
    var doc := new Document([]);
    var store := new MapStore();
    var info := new MapEventInfo(13.0);
    var page := new MapPage(doc, store, info);

    // On mount the bounds effect already fetches the all-zero corners.
    page.OnBoundsOrZoomChange(fetch);
    assert page.requests == [RequestBody(ZeroBounds)];

    // If those records arrive before the scripts have loaded, the redraw throws and no
    // marker is tracked.
    var early := page.OnDataOrMapChange(NoNaver);
    assert !early <==> |fetch(RequestBody(ZeroBounds))| > 0;
    assert !early ==> page.markers == [];

    page.HandleLocationPermission(Some(LatLng(37.5, 127.0)), NaverWithMaps, sdkBounds);
    var m := store.mapHandle;
    assert m != null && m.createdCenter == LatLng(37.5, 127.0) && info.boundsCoords == sdkBounds;

    page.OnBoundsOrZoomChange(fetch);
    assert page.requests == [RequestBody(ZeroBounds), RequestBody(sdkBounds)];
    var drawn := page.OnDataOrMapChange(NaverWithMaps);
    assert drawn && |page.markers| == |fetch(RequestBody(sdkBounds))|;
    assert forall i :: 0 <= i < |page.markers| ==> page.markers[i].attachedTo == m;
  }

  /** Two stores in the same building get two distinct markers. */
  method SameBuilding(r: StoreRecord)
  {
    var doc := new Document([]);
    var store := new MapStore();
    var info := new MapEventInfo(13.0);
    var page := new MapPage(doc, store, info);
    var drawn := page.DrawMarkers([r, r], null, NaverWithMaps);
    assert drawn && |page.markers| == 2 && page.markers[0] != page.markers[1];
  }

  /** A granted answer without a position leaves the event store alone, and on mobile the watch
      still starts. */
  method NoPosition(fetch: Fetch, sdkBounds: BoundsCoords)
  {
    var doc := new Document([]);
    var store := new MapStore();
    var info := new MapEventInfo(13.0);
    var hook := new ScriptLoadHook(doc, store, info, true, true, true, 500);
    hook.OnCurrentPosition(None, NaverWithMaps, sdkBounds, fetch);
    assert info.latitude == 0.0 && info.boundsCoords == ZeroBounds;
    assert hook.watches == 1 && hook.requests == [];
  }
}
