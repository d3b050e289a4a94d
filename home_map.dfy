/** The home map page: marker redrawing, the fetch gate that follows the viewport, the
    drag/zoom handler, the location permission branches and the five-script loader. */
module HomeMap {
  import opened Geo
  import opened Dom
  import opened Naver
  import opened Stores

  /** Zoom of the fallback map on this page when the location permission is refused. */
  const MapDenyZoom: real := 7.5

  const PanoramaUrl: Url := "https://openapi.map.naver.com/openapi/v3/maps-panorama.js"
  const DrawingUrl: Url := "https://openapi.map.naver.com/openapi/v3/maps-drawing.js"
  const VisualizationUrl: Url := "https://openapi.map.naver.com/openapi/v3/maps-visualization.js"
  const GeocoderUrl: Url := "https://openapi.map.naver.com/openapi/v3/maps-geocoder.js"

  /** The five scripts the page needs, in the order it checks and appends them. */
  const ScriptUrls: seq<Url> := [MainScriptUrl, PanoramaUrl, DrawingUrl, VisualizationUrl, GeocoderUrl]

  lemma ScriptUrlsDistinct()
    ensures Distinct(ScriptUrls) && |ScriptUrls| == 5
  {
  }

  // ---------------------------------------------------------------------------------------
  // Script loader

  /** The URLs, in order, for which the document has no script yet. */
  function Missing(urls: seq<Url>, s: seq<Script>): seq<Url>
  {
    if urls == [] then []
    else (if Has(s, urls[0]) then [] else [urls[0]]) + Missing(urls[1..], s)
  }

  /** The URLs to append are exactly the required ones the document lacks, and they do not
      repeat when the required ones do not. */
  lemma {:induction false} MissingSpec(urls: seq<Url>, s: seq<Script>)
    ensures forall u :: u in Missing(urls, s) <==> u in urls && !Has(s, u)
    ensures Distinct(urls) ==> Distinct(Missing(urls, s))
  {
    if urls != [] {
      MissingSpec(urls[1..], s);
      assert urls == [urls[0]] + urls[1..];
      assert Distinct(urls) ==> urls[0] !in urls[1..];
      var rest := Missing(urls[1..], s);
      if !Has(s, urls[0]) {
        assert Missing(urls, s) == [urls[0]] + rest;
        assert forall k :: 1 <= k < |Missing(urls, s)| ==> Missing(urls, s)[k] == rest[k - 1];
      }
    }
  }

  /** How many of the URLs the document already has: the existingScriptsCount the loader computes. */
  function PresentCount(urls: seq<Url>, s: seq<Script>): nat
  {
    if urls == [] then 0 else (if Has(s, urls[0]) then 1 else 0) + PresentCount(urls[1..], s)
  }

  /** The document after the loader appended one script, with the handleScriptLoad onload, per
      missing URL. */
  function Injected(urls: seq<Url>, s: seq<Script>): seq<Script>
  {
    s + Tags(Missing(urls, s), RunHandleScriptLoad)
  }

  /** The document after the teardown: for each URL in turn, the first script with it removed. */
  function RemoveAll(urls: seq<Url>, s: seq<Script>): seq<Script>
  {
    if urls == [] then s else RemoveAll(urls[1..], RemoveFirst(s, urls[0]))
  }

  /** Every URL is either counted as present or listed as missing, never both: so the loader's
      "count differs from the number of URLs" test is exactly "some URL is missing". */
  lemma {:induction false} PresentPlusMissing(urls: seq<Url>, s: seq<Script>)
    ensures PresentCount(urls, s) + |Missing(urls, s)| == |urls|
    ensures PresentCount(urls, s) == |urls| <==> Missing(urls, s) == []
  {
    if urls != [] {
      PresentPlusMissing(urls[1..], s);
    }
  }

  lemma {:induction false} MissingSnoc(urls: seq<Url>, u: Url, s: seq<Script>)
    ensures Missing(urls + [u], s) == Missing(urls, s) + (if Has(s, u) then [] else [u])
  {
    var t := urls + [u];
    if urls == [] {
      assert t == [u] && t[1..] == [];
    } else {
      assert t[0] == urls[0] && t[1..] == urls[1..] + [u];
      MissingSnoc(urls[1..], u, s);
    }
  }

  /** After the loader, each required URL that was absent is present exactly once; every other
      URL keeps its count (nothing already present is duplicated). */
  lemma InjectedCount(urls: seq<Url>, s: seq<Script>, u: Url)
    requires Distinct(urls)
    ensures Count(Injected(urls, s), u) == if u in urls && !Has(s, u) then 1 else Count(s, u)
  {
    MissingSpec(urls, s);
    CountConcat(s, Tags(Missing(urls, s), RunHandleScriptLoad), u);
    CountTagsDistinct(Missing(urls, s), RunHandleScriptLoad, u);
  }

  /** The loader is idempotent: once it has run, every URL is present and a second run
      appends nothing. */
  lemma InjectIdempotent(urls: seq<Url>, s: seq<Script>)
    requires Distinct(urls)
    ensures forall u :: u in urls ==> Has(Injected(urls, s), u)
    ensures Missing(urls, Injected(urls, s)) == []
    ensures Injected(urls, Injected(urls, s)) == Injected(urls, s)
  {
    forall u | u in urls
      ensures Has(Injected(urls, s), u)
    {
      InjectedCount(urls, s, u);
    }
    NoneMissing(urls, Injected(urls, s));
    assert Tags([], RunHandleScriptLoad) == [];
  }

  lemma {:induction false} NoneMissing(urls: seq<Url>, s: seq<Script>)
    requires forall u :: u in urls ==> Has(s, u)
    ensures Missing(urls, s) == []
  {
    if urls != [] {
      NoneMissing(urls[1..], s);
    }
  }

  /** Starting from a document that has none of the five scripts, the first load appends all
      five; a second load appends nothing, so each of the five is there exactly once and every
      other script keeps its count. */
  lemma LoadTwiceFromAbsent(s: seq<Script>, v: Url)
    requires forall u :: u in ScriptUrls ==> !Has(s, u)
    ensures |Injected(ScriptUrls, s)| == |s| + 5
    ensures Injected(ScriptUrls, Injected(ScriptUrls, s)) == Injected(ScriptUrls, s)
    ensures Count(Injected(ScriptUrls, s), v) == if v in ScriptUrls then 1 else Count(s, v)
  {
    ScriptUrlsDistinct();
    InjectIdempotent(ScriptUrls, s);
    PresentPlusMissing(ScriptUrls, s);
    assert PresentCount(ScriptUrls, s) == 0 by {
      PresentCountOfAbsent(ScriptUrls, s);
    }
    InjectedCount(ScriptUrls, s, v);
  }

  lemma {:induction false} PresentCountOfAbsent(urls: seq<Url>, s: seq<Script>)
    requires forall u :: u in urls ==> !Has(s, u)
    ensures PresentCount(urls, s) == 0
  {
    if urls != [] {
      assert urls[0] in urls;
      PresentCountOfAbsent(urls[1..], s);
    }
  }

  /** Removing a script of another URL does not change which of these URLs are present. */
  lemma {:induction false} PresentCountAfterRemove(urls: seq<Url>, s: seq<Script>, u: Url)
    requires u !in urls
    ensures PresentCount(urls, RemoveFirst(s, u)) == PresentCount(urls, s)
  {
    if urls != [] {
      assert urls[0] != u;
      PresentCountAfterRemove(urls[1..], s, u);
    }
  }

  /** The teardown removes one copy of each required URL that is present and touches no
      other script. */
  lemma {:induction false} TeardownCount(urls: seq<Url>, s: seq<Script>, u: Url)
    requires Distinct(urls)
    ensures Count(RemoveAll(urls, s), u) == if u in urls && Has(s, u) then Count(s, u) - 1 else Count(s, u)
  {
    if urls != [] {
      var s1 := RemoveFirst(s, urls[0]);
      assert urls == [urls[0]] + urls[1..];
      assert urls[0] !in urls[1..];
      TeardownCount(urls[1..], s1, u);
    }
  }

  /** A load followed by a teardown leaves none of the five scripts, provided none of them
      was there twice beforehand; other scripts are untouched. */
  lemma LoadThenTeardown(s: seq<Script>, u: Url)
    requires u in ScriptUrls ==> Count(s, u) <= 1
    ensures Count(RemoveAll(ScriptUrls, Injected(ScriptUrls, s)), u) == if u in ScriptUrls then 0 else Count(s, u)
  {
    ScriptUrlsDistinct();
    InjectedCount(ScriptUrls, s, u);
    TeardownCount(ScriptUrls, Injected(ScriptUrls, s), u);
  }

  /** The first loop of the loader: count the URLs the document already has. */
  method CountExisting(doc: Document, urls: seq<Url>) returns (existingScriptsCount: nat)
    ensures existingScriptsCount == PresentCount(urls, doc.scripts)
    ensures existingScriptsCount <= |urls|
  {
    existingScriptsCount := 0;
    var i := 0;
    while i < |urls|
      invariant 0 <= i <= |urls|
      invariant existingScriptsCount + PresentCount(urls[i..], doc.scripts) == PresentCount(urls, doc.scripts)
      invariant existingScriptsCount <= i
    {
      assert urls[i..][1..] == urls[i + 1..];
      if Has(doc.scripts, urls[i]) {
        existingScriptsCount := existingScriptsCount + 1;
      }
      i := i + 1;
    }
    assert urls[i..] == [];
  }

  /** One more URL for the loader: whether it is appended depends only on the original
      document, because no earlier URL equals it. */
  lemma InjectedSnoc(urls: seq<Url>, u: Url, s: seq<Script>)
    requires Distinct(urls + [u])
    ensures Has(Injected(urls, s), u) == Has(s, u)
    ensures Injected(urls + [u], s) ==
      Injected(urls, s) + (if Has(s, u) then [] else [Script(u, RunHandleScriptLoad)])
  {
    assert Distinct(urls) && u !in urls by {
      assert forall k :: 0 <= k < |urls| ==> (urls + [u])[k] == urls[k];
      assert (urls + [u])[|urls|] == u;
    }
    InjectedCount(urls, s, u);
    MissingSnoc(urls, u, s);
    var prior := Missing(urls, s);
    if Has(s, u) {
      assert prior + [] == prior;
    } else {
      assert Tags(prior + [u], RunHandleScriptLoad) == Tags(prior, RunHandleScriptLoad) + [Script(u, RunHandleScriptLoad)];
    }
  }

  /** The second loop of the loader: append, in order, a script for each URL the document
      lacks, each with handleScriptLoad as its onload. */
  method AppendMissing(doc: Document, urls: seq<Url>)
    requires Distinct(urls)
    modifies doc
    ensures doc.scripts == Injected(urls, old(doc.scripts))
  {
    ghost var before := doc.scripts;
    var i := 0;
    while i < |urls|
      invariant 0 <= i <= |urls|
      invariant doc.scripts == Injected(urls[..i], before)
    {
      var url := urls[i];
      assert urls[..i + 1] == urls[..i] + [url];
      InjectedSnoc(urls[..i], url, before);
      if !Has(doc.scripts, url) {
        var script := Script(url, RunHandleScriptLoad);
        doc.AppendChild(script);
      }
      i := i + 1;
    }
    assert urls[..i] == urls;
  }

  // ---------------------------------------------------------------------------------------
  // Fetch gate

  /** The bounds/zoom effect fetches unless the permission was refused and some corner is 0. */
  predicate ShouldFetch(deny: bool, b: BoundsCoords)
  {
    !deny || NonZeroCorners(b)
  }

  /** With the permission granted (or not yet refused) every viewport is fetched, even the
      all-zero corners the store starts with; once it is refused the all-zero corners, or any
      viewport with a zero corner, are never fetched, so a body sent then has no zero field. */
  lemma FetchGate(deny: bool, b: BoundsCoords)
    ensures !deny ==> ShouldFetch(deny, b)
    ensures ShouldFetch(false, ZeroBounds) && !ShouldFetch(true, ZeroBounds)
    ensures deny && ShouldFetch(deny, b) ==>
      var body := RequestBody(b);
      body.northEastLat != 0.0 && body.northEastLon != 0.0 && body.southWestLat != 0.0 && body.southWestLon != 0.0
    ensures deny && !NonZeroCorners(b) ==> !ShouldFetch(deny, b)
  {
  }

  // ---------------------------------------------------------------------------------------
  // The page

  class MapPage {
    const doc: Document
    const mapStore: MapStore
    const info: MapEventInfo
    /** The records last received (useState data). */
    var data: seq<StoreRecord>
    /** The permission was refused (useState deny). */
    var deny: bool
    /** markersRef.current. */
    var markers: seq<Marker>
    /** Every POST /lotto-stores body sent, in order. */
    var requests: seq<FetchBody>
    /** Number of getCurrentPosition requests made. */
    var positionRequests: nat

    constructor (doc: Document, mapStore: MapStore, info: MapEventInfo)
      ensures this.doc == doc && this.mapStore == mapStore && this.info == info
      ensures data == [] && !deny && markers == [] && requests == [] && positionRequests == 0
    {
      this.doc, this.mapStore, this.info := doc, mapStore, info;
      data, deny, markers, requests, positionRequests := [], false, [], [], 0;
    }

    /** handleDragEndZoomChanged: copy the map's centre, corners and zoom into the store. */
    method HandleDragEndZoomChanged()
      modifies info
      ensures mapStore.mapHandle == null ==> unchanged(info)
      ensures mapStore.mapHandle != null ==>
        var m := mapStore.mapHandle;
        info.boundsCoords == m.bounds && info.latitude == m.center.lat &&
        info.longitude == m.center.lng && info.zoomLevel == m.zoom
    {
      var m := mapStore.mapHandle;
      if m == null {
        return;
      }
      var latitude, longitude := m.center.lat, m.center.lng;
      var boundsCoordsFromHook := m.bounds;
      info.boundsCoords := boundsCoordsFromHook;
      info.latitude := latitude;
      info.longitude := longitude;
      info.zoomLevel := m.zoom;
    }

    /** drawMarkers: detach every tracked marker, forget them, then track one new marker per
        record, in record order, attached to mapInstance (which may be null). Without the maps
        SDK the first record's LatLng throws: `completed` is false and no marker is tracked. */
    method DrawMarkers(dataArr: seq<StoreRecord>, mapInstance: NaverMap?, naver: NaverGlobal)
      returns (completed: bool)
      modifies this, markers
      ensures forall m :: m in old(markers) ==> m.attachedTo == null && m.position == old(m.position)
      ensures completed == (naver.HasMaps() || |dataArr| == 0)
      ensures !completed ==> markers == []
      ensures completed ==> |markers| == |dataArr|
      ensures forall i, j :: 0 <= i < j < |markers| ==> markers[i] != markers[j]
      ensures forall i :: 0 <= i < |markers| ==>
        fresh(markers[i]) && markers[i].attachedTo == mapInstance &&
        markers[i].position == LatLng(dataArr[i].lat, dataArr[i].lon)
      ensures data == old(data) && deny == old(deny) && requests == old(requests)
      ensures positionRequests == old(positionRequests)
    {
      var tracked := markers;
      var i := 0;
      while i < |tracked|
        modifies tracked
        invariant 0 <= i <= |tracked|
        invariant forall j :: 0 <= j < i ==> tracked[j].attachedTo == null
        invariant forall m :: m in tracked ==> m.position == old(m.position)
      {
        tracked[i].SetMap(null);
        i := i + 1;
      }
      markers := [];
      completed := true;
      if |dataArr| != 0 {
        if !naver.HasMaps() {
          completed := false;
          return;
        }
        var k := 0;
        while k < |dataArr|
          modifies this`markers
          invariant 0 <= k <= |dataArr|
          invariant |markers| == k
          invariant forall i, j :: 0 <= i < j < k ==> markers[i] != markers[j]
          invariant forall j :: 0 <= j < k ==>
            fresh(markers[j]) && markers[j].attachedTo == mapInstance &&
            markers[j].position == LatLng(dataArr[j].lat, dataArr[j].lon)
        {
          var marker := new Marker(mapInstance, LatLng(dataArr[k].lat, dataArr[k].lon));
          markers := markers + [marker];
          k := k + 1;
        }
      }
    }

    /** The [data, map] effect: redraw the markers for the current records on the stored map,
        even when no map is stored yet. It throws when records arrive before the maps SDK. */
    method OnDataOrMapChange(naver: NaverGlobal) returns (completed: bool)
      modifies this, markers
      ensures forall m :: m in old(markers) ==> m.attachedTo == null
      ensures completed == (naver.HasMaps() || |data| == 0)
      ensures !completed ==> markers == []
      ensures completed ==> |markers| == |data|
      ensures forall i, j :: 0 <= i < j < |markers| ==> markers[i] != markers[j]
      ensures forall i :: 0 <= i < |markers| ==>
        fresh(markers[i]) && markers[i].attachedTo == mapStore.mapHandle &&
        markers[i].position == LatLng(data[i].lat, data[i].lon)
      ensures data == old(data) && deny == old(deny) && requests == old(requests)
      ensures positionRequests == old(positionRequests)
    {
      completed := DrawMarkers(data, mapStore.mapHandle, naver);
    }

    /** getInitDataOrDataByDragZoom: send the four values as the request body and keep the
        answer as the records. */
    method GetInitDataOrDataByDragZoom(northEastLat: real, northEastLng: real, southWestLat: real, southWestLng: real, fetch: Fetch)
      modifies this`requests, this`data
      ensures requests == old(requests) + [FetchBody(northEastLat, northEastLng, southWestLat, southWestLng)]
      ensures data == fetch(FetchBody(northEastLat, northEastLng, southWestLat, southWestLng))
    {
      var body := FetchBody(northEastLat, northEastLng, southWestLat, southWestLng);
      var dataOnInitOrDataByDragZoom := fetch(body);
      requests := requests + [body];
      data := dataOnInitOrDataByDragZoom;
    }

    /** The [boundsCoords, zoomLevel] effect. */
    method OnBoundsOrZoomChange(fetch: Fetch)
      modifies this`requests, this`data
      ensures ShouldFetch(deny, info.boundsCoords) ==>
        requests == old(requests) + [RequestBody(info.boundsCoords)] && data == fetch(RequestBody(info.boundsCoords))
      ensures !ShouldFetch(deny, info.boundsCoords) ==> requests == old(requests) && data == old(data)
    {
      var ne, sw := info.boundsCoords.coordsNorthEast, info.boundsCoords.coordsSouthWest;
      if !deny {
        GetInitDataOrDataByDragZoom(ne.lat, ne.lng, sw.lat, sw.lng, fetch);
      } else if ne.lat != 0.0 && ne.lng != 0.0 && sw.lat != 0.0 && sw.lng != 0.0 {
        GetInitDataOrDataByDragZoom(ne.lat, ne.lng, sw.lat, sw.lng, fetch);
      }
    }

    /** handleScriptLoad: ask for the position when geolocation is available. Its answer comes
        back as HandleLocationPermission or HandleLocationError. */
    method HandleScriptLoad(hasGeolocation: bool)
      modifies this`positionRequests
      ensures positionRequests == old(positionRequests) + (if hasGeolocation then 1 else 0)
    {
      if hasGeolocation {
        positionRequests := positionRequests + 1;
      }
    }

    /** The granted branch of handleScriptLoad. `sdkBounds` is what the bounds helper reports
        for the new map. */
    method HandleLocationPermission(position: Option<LatLng>, naver: NaverGlobal, sdkBounds: BoundsCoords)
      modifies info, mapStore
      ensures position.None? ==> unchanged(info) && unchanged(mapStore)
      ensures position.Some? ==> info.latitude == position.value.lat && info.longitude == position.value.lng
      ensures position.Some? && !(Usable(position.value) && naver.HasMaps()) ==>
        info.boundsCoords == old(info.boundsCoords) && info.zoomLevel == old(info.zoomLevel) && unchanged(mapStore)
      ensures position.Some? && Usable(position.value) && naver.HasMaps() ==>
        var m := mapStore.mapHandle;
        m != null && fresh(m) && m.createdCenter == position.value && m.createdZoom == old(info.zoomLevel) &&
        info.boundsCoords == m.bounds && m.bounds == sdkBounds && info.zoomLevel == m.zoom &&
        mapStore.deleteMapCalls == old(mapStore.deleteMapCalls)
    {
      if position.None? {
        return;
      }
      var coords := position.value;
      info.latitude := coords.lat;
      info.longitude := coords.lng;
      if coords.lat == 0.0 || coords.lng == 0.0 {
        return;
      }
      if naver.HasMaps() {
        var initialMapInstance := new NaverMap(coords, info.zoomLevel, sdkBounds);
        var initialBoundsCoords := initialMapInstance.bounds;
        var zoom := initialMapInstance.zoom;
        info.boundsCoords := initialBoundsCoords;
        mapStore.mapHandle := initialMapInstance;
        info.zoomLevel := zoom;
      }
    }

    /** The refused branch of handleScriptLoad: the fallback map at zoom 7.5 and the fixed box. */
    method HandleLocationError(naver: NaverGlobal, sdkBounds: BoundsCoords, fetch: Fetch)
      modifies this`deny, this`requests, this`data, mapStore
      ensures deny
      ensures naver.HasMaps() ==>
        var m := mapStore.mapHandle;
        m != null && fresh(m) && m.createdCenter == DenyCenter && m.createdZoom == MapDenyZoom &&
        requests == old(requests) + [DenyBox] && data == fetch(DenyBox) &&
        mapStore.deleteMapCalls == old(mapStore.deleteMapCalls)
      ensures !naver.HasMaps() ==> unchanged(mapStore) && requests == old(requests) && data == old(data)
    {
      deny := true;
      if naver.HasMaps() {
        var initialMapInstance := new NaverMap(DenyCenter, MapDenyZoom, sdkBounds);
        mapStore.mapHandle := initialMapInstance;
        var locationDenyData := fetch(DenyBox);
        requests := requests + [DenyBox];
        data := locationDenyData;
      }
    }

    /** The script effect on mount: count the five scripts already in the document; if some are
        missing append exactly those, each with handleScriptLoad as its onload, otherwise run
        handleScriptLoad at once. */
    method InjectScripts(hasGeolocation: bool)
      modifies this`positionRequests, doc
      ensures doc.scripts == Injected(ScriptUrls, old(doc.scripts))
      ensures positionRequests ==
        old(positionRequests) + (if Missing(ScriptUrls, old(doc.scripts)) == [] && hasGeolocation then 1 else 0)
    {
      ScriptUrlsDistinct();
      var existingScriptsCount := CountExisting(doc, ScriptUrls);
      PresentPlusMissing(ScriptUrls, doc.scripts);
      if existingScriptsCount != |ScriptUrls| {
        AppendMissing(doc, ScriptUrls);
      } else {
        InjectIdempotent(ScriptUrls, doc.scripts);
        assert Tags([], RunHandleScriptLoad) == [];
        HandleScriptLoad(hasGeolocation);
      }
    }

    /** The script effect's cleanup: for each of the five URLs, remove the first script that has
        it, if any, and call deleteMap once per script removed; the map handle is released as
        soon as one script goes, and kept only when none of the five was there. */
    method RemoveScripts()
      modifies doc, mapStore
      ensures doc.scripts == RemoveAll(ScriptUrls, old(doc.scripts))
      ensures mapStore.deleteMapCalls == old(mapStore.deleteMapCalls) + PresentCount(ScriptUrls, old(doc.scripts))
      ensures PresentCount(ScriptUrls, old(doc.scripts)) > 0 ==> mapStore.mapHandle == null
      ensures PresentCount(ScriptUrls, old(doc.scripts)) == 0 ==> mapStore.mapHandle == old(mapStore.mapHandle)
    {
      ScriptUrlsDistinct();
      var i := 0;
      while i < |ScriptUrls|
        invariant 0 <= i <= |ScriptUrls|
        invariant RemoveAll(ScriptUrls[i..], doc.scripts) == RemoveAll(ScriptUrls, old(doc.scripts))
        invariant mapStore.deleteMapCalls + PresentCount(ScriptUrls[i..], doc.scripts) ==
          old(mapStore.deleteMapCalls) + PresentCount(ScriptUrls, old(doc.scripts))
        invariant mapStore.deleteMapCalls >= old(mapStore.deleteMapCalls)
        invariant mapStore.deleteMapCalls == old(mapStore.deleteMapCalls) ==> mapStore.mapHandle == old(mapStore.mapHandle)
        invariant mapStore.deleteMapCalls > old(mapStore.deleteMapCalls) ==> mapStore.mapHandle == null
      {
        var url := ScriptUrls[i];
        assert ScriptUrls[i..][1..] == ScriptUrls[i + 1..];
        assert url !in ScriptUrls[i + 1..];
        PresentCountAfterRemove(ScriptUrls[i + 1..], doc.scripts, url);
        if Has(doc.scripts, url) {
          doc.RemoveFirstWithSrc(url);
          mapStore.DeleteMap();
        }
        i := i + 1;
      }
      assert ScriptUrls[i..] == [];
    }
  }
}
