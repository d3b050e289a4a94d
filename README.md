# Lotto-store map front end: viewport synchronisation, script loading and pagination

This project is a Dafny model of three parts of the lotto-store map front end.

- **The home map page** (`Map.tsx`). It does five things:
  - It redraws the store markers.
  - It fetches the stores in the visible region whenever the stored corners or zoom change. Once the location permission has been refused, it fetches only when no corner coordinate is zero.
  - It copies the map's centre, corners and zoom into the store after a drag or zoom.
  - It runs the granted and refused branches of the location request.
  - It loads the five naver maps scripts idempotently and removes them on teardown.
- **The reusable script/geolocation hook** (`useHandleScriptLoad.tsx`). It keeps exactly one copy of the main script in the document. It classifies the window as mobile below 769 pixels. It runs the granted branch (which adds a user-position marker on mobile) and the refused branch (zoom 7). It watches the position and moves an existing user marker.
- **The pagination bar** (`Pagination.tsx`). It computes the window of page buttons, the disabled states and the navigation targets.

The model's modules:

- `Geo`: coordinates, the four corners, the request body and the records.
- `Naver`: stand-ins for the SDK's map and marker objects, as classes.
- `Dom`: the document's script elements, as a sequence with counting, removal and filtering.
- `Stores`: the two shared stores, as classes.
- `HomeMap`: the page.
- `ScriptLoadHook`: the hook.
- `Pagination`: the pagination bar.
- `Scenarios`: client runs that use only the members' contracts: the refused and granted flows of the page, two stores in one building, and a granted answer without a position in the hook.

Foreign calls become parameters:

- The data endpoint is a total function `Fetch` from request body to records. Every body sent is appended to a `requests` log.
- The corners the bounds helper reports for a new map are a parameter `sdkBounds`. They are stored in the map object, and `getBoundsCoords(map)` reads them back.
- The presence of `window.naver` and `window.naver.maps` is a `NaverGlobal` value.
- The geolocation answer arrives as a call of the matching callback method. A missing position is `None`.
- The window width is an integer.

Asynchronous handlers run to completion at once: each `await` is taken as answered immediately.

The model follows these behaviours of the code:

- The granted branch stops when *either* coordinate of the position is 0.
- The marker redraw runs even when no map is stored. The markers are then created with a null map.
- Each newly appended script runs `handleScriptLoad` from its own onload. Nothing waits for all five.
- The refused-branch zoom is 7.5 on the page and 7 in the hook.
- Fetches are not sequenced. A late answer can overwrite a newer one, so the model makes no "latest response wins" claim.
- While the permission is not refused, the all-zero corners the store starts with are fetched too (`HomeMap.FetchGate`, `Scenarios.GrantedFlow`).
- Records that arrive before the maps SDK has loaded make the marker redraw throw (`HomeMap.MapPage.DrawMarkers`).
- The hook's script effect replaces the main script element on every run, even when an identical one is present.

## Model

| member | source | states |
|---|---|---|
| `HomeMap.MapPage.DrawMarkers` | src/components/home/Map.tsx:37-57 | every previously tracked marker is detached (map null, position kept) and forgotten; with records but no maps SDK the redraw throws and no marker is tracked; otherwise exactly one fresh marker per record is tracked, pairwise distinct even for records at the same place, in record order, at that record's coordinates, attached to the given map (null included); an empty record list leaves no tracked marker |
| `HomeMap.MapPage.OnDataOrMapChange` | src/components/home/Map.tsx:205-208 | the redraw runs on the stored map even when none is stored; it throws, leaving no tracked marker, exactly when there are records and no maps SDK; otherwise there are as many distinct fresh markers as records, each attached to whatever map is stored |
| `HomeMap.MapPage.constructor` | src/components/home/Map.tsx:15-18 | the page starts with no records, not refused, no tracked markers, no request sent and no position asked for |
| `HomeMap.MapPage.HandleDragEndZoomChanged` | src/components/home/Map.tsx:21-35 | with no map stored nothing changes; otherwise the stored corners, latitude, longitude and zoom equal the map's bounds, centre and zoom |
| `HomeMap.MapPage.GetInitDataOrDataByDragZoom` | src/components/home/Map.tsx:172-186 | exactly one request with the four given values in the four named fields is sent and its answer replaces the records |
| `HomeMap.MapPage.OnBoundsOrZoomChange` | src/components/home/Map.tsx:188-203 | when the gate passes, one request whose body is built from the stored corners is sent and its answer replaces the records; otherwise no request and the records stay |
| `HomeMap.ShouldFetch` | src/components/home/Map.tsx:192-201 | defined as: not refused, or all four stored corner coordinates non-zero |
| `HomeMap.FetchGate` | src/components/home/Map.tsx:192-201 | not refused: every viewport is fetched, the all-zero one included; refused: a viewport with any zero corner (the all-zero one in particular) is never fetched, so a body sent then has no zero field |
| `Geo.RequestBodyRoundTrip` | src/components/home/Map.tsx:179-184 | the body carries the north-east corner in the northEast fields and the south-west corner in the southWest fields, losslessly in both directions |
| `Geo.DenyBoxIsProperBox` | src/components/home/Map.tsx:108-113 | the fixed fallback box {38, 132, 33, 124} has no zero corner and its north-east corner lies north and east of its south-west one |
| `HomeMap.MapPage.HandleScriptLoad` | src/components/home/Map.tsx:118-120 | one position request is made exactly when geolocation is available |
| `HomeMap.MapPage.HandleLocationPermission` | src/components/home/Map.tsx:61-89 | a missing position changes nothing; otherwise latitude and longitude are stored; with a zero coordinate or without the maps SDK no map is created and corners, zoom and map stay; otherwise a fresh map at the position with the stored zoom is stored, with its corners and zoom |
| `HomeMap.MapPage.HandleLocationError` | src/components/home/Map.tsx:92-116 | deny becomes true; with the maps SDK a fresh map at (36.2, 127.8) with zoom 7.5 is stored, the fixed box is requested and its answer becomes the records; without it nothing else changes |
| `HomeMap.MissingSpec` | src/components/home/Map.tsx:142-156 | the URLs to append are exactly the required ones the document lacks, without repeats when the required URLs are distinct |
| `HomeMap.CountExisting` | src/components/home/Map.tsx:133-140 | the counting loop returns the number of required URLs already present, never more than the number of URLs |
| `HomeMap.PresentPlusMissing` | src/components/home/Map.tsx:133-142 | present count plus missing count is the number of URLs, so "count differs from five" is exactly "some URL is missing" |
| `HomeMap.AppendMissing` | src/components/home/Map.tsx:142-156 | the append loop leaves the old document followed by one script per missing URL, in order, each with the handleScriptLoad onload |
| `HomeMap.MapPage.InjectScripts` | src/components/home/Map.tsx:123-159 | the document becomes the old one plus one handleScriptLoad script per missing URL; handleScriptLoad runs at once (one position request, given geolocation) only when all five were present |
| `HomeMap.InjectedCount` | src/components/home/Map.tsx:142-156 | after loading, each required URL that was absent is present exactly once and every other URL keeps its count: nothing is duplicated |
| `HomeMap.InjectIdempotent` | src/components/home/Map.tsx:142-159 | after loading every required URL is present, none is missing, and loading again leaves the document unchanged |
| `HomeMap.LoadTwiceFromAbsent` | src/components/home/Map.tsx:125-159 | from any document holding none of the five scripts, the first load appends exactly five, each of the five URLs is then present once and every other URL keeps its count, and a second load changes nothing |
| `HomeMap.MapPage.RemoveScripts` | src/components/home/Map.tsx:161-169 | the cleanup removes, for each of the five URLs in order, its first script if any, and calls deleteMap once per script removed; the map handle is released when at least one script was removed and kept when none was |
| `HomeMap.TeardownCount` | src/components/home/Map.tsx:161-169 | the cleanup lowers the count of each present required URL by exactly one and leaves every other URL's count alone |
| `HomeMap.LoadThenTeardown` | src/components/home/Map.tsx:142-169 | a load followed by the cleanup leaves none of the five scripts when none was present twice before, and leaves other scripts alone |
| `Dom.Count` | src/components/home/Map.tsx:136 | the number of scripts with the URL (the length of the querySelectorAll result), never more than the number of scripts |
| `Dom.CountZeroIffNone` | src/hooks/useHandleScriptLoad.tsx:200-206 | the count is zero exactly when no script has the URL |
| `Dom.Has` | src/components/home/Map.tsx:136-137 | querySelector finds an element exactly when some script in the document has the URL |
| `Dom.RemoveFirst` | src/components/home/Map.tsx:163-165 | removing the first script with a URL lowers that URL's count by one (no change when absent) and keeps every other URL's count |
| `Dom.Without` | src/hooks/useHandleScriptLoad.tsx:200-206 | removing every script with a URL leaves no copy of it and keeps every other URL's count |
| `Dom.Document.AppendChild` | src/components/home/Map.tsx:146-150 | the document becomes the old one followed by the new script |
| `Dom.Document.RemoveFirstWithSrc` | src/components/home/Map.tsx:163-165 | the document loses its first script with the URL, if any |
| `Stores.MapStore.constructor` | src/components/home/Map.tsx:12 | the map store starts with no map and no deleteMap call |
| `Stores.MapStore.DeleteMap` | src/components/home/Map.tsx:166 | deleteMap releases the map handle and is counted once |
| `Stores.MapEventInfo.constructor` | src/components/home/Map.tsx:13 | the event store starts with all-zero corners and centre and the given zoom |
| `Naver.Marker.SetMap` | src/components/home/Map.tsx:38-40 | the marker is attached to the given map (detached for null) and keeps its position |
| `Naver.Marker.SetPosition` | src/hooks/useHandleScriptLoad.tsx:52 | the marker moves to the position and stays on its map |
| `Naver.Marker.constructor` | src/components/home/Map.tsx:49-52 | a new marker is attached to the given map at the given position |
| `Naver.NaverMap.constructor` | src/components/home/Map.tsx:77-81 | a new map records the centre and zoom it was created with and reports them as its view |
| `ScriptLoadHook.ScriptLoadHook.EnsureSingleMainScript` | src/hooks/useHandleScriptLoad.tsx:199-214 | every copy of the main script is removed, the other scripts keep their order, and one main script with the handleGetCurrentPosition onload is appended; every run appends a new element, also when an identical one was there |
| `ScriptLoadHook.SingleMainScriptSpec` | src/hooks/useHandleScriptLoad.tsx:199-214 | whatever the previous count, exactly one main script remains, it runs handleGetCurrentPosition, and no other URL's count changes; a second run leaves the same list of (src, onload) pairs, although the element is replaced again |
| `ScriptLoadHook.ScriptLoadHook.constructor` | src/hooks/useHandleScriptLoad.tsx:22-23 | mobile starts true exactly when the width is below 769, with no user marker, no request, no watch and no main script appended yet |
| `ScriptLoadHook.ScriptLoadHook.HandleResize` | src/hooks/useHandleScriptLoad.tsx:181-188 | mobile becomes true exactly when the width is below 769 |
| `ScriptLoadHook.ScriptLoadHook.CreateMapInstance` | src/hooks/useHandleScriptLoad.tsx:25-35 | no map without the maps SDK; otherwise a fresh map at the given centre and zoom |
| `ScriptLoadHook.ScriptLoadHook.HandleLocationWatch` | src/hooks/useHandleScriptLoad.tsx:37-54 | a missing position changes nothing; otherwise latitude and longitude are stored; the user marker is never created or replaced, and it is moved to the reading only when it exists, the reading has no zero coordinate and the SDK is loaded |
| `ScriptLoadHook.ScriptLoadHook.HandleLocationPermission` | src/hooks/useHandleScriptLoad.tsx:57-124 | deny is set false first when a setter exists; a missing position then stops; latitude and longitude are stored; with a zero coordinate nothing more; with naver but no maps it throws; otherwise the fresh map, its corners and zoom are stored, a user marker is created on it only on mobile, and with a records setter the initial corners are fetched |
| `ScriptLoadHook.ScriptLoadHook.HandleLocationError` | src/hooks/useHandleScriptLoad.tsx:127-150 | deny becomes true when a setter exists; with naver a map at (36.2, 127.8) with zoom 7 is stored (undefined without naver.maps) and, with a records setter, the fixed box is fetched into the records |
| `ScriptLoadHook.ScriptLoadHook.HandleGetCurrentPosition` | src/hooks/useHandleScriptLoad.tsx:152-154 | a position request is made only when needCurrentPosition, naver and geolocation are all present |
| `ScriptLoadHook.ScriptLoadHook.OnCurrentPosition` | src/hooks/useHandleScriptLoad.tsx:155-166 | the granted handler's whole effect (deny cleared when a setter exists, latitude and longitude stored, nothing else changed without a map; otherwise the fresh map, its corners and zoom, the mobile-only user marker and the fetch of the map's corners), then one watch exactly when mobile and the handler did not throw |
| `Pagination.Range` | src/components/list/Pagination.tsx:23-25 | the range from lo to hi has hi - lo + 1 entries (none when hi < lo) and its k-th entry is lo + k |
| `Pagination.GetPageNumbers` | src/components/list/Pagination.tsx:18-28 | the loop returns the consecutive pages from max(1, current - 5) to min(total, start + 9) |
| `Pagination.PageWindowBounds` | src/components/list/Pagination.tsx:20-27 | at most ten pages, all within [1, total], strictly increasing; empty exactly when total is below the start, in particular for total <= 0 |
| `Pagination.CurrentPageShownOnce` | src/components/list/Pagination.tsx:20-23 | a current page in [1, total] is in the window at position current - start and nowhere else, so exactly one button is active |
| `Pagination.NoShiftNearEnd` | src/components/list/Pagination.tsx:20-21 | past page 5 the window starts at current - 5 even when fewer than ten pages follow; its length is min(10, total - current + 6) |
| `Pagination.Shown` | src/components/list/Pagination.tsx:32 | defined as: the bar renders only when there are more than one page |
| `Pagination.Enabled` | src/components/list/Pagination.tsx:34-72 | defined as: prev is disabled on page 1, next and last on the last page, first and the page buttons never |
| `Pagination.Target` | src/components/list/Pagination.tsx:14-16 | defined as: first goes to 1, prev to current - 1, a page button to its page, next to current + 1, last to the last page |
| `Pagination.Rendered` | src/components/list/Pagination.tsx:32-55 | defined as: the bar is shown and a page button carries a page of the window |
| `Pagination.NavigationStaysInRange` | src/components/list/Pagination.tsx:32-67 | with the bar shown and current in [1, total], every enabled button leads into [1, total]; prev goes to current - 1 and next to current + 1 |
| `Pagination.GuardsOnlyCatchTheEdges` | src/components/list/Pagination.tsx:38-39 | the disabled tests are equalities: from page 0 prev stays enabled and leads to -1; from total + 1 next stays enabled and leads to total + 2 |

## Left out

- ScriptLoadHook.ScriptLoadHook.CreateMapInstance: the map options come from `mapOptionsCallBack(center, zoomLevelParam)` (src/hooks/useHandleScriptLoad.tsx:7, 30). src/constants/NaverMapScript is not part of this model, so the options are taken to carry exactly that centre and zoom. The hook's zoom-7 fallback map rests on this.
- A rejected `fetchData` or `getBoundsCoords` is not modelled. `Fetch` is total and `sdkBounds` is always available. In the code a rejection stops the handler at its `await`, after the writes made before it. For example Map.tsx:105 has already stored the map when the fetch at :108 fails, and `data` keeps its old value.
- The effects' dependency arrays are not modelled (src/components/home/Map.tsx:170, 203, 208; src/hooks/useHandleScriptLoad.tsx:214). The methods are the effect bodies, and the caller decides when they run. In the code `deny` is not a dependency of the fetch effect, so a refusal alone never re-runs the gate.
- Listener registration for `dragend` and `zoom_changed` and its cleanup (src/components/home/Map.tsx:210-225) are SDK plumbing. The cleanup tests `window.naver.Event` rather than `window.naver.maps.Event`, so removal is not guaranteed.
- Interleaving of overlapping fetches is not modelled. Each fetch is answered before the next step. The code has no request sequencing, and no stale-response guard is claimed.
- Stale closures are not modelled. The handlers read `map`, `zoomLevel` and `mobile` as they are when the handler runs, not as they were at render time.
- The naver maps SDK, `fetchData` and `getBoundsCoords` are foreign code that is not part of this model. Each new map reports the centre and zoom it was created with. Its corners are the `sdkBounds` parameter.
- Stores.MapStore.DeleteMap: src/store/MapStore is not part of this model. `deleteMap` is taken to clear the map handle, which is what unloading the scripts calls for; anything else it does inside the store is not modelled.
- ScriptLoadHook.SingleMainScriptSpec: a script is a (src, onload) value without element identity. The replacement of an identical element, its reload and the second run of its onload are counted by `mainScriptAppends` only; what that onload then does is not chained.
- Stores.MapEventInfo.constructor: src/store/MapEventInfo is not part of this model. The store is taken to start with all-zero corners and coordinates: this is the initial state the fetch gate's zero test is written against.
- `parseFloat` of the records' string coordinates is float parsing. The records carry numeric coordinates.
- The geolocation accuracy and timeout options, the watch's error callback, and every `console.log` are I/O or logging.
- The mount target is not modelled. This covers `document.getElementById`, `mapDiv`, `mapDivString`, and the `setMapDiv` effect that re-runs the script effect (src/hooks/useHandleScriptLoad.tsx:177-179, 216-218).
- The resize listener's add/remove is not modelled. Only `handleResize` itself is.
- The user marker's HTML/SVG icon, the styled-components blocks and the `active` CSS class are presentation.
- Pagination numbers are integers. JavaScript numbers that are not integers are not modelled.
- Thrown errors are not propagated in the page either: a `DrawMarkers` that throws returns `completed = false` after forgetting the old markers.
- In the hook, when `window.naver` exists but `naver.maps` does not, the handlers' TypeErrors are modelled as the handler stopping. A repositioning is skipped, or `HandleLocationPermission` returns `completed = false`. No error value is propagated.

