# Kakao base-map bridge, modelled in Dafny

`js/kakao_base.js` shows a Kakao Maps widget (the *follower*) underneath a
transparent Leaflet map (the *driver*). The user pans and zooms only the
driver. The follower copies the driver's center and a translated zoom level
on every driver notification, and it never takes input of its own.

The model has four modules:

- `Wrappers` (`wrappers.dfy`): `Option` and `Result`.
- `ZoomLevel` (`zoom_level.dfy`): `clamp` and `leafletZoomToKakaoLevel`.
  - The zoom is an exact `real`, and JavaScript `Math.round` is `(x + 0.5).Floor`.
  - It rounds to the nearest integer, and a half rounds up.
  - Whole-number zooms are a corollary of the real-valued lemmas.
- `MapTypes` (`map_type.dfy`): `kakaoMapTypeFromString`.
  - `kakao.maps.MapTypeId` becomes the datatype `MapTypeId = SKYVIEW | ROADMAP | HYBRID`.
  - `toUpperCase` becomes ASCII upper-casing.
  - An absent setting is `None`.
- `KakaoBase` (`kakao_base.dfy`): `initKakaoBaseMap` and `syncToKakao`.
  - The driver is a `LeafletMap` class holding the view it reports. Its accessor `View()` stands for the pair of calls `getCenter()` and `getZoom()`.
  - The follower is a `KakaoMap` class with the fields the bridge sets: center, level, map type, draggable, zoomable.
  - `InitKakaoBaseMap` checks the three guards in the code's order and returns `Failure` before anything is built.
  - `SyncToKakao` overwrites the follower's center and level from the driver's current view.
  - `InitKakaoBaseMap` is proved against `InitCheck` and `InitialState`, and `SyncToKakao` against `Synced`.
  - `Replay` folds `Synced` over a run of notifications. `DeliverNotifications` calls `SyncToKakao` once per driver report and is proved to end in the `Replay` state.
  - Lemmas about those functions give the invariant. The follower's camera depends only on the driver's latest view, and its input stays switched off.

Environment inputs become parameters of `InitKakaoBaseMap`:

- `sdkLoaded` stands for `window.kakao && kakao.maps`.
- A `null` driver stands for a missing `leafletMap` argument.
- `documentIds` is the set of element ids on the page, searched for `"kakao-map"`.

Three facts about the code shape the model:

- The satellite map type is `SKYVIEW`, as `kakao.maps.MapTypeId` names it.
- The three errors `SdkNotLoaded`, `LeafletMapMissing` and `ContainerMissing` stand for the code's three `throw new Error(...)` statements.
- Input is switched off by `setDraggable(false)` and `setZoomable(false)`.

The Kakao constructor is modelled with input enabled (`draggable` and `zoomable` true), because that is the SDK's default. The two setter calls then switch both off.

## Model

| member | source | states |
|---|---|---|
| ZoomLevel.Min | js/kakao_base.js:8 | `Math.min` returns one of its arguments, and it is no larger than either. |
| ZoomLevel.Max | js/kakao_base.js:8 | `Math.max` returns one of its arguments, and it is no smaller than either. |
| ZoomLevel.Clamp | js/kakao_base.js:7-9 | The result lies in `[min, max]` when `min <= max`. An in-range `n` is returned unchanged. Below the range gives `min` and above it gives `max`. An empty range (`min > max`) gives `min`, because `Math.max` is applied last. |
| ZoomLevel.ClampMonotone | js/kakao_base.js:7-9 | Clamping keeps the order of its inputs. |
| ZoomLevel.JsRound | js/kakao_base.js:14 | `Math.round` returns the integer `r` with `r - 0.5 <= x < r + 0.5`: the nearest integer, with halves rounded up. |
| ZoomLevel.JsRoundMonotone | js/kakao_base.js:14 | Rounding keeps the order of its inputs. |
| ZoomLevel.JsRoundOfInteger | js/kakao_base.js:14 | Rounding returns a whole number unchanged, so for whole zooms the rounding is exact. |
| ZoomLevel.ZoomToLevel | js/kakao_base.js:13-16 | The translated level always lies in Kakao's range 1..14. |
| ZoomLevel.ZoomToLevelAntitone | js/kakao_base.js:13-16 | A larger Leaflet zoom never gives a larger Kakao level. |
| ZoomLevel.ZoomToLevelShape | js/kakao_base.js:13-16 | On real zooms: level 14 exactly when zoom <= 6.5, level 1 exactly when zoom > 18.5, and `round(20 - zoom)`, strictly between 1 and 14, in between. |
| ZoomLevel.ZoomToLevelOfInteger | js/kakao_base.js:13-16 | On whole zooms: 14 for zoom <= 6, exactly `20 - zoom` for 6 <= zoom <= 19, and 1 for zoom >= 19. |
| ZoomLevel.ZoomToLevelExamples | js/kakao_base.js:13-16 | Zooms 0, 6, 7, 15, 20 and 25 give 14, 14, 13, 5, 1 and 1. The halves 6.5, 7.5 and 18.5 round up, giving 14, 13 and 2. |
| MapTypes.UpperChar | js/kakao_base.js:21 | The result is never a lower-case ASCII letter. A lower-case letter becomes its upper-case letter in 'A'..'Z' (32 code points lower). Every other character is unchanged. |
| MapTypes.ToUpperAscii | js/kakao_base.js:21 | Upper-casing keeps the length and upper-cases each character in place. |
| MapTypes.ToUpperAsciiEqual | js/kakao_base.js:21-23 | Two strings upper-case to the same key exactly when they are equal ignoring case. |
| MapTypes.ToUpperAsciiOfUpperCase | js/kakao_base.js:21-23 | A string with no lower-case letter (such as `'ROADMAP'` or `'HYBRID'`) is its own upper-casing. |
| MapTypes.ToUpperAsciiIdempotent | js/kakao_base.js:21 | Upper-casing twice is the same as upper-casing once. |
| MapTypes.MapTypeFromString | js/kakao_base.js:18-25 | ROADMAP exactly for case-variants of "ROADMAP", HYBRID exactly for case-variants of "HYBRID", and SKYVIEW for everything else: absent, empty or any other string. |
| MapTypes.MapTypeFromStringIgnoresCase | js/kakao_base.js:21-23 | Two settings that differ only in letter case resolve to the same map type. |
| MapTypes.MapTypeFromStringRoadmapExamples | js/kakao_base.js:22 | "roadmap" and "RoadMap" give ROADMAP. |
| MapTypes.MapTypeFromStringHybridExamples | js/kakao_base.js:23 | "HYBRID" and "hybrid" give HYBRID. |
| MapTypes.MapTypeFromStringFallbackExamples | js/kakao_base.js:20-24 | Absent, "", "xyz" and "skyview" give SKYVIEW. |
| KakaoBase.InitCheck | js/kakao_base.js:29-40 | The guards are checked in order (SDK, then driver argument, then mount element), and the first failing guard decides the error. There is no error exactly when all three hold. |
| KakaoBase.MapTypeSetting | js/kakao_base.js:36-48 | An init without an options object (`opts || {}`), or with one that has no `mapTypeId`, resolves to SKYVIEW. An options object's `mapTypeId` resolves as given. |
| KakaoBase.InitialState | js/kakao_base.js:43-53 | The follower built by init takes no input, has a level in 1..14, and is already synced to the driver's view. |
| KakaoBase.Synced | js/kakao_base.js:56-60 | A sync keeps the map type, `draggable` and `zoomable` each unchanged, and leaves a level in 1..14. |
| KakaoBase.Replay | js/kakao_base.js:56-65 | A run of notifications never changes the map type, `draggable` or `zoomable`. After at least one notification the level is in 1..14. |
| KakaoBase.SyncedForgetsPriorCamera | js/kakao_base.js:56-60 | Two followers with the same settings become identical after syncing to one driver view, so no camera of the follower's own survives a sync. |
| KakaoBase.SyncedLatestWins | js/kakao_base.js:56-60 | A sync to a later view fully overwrites a sync to an earlier one. |
| KakaoBase.SyncedIdempotent | js/kakao_base.js:56-60 | Syncing twice with no driver change is the same as syncing once. |
| KakaoBase.ReplayFollowsLatest | js/kakao_base.js:56-65 | After any non-empty run of move and zoom notifications, the follower is synced to the last one. |
| KakaoBase.SessionInvariant | js/kakao_base.js:43-65 | After init and any notifications, the follower shows the driver's latest center and translated zoom (the initial ones if no notification came), keeps the resolved map type and takes no input. |
| KakaoBase.KakaoMap.constructor | js/kakao_base.js:45-49 | The widget is built with the given center, level and map type, and with input enabled. |
| KakaoBase.KakaoMap.SetCenter | js/kakao_base.js:58 | Changes the center and nothing else. |
| KakaoBase.KakaoMap.SetLevel | js/kakao_base.js:59 | Changes the level and nothing else. |
| KakaoBase.KakaoMap.SetDraggable | js/kakao_base.js:52 | Changes the drag flag and nothing else. |
| KakaoBase.KakaoMap.SetZoomable | js/kakao_base.js:53 | Changes the zoom flag and nothing else. |
| KakaoBase.InitKakaoBaseMap | js/kakao_base.js:28-53 | Fails exactly when a guard fails, with the error of the first failing guard. A failure carries no widget and changes no existing object. A success returns a fresh widget in the state `InitialState` gives for the driver's view and options. |
| KakaoBase.SyncToKakao | js/kakao_base.js:56-60 | The follower's new state is `Synced` of its old state and the driver's current view: the driver's center and translated zoom, with map type and input settings unchanged. |
| KakaoBase.DeliverNotifications | js/kakao_base.js:56-65 | When the driver reports several views in turn and `syncToKakao` runs on each, the follower ends in the `Replay` state for those views and the driver shows the last view. |

## Left out

- Rendering, the SDK objects and `LatLng` construction: the Kakao and Leaflet libraries are foreign code. They are reduced to the fields the bridge reads and sets.
- `setLevel`'s `{animate: false}` option: it only affects animation.
- Event wiring (`leafletMap.on('move' | 'zoom' | 'moveend' | 'zoomend', …)`): the model has one `SyncToKakao` per notification, and `DeliverNotifications` and `Replay` for a run of them. Event dispatch itself is not modelled.
- `relayout` and its triggers (`window.addEventListener('resize', …)` and `setTimeout(relayout, 0)`): the layout recompute is rendering only. Its effect on the camera is one `SyncToKakao`. `InitialState` shows that the deferred first pass changes nothing while the driver has not moved.
- `leafletMap._kakaoBaseMap = kakaoMap` and the returned widget: an escape hatch with no behaviour. `InitKakaoBaseMap` returns the widget inside `Success`.
- The DOM lookup `document.getElementById`: modelled only as membership of `"kakao-map"` in a set of ids.
- IEEE-754 behaviour of `Math.round`, rounding of large numbers, and `NaN` or `Infinity` zooms: zooms are exact reals.
- MapTypes.ToUpperAscii: covers ASCII letters only. Full Unicode `toUpperCase` also maps some non-ASCII letters onto the keywords: the dotless `ı` upper-cases to `I`, so `"hybrıd"` gives HYBRID in JavaScript but SKYVIEW in the model.
- Non-string `mapTypeId` values: the model covers an absent setting and strings. Falsy values (`0`, `false`, `null`) give SKYVIEW in the code, as `None` does in the model. Truthy non-string values (numbers, `true`, arrays, objects) are not modelled: `String(x)` turns them into text first, so `mapTypeId: ['roadmap']` gives ROADMAP in the code.
