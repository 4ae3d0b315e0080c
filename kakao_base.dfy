/**
 * The bridge that keeps a Kakao Maps widget (the follower), drawn underneath a
 * Leaflet map (the driver), on the driver's camera. The user moves only the
 * driver; the follower takes the driver's center and translated zoom on every
 * driver notification and never accepts input of its own.
 */
module KakaoBase {
  import opened Wrappers
  import opened ZoomLevel
  import opened MapTypes

  /** A geographic position, as both SDKs' `LatLng` carry it. */
  datatype LatLng = LatLng(lat: real, lng: real)

  /** What the driver reports through `getCenter()` and `getZoom()`. */
  datatype Camera = Camera(center: LatLng, zoom: real)

  /** The options object of `initKakaoBaseMap`; only `mapTypeId` is read. */
  datatype InitOptions = InitOptions(mapTypeId: Option<string>)

  /** The three errors `initKakaoBaseMap` throws, one per guard. */
  datatype InitError = SdkNotLoaded | LeafletMapMissing | ContainerMissing

  /** The id of the element the follower is mounted in. */
  const MountPointId: string := "kakao-map"

  /** Everything of the follower widget the bridge sets. */
  datatype FollowerState = FollowerState(
    center: LatLng,
    level: int,
    mapTypeId: MapTypeId,
    draggable: bool,
    zoomable: bool)

  /** The follower takes no drag and no wheel or click zoom. */
  predicate InputDisabled(s: FollowerState)
  {
    !s.draggable && !s.zoomable
  }

  /** The follower's level is one Kakao has. */
  predicate LevelInRange(s: FollowerState)
  {
    MinLevel <= s.level <= MaxLevel
  }

  /**
   * The guards of `initKakaoBaseMap`, in the order the code checks them: the
   * Kakao SDK, then the Leaflet map argument, then the mount element. The
   * first one that fails decides the error; none failing means no error.
   */
  function InitCheck(sdkLoaded: bool, hasLeafletMap: bool, hasContainer: bool): (e: Option<InitError>)
    ensures e == None <==> sdkLoaded && hasLeafletMap && hasContainer
    ensures e == Some(SdkNotLoaded) <==> !sdkLoaded
    ensures e == Some(LeafletMapMissing) <==> sdkLoaded && !hasLeafletMap
    ensures e == Some(ContainerMissing) <==> sdkLoaded && hasLeafletMap && !hasContainer
  {
    if !sdkLoaded then Some(SdkNotLoaded)
    else if !hasLeafletMap then Some(LeafletMapMissing)
    else if !hasContainer then Some(ContainerMissing)
    else None
  }

  /**
   * `opts = opts || {}` followed by `opts.mapTypeId`: an init without an
   * options object, or with one that has no `mapTypeId`, still resolves to
   * satellite imagery, and an options object's setting is resolved as given.
   */
  function MapTypeSetting(opts: Option<InitOptions>): (setting: Option<string>)
    ensures (opts.None? || opts.value.mapTypeId.None?) ==> MapTypeFromString(setting) == SKYVIEW
    ensures opts.Some? ==> MapTypeFromString(setting) == MapTypeFromString(opts.value.mapTypeId)
  {
    if opts.Some? then opts.value.mapTypeId else None
  }

  /**
   * The follower a successful init leaves behind: the driver's center, its
   * translated zoom, the resolved map type, and input switched off. It is
   * already in step with the driver, so the deferred first sync changes
   * nothing while the driver has not moved.
   */
  function InitialState(driver: Camera, opts: Option<InitOptions>): (s: FollowerState)
    ensures InputDisabled(s) && LevelInRange(s)
    ensures Synced(s, driver) == s
  {
    FollowerState(driver.center, ZoomToLevel(driver.zoom), MapTypeFromString(MapTypeSetting(opts)), false, false)
  }

  /** The follower after one `syncToKakao` while the driver shows `driver`. */
  function Synced(s: FollowerState, driver: Camera): (r: FollowerState)
    ensures r.draggable == s.draggable && r.zoomable == s.zoomable && r.mapTypeId == s.mapTypeId
    ensures LevelInRange(r)
  {
    s.(center := driver.center, level := ZoomToLevel(driver.zoom))
  }

  /**
   * The follower after one `syncToKakao` per driver notification, in order.
   * Notifications never change the follower's map type or its input settings.
   */
  function Replay(s: FollowerState, notifications: seq<Camera>): (r: FollowerState)
    ensures r.mapTypeId == s.mapTypeId && r.draggable == s.draggable && r.zoomable == s.zoomable
    ensures notifications != [] ==> LevelInRange(r)
    decreases |notifications|
  {
    if notifications == [] then s else Replay(Synced(s, notifications[0]), notifications[1..])
  }

  /** The follower keeps no camera of its own: two followers synced to one driver agree. */
  lemma SyncedForgetsPriorCamera(s1: FollowerState, s2: FollowerState, driver: Camera)
    requires s1.mapTypeId == s2.mapTypeId && s1.draggable == s2.draggable && s1.zoomable == s2.zoomable
    ensures Synced(s1, driver) == Synced(s2, driver)
  {
  }

  /** Only the latest driver state matters: a sync overwrites the one before it. */
  lemma SyncedLatestWins(s: FollowerState, earlier: Camera, later: Camera)
    ensures Synced(Synced(s, earlier), later) == Synced(s, later)
  {
  }

  /** Syncing twice without a driver change is syncing once. */
  lemma SyncedIdempotent(s: FollowerState, driver: Camera)
    ensures Synced(Synced(s, driver), driver) == Synced(s, driver)
  {
    SyncedLatestWins(s, driver, driver);
  }

  /** After any non-empty run of notifications the follower is synced to the last one. */
  lemma {:induction false} ReplayFollowsLatest(s: FollowerState, notifications: seq<Camera>)
    requires notifications != []
    ensures Replay(s, notifications) == Synced(s, notifications[|notifications| - 1])
    decreases |notifications|
  {
    var rest := notifications[1..];
    if rest != [] {
      ReplayFollowsLatest(Synced(s, notifications[0]), rest);
      SyncedLatestWins(s, notifications[0], rest[|rest| - 1]);
    }
  }

  /**
   * The bridge's invariant over a whole session: after init and any run of
   * driver notifications, the follower shows the driver's latest camera
   * (the initial one when none came) and still takes no input.
   */
  lemma SessionInvariant(initial: Camera, opts: Option<InitOptions>, notifications: seq<Camera>)
    ensures var s := Replay(InitialState(initial, opts), notifications);
            var latest := if notifications == [] then initial else notifications[|notifications| - 1];
            && s.center == latest.center
            && s.level == ZoomToLevel(latest.zoom)
            && s.mapTypeId == MapTypeFromString(MapTypeSetting(opts))
            && InputDisabled(s)
  {
    if notifications != [] {
      ReplayFollowsLatest(InitialState(initial, opts), notifications);
    }
  }

  /** The Leaflet map: only the view the bridge reads from it. */
  class LeafletMap {
    var center: LatLng
    var zoom: real

    constructor (center: LatLng, zoom: real)
      ensures this.center == center && this.zoom == zoom
    {
      this.center := center;
      this.zoom := zoom;
    }

    /** `getCenter()` and `getZoom()` together. */
    function View(): Camera
      reads this
    {
      Camera(center, zoom)
    }
  }

  /** The Kakao map widget: the part of its state the bridge sets. */
  class KakaoMap {
    var center: LatLng
    var level: int
    var mapTypeId: MapTypeId
    var draggable: bool
    var zoomable: bool

    function State(): FollowerState
      reads this
    {
      FollowerState(center, level, mapTypeId, draggable, zoomable)
    }

    /** `new kakao.maps.Map(container, {center, level, mapTypeId})`; the widget takes input by default. */
    constructor (center: LatLng, level: int, mapTypeId: MapTypeId)
      ensures State() == FollowerState(center, level, mapTypeId, true, true)
    {
      this.center := center;
      this.level := level;
      this.mapTypeId := mapTypeId;
      this.draggable := true;
      this.zoomable := true;
    }

    /** `setCenter(latLng)`. */
    method SetCenter(c: LatLng)
      modifies this
      ensures State() == old(State()).(center := c)
    {
      center := c;
    }

    /** `setLevel(level, {animate: false})`. */
    method SetLevel(l: int)
      modifies this
      ensures State() == old(State()).(level := l)
    {
      level := l;
    }

    /** `setDraggable(b)`. */
    method SetDraggable(b: bool)
      modifies this
      ensures State() == old(State()).(draggable := b)
    {
      draggable := b;
    }

    /** `setZoomable(b)`. */
    method SetZoomable(b: bool)
      modifies this
      ensures State() == old(State()).(zoomable := b)
    {
      zoomable := b;
    }
  }

  /**
   * `initKakaoBaseMap(leafletMap, opts)`. `sdkLoaded` stands for
   * `window.kakao && kakao.maps`, a null `leafletMap` for a missing argument,
   * and `documentIds` for the ids of the elements in the page. Each failing
   * guard throws before anything is built, and no existing object is changed.
   */
  method InitKakaoBaseMap(sdkLoaded: bool, leafletMap: LeafletMap?, documentIds: set<string>, opts: Option<InitOptions>)
    returns (r: Result<KakaoMap, InitError>)
    ensures r.Failure? <==> InitCheck(sdkLoaded, leafletMap != null, MountPointId in documentIds).Some?
    ensures r.Failure? ==> Some(r.error) == InitCheck(sdkLoaded, leafletMap != null, MountPointId in documentIds)
    ensures r.Success? ==> leafletMap != null && fresh(r.value)
    ensures r.Success? ==> r.value.State() == InitialState(leafletMap.View(), opts)
  {
    if !sdkLoaded {
      return Failure(SdkNotLoaded);
    }
    if leafletMap == null {
      return Failure(LeafletMapMissing);
    }
    var options := if opts.Some? then opts.value else InitOptions(None);
    var containerFound := MountPointId in documentIds;
    if !containerFound {
      return Failure(ContainerMissing);
    }
    var c := leafletMap.center;
    var z := leafletMap.zoom;
    var kakaoMap := new KakaoMap(c, ZoomToLevel(z), MapTypeFromString(options.mapTypeId));
    kakaoMap.SetDraggable(false);
    kakaoMap.SetZoomable(false);
    r := Success(kakaoMap);
  }

  /**
   * `syncToKakao()`, the handler of the driver's move and zoom notifications:
   * the follower takes the driver's current center and translated zoom and
   * keeps its map type and input settings.
   */
  method SyncToKakao(leafletMap: LeafletMap, kakaoMap: KakaoMap)
    modifies kakaoMap
    ensures kakaoMap.State() == Synced(old(kakaoMap.State()), leafletMap.View())
  {
    var center := leafletMap.center;
    kakaoMap.SetCenter(LatLng(center.lat, center.lng));
    kakaoMap.SetLevel(ZoomToLevel(leafletMap.zoom));
  }

  /**
   * The driver reporting `views` one after another, `syncToKakao` running on
   * each report: the follower ends where `Replay` says, and the driver shows
   * the last view.
   */
  method DeliverNotifications(leafletMap: LeafletMap, kakaoMap: KakaoMap, views: seq<Camera>)
    modifies leafletMap, kakaoMap
    ensures kakaoMap.State() == Replay(old(kakaoMap.State()), views)
    ensures views != [] ==> leafletMap.View() == views[|views| - 1]
    ensures views == [] ==> leafletMap.View() == old(leafletMap.View())
  {
    var i := 0;
    while i < |views|
      invariant 0 <= i <= |views|
      invariant Replay(kakaoMap.State(), views[i..]) == Replay(old(kakaoMap.State()), views)
      invariant i > 0 ==> leafletMap.View() == views[i - 1]
      invariant i == 0 ==> leafletMap.View() == old(leafletMap.View())
    {
      leafletMap.center, leafletMap.zoom := views[i].center, views[i].zoom;
      SyncToKakao(leafletMap, kakaoMap);
      assert views[i..][1..] == views[i + 1..];
      i := i + 1;
    }
  }

  /**
   * A session: init over a driver at (37.5, 127.0) and zoom 15, the driver
   * then moving to (10, 20), and an init without the SDK.
   */
  method ExampleSession()
  {
    var driver := new LeafletMap(LatLng(37.5, 127.0), 15.0);
    var r := InitKakaoBaseMap(true, driver, {MountPointId}, None);
    assert r.Success?;
    var follower := r.value;
    assert follower.center == LatLng(37.5, 127.0) && follower.level == 5;
    assert !follower.draggable && !follower.zoomable && follower.mapTypeId == SKYVIEW;

    driver.center := LatLng(10.0, 20.0);
    SyncToKakao(driver, follower);
    assert follower.center == LatLng(10.0, 20.0) && follower.level == 5;
    assert !follower.draggable && !follower.zoomable;

    var noSdk := InitKakaoBaseMap(false, driver, {MountPointId}, None);
    assert noSdk == Failure(SdkNotLoaded);
    var noMount := InitKakaoBaseMap(true, driver, {}, Some(InitOptions(Some("hybrid"))));
    assert noMount == Failure(ContainerMissing);
  }
}
