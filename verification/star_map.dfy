/**
 * The main star-map page (script.js): the mode flags and their buttons, the search box with its
 * single marker, the orientation toggle, geolocation and the preset selector, all driving one
 * chart. Browser and library answers (the permission answer, the geolocation result, the
 * coordinates `Celestial.search` resolves) arrive as method parameters.
 */
module StarMap {
  import opened Wrappers
  import opened Celestial
  import opened JsText
  import opened SearchIndex
  import opened Observatories

  /** The fixed id of the search marker, so a new marker always replaces the old one. */
  const SearchTargetId: string := "search-target"

  // ---- Texts shown on the page ----

  function ArtLabel(active: bool): string
  {
    if active then "🎨 隱藏圖案" else "🎨 顯示圖案"
  }

  function SkyviewLabel(active: bool): string
  {
    if active then "🛑 關閉陀螺儀" else "🔭 開啟陀螺儀"
  }

  function MarkingMessage(name: string): string { "為您標示 " + name + "..." }
  function NoCoordinatesMessage(name: string): string { "抱歉，找不到 " + name + " 的座標。" }
  function NotInDatabaseMessage(query: string): string { "抱歉，資料庫中沒有 \"" + query + "\"。" }

  const SkyviewOnMessage: string := "陀螺儀已開啟！"
  const SkyviewOffMessage: string := "陀螺儀已關閉。"
  const PermissionDeniedMessage: string := "方向感測器權限遭拒。"
  const LocatingMessage: string := "正在獲取您的位置..."
  const UnsupportedMessage: string := "您的瀏覽器不支援定位。"
  const PositionUpdatedMessage: string := "已更新為您的位置！"

  function LocationSetMessage(name: string): string { "地點已設為 " + name }

  /** `errors[error.code] || generic`: one message per known code, one for every other code. */
  function GeoErrorMessage(code: int): (r: string)
    ensures r == "獲取位置時發生未知錯誤。" <==> !(1 <= code <= 3)
  {
    if code == 1 then "您已拒絕位置請求。"
    else if code == 2 then "無法獲取當前位置。"
    else if code == 3 then "獲取位置超時。"
    else "獲取位置時發生未知錯誤。"
  }

  /** The geolocation error category a code falls in: 1, 2 or 3, or 0 for any other code. */
  function GeoErrorCategory(code: int): int
  {
    if 1 <= code <= 3 then code else 0
  }

  /** Two codes give the same message exactly when they fall in the same category. */
  lemma GeoErrorMessagesDistinct(c1: int, c2: int)
    ensures GeoErrorMessage(c1) == GeoErrorMessage(c2) <==> GeoErrorCategory(c1) == GeoErrorCategory(c2)
  {
    var m1, m2 := GeoErrorMessage(c1), GeoErrorMessage(c2);
    if GeoErrorCategory(c1) != GeoErrorCategory(c2) {
      assert m1[0] != m2[0] || m1[4] != m2[4];
    }
  }

  /** The three search results read differently whatever names they mention. */
  lemma SearchMessagesDistinct(found: string, unresolved: string, query: string)
    ensures MarkingMessage(found) != NoCoordinatesMessage(unresolved)
    ensures MarkingMessage(found) != NotInDatabaseMessage(query)
    ensures NoCoordinatesMessage(unresolved) != NotInDatabaseMessage(query)
  {
    assert MarkingMessage(found)[0] == '為';
    assert NoCoordinatesMessage(unresolved)[0] == '抱';
    assert NoCoordinatesMessage(unresolved)[3] == '找';
    assert NotInDatabaseMessage(query)[0] == '抱';
    assert NotInDatabaseMessage(query)[3] == '資';
  }

  /** The constellation block applied for an art flag: the art-image config, or `{ images: false }`. */
  function ArtImagesFor(active: bool): ConstellationImages
  {
    if active then ArtImages else NoImages
  }

  // ---- Page state ----

  /** What the platform offers for device orientation. */
  datatype OrientationSupport =
    | NoOrientationEvent   // `DeviceOrientationEvent` is not defined at all
    | NoPermissionApi      // events exist and need no permission
    | PermissionApi        // `DeviceOrientationEvent.requestPermission` is a function

  /** How a search ended. */
  datatype SearchOutcome =
    | EmptyQuery                  // nothing but white space was typed: nothing happens
    | Marked(target: Entry)       // marker placed on the matched entry
    | Unresolved(target: Entry)   // indexed, but the chart had no coordinates for it
    | NotIndexed(query: string)   // no entry carries that name

  /** The part of the page a search reads and writes besides the index: the chart, the message,
      the search box and the clear button's `hidden` class. */
  datatype SearchView = SearchView(
    chart: Chart,
    message: string,
    searchInput: string,
    clearButtonHidden: bool)

  /** At most one search marker, and the clear button is visible exactly while it is there. */
  predicate MarkerConsistent(features: seq<Feature>, clearButtonHidden: bool)
  {
    && CountId(features, SearchTargetId) <= 1
    && (clearButtonHidden <==> CountId(features, SearchTargetId) == 0)
  }

  /** The art button's label and `active` class, and the applied constellation block, agree with the flag. */
  predicate ArtConsistent(active: bool, caption: string, buttonActive: bool, images: ConstellationImages)
  {
    caption == ArtLabel(active) && buttonActive == active && images == ArtImagesFor(active)
  }

  /** The orientation button's label and `active` class agree with the flag. */
  predicate SkyviewConsistent(active: bool, caption: string, buttonActive: bool)
  {
    caption == SkyviewLabel(active) && buttonActive == active
  }

  // ---- Search ----

  /** `clearSearch(keepMessage)`: marker removed, box emptied, clear button hidden, and the
      message emptied unless it is to be kept. */
  function AfterClear(v: SearchView, keepMessage: bool): (r: SearchView)
    ensures CountId(r.chart.features, SearchTargetId) == 0 && r.clearButtonHidden && r.searchInput == ""
    ensures MarkerConsistent(r.chart.features, r.clearButtonHidden)
    ensures r.message == (if keepMessage then v.message else "")
  {
    SearchView(Remove(v.chart, SearchTargetId), if keepMessage then v.message else "", "", true)
  }

  /** Clearing is idempotent: a second clear leaves the state the first one left. */
  lemma ClearSearchIdempotent(v: SearchView, keepMessage: bool)
    ensures AfterClear(AfterClear(v, keepMessage), keepMessage) == AfterClear(v, keepMessage)
  {
    WithoutIdempotent(v.chart.features, SearchTargetId);
  }

  /** With no marker on the chart, a clear changes only the box and, unless kept, the message. */
  lemma ClearWithoutMarker(v: SearchView, keepMessage: bool)
    requires MarkerConsistent(v.chart.features, v.clearButtonHidden) && v.clearButtonHidden
    ensures AfterClear(v, keepMessage) == v.(searchInput := "", message := if keepMessage then v.message else "")
  {
    WithoutAbsent(v.chart.features, SearchTargetId);
  }

  /**
   * How `findCelestialObject` ends for the box text `input`, given what `Celestial.search`
   * resolves for the matched entry: the trimmed text is looked up, first match wins.
   */
  function SearchOutcomeOf(index: seq<Entry>, input: string, resolved: Option<Coord>): (r: SearchOutcome)
    ensures r.EmptyQuery? <==> Trim(input) == ""
    ensures r.NotIndexed? ==> r.query == Trim(input)
    ensures r.Marked? ==> resolved.Some?
    ensures r.Unresolved? ==> resolved.None?
    ensures r.Marked? || r.Unresolved? ==> r.target in index && EqualIgnoringCase(r.target.name, Trim(input))
  {
    var query := Trim(input);
    FindFirstMatch(index, query);
    if query == "" then EmptyQuery
    else match Find(index, query)
      case None => NotIndexed(query)
      case Some(i) => if resolved.Some? then Marked(index[i]) else Unresolved(index[i])
  }

  /**
   * What the found branch of `findCelestialObject` leaves: the old marker is cleared (keeping the
   * message); then either a new marker goes in at the resolved coordinates and the clear button
   * shows, or a message says the coordinates are missing.
   */
  function AfterFound(v: SearchView, target: Entry, resolved: Option<Coord>): (r: SearchView)
    ensures MarkerConsistent(r.chart.features, r.clearButtonHidden)
    ensures r.searchInput == "" && (r.clearButtonHidden <==> resolved.None?)
    ensures r.chart.(features := v.chart.features) == v.chart
  {
    var cleared := AfterClear(v, true);
    match resolved
    case Some(c) =>
      cleared.(chart := Add(cleared.chart, Feature(SearchTargetId, c)),
               clearButtonHidden := false,
               message := MarkingMessage(target.name))
    case None => cleared.(message := NoCoordinatesMessage(target.name))
  }

  /**
   * The search view after `findCelestialObject`: a blank query changes nothing, an unknown name
   * only sets its message, and a known name leads to `AfterFound` for the first matching entry.
   */
  function AfterSearch(index: seq<Entry>, v: SearchView, resolved: Option<Coord>): (r: SearchView)
    ensures Trim(v.searchInput) == "" ==> r == v
    ensures r.chart.(features := v.chart.features) == v.chart
    ensures MarkerConsistent(v.chart.features, v.clearButtonHidden) ==> MarkerConsistent(r.chart.features, r.clearButtonHidden)
  {
    var query := Trim(v.searchInput);
    if query == "" then v
    else match Find(index, query)
      case None => v.(message := NotInDatabaseMessage(query))
      case Some(i) => AfterFound(v, index[i], resolved)
  }

  /** What a search outcome says about the index: a blank query, a name no entry carries, or the
      first entry, in index order, whose name equals the trimmed query ignoring case. */
  lemma SearchOutcomeMeaning(index: seq<Entry>, input: string, resolved: Option<Coord>)
    ensures var o := SearchOutcomeOf(index, input, resolved); var q := Trim(input);
      && (o.NotIndexed? ==> forall e :: e in index ==> !EqualIgnoringCase(e.name, q))
      && (o.Marked? || o.Unresolved? ==>
            exists i :: 0 <= i < |index| && index[i] == o.target
              && EqualIgnoringCase(o.target.name, q)
              && forall j :: 0 <= j < i ==> !EqualIgnoringCase(index[j].name, q))
      && (o.Marked? <==> q != "" && Find(index, q).Some? && resolved.Some?)
  {
    var q := Trim(input);
    FindFirstMatch(index, q);
    if q != "" && Find(index, q).None? {
      forall e | e in index ensures !EqualIgnoringCase(e.name, q) {
        var k :| 0 <= k < |index| && index[k] == e;
        assert !Matches(index[k], q);
      }
    }
  }

  /** A successful search leaves exactly one marker, placed last at the resolved coordinates, every
      other feature as it was, and the clear button visible. */
  lemma SearchMarksOnce(index: seq<Entry>, v: SearchView, c: Coord)
    requires SearchOutcomeOf(index, v.searchInput, Some(c)).Marked?
    ensures var r := AfterSearch(index, v, Some(c));
      && CountId(r.chart.features, SearchTargetId) == 1
      && r.chart.features[|r.chart.features| - 1] == Feature(SearchTargetId, c)
      && (forall id :: id != SearchTargetId ==> CountId(r.chart.features, id) == CountId(v.chart.features, id))
      && !r.clearButtonHidden && r.searchInput == ""
  {
    var cleared := Without(v.chart.features, SearchTargetId);
    var f := Feature(SearchTargetId, c);
    WithoutKeepsOthers(v.chart.features, SearchTargetId);
    CountIdAppend(cleared, f, SearchTargetId);
    forall id | id != SearchTargetId
      ensures CountId(cleared + [f], id) == CountId(v.chart.features, id)
    {
      CountIdAppend(cleared, f, id);
    }
  }

  /** The clear button is made visible only by a search that places a marker. */
  lemma ClearButtonShownOnlyWhenMarked(index: seq<Entry>, v: SearchView, resolved: Option<Coord>)
    ensures var r := AfterSearch(index, v, resolved);
      v.clearButtonHidden && !r.clearButtonHidden <==> v.clearButtonHidden && SearchOutcomeOf(index, v.searchInput, resolved).Marked?
  {
  }

  /** Neither failure adds a marker. A known name without coordinates still removes the old marker
      and hides the clear button; an unknown name (or a blank query) leaves the chart alone. */
  lemma SearchFailuresAddNoMarker(index: seq<Entry>, v: SearchView, resolved: Option<Coord>)
    requires MarkerConsistent(v.chart.features, v.clearButtonHidden)
    requires !SearchOutcomeOf(index, v.searchInput, resolved).Marked?
    ensures var r := AfterSearch(index, v, resolved); var o := SearchOutcomeOf(index, v.searchInput, resolved);
      && CountId(r.chart.features, SearchTargetId) <= CountId(v.chart.features, SearchTargetId)
      && (o.Unresolved? ==> CountId(r.chart.features, SearchTargetId) == 0 && r.clearButtonHidden)
      && (o.Unresolved? ==> forall id :: id != SearchTargetId ==> CountId(r.chart.features, id) == CountId(v.chart.features, id))
      && (o.NotIndexed? || o.EmptyQuery? ==> r.chart == v.chart && r.clearButtonHidden == v.clearButtonHidden)
  {
    WithoutKeepsOthers(v.chart.features, SearchTargetId);
  }

  /** The message a search leaves names its outcome: the marking message for a hit with
      coordinates, the missing-coordinates message for a hit without, the not-in-database message
      for an unknown name, and the old message for a blank query. With `SearchMessagesDistinct`
      the two failures are told apart on the page. */
  lemma SearchMessageOf(index: seq<Entry>, v: SearchView, resolved: Option<Coord>)
    ensures var r := AfterSearch(index, v, resolved); var o := SearchOutcomeOf(index, v.searchInput, resolved);
      && (o.Marked? ==> r.message == MarkingMessage(o.target.name))
      && (o.Unresolved? ==> r.message == NoCoordinatesMessage(o.target.name))
      && (o.NotIndexed? ==> r.message == NotInDatabaseMessage(o.query))
      && (o.EmptyQuery? ==> r.message == v.message)
  {
  }

  /** Before the index is built every non-blank query is unknown and the chart is not touched. */
  lemma SearchBeforeIndex(v: SearchView, resolved: Option<Coord>)
    requires Trim(v.searchInput) != ""
    ensures SearchOutcomeOf([], v.searchInput, resolved) == NotIndexed(Trim(v.searchInput))
    ensures AfterSearch([], v, resolved) == v.(message := NotInDatabaseMessage(Trim(v.searchInput)))
  {
  }

  // ---- Device orientation ----

  /** The part of the page the orientation toggle and its permission request read and write. */
  datatype SkyviewView = SkyviewView(
    active: bool,
    caption: string,
    buttonActive: bool,
    message: string,
    listener: bool,            // `deviceorientation` listener registered on window
    chart: Chart,
    pendingPermissions: nat,   // permission promises not yet settled
    scheduledClears: nat)      // message-clearing timers set

  /** The button agrees with the flag, and the listener is registered exactly while the chart
      follows the view centre. */
  predicate SkyviewViewConsistent(v: SkyviewView)
  {
    SkyviewConsistent(v.active, v.caption, v.buttonActive) && (v.listener <==> v.chart.follow == FollowCenter)
  }

  /** The flag flipped, with the button and the on/off message following it. */
  function FlipSkyview(v: SkyviewView): SkyviewView
  {
    var on := !v.active;
    v.(active := on, caption := SkyviewLabel(on), buttonActive := on,
       message := if on then SkyviewOnMessage else SkyviewOffMessage)
  }

  /**
   * `toggleSkyView` on a platform. Turning off removes the listener and stops following. Turning
   * on depends on the platform: with no `DeviceOrientationEvent` at all the permission test throws
   * and nothing after the message happens; with a permission API a request is left pending;
   * otherwise the listener is registered and the chart follows the view centre. Except on the
   * throwing path the message is scheduled to be cleared.
   */
  function AfterToggleSkyview(v: SkyviewView, platform: OrientationSupport): (r: SkyviewView)
    ensures r.active == !v.active
    ensures !r.active ==> !r.listener && r.chart.follow == FollowNone
  {
    var f := FlipSkyview(v);
    if !f.active then
      f.(listener := false, chart := Skyview(v.chart, FollowNone), scheduledClears := v.scheduledClears + 1)
    else match platform
      case NoOrientationEvent => f
      case PermissionApi =>
        f.(pendingPermissions := v.pendingPermissions + 1, scheduledClears := v.scheduledClears + 1)
      case NoPermissionApi =>
        f.(listener := true, chart := Skyview(v.chart, FollowCenter), scheduledClears := v.scheduledClears + 1)
  }

  /**
   * A pending permission request resolving with `answer`: "granted" registers the listener and
   * follows the view centre, whatever the flag is by then; any other answer shows the denial and
   * turns the flag and the button off, leaving the listener as it is.
   */
  function AfterPermissionAnswer(v: SkyviewView, answer: string): (r: SkyviewView)
    requires v.pendingPermissions > 0
    ensures r.pendingPermissions == v.pendingPermissions - 1
    ensures SkyviewViewConsistent(v) ==> SkyviewViewConsistent(r)
  {
    var settled := v.(pendingPermissions := v.pendingPermissions - 1);
    if answer == "granted" then
      settled.(listener := true, chart := Skyview(v.chart, FollowCenter))
    else
      settled.(message := PermissionDeniedMessage, active := false,
               caption := SkyviewLabel(false), buttonActive := false)
  }

  /** The toggle flips the flag, the button and the message always; it touches the chart's view
      following only, and the listener only when it does so. */
  lemma ToggleSkyviewEffect(v: SkyviewView, platform: OrientationSupport)
    ensures var r := AfterToggleSkyview(v, platform);
      && r.active == !v.active && r.caption == SkyviewLabel(r.active) && r.buttonActive == r.active
      && r.message == (if r.active then SkyviewOnMessage else SkyviewOffMessage)
      && r.chart.(follow := v.chart.follow) == v.chart
      && (r.listener != v.listener || r.chart != v.chart ==> !r.active || platform == NoPermissionApi)
      && (r.scheduledClears == v.scheduledClears <==> r.active && platform == NoOrientationEvent)
      && (r.pendingPermissions != v.pendingPermissions <==> r.active && platform == PermissionApi)
  {
  }

  /** Turning off does not depend on what the platform offers. */
  lemma ToggleOffIgnoresPlatform(v: SkyviewView, p: OrientationSupport, q: OrientationSupport)
    requires v.active
    ensures AfterToggleSkyview(v, p) == AfterToggleSkyview(v, q)
  {
  }

  /** Toggling keeps the button and the listener consistent. */
  lemma ToggleSkyviewKeepsConsistent(v: SkyviewView, platform: OrientationSupport)
    requires SkyviewViewConsistent(v)
    ensures SkyviewViewConsistent(AfterToggleSkyview(v, platform))
  {
  }

  /** Where permission is needed, on then "granted" ends where one toggle on a platform without the
      permission API ends, except that the message timer came first. */
  lemma GrantedMatchesDirectToggle(v: SkyviewView)
    requires !v.active
    ensures AfterPermissionAnswer(AfterToggleSkyview(v, PermissionApi), "granted")
         == AfterToggleSkyview(v, NoPermissionApi)
  {
  }

  /** A refused request turns the toggle back off and restores the button: the page is as before
      the toggle but for the denial message and the timer. */
  lemma DeniedUndoesToggle(v: SkyviewView, answer: string)
    requires !v.active && SkyviewViewConsistent(v) && answer != "granted"
    ensures AfterPermissionAnswer(AfterToggleSkyview(v, PermissionApi), answer)
         == v.(message := PermissionDeniedMessage, scheduledClears := v.scheduledClears + 1)
  {
  }

  /** The answer may arrive after the user has turned the toggle off again: a grant then registers
      the listener and follows the view centre while the flag and the button say "off". */
  lemma LateGrantFollowsWhileOff(v: SkyviewView)
    requires !v.active && SkyviewViewConsistent(v)
    ensures var r := AfterPermissionAnswer(AfterToggleSkyview(AfterToggleSkyview(v, PermissionApi), PermissionApi), "granted");
      && !r.active && r.caption == SkyviewLabel(false)
      && r.listener && r.chart.follow == FollowCenter
      && r.pendingPermissions == v.pendingPermissions
  {
  }

  // ---- The page ----

  class StarMapPage {
    var isSkyviewActive: bool
    var isArtActive: bool
    var celestialData: seq<Entry>
    var datalist: seq<string>
    var chart: Chart
    var message: string
    var searchInput: string
    var clearButtonHidden: bool
    var artLabel: string
    var artButtonActive: bool
    var skyviewLabel: string
    var skyviewButtonActive: bool
    var orientationListener: bool          // `deviceorientation` listener registered on window
    var pendingPermissionRequests: nat     // permission promises not yet settled
    var pendingGeolocationRequests: nat    // `getCurrentPosition` calls not yet answered
    var scheduledClears: nat               // message-clearing timers set
    var scheduledGeolocation: nat          // `setTimeout(getLocation, 500)` calls

    function SearchPart(): SearchView
      reads this`chart, this`message, this`searchInput, this`clearButtonHidden
    {
      SearchView(chart, message, searchInput, clearButtonHidden)
    }

    function SkyviewPart(): SkyviewView
      reads this`isSkyviewActive, this`skyviewLabel, this`skyviewButtonActive, this`message
      reads this`orientationListener, this`chart, this`pendingPermissionRequests, this`scheduledClears
    {
      SkyviewView(isSkyviewActive, skyviewLabel, skyviewButtonActive, message,
                   orientationListener, chart, pendingPermissionRequests, scheduledClears)
    }

    /** The page's invariant: the search marker, the toggles and the index each agree with what
        the page shows for them. */
    predicate Valid()
      reads this
    {
      MarkerValid() && ArtValid() && SkyviewValid() && IndexValid()
    }

    /** One marker at most, shown exactly with the clear button. */
    predicate MarkerValid()
      reads this`chart, this`clearButtonHidden
    {
      MarkerConsistent(chart.features, clearButtonHidden)
    }

    /** The art button's label and `active` class, and the applied constellation block, agree
        with the art flag. */
    predicate ArtValid()
      reads this`chart, this`isArtActive, this`artLabel, this`artButtonActive
    {
      ArtConsistent(isArtActive, artLabel, artButtonActive, chart.constellations)
    }

    /** The orientation button agrees with its flag, and the orientation listener is registered
        exactly while the chart follows the view centre. */
    predicate SkyviewValid()
      reads this`chart, this`isSkyviewActive, this`skyviewLabel, this`skyviewButtonActive, this`orientationListener
    {
      && SkyviewConsistent(isSkyviewActive, skyviewLabel, skyviewButtonActive)
      && (orientationListener <==> chart.follow == FollowCenter)
    }

    /** The datalist lists the index's names. */
    predicate IndexValid()
      reads this`datalist, this`celestialData
    {
      datalist == Names(celestialData)
    }

    /** The `DOMContentLoaded` handler up to `Celestial.display(celestialConfig)`: both flags off, an
        empty index, a freshly displayed chart. The markup is taken to start with an empty box, a
        hidden clear button and the "off" labels. */
    constructor ()
      ensures !isSkyviewActive && !isArtActive && celestialData == [] && chart == Displayed
      ensures message == "" && searchInput == "" && clearButtonHidden && !orientationListener
      ensures pendingPermissionRequests == 0 && pendingGeolocationRequests == 0
      ensures scheduledClears == 0 && scheduledGeolocation == 0
      ensures Valid()
    {
      isSkyviewActive, isArtActive := false, false;
      celestialData, datalist := [], [];
      chart := Displayed;
      message, searchInput, clearButtonHidden := "", "", true;
      artLabel, artButtonActive := ArtLabel(false), false;
      skyviewLabel, skyviewButtonActive := SkyviewLabel(false), false;
      orientationListener := false;
      pendingPermissionRequests, pendingGeolocationRequests := 0, 0;
      scheduledClears, scheduledGeolocation := 0, 0;
    }

    /** The user edits the search box. */
    method TypeQuery(text: string)
      requires Valid()
      modifies this`searchInput
      ensures Valid() && searchInput == text
    {
      searchInput := text;
    }

    /** `toggleConstellationArt`: the flag flips, and the label, the `active` class and the applied
        constellation block follow it. */
    method ToggleConstellationArt()
      requires Valid()
      modifies this`isArtActive, this`artLabel, this`artButtonActive, this`chart
      ensures isArtActive == !old(isArtActive)
      ensures artLabel == ArtLabel(isArtActive) && artButtonActive == isArtActive
      ensures chart == ApplyConstellations(old(chart), ArtImagesFor(isArtActive))
      ensures Valid()
    {
      isArtActive := !isArtActive;
      artLabel := ArtLabel(isArtActive);
      artButtonActive := isArtActive;
      chart := ApplyConstellations(chart, ArtImagesFor(isArtActive));
    }

    /** `loadCelestialDataForSearch`: the index is rebuilt from scratch, entry by entry, and the
        datalist lists its names. */
    method LoadCelestialDataForSearch(constellations: Option<seq<ConstellationData>>, stars: Option<seq<StarFeature>>)
      requires Valid()
      modifies this`celestialData, this`datalist
      ensures celestialData == BuildIndex(constellations, stars)
      ensures datalist == Names(celestialData)
      ensures Valid()
    {
      celestialData := [];
      if constellations.Some? {
        PushConstellations(constellations.value);
      }
      if stars.Some? {
        PushNamedStars(stars.value);
      }
      PushPlanets();
      datalist := Names(celestialData);
    }

    /** The loop over the library's constellations: one entry per constellation, in its order. */
    method PushConstellations(cs: seq<ConstellationData>)
      modifies this`celestialData
      ensures celestialData == old(celestialData) + ConstellationEntries(cs)
    {
      for i := 0 to |cs|
        invariant celestialData == old(celestialData) + ConstellationEntries(cs[..i])
      {
        assert ConstellationEntries(cs[..i + 1]) == ConstellationEntries(cs[..i]) + [ConstellationEntry(cs[i])];
        celestialData := celestialData + [ConstellationEntry(cs[i])];
      }
      assert cs[..|cs|] == cs;
    }

    /** The loop over the library's star features: only stars with a proper name are pushed, in order. */
    method PushNamedStars(stars: seq<StarFeature>)
      modifies this`celestialData
      ensures celestialData == old(celestialData) + NamedStarEntries(stars)
    {
      for i := 0 to |stars|
        invariant celestialData == old(celestialData) + NamedStarEntries(stars[..i])
      {
        NamedStarEntriesSnoc(stars[..i], stars[i]);
        assert stars[..i + 1] == stars[..i] + [stars[i]];
        if HasProperName(stars[i]) {
          celestialData := celestialData + [StarEntry(stars[i])];
        }
      }
      assert stars[..|stars|] == stars;
    }

    /** The loop over the fixed solar-system bodies: one planet entry, without id, per name. */
    method PushPlanets()
      modifies this`celestialData
      ensures celestialData == old(celestialData) + PlanetEntries()
    {
      for k := 0 to |PlanetNames|
        invariant celestialData == old(celestialData) + PlanetEntries()[..k]
      {
        assert PlanetEntries()[..k + 1] == PlanetEntries()[..k] + [Entry(PlanetNames[k], Planet, None)];
        celestialData := celestialData + [Entry(PlanetNames[k], Planet, None)];
      }
      assert PlanetEntries()[..|PlanetNames|] == PlanetEntries();
    }

    /** `clearSearch(keepMessage)`: `Celestial.remove("search-target")`, then the box, the button and
        (unless kept) the message. */
    method ClearSearch(keepMessage: bool)
      requires Valid()
      modifies this`chart, this`searchInput, this`clearButtonHidden, this`message
      ensures SearchPart() == AfterClear(old(SearchPart()), keepMessage)
      ensures Valid()
    {
      chart := Remove(chart, SearchTargetId);
      searchInput := "";
      clearButtonHidden := true;
      if !keepMessage {
        message := "";
      }
    }

    /** `findCelestialObject`, with `resolved` standing for what `Celestial.search` answers for the
        matched entry. Every non-blank query schedules the message to be cleared. */
    method FindCelestialObject(resolved: Option<Coord>) returns (outcome: SearchOutcome)
      requires Valid()
      modifies this`chart, this`message, this`searchInput, this`clearButtonHidden, this`scheduledClears
      ensures outcome == SearchOutcomeOf(celestialData, old(searchInput), resolved)
      ensures SearchPart() == AfterSearch(celestialData, old(SearchPart()), resolved)
      ensures scheduledClears == old(scheduledClears) + (if outcome.EmptyQuery? then 0 else 1)
      ensures Valid()
    {
      var query := Trim(searchInput);
      if query == "" {
        return EmptyQuery;
      }
      var found := Find(celestialData, query);
      scheduledClears := scheduledClears + 1;  // a timer empties the message after three seconds
      if found.Some? {
        var target := celestialData[found.value];
        ShowTarget(target, resolved);
        outcome := if resolved.Some? then Marked(target) else Unresolved(target);
      } else {
        message := NotInDatabaseMessage(query);
        outcome := NotIndexed(query);
      }
    }

    /** The found branch of `findCelestialObject`: `clearSearch(true)`, then either the marker, its
        message and the clear button, or the missing-coordinates message. */
    method ShowTarget(target: Entry, resolved: Option<Coord>)
      requires Valid()
      modifies this`chart, this`message, this`searchInput, this`clearButtonHidden
      ensures SearchPart() == AfterFound(old(SearchPart()), target, resolved)
      ensures Valid()
    {
      ClearSearch(true);
      match resolved {
        case Some(c) =>
          message := MarkingMessage(target.name);
          chart := Add(chart, Feature(SearchTargetId, c));
          clearButtonHidden := false;
        case None =>
          message := NoCoordinatesMessage(target.name);
      }
    }

    /** `toggleSkyView`, with `platform` standing for what the browser offers. */
    method ToggleSkyView(platform: OrientationSupport)
      requires Valid()
      modifies this`isSkyviewActive, this`skyviewLabel, this`skyviewButtonActive, this`message
      modifies this`orientationListener, this`chart, this`pendingPermissionRequests, this`scheduledClears
      ensures SkyviewPart() == AfterToggleSkyview(old(SkyviewPart()), platform)
      ensures Valid()
    {
      if isSkyviewActive {
        TurnSkyviewOff();
      } else {
        TurnSkyviewOn(platform);
      }
    }

    /** The "on" branch of `toggleSkyView`. */
    method TurnSkyviewOn(platform: OrientationSupport)
      requires Valid() && !isSkyviewActive
      modifies this`isSkyviewActive, this`skyviewLabel, this`skyviewButtonActive, this`message
      modifies this`orientationListener, this`chart, this`pendingPermissionRequests, this`scheduledClears
      ensures SkyviewPart() == AfterToggleSkyview(old(SkyviewPart()), platform)
      ensures Valid()
    {
      SetSkyviewFlag(true);
      message := SkyviewOnMessage;
      RequestOrientation(platform);
    }

    /** The rest of the "on" branch: ask for permission where the platform wants it, otherwise
        subscribe at once, and schedule the message's clearing. Without `DeviceOrientationEvent`
        the permission test throws and nothing of this happens. */
    method RequestOrientation(platform: OrientationSupport)
      modifies this`orientationListener, this`chart, this`pendingPermissionRequests, this`scheduledClears
      ensures platform == NoOrientationEvent ==>
        && orientationListener == old(orientationListener) && chart == old(chart)
        && pendingPermissionRequests == old(pendingPermissionRequests) && scheduledClears == old(scheduledClears)
      ensures platform == PermissionApi ==>
        && orientationListener == old(orientationListener) && chart == old(chart)
        && pendingPermissionRequests == old(pendingPermissionRequests) + 1 && scheduledClears == old(scheduledClears) + 1
      ensures platform == NoPermissionApi ==>
        && orientationListener && chart == Skyview(old(chart), FollowCenter)
        && pendingPermissionRequests == old(pendingPermissionRequests) && scheduledClears == old(scheduledClears) + 1
    {
      match platform {
        case NoOrientationEvent =>
          return;  // `DeviceOrientationEvent.requestPermission` throws a ReferenceError
        case PermissionApi =>
          pendingPermissionRequests := pendingPermissionRequests + 1;
        case NoPermissionApi =>
          Follow(true);
      }
      scheduledClears := scheduledClears + 1;
    }

    /** The "off" branch of `toggleSkyView`. It does not depend on the platform: every platform
        gives the same result when turning off (`ToggleOffIgnoresPlatform`), and the contract
        names `NoOrientationEvent` only as one of them. */
    method TurnSkyviewOff()
      requires Valid() && isSkyviewActive
      modifies this`isSkyviewActive, this`skyviewLabel, this`skyviewButtonActive, this`message
      modifies this`orientationListener, this`chart, this`scheduledClears
      ensures SkyviewPart() == AfterToggleSkyview(old(SkyviewPart()), NoOrientationEvent)
      ensures Valid()
    {
      SetSkyviewFlag(false);
      message := SkyviewOffMessage;
      Follow(false);
      scheduledClears := scheduledClears + 1;
    }

    /** The flag with the button's text and `active` class made to agree with it. */
    method SetSkyviewFlag(active: bool)
      modifies this`isSkyviewActive, this`skyviewLabel, this`skyviewButtonActive
      ensures isSkyviewActive == active
      ensures skyviewLabel == SkyviewLabel(active) && skyviewButtonActive == active
    {
      isSkyviewActive := active;
      skyviewLabel := SkyviewLabel(active);
      skyviewButtonActive := active;
    }

    /** Registering the `deviceorientation` listener with `Celestial.skyview({ follow: "center" })`,
        or removing it with `Celestial.skyview({ follow: "none" })`. */
    method Follow(on: bool)
      modifies this`orientationListener, this`chart
      ensures orientationListener == on
      ensures chart == Skyview(old(chart), if on then FollowCenter else FollowNone)
    {
      orientationListener := on;
      chart := Skyview(chart, if on then FollowCenter else FollowNone);
    }

    /** A pending permission request resolves with `answer`. */
    method PermissionAnswered(answer: string)
      requires Valid() && pendingPermissionRequests > 0
      modifies this`orientationListener, this`chart, this`message, this`isSkyviewActive
      modifies this`skyviewLabel, this`skyviewButtonActive, this`pendingPermissionRequests
      ensures SkyviewPart() == AfterPermissionAnswer(old(SkyviewPart()), answer)
      ensures Valid()
    {
      pendingPermissionRequests := pendingPermissionRequests - 1;
      if answer == "granted" {
        Follow(true);
      } else {
        message := PermissionDeniedMessage;
        SetSkyviewFlag(false);
      }
    }

    /** A pending permission request rejects: `.catch(console.error)` only logs. */
    method PermissionRejected()
      requires Valid() && pendingPermissionRequests > 0
      modifies this`pendingPermissionRequests
      ensures pendingPermissionRequests == old(pendingPermissionRequests) - 1
      ensures Valid()
    {
      pendingPermissionRequests := pendingPermissionRequests - 1;
    }

    /** `getLocation`: with geolocation available, a position request is left pending behind the
        "locating" message; otherwise the page says geolocation is unsupported. */
    method GetLocation(hasGeolocation: bool)
      requires Valid()
      modifies this`message, this`pendingGeolocationRequests
      ensures message == if hasGeolocation then LocatingMessage else UnsupportedMessage
      ensures pendingGeolocationRequests == old(pendingGeolocationRequests) + if hasGeolocation then 1 else 0
      ensures Valid()
    {
      if hasGeolocation {
        message := LocatingMessage;
        pendingGeolocationRequests := pendingGeolocationRequests + 1;
      } else {
        message := UnsupportedMessage;
      }
    }

    /** `showPosition`: a pending request succeeds; the chart moves to the position in local time
        and the message is scheduled to be cleared. */
    method ShowPosition(at: LatLon)
      requires Valid() && pendingGeolocationRequests > 0
      modifies this`message, this`chart, this`pendingGeolocationRequests, this`scheduledClears
      ensures message == PositionUpdatedMessage && chart == SetLocation(old(chart), at, true)
      ensures pendingGeolocationRequests == old(pendingGeolocationRequests) - 1
      ensures scheduledClears == old(scheduledClears) + 1
      ensures Valid()
    {
      pendingGeolocationRequests := pendingGeolocationRequests - 1;
      message := PositionUpdatedMessage;
      chart := SetLocation(chart, at, true);
      scheduledClears := scheduledClears + 1;
    }

    /** `showError`: a pending request fails with `code`; the message names the failure and stays. */
    method ShowError(code: int)
      requires Valid() && pendingGeolocationRequests > 0
      modifies this`message, this`pendingGeolocationRequests
      ensures message == GeoErrorMessage(code)
      ensures pendingGeolocationRequests == old(pendingGeolocationRequests) - 1
      ensures Valid()
    {
      pendingGeolocationRequests := pendingGeolocationRequests - 1;
      message := GeoErrorMessage(code);
    }

    /** The chart's load `callback`: on error nothing happens; otherwise the search index is built
        and a location request is scheduled. */
    method OnChartLoaded(error: bool, constellations: Option<seq<ConstellationData>>, stars: Option<seq<StarFeature>>)
      requires Valid()
      modifies this`celestialData, this`datalist, this`scheduledGeolocation
      ensures error ==> celestialData == old(celestialData) && datalist == old(datalist)
      ensures error ==> scheduledGeolocation == old(scheduledGeolocation)
      ensures !error ==> celestialData == BuildIndex(constellations, stars) && datalist == Names(celestialData)
      ensures !error ==> scheduledGeolocation == old(scheduledGeolocation) + 1
      ensures Valid()
    {
      if error {
        return;
      }
      LoadCelestialDataForSearch(constellations, stars);
      scheduledGeolocation := scheduledGeolocation + 1;
    }

    /**
     * The observatory selector's `change` handler. An empty selection does nothing. A code missing
     * from the table makes `obs.name` throw a TypeError before anything is changed. A known code
     * names the observatory in the message, moves the chart there without `local` (so the
     * local-time setting stays as it was) and schedules the follow-up.
     */
    method SelectObservatory(selected: string)
      requires Valid()
      modifies this`message, this`chart, this`scheduledClears
      ensures selected == "" || Lookup(selected).None? ==>
        message == old(message) && chart == old(chart) && scheduledClears == old(scheduledClears)
      ensures selected != "" && Lookup(selected).Some? ==>
        && message == LocationSetMessage(Lookup(selected).value.name)
        && chart == SetLocation(old(chart), Lookup(selected).value.location, false)
        && scheduledClears == old(scheduledClears) + 1
      ensures Valid()
    {
      if selected == "" {
        return;
      }
      var obs := Lookup(selected);
      if obs.None? {
        return;
      }
      message := LocationSetMessage(obs.value.name);
      chart := SetLocation(chart, obs.value.location, false);
      scheduledClears := scheduledClears + 1;
    }
  }
}
