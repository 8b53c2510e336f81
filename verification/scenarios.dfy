/**
 * Whole-page runs: sequences of handler calls on freshly built pages, with what each sequence is
 * guaranteed to end in.
 */
module Scenarios {
  import opened Wrappers
  import opened Celestial
  import opened JsText
  import opened SearchIndex
  import opened Observatories
  import opened Handoff
  import opened StarMap
  import opened Planner
  import opened MapPage

  /** Before the chart has loaded, a search for a real star name finds nothing and leaves the chart
      without a marker. */
  method SearchBeforeLoad(c: Coord) returns (outcome: SearchOutcome, page: StarMapPage)
    ensures outcome == NotIndexed("Sirius")
    ensures page.chart == Displayed && page.message == NotInDatabaseMessage("Sirius") && page.clearButtonHidden
  {
    page := new StarMapPage();
    page.TypeQuery("Sirius");
    TrimStartOfNonSpace("Sirius");
    TrimEndOfNonSpace("Sirius");
    outcome := page.FindCelestialObject(Some(c));
  }

  /** After a load without library data, "Mars" and then "mars" are both found among the fixed
      bodies; the second marker replaces the first, so the chart holds exactly one. */
  method SearchTwiceKeepsOneMarker(c1: Coord, c2: Coord) returns (first: SearchOutcome, second: SearchOutcome, page: StarMapPage)
    ensures first.Marked? && first.target.kind == Planet
    ensures second.Marked? && second.target.kind == Planet
    ensures page.chart.features == [Feature(SearchTargetId, c2)] && !page.clearButtonHidden
    ensures page.searchInput == "" && page.Valid()
  {
    page := new StarMapPage();
    page.OnChartLoaded(false, None, None);
    TrimStartOfNonSpace("Mars");
    TrimEndOfNonSpace("Mars");
    first := SearchForMars(page, "Mars", c1);
    TrimStartOfNonSpace("mars");
    TrimEndOfNonSpace("mars");
    EqualIgnoringCaseOnLetters("Mars", "mars");
    second := SearchForMars(page, "mars", c2);
  }

  /** Typing a spelling of "Mars" and searching, on a page indexed without library data: the old
      marker goes and a new one is placed at the resolved coordinates. */
  method SearchForMars(page: StarMapPage, query: string, c: Coord) returns (outcome: SearchOutcome)
    requires page.Valid() && page.celestialData == BuildIndex(None, None)
    requires Trim(query) == query && EqualIgnoringCase("Mars", query)
    modifies page`chart, page`message, page`searchInput, page`clearButtonHidden, page`scheduledClears
    ensures outcome.Marked? && outcome.target.kind == Planet
    ensures page.chart.features == Without(old(page.chart.features), SearchTargetId) + [Feature(SearchTargetId, c)]
    ensures !page.clearButtonHidden && page.searchInput == "" && page.Valid()
  {
    page.TypeQuery(query);
    assert PlanetNames[4] == "Mars";
    PlanetsAlwaysSearchable(4, query);
    outcome := page.FindCelestialObject(Some(c));
  }

  /** Toggling the art overlay twice puts the flag, the button and the chart back as they were. */
  method ToggleArtTwice(page: StarMapPage)
    requires page.Valid()
    modifies page`isArtActive, page`artLabel, page`artButtonActive, page`chart
    ensures page.isArtActive == old(page.isArtActive) && page.chart == old(page.chart)
    ensures page.artLabel == old(page.artLabel) && page.artButtonActive == old(page.artButtonActive)
  {
    page.ToggleConstellationArt();
    page.ToggleConstellationArt();
  }

  /** Where the orientation permission is needed, turning the view on and off again before the
      "granted" answer arrives leaves the button off while the chart follows the device. */
  method LateGrant() returns (page: StarMapPage)
    ensures !page.isSkyviewActive && page.skyviewLabel == SkyviewLabel(false)
    ensures page.orientationListener && page.chart.follow == FollowCenter
    ensures page.pendingPermissionRequests == 0
  {
    page := new StarMapPage();
    page.ToggleSkyView(PermissionApi);
    page.ToggleSkyView(PermissionApi);
    page.PermissionAnswered("granted");
  }

  /**
   * A preset chosen on the planner page reaches the map page: its first load applies the preset's
   * location in local time, shows its name and removes the key, so the next load of the map page,
   * on the same storage, schedules `getLocation` instead.
   */
  method HandoffRoundTrip(items: map<string, StoredValue>, code: string)
    returns (first: LoadOutcome, second: LoadOutcome, page: MapPage, reloaded: MapPage)
    requires Lookup(code).Some?
    ensures first == AppliedHandoff(Lookup(code).value)
    ensures page.chart.location == Some(Lookup(code).value.location) && page.chart.local
    ensures page.message == ShowingSkyOf(Lookup(code).value.name)
    ensures second == ScheduledGeolocation && reloaded.storage == page.storage
    ensures PlannerKey !in page.storage.items
  {
    var storage := new LocalStorage(items);
    var planner := new PlannerPage(storage);
    planner.OnChange(code);
    page := new MapPage(true, storage);
    first := page.OnChartLoaded(false);
    reloaded := new MapPage(true, storage);
    second := reloaded.OnChartLoaded(false);
  }

  /** A code missing from the preset table stores the text "undefined"; every later load of the map
      page then fails to parse it and the key is never removed. */
  method UnknownPresetPoisonsHandoff(items: map<string, StoredValue>, code: string)
    returns (first: LoadOutcome, second: LoadOutcome, page: MapPage, reloaded: MapPage)
    requires code != "" && Lookup(code).None?
    ensures first == ParseThrew && second == ParseThrew && reloaded.storage == page.storage
    ensures PlannerKey in page.storage.items && page.storage.items[PlannerKey] == UndefinedText
    ensures page.chart == Displayed && reloaded.chart == Displayed
  {
    var storage := new LocalStorage(items);
    var planner := new PlannerPage(storage);
    planner.OnChange(code);
    page := new MapPage(true, storage);
    first := page.OnChartLoaded(false);
    reloaded := new MapPage(true, storage);
    second := reloaded.OnChartLoaded(false);
  }
}
