/**
 * The standalone map page (map.js): the guard against a missing chart library, the initial mode
 * state, `showMessage`, and the chart's load callback that consumes a pending planner location.
 * The page's button handlers have empty bodies in map.js and are not modelled.
 */
module MapPage {
  import opened Wrappers
  import opened Celestial
  import opened Observatories
  import opened Handoff

  /** The `state` object: both modes off, no orientation sample seen. */
  datatype ModeState = ModeState(isSkyviewActive: bool, isArtActive: bool, orientationLastUpdate: int)

  const InitialModes: ModeState := ModeState(false, false, 0)

  /** What replaces the map container when the library did not load. */
  const FailureNotice: string := "<h1>星圖載入失敗</h1>"

  /** The message shown while a handed-off location is applied. */
  function ShowingSkyOf(name: string): string
  {
    "正在顯示 " + name + " 的星空..."
  }

  /** Which way the load callback went. */
  datatype LoadOutcome =
    | LoggedError                        // the library reported an error: only logged
    | AppliedHandoff(obs: Observatory)   // a pending planner location was applied and removed
    | ParseThrew                         // the stored text was not JSON: `JSON.parse` threw
    | ScheduledGeolocation               // nothing pending: map.js's `getLocation` is scheduled

  class MapPage {
    const storage: LocalStorage
    var container: Option<string>        // the container's replaced markup, if it was replaced
    var displayed: bool                  // `Celestial.display(celestialConfig)` was issued
    var listenersAttached: bool
    var state: Option<ModeState>         // absent when the guard returned first
    var chart: Chart
    var message: string
    var scheduledClears: nat             // message-clearing timers set
    var scheduledGeolocation: nat        // `setTimeout(getLocation, 500)` calls

    /** The page's `state` exists exactly when the chart was displayed and the listeners attached. */
    predicate Valid()
      reads this
    {
      && (state.Some? <==> displayed)
      && (displayed <==> listenersAttached)
      && (displayed <==> container.None?)
    }

    /**
     * The `DOMContentLoaded` handler. Without the library the container shows the failure notice
     * and nothing else is set up; with it the modes start off, the chart is displayed and the
     * listeners are attached.
     */
    constructor (libraryLoaded: bool, storage: LocalStorage)
      ensures Valid() && this.storage == storage
      ensures !libraryLoaded ==> container == Some(FailureNotice) && !displayed && !listenersAttached && state.None?
      ensures libraryLoaded ==> container.None? && displayed && listenersAttached && state == Some(InitialModes)
      ensures chart == Displayed && message == "" && scheduledClears == 0 && scheduledGeolocation == 0
    {
      this.storage := storage;
      chart := Displayed;
      message := "";
      scheduledClears := 0;
      scheduledGeolocation := 0;
      if !libraryLoaded {
        container := Some(FailureNotice);
        displayed, listenersAttached, state := false, false, None;
      } else {
        container := None;
        state := Some(InitialModes);
        displayed := true;
        listenersAttached := true;
      }
    }

    /** `showMessage(text, duration)`: the text always replaces the message; a clear is scheduled
        only for a positive duration, otherwise the message stays. */
    method ShowMessage(text: string, duration: int)
      modifies this`message, this`scheduledClears
      ensures message == text
      ensures scheduledClears == old(scheduledClears) + (if duration > 0 then 1 else 0)
    {
      message := text;
      if duration > 0 {
        scheduledClears := scheduledClears + 1;
      }
    }

    /**
     * The chart's load callback. An error is only logged. A pending `plannerLocation` is applied
     * as a local view and then removed; with nothing pending, storage is left alone and a
     * call of map.js's `getLocation`, an empty stub, is scheduled instead.
     */
    method OnChartLoaded(error: bool) returns (outcome: LoadOutcome)
      requires Valid() && displayed
      modifies this, storage
      ensures Valid() && displayed && state == old(state) && container == old(container)
      ensures error ==> outcome == LoggedError
      ensures !error && PlannerKey !in old(storage.items) ==> outcome == ScheduledGeolocation
      ensures !error && PlannerKey in old(storage.items) ==>
        outcome == match Parse(old(storage.items)[PlannerKey])
          case Some(o) => AppliedHandoff(o)
          case None => ParseThrew
      // the effects of each outcome
      ensures outcome.AppliedHandoff? ==>
        && storage.items == old(storage.items) - {PlannerKey}
        && chart == SetLocation(old(chart), outcome.obs.location, true)
        && message == ShowingSkyOf(outcome.obs.name)
        && scheduledClears == old(scheduledClears) + 1
        && scheduledGeolocation == old(scheduledGeolocation)
      ensures outcome.ScheduledGeolocation? ==>
        && storage.items == old(storage.items)
        && chart == old(chart) && message == old(message) && scheduledClears == old(scheduledClears)
        && scheduledGeolocation == old(scheduledGeolocation) + 1
      ensures outcome.LoggedError? || outcome.ParseThrew? ==>
        && storage.items == old(storage.items)
        && chart == old(chart) && message == old(message) && scheduledClears == old(scheduledClears)
        && scheduledGeolocation == old(scheduledGeolocation)
    {
      if error {
        return LoggedError;
      }
      if PlannerKey in storage.items {
        var saved := storage.items[PlannerKey];
        match Parse(saved)
        case None =>
          return ParseThrew;
        case Some(loc) =>
          ShowMessage(ShowingSkyOf(loc.name), 3000);
          chart := SetLocation(chart, loc.location, true);
          storage.items := storage.items - {PlannerKey};
          return AppliedHandoff(loc);
      } else {
        scheduledGeolocation := scheduledGeolocation + 1;
        return ScheduledGeolocation;
      }
    }
  }
}
