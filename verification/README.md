# Star map: the page state behind the chart

A small astronomy web site for children shows an interactive sky chart, drawn by the d3-celestial library (`Celestial`). Around the chart, three scripts keep a handful of page states in step with what the chart shows.

- **script.js**, the main page:
  - a search box over an index of constellations, named stars and the nine solar-system bodies, which marks one found object at a time;
  - a toggle for the constellation-art overlay;
  - a toggle that makes the chart follow the device's orientation, behind a permission prompt where the platform has one;
  - geolocation with its error messages;
  - an observatory selector.
- **planner.js**, the planner page: a preset table of three observatories. Choosing one stores it under the `localStorage` key `plannerLocation` and navigates to the map.
- **map.js**, the standalone map page: a guard against a missing chart library, the initial mode state, `showMessage`, and the chart's load callback. That callback consumes a pending `plannerLocation` once; with nothing pending it schedules map.js's own `getLocation`, whose body is empty.

The model treats the chart as a value (`Celestial.Chart`) with these parts:

- its custom features (the search marker among them);
- the applied constellation block (art images or none);
- the view-following mode;
- the location and its local-time flag.

Each library call becomes a pure transition on that value. What the library or the browser answers becomes a parameter:

- the coordinates `Celestial.search` resolves;
- the permission answer;
- whether the platform has the orientation or geolocation APIs;
- the geolocation result or error code;
- the library's constellation and star data.

The pages are classes whose fields are the page state: flags, button labels and `active` classes, the message, the search box, the clear button, the index and its datalist, the orientation listener, the chart, and the storage. Timers are counted rather than run.

The search, the index and the orientation toggle are methods proved against specification functions. Each of these functions describes one handler's effect on a view of the page:

- `AfterClear`, `AfterFound` and `AfterSearch` cover the search.
- `AfterToggleSkyview` and `AfterPermissionAnswer` cover the orientation toggle.
- `BuildIndex`, `Find` and `Names` cover the index.

The other handlers state their whole effect on the page fields directly in their `ensures`. These are the constellation-art toggle (`ToggleConstellationArt`), geolocation (`GetLocation`, `ShowPosition`, `ShowError`), the observatory selector (`SelectObservatory`), map.js's `ShowMessage` and load callback, and the planner's `OnChange`.

Lemmas about these functions state the promised properties:

- at most one search marker, with the clear button visible exactly while it is there;
- the first case-insensitive match wins;
- clearing is idempotent;
- the index layout;
- the distinct failure messages;
- the permission rollback and the late-grant race;
- the handoff round trip.

`Scenarios` drives whole pages through handler sequences.

Behaviour of the code worth knowing:

- **Missing orientation API.** When `DeviceOrientationEvent` does not exist, the flag is not rolled back. Evaluating `DeviceOrientationEvent.requestPermission` throws, and the flag, label and message stay "on" (script.js:210-212).
- **Rejected permission promise.** A rejected promise is only logged and the flag stays on (script.js:223).
- **Late grant.** A "granted" answer that arrives after the user has turned the toggle off again still subscribes and follows. The flag and the button then say "off" (`StarMap.LateGrantFollowsWhileOff`).
- **No throttling.** Orientation events are forwarded unthrottled (script.js:236); the map.js handler is an empty stub.
- **Search before the index exists.** There is no distinct "data not ready" outcome: such a search takes the unknown-name path (`StarMap.SearchBeforeIndex`).
- **Messages that stay.** Geolocation error messages and the "locating" message are not auto-cleared (script.js:238-255).
- **Uncaught errors.** Some inputs end in an uncaught error:
  - an unknown preset code: the planner stores the text "undefined" without error, and then `JSON.parse` throws on every later map load (map.js:52, `Scenarios.UnknownPresetPoisonsHandoff`);
  - an unknown observatory code on the main page;
  - the missing orientation API above.

## Model

| member | source | states |
|---|---|---|
| Celestial.Remove | script.js:192 | `Celestial.remove` leaves no feature with that id and changes nothing but the features |
| Celestial.Add | script.js:183 | `Celestial.add` appends the feature after the old ones, adding one occurrence of its id, and changes nothing else |
| Celestial.ApplyConstellations | script.js:161 | the constellation block applied last is the one in force; nothing else changes |
| Celestial.Skyview | script.js:216 | `Celestial.skyview` changes the follow mode only |
| Celestial.SetLocation | script.js:248 | the chart is at the new location; `local: true` turns local time on, and a call without it keeps the old setting; nothing else changes |
| Celestial.Without | script.js:192 | `Celestial.remove(id)` leaves no feature with that id |
| Celestial.WithoutKeepsOthers | script.js:192 | removal keeps exactly the features with other ids, each other id as often as before |
| Celestial.CountIdAppend | script.js:183 | `Celestial.add` of a feature adds one occurrence of its id and none of any other |
| Celestial.WithoutIdempotent | script.js:192 | removing twice is removing once |
| Celestial.WithoutAbsent | script.js:192 | removing an id that is not there changes nothing |
| JsText.Trim | script.js:174 | `trim` never lengthens the query; what it keeps is stated by `JsText.TrimSlice` |
| JsText.TrimStartSuffix | script.js:174 | the leading-space strip keeps a suffix not starting with white space and drops only white space |
| JsText.TrimEndPrefix | script.js:174 | the trailing-space strip keeps a prefix not ending with white space and drops only white space |
| JsText.TrimSlice | script.js:174 | `trim` leaves a contiguous slice with white space only outside it and none at either end |
| JsText.TrimIdempotent | script.js:174 | trimming a trimmed query changes nothing |
| JsText.TrimEmptyIffAllSpace | script.js:174-175 | the query is blank after trimming exactly when the input is all white space |
| JsText.LowerChar | script.js:176 | each upper-case ASCII letter maps to the lower-case letter at the same alphabet position, every other character to itself, and no result is upper case |
| JsText.ToLower | script.js:176 | `toLowerCase` keeps the length; how each character is lowered is stated by `JsText.ToLowerChars` |
| JsText.ToLowerChars | script.js:176 | `toLowerCase` lowers each character in place and keeps the length |
| JsText.ToLowerIdempotent | script.js:176 | lowering twice is lowering once |
| JsText.EqualIgnoringCase | script.js:176 | strings equal ignoring case have the same length |
| JsText.EqualIgnoringCaseOnLetters | script.js:176 | two strings that differ only in the case of ASCII letters compare equal |
| JsText.EqualIgnoringCaseOnlyCase | script.js:176 | conversely, strings equal ignoring case have the same length and differ only at positions holding two ASCII letters with the same lower case |
| SearchIndex.Names | script.js:170 | the datalist has one option per index entry |
| SearchIndex.NamesAt | script.js:170 | the i-th option carries the i-th entry's name |
| SearchIndex.NamedStarEntriesAppend | script.js:167 | the star filter distributes over concatenation, so it keeps the data order |
| SearchIndex.NamedStarEntriesSnoc | script.js:167 | one more star adds its entry exactly when it has a proper name |
| SearchIndex.NamedStarEntriesMembership | script.js:167 | a star entry is in the index exactly when some named star produced it |
| SearchIndex.NamedStarEntriesLength | script.js:167 | at most one entry per star, and one per star exactly when all are named |
| SearchIndex.IndexLayout | script.js:164-169 | the index is the constellations in order (none when the library exposes none), then the named stars, then the nine fixed bodies without id |
| SearchIndex.Matches | script.js:176 | the `find` predicate is an exact-name test: only a name of the query's length can match |
| SearchIndex.Find | script.js:176 | a found position lies inside the index |
| SearchIndex.FindFirstMatch | script.js:176 | the found entry matches ignoring case and no earlier one does; nothing is found exactly when no entry matches |
| SearchIndex.FindAppend | script.js:176 | an earlier part of the index shadows a later one |
| SearchIndex.FindDependsOnLoweredQuery | script.js:176 | the lookup sees the query only through its lower-cased form |
| SearchIndex.SearchIgnoresQueryCase | script.js:176 | lower-casing the query first finds the same entry |
| SearchIndex.ConstellationsShadowLaterEntries | script.js:166-176 | a constellation wins over any star or planet of the same name |
| SearchIndex.PlanetsAlwaysSearchable | script.js:168-176 | even without library data, each fixed body is found among the planets |
| Observatories.Lookup | planner.js:5-9 | exactly the codes "T11,US", "T32,AU" and "T7,ES" yield a preset, each its own name and location |
| Observatories.PresetTable | planner.js:5-9 | exactly three codes, with pairwise different names and locations |
| Handoff.Serialize | planner.js:18 | what the planner stores parses back to the preset it looked up; `undefined` does not parse |
| Handoff.SerializeParse | map.js:52 | every storable value is the serialization of what it parses to, and only the text "undefined" fails to parse |
| Planner.PlannerPage.constructor | planner.js:2-3 | the page starts with no effects, on the shared storage |
| Planner.PlannerPage.OnChange | planner.js:11-22 | an empty selection does nothing; otherwise the lookup result overwrites `plannerLocation` and then the page navigates |
| MapPage.MapPage.constructor | map.js:2-71 | without the library only the failure notice is shown; otherwise the chart is displayed, the listeners attached and both modes off |
| MapPage.MapPage.ShowMessage | map.js:25-30 | the text always replaces the message; a clear is scheduled only for a positive duration |
| MapPage.MapPage.OnChartLoaded | map.js:46-59 | an error only logs; a pending location is applied in local time and removed; without one, storage stays and map.js's `getLocation` is scheduled |
| StarMap.GeoErrorMessage | script.js:253-254 | the generic message is shown exactly for codes other than 1, 2 and 3 |
| StarMap.GeoErrorMessagesDistinct | script.js:252-255 | codes 1, 2 and 3 each have their own message, and every other code shares the generic one |
| StarMap.SearchMessagesDistinct | script.js:182-187 | the marking, missing-coordinates and unknown-name messages differ whatever names they carry |
| StarMap.AfterClear | script.js:191-197 | clearing leaves no marker, an empty box and a hidden button, and the message only when kept |
| StarMap.ClearSearchIdempotent | script.js:191-197 | a second clear leaves what the first one left |
| StarMap.ClearWithoutMarker | script.js:191-197 | with no marker, a clear changes only the box and, unless kept, the message |
| StarMap.SearchOutcomeOf | script.js:173-189 | a search is blank exactly when the trimmed query is empty; an unknown name is reported trimmed; a hit names an index entry that matches the trimmed query and is marked only when coordinates resolved |
| StarMap.AfterFound | script.js:179-186 | the found branch leaves one marker at most, shown exactly with the clear button, whatever came before; it empties the box, hides the button only when unresolved, and changes only the chart's features |
| StarMap.AfterSearch | script.js:173-189 | a blank query changes nothing; every search keeps at most one marker, shown exactly with the clear button, and changes only the chart's features |
| StarMap.SearchOutcomeMeaning | script.js:174-187 | an unknown name matches no entry; a hit lands on the first matching entry; it marks exactly when found and resolved |
| StarMap.SearchMarksOnce | script.js:179-185 | a successful search leaves exactly one marker, last, at the resolved coordinates, with every other feature kept |
| StarMap.ClearButtonShownOnlyWhenMarked | script.js:185 | a hidden clear button becomes visible exactly when the search places a marker |
| StarMap.SearchMessageOf | script.js:174-187 | each outcome leaves its own message: marking for a resolved hit, missing coordinates for an unresolved one, not in the database for an unknown name, and the old message for a blank query |
| StarMap.SearchFailuresAddNoMarker | script.js:180-187 | neither failure adds a marker; an unresolved name drops the old one and keeps every other feature's count, and an unknown name leaves the chart alone |
| StarMap.SearchBeforeIndex | script.js:173-187 | before the index is built, every non-blank query is unknown and only the message changes |
| StarMap.AfterToggleSkyview | script.js:205-233 | the toggle flips the flag, and turning off always removes the listener and stops following |
| StarMap.AfterPermissionAnswer | script.js:213-222 | an answer settles one pending request and keeps the button and the listener consistent |
| StarMap.ToggleSkyviewEffect | script.js:205-233 | the toggle flips the flag, label, class and message, changes only view-following, and schedules a clear except when turning on without the orientation API |
| StarMap.ToggleOffIgnoresPlatform | script.js:228-233 | turning off ends the same way whatever the platform offers |
| StarMap.ToggleSkyviewKeepsConsistent | script.js:205-233 | the toggle keeps the button in step with the flag and the listener with view-following |
| StarMap.GrantedMatchesDirectToggle | script.js:212-227 | a granted request ends where the direct subscription on a platform without the permission API ends |
| StarMap.DeniedUndoesToggle | script.js:213-222 | a refused request rolls the flag and button back, leaving only the denial message and the timer |
| StarMap.LateGrantFollowsWhileOff | script.js:213-216 | a grant arriving after the toggle was turned off again follows the device while the button says off |
| StarMap.StarMapPage.constructor | script.js:23-26 | both flags off, an empty index, no marker or listener, a freshly displayed chart |
| StarMap.StarMapPage.TypeQuery | script.js:17 | typing replaces the search box text |
| StarMap.StarMapPage.ToggleConstellationArt | script.js:157-162 | the flag flips and the label, the class and the applied constellation block follow it |
| StarMap.StarMapPage.LoadCelestialDataForSearch | script.js:164-171 | the index is rebuilt from empty as `BuildIndex` and the datalist lists its names |
| StarMap.StarMapPage.PushConstellations | script.js:166 | every constellation is appended in order |
| StarMap.StarMapPage.PushNamedStars | script.js:167 | exactly the named stars are appended, in data order |
| StarMap.StarMapPage.PushPlanets | script.js:168-169 | the nine bodies are appended in order |
| StarMap.StarMapPage.ClearSearch | script.js:191-197 | the page's search view becomes `AfterClear` of the old one |
| StarMap.StarMapPage.FindCelestialObject | script.js:173-189 | the outcome is `SearchOutcomeOf`, the view becomes `AfterSearch`, and a clear is scheduled for every non-blank query |
| StarMap.StarMapPage.ShowTarget | script.js:178-186 | the found branch: the view becomes `AfterFound` |
| StarMap.StarMapPage.ToggleSkyView | script.js:205-234 | the orientation view becomes `AfterToggleSkyview` for the platform |
| StarMap.StarMapPage.TurnSkyviewOn | script.js:210-227 | the "on" branch, as `AfterToggleSkyview` |
| StarMap.StarMapPage.RequestOrientation | script.js:212-233 | without the orientation API nothing more happens; with a permission API one request is left pending; otherwise the listener is registered with the chart following the centre; except without the API, one clear is scheduled |
| StarMap.StarMapPage.TurnSkyviewOff | script.js:228-233 | the "off" branch, as `AfterToggleSkyview` |
| StarMap.StarMapPage.SetSkyviewFlag | script.js:206-208 | the flag, the label and the `active` class are set together |
| StarMap.StarMapPage.Follow | script.js:225-231 | the listener is registered or removed together with following or not following the centre |
| StarMap.StarMapPage.PermissionAnswered | script.js:213-222 | the orientation view becomes `AfterPermissionAnswer` |
| StarMap.StarMapPage.PermissionRejected | script.js:223 | a rejection only settles the request |
| StarMap.StarMapPage.GetLocation | script.js:238-243 | with geolocation a request is issued behind the locating message; without it, only the unsupported message shows |
| StarMap.StarMapPage.ShowPosition | script.js:245-250 | the chart moves to the position in local time, the message says so and is scheduled to clear |
| StarMap.StarMapPage.ShowError | script.js:252-255 | the message becomes the one for the error code and stays |
| StarMap.StarMapPage.OnChartLoaded | script.js:74-79 | an error changes nothing; otherwise the index is built and a location request is scheduled |
| StarMap.StarMapPage.SelectObservatory | script.js:114-126 | an empty or unknown code changes nothing; a preset moves the chart there without `local`, so the local-time setting stays as it was, and names it |
| Scenarios.SearchBeforeLoad | script.js:173-187 | a star name searched before the chart has loaded is unknown and adds no marker |
| Scenarios.SearchTwiceKeepsOneMarker | script.js:176-185 | two searches in different case both find Mars, and only the second marker remains |
| Scenarios.SearchForMars | script.js:173-185 | a search for a spelling of Mars replaces the marker with one at the resolved coordinates |
| Scenarios.ToggleArtTwice | script.js:157-162 | two art toggles restore the flag, the button and the chart |
| Scenarios.LateGrant | script.js:205-223 | on, off, then "granted": the button is off while the chart follows the device |
| Scenarios.HandoffRoundTrip | map.js:50-59 | the planner's preset is applied at its location in local time and consumed; a new map page on the same storage then schedules `getLocation` |
| Scenarios.UnknownPresetPoisonsHandoff | planner.js:15-18 | an unknown code stores `undefined`, which every later map load fails to parse and never removes |

## Left out

- **The chart library.** Projection, rendering, `redraw` and the data files are not modelled. The chart is reduced to the parts the pages change. `Celestial.search` is a parameter.
- **`display` with a new config.** A second `Celestial.display` call (script.js:120, script.js:248) is modelled as a change of location, and at script.js:248 also of the local-time flag, which it turns on. Whether the library then re-initialises other settings is not modelled.
- **Configuration literals** (script.js:30-92, map.js:32-44). These are data passed through to the library. The art config is the single value `ArtImages`.
- **Zoom** (script.js:199-203, map.js:74). This is floating-point scaling of a library-owned scale.
- **Timers.**
  - Scheduled message clears and the delayed `getLocation` are counted, not run, so the message later becoming empty is not modelled.
  - The delayed alert and tab switch after an observatory is selected (script.js:121-125) are not modelled.
- **DOM glue.**
  - Tab switching (script.js:99-107).
  - `setupStorybook` (script.js:138-155), including its call from the load callback.
  - The story modal and window click handlers (script.js:257-268).
  - The event-listener wiring (script.js:128-135, map.js:67-71). The handlers themselves are the methods.
- **The map.js stubs** (map.js:74-80). They have empty bodies. In particular map.js's `getLocation` (map.js:78) does nothing, so the geolocation the load callback schedules (map.js:58) never asks for a position; the model only counts the scheduling. `orientationLastUpdate` is never read.
- **Orientation events.** `orientationHandler` (script.js:236) forwards each event to the library. The model records only whether the listener is registered.
- **Other files.** knowledge.js and map_simple.js are not part of this model.
- **Storage.**
  - JSON and `localStorage` mechanics: a stored value is either a preset record or the text "undefined".
  - A stored empty string would count as absent (map.js:51). No writer produces one, so it is not modelled.
- **Browser behaviour taken as given.**
  - Lookups of inherited `Object.prototype` keys in the preset table (such as `"toString"`) are treated as missing codes.
  - The datalist's HTML escaping of names is not modelled; the datalist is the list of names.
  - Geolocation options (timeout, accuracy) are passed through to the browser and not modelled.
  - The initial markup is taken to be an empty search box, a hidden clear button and the "off" labels.
- **Callback ordering.** A permission or geolocation callback only runs for a request that is pending. This is stated as a precondition on `PermissionAnswered`, `PermissionRejected`, `ShowPosition` and `ShowError`.
- MapPage.MapPage.ShowMessage: takes the duration as an argument; the default of 2000 milliseconds (map.js:25) is not modelled, as every call in map.js passes a duration.
- MapPage.MapPage.constructor: sets `chart` to the freshly displayed chart even when the library is missing and nothing was displayed; on that path the field means nothing, and `displayed` says so.
- JsText.LowerChar: lower-cases ASCII letters only, because Unicode case mapping is not modelled. Non-ASCII letters, which `toLowerCase` would lower, are left unchanged, so names that differ only in non-ASCII case do not match in the model.
