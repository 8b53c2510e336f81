/**
 * The observatory planner page (planner.js): choosing a preset stores it for the map page and
 * navigates there.
 */
module Planner {
  import opened Wrappers
  import opened Observatories
  import opened Handoff

  /** The page the planner navigates back to. */
  const IndexPage: string := "/kidrise-starmap/index.html"

  /** The planner's effects on the browser, in the order it issues them. */
  datatype Effect = StorageWrite(key: string, value: StoredValue) | Navigate(url: string)

  class PlannerPage {
    const storage: LocalStorage
    var effects: seq<Effect>

    constructor (storage: LocalStorage)
      ensures this.storage == storage && effects == []
    {
      this.storage := storage;
      effects := [];
    }

    /**
     * The select's `change` handler. An empty selection does nothing. Otherwise the preset (or
     * `undefined`, for a code the table lacks) is written under `plannerLocation`, replacing what
     * was there, and only then the page navigates to the map.
     */
    method OnChange(selected: string)
      modifies this, storage
      ensures selected == "" ==> effects == old(effects) && storage.items == old(storage.items)
      ensures selected != "" ==>
        && storage.items == old(storage.items)[PlannerKey := Serialize(Lookup(selected))]
        && effects == old(effects) + [StorageWrite(PlannerKey, Serialize(Lookup(selected))), Navigate(IndexPage)]
    {
      if selected == "" {
        return;
      }
      var obs := Lookup(selected);
      storage.items := storage.items[PlannerKey := Serialize(obs)];
      effects := effects + [StorageWrite(PlannerKey, Serialize(obs))];
      effects := effects + [Navigate(IndexPage)];
    }
  }
}
