/**
 * The browser's `localStorage` as the planner page and the map page share it, and the value the
 * planner leaves under `plannerLocation` for the map page to pick up.
 */
module Handoff {
  import opened Wrappers
  import opened Observatories

  /** The single key through which a chosen observatory crosses from one page to the other. */
  const PlannerKey: string := "plannerLocation"

  /**
   * A stored string, as its reader sees it: the JSON text of an observatory record, or the text
   * "undefined" that `setItem` stores when `JSON.stringify` was given `undefined`.
   */
  datatype StoredValue = ObservatoryJson(obs: Observatory) | UndefinedText

  /** `JSON.stringify(obs)` as `setItem` stores it: the map page's `JSON.parse` gives the record
      back, and serialized `undefined` cannot be parsed. */
  function Serialize(obs: Option<Observatory>): (r: StoredValue)
    ensures Parse(r) == obs
  {
    match obs
    case Some(o) => ObservatoryJson(o)
    case None => UndefinedText
  }

  /** `JSON.parse` of a stored value: the record back, or `None` where parsing throws. */
  function Parse(v: StoredValue): Option<Observatory>
  {
    match v
    case ObservatoryJson(o) => Some(o)
    case UndefinedText => None
  }

  /** Every value the planner can store is the serialization of what parsing it yields: a record
      parses back to itself, and only the text "undefined" fails to parse. */
  lemma SerializeParse(v: StoredValue)
    ensures Serialize(Parse(v)) == v
    ensures Parse(v).None? <==> v == UndefinedText
  {
  }

  /** One origin's key-value store, shared by every page of the site. */
  class LocalStorage {
    var items: map<string, StoredValue>

    constructor (items: map<string, StoredValue>)
      ensures this.items == items
    {
      this.items := items;
    }
  }
}
