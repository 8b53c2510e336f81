/**
 * The observatory presets: a fixed table from a short code to a display name and a location.
 * planner.js:5-9 and script.js:109-113 hold the same three entries.
 */
module Observatories {
  import opened Wrappers
  import opened Celestial

  datatype Observatory = Observatory(name: string, location: LatLon)

  const Presets: map<string, Observatory> := map[
    "T11,US" := Observatory("New Mexico, USA", LatLon(32.90, -105.53)),
    "T32,AU" := Observatory("Siding Spring, Australia", LatLon(-31.27, 149.06)),
    "T7,ES" := Observatory("Siding Spring, Spain", LatLon(38.43, -2.54))
  ]

  /** `observatories[code]`: one of the three presets, or `undefined` for any other code. */
  function Lookup(code: string): (r: Option<Observatory>)
    ensures r.Some? <==> code == "T11,US" || code == "T32,AU" || code == "T7,ES"
    ensures code == "T11,US" ==> r == Some(Observatory("New Mexico, USA", LatLon(32.90, -105.53)))
    ensures code == "T32,AU" ==> r == Some(Observatory("Siding Spring, Australia", LatLon(-31.27, 149.06)))
    ensures code == "T7,ES" ==> r == Some(Observatory("Siding Spring, Spain", LatLon(38.43, -2.54)))
  {
    if code in Presets then Some(Presets[code]) else None
  }

  /** Exactly three codes, each with its own name and location. */
  lemma PresetTable()
    ensures Presets.Keys == {"T11,US", "T32,AU", "T7,ES"}
    ensures |Presets| == 3
    ensures forall c1, c2 :: c1 in Presets && c2 in Presets && c1 != c2 ==>
      Presets[c1].name != Presets[c2].name && Presets[c1].location != Presets[c2].location
  {
    assert Presets.Keys == {"T11,US", "T32,AU", "T7,ES"};
    assert "T11,US" != "T32,AU" && "T11,US" != "T7,ES" && "T32,AU" != "T7,ES";
  }
}
