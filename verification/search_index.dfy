/**
 * The flat search index built after the chart has loaded its data, and the case-insensitive
 * exact-name lookup run against it (script.js:164-176).
 */
module SearchIndex {
  import opened Wrappers
  import opened JsText

  datatype Kind = Constellation | Star | Planet

  /** One index record `{ name, type, id }`; planets carry no `id`. */
  datatype Entry = Entry(name: string, kind: Kind, id: Option<string>)

  /** An element of `Celestial.constellations`. */
  datatype ConstellationData = ConstellationData(id: string, name: string)

  /** A star's `properties` object, whose `name` may be absent. */
  datatype StarProperties = StarProperties(name: Option<string>)

  /** A feature of `Celestial.data.stars.features`, whose `properties` may be absent. */
  datatype StarFeature = StarFeature(id: string, properties: Option<StarProperties>)

  /** `s.properties?.name` is truthy: present and not the empty string. */
  predicate HasProperName(s: StarFeature)
  {
    s.properties.Some? && s.properties.value.name.Some? && s.properties.value.name.value != ""
  }

  /** The hard-coded solar-system bodies, in the order they are pushed. */
  const PlanetNames: seq<string> :=
    ["Sun", "Moon", "Mercury", "Venus", "Mars", "Jupiter", "Saturn", "Uranus", "Neptune"]

  function ConstellationEntry(c: ConstellationData): Entry
  {
    Entry(c.name, Constellation, Some(c.id))
  }

  function StarEntry(s: StarFeature): Entry
    requires HasProperName(s)
  {
    Entry(s.properties.value.name.value, Star, Some(s.id))
  }

  function ConstellationEntries(cs: seq<ConstellationData>): seq<Entry>
  {
    seq(|cs|, i requires 0 <= i < |cs| => ConstellationEntry(cs[i]))
  }

  /** The named stars, in their data order. */
  function NamedStarEntries(stars: seq<StarFeature>): seq<Entry>
  {
    if stars == [] then []
    else (if HasProperName(stars[0]) then [StarEntry(stars[0])] else []) + NamedStarEntries(stars[1..])
  }

  function PlanetEntries(): seq<Entry>
  {
    seq(|PlanetNames|, i requires 0 <= i < |PlanetNames| => Entry(PlanetNames[i], Planet, None))
  }

  /** The contents of `celestialData` after `loadCelestialDataForSearch`: constellations (when the
      library exposes them), then named stars (when it exposes star data), then the nine bodies. */
  function BuildIndex(constellations: Option<seq<ConstellationData>>, stars: Option<seq<StarFeature>>): seq<Entry>
  {
    (if constellations.Some? then ConstellationEntries(constellations.value) else [])
    + (if stars.Some? then NamedStarEntries(stars.value) else [])
    + PlanetEntries()
  }

  /** The option values written into the search box's datalist, one per entry. */
  function Names(entries: seq<Entry>): (r: seq<string>)
    ensures |r| == |entries|
  {
    if entries == [] then [] else [entries[0].name] + Names(entries[1..])
  }

  /** The datalist lists each entry's name at the entry's own position. */
  lemma {:induction false} NamesAt(entries: seq<Entry>)
    ensures forall i :: 0 <= i < |entries| ==> Names(entries)[i] == entries[i].name
  {
    if entries != [] {
      NamesAt(entries[1..]);
      forall i | 1 <= i < |entries| ensures Names(entries)[i] == entries[i].name {
        assert Names(entries)[i] == Names(entries[1..])[i - 1];
      }
    }
  }

  /** Filtering the stars distributes over concatenation, so the filter keeps the data order. */
  lemma {:induction false} NamedStarEntriesAppend(a: seq<StarFeature>, b: seq<StarFeature>)
    ensures NamedStarEntries(a + b) == NamedStarEntries(a) + NamedStarEntries(b)
  {
    if a == [] {
      assert a + b == b;
    } else {
      var head := if HasProperName(a[0]) then [StarEntry(a[0])] else [];
      assert (a + b)[0] == a[0];
      assert (a + b)[1..] == a[1..] + b;
      assert NamedStarEntries(a + b) == head + NamedStarEntries(a[1..] + b);
      NamedStarEntriesAppend(a[1..], b);
      assert head + (NamedStarEntries(a[1..]) + NamedStarEntries(b))
          == (head + NamedStarEntries(a[1..])) + NamedStarEntries(b);
    }
  }

  /** Pushing one more star onto the index: its entry is added exactly when it has a proper name. */
  lemma NamedStarEntriesSnoc(stars: seq<StarFeature>, s: StarFeature)
    ensures NamedStarEntries(stars + [s])
         == NamedStarEntries(stars) + (if HasProperName(s) then [StarEntry(s)] else [])
  {
    NamedStarEntriesAppend(stars, [s]);
    assert NamedStarEntries([s]) == (if HasProperName(s) then [StarEntry(s)] else []) + NamedStarEntries([]);
  }

  /** A star contributes an entry exactly when it has a proper name; every star entry comes from
      such a star, under that star's name and id. */
  lemma {:induction false} NamedStarEntriesMembership(stars: seq<StarFeature>, e: Entry)
    ensures e in NamedStarEntries(stars)
        <==> exists s :: s in stars && HasProperName(s) && e == StarEntry(s)
  {
    if stars != [] {
      NamedStarEntriesMembership(stars[1..], e);
      if e in NamedStarEntries(stars[1..]) {
        var s :| s in stars[1..] && HasProperName(s) && e == StarEntry(s);
        assert s in stars;
      }
      if exists s :: s in stars && HasProperName(s) && e == StarEntry(s) {
        var s :| s in stars && HasProperName(s) && e == StarEntry(s);
        if s != stars[0] {
          assert s in stars[1..] by { assert stars == [stars[0]] + stars[1..]; }
        }
      }
    }
  }

  /** At most one entry per star; one per star exactly when every star is named. */
  lemma {:induction false} NamedStarEntriesLength(stars: seq<StarFeature>)
    ensures |NamedStarEntries(stars)| <= |stars|
    ensures |NamedStarEntries(stars)| == |stars| <==> forall i :: 0 <= i < |stars| ==> HasProperName(stars[i])
  {
    if stars != [] {
      NamedStarEntriesLength(stars[1..]);
      if forall i :: 0 <= i < |stars[1..]| ==> HasProperName(stars[1..][i]) {
        if HasProperName(stars[0]) {
          forall i | 0 <= i < |stars| ensures HasProperName(stars[i]) {
            if i > 0 { assert stars[i] == stars[1..][i - 1]; }
          }
        }
      } else {
        var i :| 0 <= i < |stars[1..]| && !HasProperName(stars[1..][i]);
        assert stars[i + 1] == stars[1..][i];
      }
    }
  }

  /** The index layout: constellations first, in their order (none when the library exposes
      none); then the named stars; the last nine entries are the fixed bodies, each a planet
      without id. */
  lemma IndexLayout(constellations: Option<seq<ConstellationData>>, stars: Option<seq<StarFeature>>)
    ensures var cs := if constellations.Some? then constellations.value else [];
      var idx := BuildIndex(constellations, stars);
      && |idx| == |cs| + (if stars.Some? then |NamedStarEntries(stars.value)| else 0) + 9
      && (forall i :: 0 <= i < |cs| ==> idx[i] == Entry(cs[i].name, Constellation, Some(cs[i].id)))
      && idx[|cs|..|idx| - 9] == (if stars.Some? then NamedStarEntries(stars.value) else [])
      && (forall k :: 0 <= k < 9 ==> idx[|idx| - 9 + k] == Entry(PlanetNames[k], Planet, None))
  {
    var cs := if constellations.Some? then constellations.value else [];
    var idx := BuildIndex(constellations, stars);
    assert ConstellationEntries([]) == [];
    var mid := if stars.Some? then NamedStarEntries(stars.value) else [];
    assert idx == ConstellationEntries(cs) + mid + PlanetEntries();
  }

  /** The predicate handed to `find`: the entry's name and the query agree once both are lowered,
      so it is an exact-name test and never a prefix or substring one. */
  predicate Matches(e: Entry, query: string)
    ensures Matches(e, query) ==> |e.name| == |query|
  {
    EqualIgnoringCase(e.name, query)
  }

  /** `celestialData.find(...)`: the position of the first entry whose name equals the query
      ignoring case, or `None` when no entry does. */
  function Find(data: seq<Entry>, query: string): (r: Option<nat>)
    ensures r.Some? ==> r.value < |data|
  {
    if data == [] then None
    else if Matches(data[0], query) then Some(0)
    else match Find(data[1..], query)
      case None => None
      case Some(i) => Some(i + 1)
  }

  /** `find` returns the first matching entry: a found position matches and none before it does,
      and nothing is found exactly when no entry matches. */
  lemma {:induction false} FindFirstMatch(data: seq<Entry>, query: string)
    ensures var r := Find(data, query);
      && (r.Some? ==> Matches(data[r.value], query) && forall j :: 0 <= j < r.value ==> !Matches(data[j], query))
      && (r.None? <==> forall j :: 0 <= j < |data| ==> !Matches(data[j], query))
  {
    if data != [] && !Matches(data[0], query) {
      FindFirstMatch(data[1..], query);
      forall j | 1 <= j < |data| ensures data[j] == data[1..][j - 1] { }
    }
  }

  /** Searching a concatenation looks in the second part only when the first has no match, so an
      earlier part of the index shadows a later one. */
  lemma {:induction false} FindAppend(a: seq<Entry>, b: seq<Entry>, query: string)
    ensures Find(a + b, query) ==
      if Find(a, query).Some? then Find(a, query)
      else match Find(b, query) case None => None case Some(i) => Some(|a| + i)
  {
    if a == [] {
      assert a + b == b;
    } else {
      assert (a + b)[0] == a[0];
      assert (a + b)[1..] == a[1..] + b;
      FindAppend(a[1..], b, query);
    }
  }

  /** The lookup depends on the query only through its lowered form. */
  lemma {:induction false} FindDependsOnLoweredQuery(data: seq<Entry>, q1: string, q2: string)
    requires ToLower(q1) == ToLower(q2)
    ensures Find(data, q1) == Find(data, q2)
  {
    if data != [] {
      FindDependsOnLoweredQuery(data[1..], q1, q2);
    }
  }

  /** Case does not matter on the query side: lowering it first finds the same entry. */
  lemma SearchIgnoresQueryCase(data: seq<Entry>, query: string)
    ensures Find(data, ToLower(query)) == Find(data, query)
  {
    ToLowerIdempotent(query);
    FindDependsOnLoweredQuery(data, ToLower(query), query);
  }

  /** A constellation whose name matches wins over every star and planet of the same name. */
  lemma ConstellationsShadowLaterEntries(cs: seq<ConstellationData>, stars: Option<seq<StarFeature>>, query: string, k: nat)
    requires k < |cs| && EqualIgnoringCase(cs[k].name, query)
    ensures var r := Find(BuildIndex(Some(cs), stars), query);
      r.Some? && r.value <= k && BuildIndex(Some(cs), stars)[r.value].kind == Constellation
  {
    var ce := ConstellationEntries(cs);
    var rest := (if stars.Some? then NamedStarEntries(stars.value) else []) + PlanetEntries();
    assert BuildIndex(Some(cs), stars) == ce + rest;
    assert Matches(ce[k], query);
    FindFirstMatch(ce, query);
    FindAppend(ce, rest, query);
    var r := Find(ce, query).value;
    assert (ce + rest)[r] == ce[r];
  }

  /** With no data from the library, a planet name is found (in any case) at its place among the nine. */
  lemma PlanetsAlwaysSearchable(k: nat, query: string)
    requires k < 9 && EqualIgnoringCase(PlanetNames[k], query)
    ensures var r := Find(BuildIndex(None, None), query);
      r.Some? && r.value <= k && BuildIndex(None, None)[r.value].kind == Planet
  {
    assert BuildIndex(None, None) == PlanetEntries();
    assert Matches(PlanetEntries()[k], query);
    FindFirstMatch(PlanetEntries(), query);
  }
}
