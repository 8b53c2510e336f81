/**
 * The external charting library (`Celestial`) as the pages see it: an opaque chart whose
 * observable state is changed only by the calls the pages make. Projection, rendering and
 * coordinate lookup belong to the library and are not modelled; each call the pages issue is a
 * pure transition on the value `Chart`.
 */
module Celestial {
  import opened Wrappers

  /** A geographic position `[latitude, longitude]`, handed to the library unchanged. */
  datatype LatLon = LatLon(lat: real, lon: real)

  /** Equatorial sky coordinates as `Celestial.search` returns them (`coords.ra`, `coords.dec`). */
  datatype Coord = Coord(ra: real, dec: real)

  /** A custom point feature added with `Celestial.add`, identified by its `id`. */
  datatype Feature = Feature(id: string, at: Coord)

  /** The `constellations` block last applied: the art-image config, or `{ images: false }`. */
  datatype ConstellationImages = ArtImages | NoImages

  /** The `follow` option of `Celestial.skyview`; `LibraryDefault` before any call. */
  datatype Follow = LibraryDefault | FollowCenter | FollowNone

  datatype Chart = Chart(
    features: seq<Feature>,
    constellations: ConstellationImages,
    follow: Follow,
    location: Option<LatLon>,
    local: bool)

  /** The chart right after `Celestial.display(celestialConfig)`: no custom features, `images: false`. */
  const Displayed: Chart := Chart([], NoImages, LibraryDefault, None, false)

  /** Number of custom features carrying the given id. */
  function CountId(fs: seq<Feature>, id: string): nat
  {
    if fs == [] then 0 else (if fs[0].id == id then 1 else 0) + CountId(fs[1..], id)
  }

  /** The features left by `Celestial.remove(id)`: none with that id is left. */
  function Without(fs: seq<Feature>, id: string): (r: seq<Feature>)
    ensures CountId(r, id) == 0
  {
    if fs == [] then []
    else if fs[0].id == id then Without(fs[1..], id)
    else [fs[0]] + Without(fs[1..], id)
  }

  /** Removing an id keeps every other feature: the same features with other ids, each as often. */
  lemma {:induction false} WithoutKeepsOthers(fs: seq<Feature>, id: string)
    ensures forall f :: f in Without(fs, id) <==> f in fs && f.id != id
    ensures forall other :: other != id ==> CountId(Without(fs, id), other) == CountId(fs, other)
  {
    if fs != [] {
      WithoutKeepsOthers(fs[1..], id);
      assert fs == [fs[0]] + fs[1..];
      if fs[0].id != id {
        assert ([fs[0]] + Without(fs[1..], id))[1..] == Without(fs[1..], id);
      }
    }
  }

  lemma {:induction false} CountIdAppend(fs: seq<Feature>, f: Feature, id: string)
    ensures CountId(fs + [f], id) == CountId(fs, id) + (if f.id == id then 1 else 0)
  {
    if fs != [] {
      assert (fs + [f])[1..] == fs[1..] + [f];
      CountIdAppend(fs[1..], f, id);
    }
  }

  /** Removing an id twice leaves what removing it once leaves. */
  lemma {:induction false} WithoutIdempotent(fs: seq<Feature>, id: string)
    ensures Without(Without(fs, id), id) == Without(fs, id)
  {
    if fs != [] {
      WithoutIdempotent(fs[1..], id);
      if fs[0].id != id {
        assert ([fs[0]] + Without(fs[1..], id))[1..] == Without(fs[1..], id);
      }
    }
  }

  /** Removing an id the chart does not hold changes nothing. */
  lemma {:induction false} WithoutAbsent(fs: seq<Feature>, id: string)
    requires CountId(fs, id) == 0
    ensures Without(fs, id) == fs
  {
    if fs != [] {
      WithoutAbsent(fs[1..], id);
      assert fs == [fs[0]] + fs[1..];
    }
  }

  /** `Celestial.remove(id)`: no feature with that id is left, and nothing but the features changes. */
  function Remove(c: Chart, id: string): (r: Chart)
    ensures CountId(r.features, id) == 0
    ensures r.constellations == c.constellations && r.follow == c.follow
    ensures r.location == c.location && r.local == c.local
  {
    c.(features := Without(c.features, id))
  }

  /** `Celestial.add(feature)`: appended after the existing features, which stay in order. */
  function Add(c: Chart, f: Feature): (r: Chart)
    ensures |r.features| == |c.features| + 1
    ensures r.features[..|c.features|] == c.features && r.features[|c.features|] == f
    ensures CountId(r.features, f.id) == CountId(c.features, f.id) + 1
    ensures r.constellations == c.constellations && r.follow == c.follow
    ensures r.location == c.location && r.local == c.local
  {
    CountIdAppend(c.features, f, f.id);
    c.(features := c.features + [f])
  }

  /** `Celestial.apply({ constellations: ... })`: the block applied last is the one in force. */
  function ApplyConstellations(c: Chart, images: ConstellationImages): (r: Chart)
    ensures r.constellations == images
    ensures r.features == c.features && r.follow == c.follow
    ensures r.location == c.location && r.local == c.local
  {
    c.(constellations := images)
  }

  /** `Celestial.skyview({ follow: ... })`: only the follow mode changes. */
  function Skyview(c: Chart, follow: Follow): (r: Chart)
    ensures r.follow == follow
    ensures r.features == c.features && r.constellations == c.constellations
    ensures r.location == c.location && r.local == c.local
  {
    c.(follow := follow)
  }

  /** A `display` or `apply` call carrying `location`, and `local: true` when `setLocal` holds;
      a call without `local` leaves the library's `local` setting as it was. */
  function SetLocation(c: Chart, at: LatLon, setLocal: bool): (r: Chart)
    ensures r.location == Some(at)
    ensures setLocal ==> r.local
    ensures !setLocal ==> r.local == c.local
    ensures r.features == c.features && r.constellations == c.constellations && r.follow == c.follow
  {
    c.(location := Some(at), local := c.local || setLocal)
  }
}
