/**
 * The observation routes (server/routes/observations.ts): a GeoJSON query over the
 * in-memory observation list, lookup by id, and creation by appending.
 *
 * Dates are millisecond timestamps and coordinates are reals; the parsing of query
 * strings into them is not modelled.
 */
module Observations {
  import opened Wrappers
  import Seqs
  import Text

  /** A GeoJSON point; `coordinates` is `[x, y]`, that is `[longitude, latitude]`. */
  datatype Point = Point(x: real, y: real)

  datatype Observation = Observation(
    id: string,
    speciesId: string,
    observedAt: int,
    geom: Point,
    recordedBy: string,
    validatedBy: Option<string>,
    datasetId: string,
    photos: seq<string>,
    speciesName: string,
    depth: real,
    temperature: real)

  /** The properties a GeoJSON feature carries: all fields but id, geometry and photos. */
  datatype Properties = Properties(
    speciesId: string,
    speciesName: string,
    observedAt: int,
    datasetId: string,
    recordedBy: string,
    validatedBy: Option<string>,
    depth: real,
    temperature: real)

  datatype Feature = Feature(id: string, properties: Properties, geometry: Point)

  /** The reply of `geospatial`: the feature collection and `meta.count`. */
  datatype GeoReply = GeoReply(features: seq<Feature>, count: nat)

  /** The query parameters of `geospatial`, already parsed. */
  datatype Query = Query(bbox: Option<seq<real>>, speciesId: Option<string>, start: Option<int>, end: Option<int>)

  /** A creation body: the new record's fields, and optionally an id that replaces the generated one. */
  datatype Body = Body(
    id: Option<string>,
    speciesId: string,
    observedAt: int,
    geom: Point,
    recordedBy: string,
    validatedBy: Option<string>,
    datasetId: string,
    photos: seq<string>,
    speciesName: string,
    depth: real,
    temperature: real)

  const Day: int := 86400000

  /** The eight demo observations, dated one to eight days before `now` (obs_7 a week before). */
  function Seed(now: int): seq<Observation> {
    [ Observation("obs_1", "sp_1", now - Day, Point(72.8777, 19.0760), "Dr. Marine Biologist",
        Some("Curator A. Patel"), "mumbai_fisheries_2024", [], "Yellowfin Tuna", 50.0, 28.5),
      Observation("obs_2", "sp_2", now - 2 * Day, Point(75.7139, 11.2588), "Fisherman Kumar",
        Some("Dr. R. Nair"), "kerala_coastal_survey", [], "Indian Mackerel", 25.0, 29.2),
      Observation("obs_3", "sp_3", now - 3 * Day, Point(80.2707, 13.0827), "Research Vessel Sagar",
        Some("Prof. S. Krishnan"), "tn_marine_biodiversity", [], "Oil Sardine", 15.0, 27.8),
      Observation("obs_4", "sp_1", now - 4 * Day, Point(88.3639, 22.5726), "Community Report",
        None, "community_sightings", [], "Yellowfin Tuna", 45.0, 26.5),
      Observation("obs_5", "sp_4", now - 5 * Day, Point(74.1240, 15.2993), "Coastal Patrol",
        Some("Marine Officer"), "goa_fisheries_monitoring", [], "Pomfret", 30.0, 28.9),
      Observation("obs_6", "sp_5", now - 6 * Day, Point(69.6293, 23.0225), "Fisheries Cooperative",
        Some("Regional Inspector"), "gujarat_catch_data", [], "Bombay Duck", 20.0, 25.4),
      Observation("obs_7", "sp_6", now - 7 * Day, Point(73.5, 17.8), "Research Vessel Sindhu Sadhana",
        Some("Chief Marine Scientist"), "deep_sea_exploration", [], "Skipjack Tuna", 120.0, 24.1),
      Observation("obs_8", "sp_2", now - 8 * Day, Point(85.0985, 19.8135), "Odisha Marine Survey",
        Some("State Fisheries Director"), "odisha_coastal_assessment", [], "Indian Mackerel", 35.0, 27.2) ]
  }

  // ---------------------------------------------------------------------------
  // The four filters of `geospatial`

  /** The species filter is on when a non-empty species id is given. */
  predicate SpeciesFilterOn(q: Query) {
    q.speciesId.Some? && q.speciesId.value != ""
  }

  /** The box filter is on only when the box has exactly four numbers. */
  predicate BoxFilterOn(q: Query) {
    q.bbox.Some? && |q.bbox.value| == 4
  }

  /** `[minX, minY, maxX, maxY]`: a point inside the box, borders included. */
  predicate InBox(box: seq<real>, p: Point)
    requires |box| == 4
  {
    box[0] <= p.x <= box[2] && box[1] <= p.y <= box[3]
  }

  /** Each filter, as a test that passes everything while the filter is off. */
  predicate SpeciesPass(q: Query, o: Observation) {
    SpeciesFilterOn(q) ==> o.speciesId == q.speciesId.value
  }

  predicate StartPass(q: Query, o: Observation) {
    q.start.Some? ==> q.start.value <= o.observedAt
  }

  predicate EndPass(q: Query, o: Observation) {
    q.end.Some? ==> o.observedAt <= q.end.value
  }

  predicate BoxPass(q: Query, o: Observation) {
    BoxFilterOn(q) ==> InBox(q.bbox.value, o.geom)
  }

  /** An observation passes the query when it passes every filter that is on. */
  predicate Matches(q: Query, o: Observation) {
    SpeciesPass(q, o) && StartPass(q, o) && EndPass(q, o) && BoxPass(q, o)
  }

  function MatchesQuery(q: Query): Observation -> bool {
    (o: Observation) => Matches(q, o)
  }

  function SpeciesTest(q: Query): Observation -> bool {
    (o: Observation) => SpeciesPass(q, o)
  }

  function StartTest(q: Query): Observation -> bool {
    (o: Observation) => StartPass(q, o)
  }

  function EndTest(q: Query): Observation -> bool {
    (o: Observation) => EndPass(q, o)
  }

  function BoxTest(q: Query): Observation -> bool {
    (o: Observation) => BoxPass(q, o)
  }

  function SpeciesAndStart(q: Query): Observation -> bool {
    (o: Observation) => SpeciesPass(q, o) && StartPass(q, o)
  }

  function SpeciesStartAndEnd(q: Query): Observation -> bool {
    (o: Observation) => SpeciesPass(q, o) && StartPass(q, o) && EndPass(q, o)
  }

  function SpeciesIs(id: string): Observation -> bool {
    (o: Observation) => o.speciesId == id
  }

  function NotBefore(start: int): Observation -> bool {
    (o: Observation) => start <= o.observedAt
  }

  function NotAfter(end: int): Observation -> bool {
    (o: Observation) => o.observedAt <= end
  }

  function InsideBox(box: seq<real>): Observation -> bool
    requires |box| == 4
  {
    (o: Observation) => InBox(box, o.geom)
  }

  /** The four stages of the handler, each applied only when its parameter is usable. */
  function BySpecies(s: seq<Observation>, q: Query): seq<Observation> {
    if SpeciesFilterOn(q) then Seqs.Filter(s, SpeciesIs(q.speciesId.value)) else s
  }

  function ByStart(s: seq<Observation>, q: Query): seq<Observation> {
    if q.start.Some? then Seqs.Filter(s, NotBefore(q.start.value)) else s
  }

  function ByEnd(s: seq<Observation>, q: Query): seq<Observation> {
    if q.end.Some? then Seqs.Filter(s, NotAfter(q.end.value)) else s
  }

  function ByBox(s: seq<Observation>, q: Query): seq<Observation> {
    if BoxFilterOn(q) then Seqs.Filter(s, InsideBox(q.bbox.value)) else s
  }

  /** The list after the filters, applied one after the other as the handler does. */
  function Selected(obs: seq<Observation>, q: Query): seq<Observation> {
    ByBox(ByEnd(ByStart(BySpecies(obs, q), q), q), q)
  }

  /** Filtering with predicates that agree everywhere gives the same result. */
  lemma {:induction false} FilterSamePredicate(s: seq<Observation>, p: Observation -> bool, p': Observation -> bool)
    requires forall o :: p(o) == p'(o)
    ensures Seqs.Filter(s, p) == Seqs.Filter(s, p')
  {
    if s != [] {
      FilterSamePredicate(s[1..], p, p');
    }
  }

  /** A filter that may be switched off is a filter by "off, or the predicate holds". */
  lemma OptionalFilter(s: seq<Observation>, on: bool, p: Observation -> bool, p': Observation -> bool)
    requires forall o :: p'(o) == (!on || p(o))
    ensures (if on then Seqs.Filter(s, p) else s) == Seqs.Filter(s, p')
  {
    if on {
      FilterSamePredicate(s, p, p');
    } else {
      Seqs.FilterAll(s, p');
    }
  }

  lemma BySpeciesIsFilter(s: seq<Observation>, q: Query)
    ensures BySpecies(s, q) == Seqs.Filter(s, SpeciesTest(q))
  {
    OptionalFilter(s, SpeciesFilterOn(q), SpeciesIs(q.speciesId.GetOr("")), SpeciesTest(q));
  }

  lemma ByStartIsFilter(s: seq<Observation>, q: Query)
    ensures ByStart(s, q) == Seqs.Filter(s, StartTest(q))
  {
    OptionalFilter(s, q.start.Some?, NotBefore(q.start.GetOr(0)), StartTest(q));
  }

  lemma ByEndIsFilter(s: seq<Observation>, q: Query)
    ensures ByEnd(s, q) == Seqs.Filter(s, EndTest(q))
  {
    OptionalFilter(s, q.end.Some?, NotAfter(q.end.GetOr(0)), EndTest(q));
  }

  lemma ByBoxIsFilter(s: seq<Observation>, q: Query)
    ensures ByBox(s, q) == Seqs.Filter(s, BoxTest(q))
  {
    if BoxFilterOn(q) {
      OptionalFilter(s, true, InsideBox(q.bbox.value), BoxTest(q));
    } else {
      Seqs.FilterAll(s, BoxTest(q));
    }
  }

  /** The successive filters select, in the original order, exactly the observations passing the whole query. */
  lemma SelectedIsFilter(obs: seq<Observation>, q: Query)
    ensures Selected(obs, q) == Seqs.Filter(obs, MatchesQuery(q))
  {
    var s1 := BySpecies(obs, q);
    BySpeciesIsFilter(obs, q);
    var s2 := ByStart(s1, q);
    ByStartIsFilter(s1, q);
    Seqs.FilterFilter(obs, SpeciesTest(q), StartTest(q), SpeciesAndStart(q));
    var s3 := ByEnd(s2, q);
    ByEndIsFilter(s2, q);
    Seqs.FilterFilter(obs, SpeciesAndStart(q), EndTest(q), SpeciesStartAndEnd(q));
    ByBoxIsFilter(s3, q);
    Seqs.FilterFilter(obs, SpeciesStartAndEnd(q), BoxTest(q), MatchesQuery(q));
  }

  /** Each feature keeps its observation's id and geometry, and the eight listed properties. */
  function ToFeature(o: Observation): Feature {
    Feature(o.id, Properties(o.speciesId, o.speciesName, o.observedAt, o.datasetId, o.recordedBy,
                             o.validatedBy, o.depth, o.temperature), o.geom)
  }

  function Features(obs: seq<Observation>): (r: seq<Feature>)
    ensures |r| == |obs| && forall i :: 0 <= i < |obs| ==> r[i] == ToFeature(obs[i])
  {
    seq(|obs|, i requires 0 <= i < |obs| => ToFeature(obs[i]))
  }

  /** `geospatial`: the features of the observations passing every filter that is on, and their count. */
  function GeoQuery(obs: seq<Observation>, q: Query): (r: GeoReply)
    ensures r.count == |r.features| <= |obs|
    ensures forall o :: o in obs && Matches(q, o) ==> ToFeature(o) in r.features
    ensures forall i :: 0 <= i < |r.features| ==>
      exists o :: o in obs && Matches(q, o) && r.features[i] == ToFeature(o)
  {
    var selected := Selected(obs, q);
    SelectedIsFilter(obs, q);
    Seqs.FilterMembership(obs, MatchesQuery(q));
    var features := Features(selected);
    assert forall o :: o in selected ==> ToFeature(o) in features by {
      forall o | o in selected ensures ToFeature(o) in features {
        var i :| 0 <= i < |selected| && selected[i] == o;
        assert features[i] == ToFeature(o);
      }
    }
    assert forall i :: 0 <= i < |features| ==> selected[i] in obs && Matches(q, selected[i]) by {
      forall i | 0 <= i < |features| ensures selected[i] in obs && Matches(q, selected[i]) {
        assert selected[i] in selected;
      }
    }
    GeoReply(features, |selected|)
  }

  /** With no filter on, every observation is returned, in order. */
  lemma NoFilterSelectsAll(obs: seq<Observation>, q: Query)
    requires !SpeciesFilterOn(q) && q.start.None? && q.end.None? && !BoxFilterOn(q)
    ensures GeoQuery(obs, q).features == Features(obs)
  {
    SelectedIsFilter(obs, q);
    Seqs.FilterAll(obs, MatchesQuery(q));
  }

  /** The query is in list order: querying a concatenation queries each part in turn. */
  lemma GeospatialInOrder(a: seq<Observation>, b: seq<Observation>, q: Query)
    ensures GeoQuery(a + b, q).features == GeoQuery(a, q).features + GeoQuery(b, q).features
  {
    SelectedIsFilter(a + b, q);
    SelectedIsFilter(a, q);
    SelectedIsFilter(b, q);
    Seqs.FilterConcat(a, b, MatchesQuery(q));
    FeaturesConcat(Selected(a, q), Selected(b, q));
  }

  lemma FeaturesConcat(a: seq<Observation>, b: seq<Observation>)
    ensures Features(a + b) == Features(a) + Features(b)
  {
    assert forall i :: 0 <= i < |a + b| ==> Features(a + b)[i] == (Features(a) + Features(b))[i];
  }

  // ---------------------------------------------------------------------------
  // Lookup and creation

  function HasId(id: string): Observation -> bool {
    (o: Observation) => o.id == id
  }

  /** `getObservation`: 404 when no observation has the id, otherwise the first that has it. */
  function ObservationById(obs: seq<Observation>, id: string): (r: Reply<Observation>)
    ensures r.Fail? <==> forall o :: o in obs ==> o.id != id
    ensures r.Fail? ==> r == Fail(NotFound, "Not found")
    ensures r.Ok? ==> r.value in obs && r.value.id == id
    ensures r.Ok? ==> exists i :: 0 <= i < |obs| && obs[i] == r.value && forall j :: 0 <= j < i ==> obs[j].id != id
  {
    match Seqs.Find(obs, HasId(id))
    case None =>
      assert forall o :: o in obs ==> !HasId(id)(o);
      Fail(NotFound, "Not found")
    case Some(o) =>
      var i := Seqs.FindIndex(obs, HasId(id)).value;
      assert forall j :: 0 <= j < i ==> !HasId(id)(obs[j]);
      Ok(o)
  }

  /** The id `createObservation` generates for a list of `count` observations. */
  function GeneratedId(count: nat): string {
    "obs_" + Text.NatToString(count + 1)
  }

  /** `{ id, ...body }`: the body's own id, when it has one, wins over the generated one. */
  function NewObservation(count: nat, body: Body): (o: Observation)
    ensures o.id == if body.id.Some? then body.id.value else GeneratedId(count)
  {
    Observation(body.id.GetOr(GeneratedId(count)), body.speciesId, body.observedAt, body.geom, body.recordedBy,
      body.validatedBy, body.datasetId, body.photos, body.speciesName, body.depth, body.temperature)
  }

  /** Generated ids of different list lengths differ. */
  lemma GeneratedIdsDistinct(m: nat, n: nat)
    requires m != n
    ensures GeneratedId(m) != GeneratedId(n)
  {
    if GeneratedId(m) == GeneratedId(n) {
      assert Text.NatToString(m + 1) == GeneratedId(m)[4..] == GeneratedId(n)[4..] == Text.NatToString(n + 1);
      Text.NatToStringInjective(m + 1, n + 1);
    }
  }

  /** Every record carries the id generated for its position (true of the seed, kept by creations without an id). */
  predicate GeneratedIds(obs: seq<Observation>) {
    forall i :: 0 <= i < |obs| ==> obs[i].id == GeneratedId(i)
  }

  /** The demo observations are numbered as the creation handler numbers them. */
  lemma SeedHasGeneratedIds(now: int)
    ensures GeneratedIds(Seed(now))
  {
    var s := Seed(now);
    assert s[0].id == GeneratedId(0);
    assert s[1].id == GeneratedId(1);
    assert s[2].id == GeneratedId(2);
    assert s[3].id == GeneratedId(3);
    assert s[4].id == GeneratedId(4);
    assert s[5].id == GeneratedId(5);
    assert s[6].id == GeneratedId(6);
    assert s[7].id == GeneratedId(7);
  }

  /** While every id is the generated one, a creation without an id gets a fresh id and keeps the property. */
  lemma CreateKeepsIdsFresh(obs: seq<Observation>, body: Body)
    requires GeneratedIds(obs) && body.id.None?
    ensures forall o :: o in obs ==> o.id != NewObservation(|obs|, body).id
    ensures GeneratedIds(obs + [NewObservation(|obs|, body)])
  {
    forall i | 0 <= i < |obs| ensures obs[i].id != GeneratedId(|obs|) {
      GeneratedIdsDistinct(i, |obs|);
    }
  }

  class ObservationStore {
    var observations: seq<Observation>

    constructor (now: int)
      ensures observations == Seed(now)
    {
      observations := Seed(now);
    }

    method Geospatial(q: Query) returns (r: GeoReply)
      ensures r == GeoQuery(observations, q)
    {
      var filtered := observations;
      if SpeciesFilterOn(q) {
        filtered := Seqs.Filter(filtered, SpeciesIs(q.speciesId.value));
      }
      if q.start.Some? {
        filtered := Seqs.Filter(filtered, NotBefore(q.start.value));
      }
      if q.end.Some? {
        filtered := Seqs.Filter(filtered, NotAfter(q.end.value));
      }
      if BoxFilterOn(q) {
        filtered := Seqs.Filter(filtered, InsideBox(q.bbox.value));
      }
      r := GeoReply(Features(filtered), |filtered|);
    }

    method GetObservation(id: string) returns (r: Reply<Observation>)
      ensures r == ObservationById(observations, id)
    {
      var found := Seqs.Find(observations, HasId(id));
      if found.None? {
        return Fail(NotFound, "Not found");
      }
      r := Ok(found.value);
    }

    /** `createObservation`: appends exactly one record, at the end. */
    method CreateObservation(body: Body) returns (item: Observation)
      modifies this
      ensures item == NewObservation(|old(observations)|, body)
      ensures observations == old(observations) + [item]
    {
      var id := GeneratedId(|observations|);
      item := Observation(id, body.speciesId, body.observedAt, body.geom, body.recordedBy,
        body.validatedBy, body.datasetId, body.photos, body.speciesName, body.depth, body.temperature);
      if body.id.Some? {
        item := item.(id := body.id.value);
      }
      observations := observations + [item];
    }
  }
}
