/**
 * The map filter store of the client (client/stores/ui.ts): a date range, a species, a
 * bounding box, the map viewport and the community-reports switch, changed by setters that
 * replace one field, a viewport setter that merges, and a toggle.
 */
module UIStore {
  import opened Wrappers

  datatype DateRange = DateRange(start: Option<string>, end: Option<string>)

  datatype BBox = BBox(minX: real, minY: real, maxX: real, maxY: real)

  datatype Viewport = Viewport(longitude: real, latitude: real, zoom: real)

  /** `Partial<Viewport>`: the fields a caller supplies. */
  datatype ViewportPatch = ViewportPatch(longitude: Option<real>, latitude: Option<real>, zoom: Option<real>)

  /** The whole store, as one value. */
  datatype UIState = UIState(
    dateRange: DateRange,
    speciesId: Option<string>,
    bbox: Option<BBox>,
    viewport: Viewport,
    communityReports: bool)

  /** The state the store is created with. */
  function Initial(): (s: UIState)
    ensures s.dateRange.start.None? && s.dateRange.end.None?
    ensures s.speciesId.None? && s.bbox.None?
    ensures s.viewport == Viewport(-122.43, 37.77, 5.0)
    ensures s.communityReports
  {
    UIState(DateRange(None, None), None, None, Viewport(-122.43, 37.77, 5.0), true)
  }

  /** `{ ...viewport, ...patch }`: the supplied fields overwrite, the others are kept. */
  function MergeViewport(v: Viewport, p: ViewportPatch): (r: Viewport)
    ensures r.longitude == if p.longitude.Some? then p.longitude.value else v.longitude
    ensures r.latitude == if p.latitude.Some? then p.latitude.value else v.latitude
    ensures r.zoom == if p.zoom.Some? then p.zoom.value else v.zoom
  {
    Viewport(p.longitude.GetOr(v.longitude), p.latitude.GetOr(v.latitude), p.zoom.GetOr(v.zoom))
  }

  /** The patch that applies `p` and then `q`: every field of `q` wins over the one of `p`. */
  function ThenPatch(p: ViewportPatch, q: ViewportPatch): ViewportPatch {
    ViewportPatch(if q.longitude.Some? then q.longitude else p.longitude,
                  if q.latitude.Some? then q.latitude else p.latitude,
                  if q.zoom.Some? then q.zoom else p.zoom)
  }

  /** Merging twice is merging once with the later patch laid over the earlier one. */
  lemma MergeTwice(v: Viewport, p: ViewportPatch, q: ViewportPatch)
    ensures MergeViewport(MergeViewport(v, p), q) == MergeViewport(v, ThenPatch(p, q))
  {
  }

  /** Merging the same patch again changes nothing. */
  lemma MergeIdempotent(v: Viewport, p: ViewportPatch)
    ensures MergeViewport(MergeViewport(v, p), p) == MergeViewport(v, p)
  {
  }

  /** An empty patch keeps the viewport. */
  lemma MergeEmpty(v: Viewport)
    ensures MergeViewport(v, ViewportPatch(None, None, None)) == v
  {
  }

  /** `setDateRange`: the date range is replaced, nothing else changes. */
  function WithDateRange(s: UIState, r: DateRange): (t: UIState)
    ensures t.dateRange == r
    ensures t.speciesId == s.speciesId && t.bbox == s.bbox && t.viewport == s.viewport
    ensures t.communityReports == s.communityReports
  {
    s.(dateRange := r)
  }

  /** `setSpeciesId`: the species is replaced, nothing else changes. */
  function WithSpeciesId(s: UIState, id: Option<string>): (t: UIState)
    ensures t.speciesId == id
    ensures t.dateRange == s.dateRange && t.bbox == s.bbox && t.viewport == s.viewport
    ensures t.communityReports == s.communityReports
  {
    s.(speciesId := id)
  }

  /** `setBBox`: the box is replaced, nothing else changes. */
  function WithBBox(s: UIState, b: Option<BBox>): (t: UIState)
    ensures t.bbox == b
    ensures t.dateRange == s.dateRange && t.speciesId == s.speciesId && t.viewport == s.viewport
    ensures t.communityReports == s.communityReports
  {
    s.(bbox := b)
  }

  /** `setViewport`: the viewport is merged with the patch, nothing else changes. */
  function WithViewport(s: UIState, p: ViewportPatch): (t: UIState)
    ensures t.viewport == MergeViewport(s.viewport, p)
    ensures t.dateRange == s.dateRange && t.speciesId == s.speciesId && t.bbox == s.bbox
    ensures t.communityReports == s.communityReports
  {
    s.(viewport := MergeViewport(s.viewport, p))
  }

  /** `toggleCommunityReports`: the switch flips, nothing else changes. */
  function Toggled(s: UIState): (t: UIState)
    ensures t.communityReports == !s.communityReports
    ensures t.dateRange == s.dateRange && t.speciesId == s.speciesId && t.bbox == s.bbox
    ensures t.viewport == s.viewport
  {
    s.(communityReports := !s.communityReports)
  }

  /** Toggling twice restores the state. */
  lemma ToggleTwice(s: UIState)
    ensures Toggled(Toggled(s)) == s
  {
  }

  /** An empty viewport patch leaves the whole state unchanged. */
  lemma EmptyViewportPatch(s: UIState)
    ensures WithViewport(s, ViewportPatch(None, None, None)) == s
  {
  }

  /** The setters touch different fields, so their order does not matter. */
  lemma SettersCommute(s: UIState, r: DateRange, id: Option<string>, b: Option<BBox>)
    ensures WithDateRange(WithSpeciesId(s, id), r) == WithSpeciesId(WithDateRange(s, r), id)
    ensures WithBBox(WithDateRange(s, r), b) == WithDateRange(WithBBox(s, b), r)
    ensures WithBBox(WithSpeciesId(s, id), b) == WithSpeciesId(WithBBox(s, b), id)
  {
  }

  class Store {
    var dateRange: DateRange
    var speciesId: Option<string>
    var bbox: Option<BBox>
    var viewport: Viewport
    var communityReports: bool

    /** The store's fields as one value. */
    function State(): UIState
      reads this
    {
      UIState(dateRange, speciesId, bbox, viewport, communityReports)
    }

    constructor ()
      ensures State() == Initial()
    {
      dateRange := DateRange(None, None);
      speciesId := None;
      bbox := None;
      viewport := Viewport(-122.43, 37.77, 5.0);
      communityReports := true;
    }

    method SetDateRange(r: DateRange)
      modifies this
      ensures State() == WithDateRange(old(State()), r)
    {
      dateRange := r;
    }

    method SetSpeciesId(id: Option<string>)
      modifies this
      ensures State() == WithSpeciesId(old(State()), id)
    {
      speciesId := id;
    }

    method SetBBox(b: Option<BBox>)
      modifies this
      ensures State() == WithBBox(old(State()), b)
    {
      bbox := b;
    }

    method SetViewport(p: ViewportPatch)
      modifies this
      ensures State() == WithViewport(old(State()), p)
    {
      var v := viewport;
      if p.longitude.Some? {
        v := v.(longitude := p.longitude.value);
      }
      if p.latitude.Some? {
        v := v.(latitude := p.latitude.value);
      }
      if p.zoom.Some? {
        v := v.(zoom := p.zoom.value);
      }
      viewport := v;
    }

    method ToggleCommunityReports()
      modifies this
      ensures State() == Toggled(old(State()))
    {
      communityReports := !communityReports;
    }
  }
}
