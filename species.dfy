/**
 * The species routes (server/routes/species.ts): a case-insensitive name search over the
 * in-memory species table, lookup by id, creation by appending and update by overlaying
 * the request body on the stored record.
 */
module Species {
  import opened Wrappers
  import Seqs
  import Text

  datatype Taxonomy = Taxonomy(kingdom: string, phylum: string, className: string)

  datatype Species = Species(
    id: string,
    scientificName: string,
    commonName: string,
    taxonomy: Taxonomy,
    curatorNotes: string,
    lastReviewedBy: string)

  /** A creation body: the record's fields, and optionally an id that replaces the generated one. */
  datatype Body = Body(
    id: Option<string>,
    scientificName: string,
    commonName: string,
    taxonomy: Taxonomy,
    curatorNotes: string,
    lastReviewedBy: string)

  /** An update body: the fields it supplies, each overwriting the stored one (the id included). */
  datatype Patch = Patch(
    id: Option<string>,
    scientificName: Option<string>,
    commonName: Option<string>,
    taxonomy: Option<Taxonomy>,
    curatorNotes: Option<string>,
    lastReviewedBy: Option<string>)

  /** The search reply: the matches, `meta.total` and the lowered query echoed as `meta.q`. */
  datatype SearchReply = SearchReply(results: seq<Species>, total: nat, q: string)

  /** The table after an update, with the reply. */
  datatype Step = Step(reply: Reply<Species>, db: seq<Species>)

  const NotFoundText: string := "Not found"

  /** The two demo species. */
  function Seed(): seq<Species> {
    [ Species("sp_1", "Delphinus delphis", "Common Dolphin", Taxonomy("Animalia", "Chordata", "Mammalia"),
        "Often sighted near continental shelves.", "2"),
      Species("sp_2", "Thunnus albacares", "Yellowfin Tuna", Taxonomy("Animalia", "Chordata", "Actinopterygii"),
        "Pelagic species; schools near temperature fronts.", "2") ]
  }

  // ---------------------------------------------------------------------------
  // Search

  /** `String(req.query.name || "").toLowerCase()`: a missing or empty name is the empty string. */
  function SearchTerm(name: Option<string>): string {
    Text.Lower(name.GetOr(""))
  }

  /** A species matches when its lowered scientific or common name contains the (lowered) term. */
  predicate NameMatches(term: string, s: Species) {
    Text.Contains(Text.Lower(s.scientificName), term) || Text.Contains(Text.Lower(s.commonName), term)
  }

  function MatchesTerm(term: string): Species -> bool {
    (s: Species) => NameMatches(term, s)
  }

  /** `searchSpecies`: the matching species in table order, their number, and the term searched for. */
  function Search(db: seq<Species>, name: Option<string>): (r: SearchReply)
    ensures r.total == |r.results| <= |db|
    ensures r.q == SearchTerm(name)
    ensures forall s :: s in r.results <==> s in db && NameMatches(r.q, s)
  {
    var term := SearchTerm(name);
    var results := Seqs.Filter(db, MatchesTerm(term));
    Seqs.FilterMembership(db, MatchesTerm(term));
    SearchReply(results, |results|, term)
  }

  /** The search is case-insensitive: a query and its lower-cased form give the same reply. */
  lemma SearchIgnoresCase(db: seq<Species>, name: string)
    ensures Search(db, Some(name)) == Search(db, Some(Text.Lower(name)))
  {
    Text.LowerIdempotent(name);
  }

  /** A missing or empty name matches every species, in order. */
  lemma EmptySearchMatchesAll(db: seq<Species>, name: Option<string>)
    requires name.None? || name == Some("")
    ensures Search(db, name).results == db
  {
    var term := SearchTerm(name);
    assert term == "";
    forall s | s in db ensures MatchesTerm(term)(s) {
      Text.ContainsEmpty(Text.Lower(s.scientificName));
    }
    Seqs.FilterAll(db, MatchesTerm(term));
  }

  /** The search keeps table order: searching a concatenation searches each part in turn. */
  lemma SearchInOrder(a: seq<Species>, b: seq<Species>, name: Option<string>)
    ensures Search(a + b, name).results == Search(a, name).results + Search(b, name).results
  {
    Seqs.FilterConcat(a, b, MatchesTerm(SearchTerm(name)));
  }

  // ---------------------------------------------------------------------------
  // Lookup, creation and update

  function HasId(id: string): Species -> bool {
    (s: Species) => s.id == id
  }

  /** `getSpecies`: 404 when no species has the id, otherwise the first that has it. */
  function SpeciesById(db: seq<Species>, id: string): (r: Reply<Species>)
    ensures r.Fail? <==> forall s :: s in db ==> s.id != id
    ensures r.Fail? ==> r == Fail(NotFound, NotFoundText)
    ensures r.Ok? ==> r.value.id == id
    ensures r.Ok? ==> exists i :: 0 <= i < |db| && db[i] == r.value && (forall j :: 0 <= j < i ==> db[j].id != id)
  {
    match Seqs.Find(db, HasId(id))
    case None =>
      assert forall s :: s in db ==> !HasId(id)(s);
      Fail(NotFound, NotFoundText)
    case Some(s) =>
      var i := Seqs.FindIndex(db, HasId(id)).value;
      assert forall j :: 0 <= j < i ==> !HasId(id)(db[j]);
      Ok(s)
  }

  /** The id `createSpecies` generates for a table of `count` species. */
  function GeneratedId(count: nat): string {
    "sp_" + Text.NatToString(count + 1)
  }

  /** `{ id, ...body }`: the body's own id, when it has one, wins over the generated one. */
  function NewSpecies(count: nat, body: Body): (s: Species)
    ensures s.id == if body.id.Some? then body.id.value else GeneratedId(count)
  {
    Species(body.id.GetOr(GeneratedId(count)), body.scientificName, body.commonName, body.taxonomy,
      body.curatorNotes, body.lastReviewedBy)
  }

  /** A created species whose id no earlier species has is found by that id. */
  lemma CreateThenGet(db: seq<Species>, body: Body)
    requires forall s :: s in db ==> s.id != NewSpecies(|db|, body).id
    ensures SpeciesById(db + [NewSpecies(|db|, body)], NewSpecies(|db|, body).id) == Ok(NewSpecies(|db|, body))
  {
    var item := NewSpecies(|db|, body);
    Seqs.FindAppend(db, item, HasId(item.id));
  }

  /** `{ ...old, ...body }`: every field the body supplies overwrites, every other field is kept. */
  function Overlay(s: Species, p: Patch): (r: Species)
    ensures p.id.None? ==> r.id == s.id
    ensures p.scientificName.None? ==> r.scientificName == s.scientificName
    ensures p.commonName.None? ==> r.commonName == s.commonName
    ensures p.taxonomy.None? ==> r.taxonomy == s.taxonomy
    ensures p.curatorNotes.None? ==> r.curatorNotes == s.curatorNotes
    ensures p.lastReviewedBy.None? ==> r.lastReviewedBy == s.lastReviewedBy
  {
    Species(p.id.GetOr(s.id), p.scientificName.GetOr(s.scientificName), p.commonName.GetOr(s.commonName),
      p.taxonomy.GetOr(s.taxonomy), p.curatorNotes.GetOr(s.curatorNotes), p.lastReviewedBy.GetOr(s.lastReviewedBy))
  }

  /** Overlaying the same body twice is overlaying it once. */
  lemma OverlayIdempotent(s: Species, p: Patch)
    ensures Overlay(Overlay(s, p), p) == Overlay(s, p)
  {
  }

  /** An empty body changes nothing. */
  lemma OverlayEmpty(s: Species)
    ensures Overlay(s, Patch(None, None, None, None, None, None)) == s
  {
  }

  /** Every field the body supplies ends up in the record. */
  lemma OverlaySupplied(s: Species, p: Patch)
    ensures p.id.Some? ==> Overlay(s, p).id == p.id.value
    ensures p.scientificName.Some? ==> Overlay(s, p).scientificName == p.scientificName.value
    ensures p.commonName.Some? ==> Overlay(s, p).commonName == p.commonName.value
    ensures p.taxonomy.Some? ==> Overlay(s, p).taxonomy == p.taxonomy.value
    ensures p.curatorNotes.Some? ==> Overlay(s, p).curatorNotes == p.curatorNotes.value
    ensures p.lastReviewedBy.Some? ==> Overlay(s, p).lastReviewedBy == p.lastReviewedBy.value
  {
  }

  /** `updateSpecies`: 404 with the table unchanged, or the first record with the id overlaid in place. */
  function ApplyUpdate(db: seq<Species>, id: string, p: Patch): (r: Step)
    ensures |r.db| == |db|
    ensures r.reply.Fail? <==> forall s :: s in db ==> s.id != id
    ensures r.reply.Fail? ==> r.reply == Fail(NotFound, NotFoundText) && r.db == db
    ensures r.reply.Ok? ==>
      exists i :: (&& 0 <= i < |db| && db[i].id == id
                   && (forall j :: 0 <= j < i ==> db[j].id != id)
                   && r.reply.value == Overlay(db[i], p) == r.db[i]
                   && (forall j :: 0 <= j < |db| && j != i ==> r.db[j] == db[j]))
  {
    match Seqs.FindIndex(db, HasId(id))
    case None =>
      assert forall s :: s in db ==> !HasId(id)(s);
      Step(Fail(NotFound, NotFoundText), db)
    case Some(i) =>
      var item := Overlay(db[i], p);
      assert forall j :: 0 <= j < i ==> !HasId(id)(db[j]);
      Step(Ok(item), db[i := item])
  }

  /** An update that keeps the id is seen by the next lookup of that id. */
  lemma UpdateThenGet(db: seq<Species>, id: string, p: Patch)
    requires p.id.None?
    ensures var r := ApplyUpdate(db, id, p);
      r.reply.Ok? ==> SpeciesById(r.db, id) == r.reply
  {
    var r := ApplyUpdate(db, id, p);
    match Seqs.FindIndex(db, HasId(id))
    case None =>
    case Some(i) =>
      assert r.db == db[i := Overlay(db[i], p)];
      assert forall j :: 0 <= j < i ==> r.db[j] == db[j];
      assert Seqs.FindIndex(r.db, HasId(id)) == Some(i);
  }

  /** Repeating an update that keeps the id leaves the table as the first update left it. */
  lemma UpdateIdempotent(db: seq<Species>, id: string, p: Patch)
    requires p.id.None?
    ensures var r := ApplyUpdate(db, id, p);
      ApplyUpdate(r.db, id, p) == r
  {
    var r := ApplyUpdate(db, id, p);
    match Seqs.FindIndex(db, HasId(id))
    case None =>
    case Some(i) =>
      assert r.db == db[i := Overlay(db[i], p)];
      assert forall j :: 0 <= j < i ==> r.db[j] == db[j];
      assert Seqs.FindIndex(r.db, HasId(id)) == Some(i);
      OverlayIdempotent(db[i], p);
      assert r.db[i := Overlay(r.db[i], p)] == r.db;
  }

  class SpeciesTable {
    var speciesDb: seq<Species>

    constructor ()
      ensures speciesDb == Seed()
    {
      speciesDb := Seed();
    }

    method SearchSpecies(name: Option<string>) returns (r: SearchReply)
      ensures r == Search(speciesDb, name)
    {
      var term := Text.Lower(if name.Some? then name.value else "");
      var results := Seqs.Filter(speciesDb, MatchesTerm(term));
      r := SearchReply(results, |results|, term);
    }

    method GetSpecies(id: string) returns (r: Reply<Species>)
      ensures r == SpeciesById(speciesDb, id)
    {
      var found := Seqs.Find(speciesDb, HasId(id));
      if found.None? {
        return Fail(NotFound, NotFoundText);
      }
      r := Ok(found.value);
    }

    /** `createSpecies`: appends exactly one record, at the end. */
    method CreateSpecies(body: Body) returns (item: Species)
      modifies this
      ensures item == NewSpecies(|old(speciesDb)|, body)
      ensures speciesDb == old(speciesDb) + [item]
    {
      var id := GeneratedId(|speciesDb|);
      item := Species(id, body.scientificName, body.commonName, body.taxonomy, body.curatorNotes, body.lastReviewedBy);
      if body.id.Some? {
        item := item.(id := body.id.value);
      }
      speciesDb := speciesDb + [item];
    }

    /** `updateSpecies`: finds the first index with the id and replaces that record by the overlay. */
    method UpdateSpecies(id: string, p: Patch) returns (r: Reply<Species>)
      modifies this
      ensures Step(r, speciesDb) == ApplyUpdate(old(speciesDb), id, p)
    {
      var idx := Seqs.FindIndex(speciesDb, HasId(id));
      if idx.None? {
        return Fail(NotFound, NotFoundText);
      }
      speciesDb := speciesDb[idx.value := Overlay(speciesDb[idx.value], p)];
      r := Ok(speciesDb[idx.value]);
    }
  }
}
