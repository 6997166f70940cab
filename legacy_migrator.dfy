/**
 * The migrator of the first generation of the tool
 * (ecospheres_migrator/migrator.py): the selection query and its defaults,
 * the `@to` pagination of `select`, `list_records`, and the transform,
 * which packs each selected record with its info document.
 */
module LegacyMigrator {
  import opened Wrappers
  import opened Text
  import opened Dicts
  import opened Seqs
  import Geonetwork
  import LegacyGeonetwork

  type Xml = Geonetwork.Xml
  type Hit = Geonetwork.Hit
  type Metadata = Geonetwork.Metadata
  type Page = LegacyGeonetwork.Page

  /** A record as `select` lists it; `title` is `None` when the entry has
      no `defaultTitle`. */
  datatype Record = Record(uuid: string, title: Option<string>)

  // ---------------------------------------------------------------------------
  // select

  /** The parameters every selection starts from; harvested records are
      left out unless the query says otherwise. */
  function DefaultParams(): Dict<string> {
    [
      ("_content_type", "json"),
      ("buildSummary", "false"),
      ("fast", "index"),
      ("sortBy", "title"),
      ("sortOrder", "reverse"),
      ("_isHarvested", "n")
    ]
  }

  const UNPACK_ERROR := "dictionary update sequence element has the wrong length; 2 is required"

  /** `p.split('=')` as one pair given to `dict(...)`: exactly two parts,
      taken as they are. */
  function ParsePair(piece: string): (r: Result<(string, string)>)
    ensures r.Ok? <==> Count(piece, '=') == 1
    ensures r.Ok? ==> '=' !in r.value.0 && '=' !in r.value.1 && r.value.0 + "=" + r.value.1 == piece
  {
    var kv := Split(piece, '=');
    if |kv| != 2 then Err(UNPACK_ERROR)
    else
      assert Join(kv, "=") == kv[0] + "=" + Join(kv[1..], "=");
      Ok((kv[0], kv[1]))
  }

  /** The pieces as pairs; the first piece that is not one pair raises. */
  function ParsePairs(pieces: seq<string>): (r: Result<seq<(string, string)>>)
    ensures r.Ok? <==> forall i :: 0 <= i < |pieces| ==> ParsePair(pieces[i]).Ok?
    ensures r.Ok? ==> |r.value| == |pieces|
    ensures r.Ok? ==> forall i :: 0 <= i < |pieces| ==> r.value[i] == ParsePair(pieces[i]).value
  {
    MapAll(pieces, ParsePair)
  }

  /** The parameters `select` searches with: the defaults, with the pairs
      of a non-empty query `k=v,...` merged over them (later pairs win). */
  function SelectParams(query: Option<string>): (r: Result<Dict<string>>)
    ensures query.None? || query.value == [] ==> r == Ok(DefaultParams())
    ensures r.Err? ==> query.Some? && query.value != []
    ensures r.Err? ==> exists i :: 0 <= i < |Split(query.value, ',')| && !ParsePair(Split(query.value, ',')[i]).Ok?
    ensures (query.Some? && query.value != [] &&
      exists i :: 0 <= i < |Split(query.value, ',')| && !ParsePair(Split(query.value, ',')[i]).Ok?) ==> r.Err?
  {
    if query.None? || query.value == [] then Ok(DefaultParams())
    else match ParsePairs(Split(query.value, ','))
      case Err(e) =>
        var pieces := Split(query.value, ',');
        assert exists i :: 0 <= i < |pieces| && !ParsePair(pieces[i]).Ok?;
        Err(e)
      case Ok(pairs) => Ok(Update(DefaultParams(), pairs))
  }

  /** Harvested records are excluded unless the query names `_isHarvested`. */
  lemma SelectExcludesHarvested(query: Option<string>)
    requires SelectParams(query).Ok?
    requires query.Some? && query.value != [] ==>
      forall i :: 0 <= i < |Split(query.value, ',')| ==> ParsePair(Split(query.value, ',')[i]).value.0 != "_isHarvested"
    ensures Get(SelectParams(query).value, "_isHarvested") == Some("n")
  {
    GetAt(DefaultParams(), 5, "_isHarvested");
    if query.Some? && query.value != [] {
      var pieces := Split(query.value, ',');
      var pairs := ParsePairs(pieces).value;
      assert forall i :: 0 <= i < |pairs| ==> pairs[i] == ParsePair(pieces[i]).value;
      UpdateKeeps(DefaultParams(), pairs, "_isHarvested");
      assert SelectParams(query).value == Update(DefaultParams(), pairs);
    }
  }

  /** Merging pairs that do not name `k` leaves `k` as it was. */
  lemma UpdateKeeps(d: Dict<string>, pairs: seq<(string, string)>, k: string)
    requires forall i :: 0 <= i < |pairs| ==> pairs[i].0 != k
    ensures Get(Update(d, pairs), k) == Get(d, k)
  {
    LastValueAbsent(pairs, k);
  }

  lemma {:induction false} LastValueAbsent<V>(ps: seq<(string, V)>, k: string)
    requires forall i :: 0 <= i < |ps| ==> ps[i].0 != k
    ensures LastValue(ps, k) == None
    decreases |ps|
  {
    if ps != [] {
      assert forall i :: 0 <= i < |ps[1..]| ==> ps[1..][i] == ps[i + 1];
      LastValueAbsent(ps[1..], k);
    }
  }

  lemma ParsePairOfRendered(k: string, v: string)
    requires '=' !in k && '=' !in v
    ensures ParsePair(k + "=" + v) == Ok((k, v))
  {
    SplitAfterFirstSeparator(k, v, '=');
    SplitWithoutSeparator(v, '=');
    assert Split(k + "=" + v, '=') == [k, v];
  }

  lemma NoCommaInPair(k: string, v: string)
    requires ',' !in k && ',' !in v
    ensures ',' !in k + "=" + v
  {
    var piece := k + "=" + v;
    forall i | 0 <= i < |piece| ensures piece[i] != ',' {
      if i < |k| {
        assert piece[i] == k[i];
      } else if i > |k| {
        assert piece[i] == v[i - |k| - 1];
      }
    }
  }

  lemma ParsePairsOne(piece: string, kv: (string, string))
    requires ParsePair(piece) == Ok(kv)
    ensures ParsePairs([piece]) == Ok([kv])
  {
    assert [piece][1..] == [];
    assert [kv] + [] == [kv];
  }

  lemma ParseQueryOfPair(k: string, v: string)
    requires '=' !in k && ',' !in k && '=' !in v && ',' !in v
    ensures ParsePairs(Split(k + "=" + v, ',')) == Ok([(k, v)])
  {
    var piece := k + "=" + v;
    NoCommaInPair(k, v);
    SplitWithoutSeparator(piece, ',');
    ParsePairOfRendered(k, v);
    ParsePairsOne(piece, (k, v));
  }

  /** A query `k=v` sets `k` to `v`, over any default. */
  lemma QueryOverrides(k: string, v: string)
    requires '=' !in k && ',' !in k && '=' !in v && ',' !in v
    ensures SelectParams(Some(k + "=" + v)).Ok?
    ensures Get(SelectParams(Some(k + "=" + v)).value, k) == Some(v)
  {
    ParseQueryOfPair(k, v);
    assert SelectParams(Some(k + "=" + v)) == Ok(Update(DefaultParams(), [(k, v)]));
    assert LastValue([(k, v)], k) == Some(v);
  }

  const NOT_A_LIST := "string indices must be integers, not 'str'"

  /** One entry of `list_records`: `m['geonet:info']['uuid']` raises on an
      entry without uuid. */
  function EntryRecord(hit: Hit): Result<Option<Record>> {
    match hit.uuid
    case None => Err(LegacyGeonetwork.MISSING_UUID)
    case Some(uuid) => Ok(Some(Record(uuid, hit.title)))
  }

  /** `list_records(rsp.get('metadata', []))`: a single record, which the
      catalog does not wrap in a list, is iterated over its keys and
      raises. */
  function RecordsOfMetadata(m: Metadata): Result<seq<Record>> {
    match m
    case NoMetadata => Ok([])
    case Single(_) => Err(NOT_A_LIST)
    case Listed(hits) => Traverse(hits, EntryRecord)
  }

  /** `list_records` gives one record per entry, in order, with the entry's
      uuid and title, and raises on an entry without uuid or on a single
      record. */
  lemma ListRecordsMeaning(m: Metadata)
    ensures m.NoMetadata? ==> RecordsOfMetadata(m) == Ok([])
    ensures m.Single? ==> RecordsOfMetadata(m) == Err(NOT_A_LIST)
    ensures m.Listed? ==> (RecordsOfMetadata(m).Ok? <==> forall i :: 0 <= i < |m.hits| ==> m.hits[i].uuid.Some?)
    ensures m.Listed? && RecordsOfMetadata(m).Ok? ==>
      |RecordsOfMetadata(m).value| == |m.hits|
      && forall i :: 0 <= i < |m.hits| ==> RecordsOfMetadata(m).value[i] == Record(m.hits[i].uuid.value, m.hits[i].title)
  {
    if m.Listed? {
      TraverseError(m.hits, EntryRecord);
      if forall i :: 0 <= i < |m.hits| ==> m.hits[i].uuid.Some? {
        TraverseAll(m.hits, EntryRecord);
      }
    }
  }

  /** `list_records`: the loop appending one record per entry. */
  method ListRecords(m: Metadata) returns (r: Result<seq<Record>>)
    ensures r == RecordsOfMetadata(m)
  {
    if m.NoMetadata? {
      return Ok([]);
    }
    if m.Single? {
      return Err(NOT_A_LIST);
    }
    var hits := m.hits;
    var records: seq<Record> := [];
    for j := 0 to |hits|
      invariant Traverse(hits[..j], EntryRecord) == Ok(records)
    {
      TraverseStep(hits, j, EntryRecord);
      if hits[j].uuid.None? {
        TraverseStopsAtError(hits, j + 1, EntryRecord);
        return Err(LegacyGeonetwork.MISSING_UUID);
      }
      records := records + [Record(hits[j].uuid.value, hits[j].title)];
    }
    assert hits[..|hits|] == hits;
    return Ok(records);
  }

  /** What `select(query=...)` returns. */
  function Selection(search: (Dict<string>, int) -> Result<Page>, total: nat, query: Option<string>): Result<seq<Record>>
    requires LegacyGeonetwork.Paged(search, total)
  {
    match SelectParams(query)
    case Err(e) => Err(e)
    case Ok(params) => LegacyGeonetwork.Scroll(search, params, total, 1, RecordsOfMetadata)
  }

  /** A first page holding a single record makes `select` raise, where
      `get_records` reads it as a list of one. */
  lemma SingleRecordPageRaises(search: (Dict<string>, int) -> Result<Page>, total: nat, query: Option<string>, hit: Hit, to: Option<string>)
    requires LegacyGeonetwork.Paged(search, total)
    requires SelectParams(query).Ok?
    requires search(SelectParams(query).value, 1) == Ok(LegacyGeonetwork.Page(Geonetwork.Single(hit), to))
    ensures Selection(search, total, query) == Err(NOT_A_LIST)
  {
  }

  /** `select`: from position 1, list each page's records, and go on after
      `@to` until a page lists none. */
  method Select(search: (Dict<string>, int) -> Result<Page>, total: nat, query: Option<string>)
    returns (r: Result<seq<Record>>)
    requires LegacyGeonetwork.Paged(search, total)
    ensures r == Selection(search, total, query)
  {
    var p := SelectParams(query);
    if p.Err? {
      return Err(p.error);
    }
    var params := p.value;
    var selection: seq<Record> := [];
    var from: int := 1;
    PrependNothing(LegacyGeonetwork.Scroll(search, params, total, 1, RecordsOfMetadata));
    while true
      invariant LegacyGeonetwork.Scroll(search, params, total, 1, RecordsOfMetadata)
        == Prepend(selection, LegacyGeonetwork.Scroll(search, params, total, from, RecordsOfMetadata))
      decreases if from <= total then total - from + 1 else 0
    {
      var rsp := search(params, from);
      if rsp.Err? {
        return Err(rsp.error);
      }
      var records := ListRecords(rsp.value.metadata);
      if records.Err? {
        return Err(records.error);
      }
      if records.value == [] {
        assert selection + [] == selection;
        break;
      }
      var next := LegacyGeonetwork.NextFrom(rsp.value);
      if next.Err? {
        return Err(next.error);
      }
      PrependPrepend(selection, records.value, LegacyGeonetwork.Scroll(search, params, total, next.value, RecordsOfMetadata));
      selection := selection + records.value;
      from := next.value;
    }
    return Ok(selection);
  }

  // ---------------------------------------------------------------------------
  // transform

  /** The catalog names each source (`get_sources`). */
  type Sources = map<string, string>

  /** The calls `transform` makes to the catalog: the sources, the XML of a
      record, and `extract_info`, which splits a record into the record
      without its `geonet:info` element and the info document built from
      that element (raising, for one, on an unknown source). */
  datatype Catalog = Catalog(
    sources: Result<Sources>,
    getRecord: string -> Result<Xml>,
    extractInfo: (Xml, Sources) -> Result<(Xml, Xml)>)

  /** What is packed for one record: its `info.xml` and its `metadata.xml`. */
  datatype Entry = Entry(uuid: string, info: Xml, metadata: Xml)

  const ERROR_TRANSFORMATION := "error"
  const ASKED_FOR_ERROR := "You asked for an error, here you are!"

  function PackStep(catalog: Catalog, sources: Sources): Record -> Result<Option<Entry>> {
    (s: Record) =>
      match catalog.getRecord(s.uuid)
      case Err(e) => Err(e)
      case Ok(record) =>
        match catalog.extractInfo(record, sources)
        case Err(e) => Err(e)
        case Ok(split) => Ok(Some(Entry(s.uuid, split.1, split.0)))
  }

  /** What `transform` packs: the transformation `error` raises before the
      catalog is asked anything; otherwise one entry per selected record,
      and the first failing call raises. */
  function Packed(catalog: Catalog, transformationId: string, selection: seq<Record>): Result<seq<Entry>> {
    if transformationId == ERROR_TRANSFORMATION then Err(ASKED_FOR_ERROR)
    else match catalog.sources
      case Err(e) => Err(e)
      case Ok(sources) => Traverse(selection, PackStep(catalog, sources))
  }

  /** The transformation `error` raises whatever the catalog would answer. */
  lemma ErrorTransformationRaisesFirst(a: Catalog, b: Catalog, selection: seq<Record>)
    ensures Packed(a, ERROR_TRANSFORMATION, selection) == Err(ASKED_FOR_ERROR)
    ensures Packed(a, ERROR_TRANSFORMATION, selection) == Packed(b, ERROR_TRANSFORMATION, selection)
  {
  }

  /** A transform that completes packs exactly one entry per selected
      record, in order, under the record's uuid. */
  lemma PackedOnePerRecord(catalog: Catalog, transformationId: string, selection: seq<Record>)
    requires Packed(catalog, transformationId, selection).Ok?
    ensures transformationId != ERROR_TRANSFORMATION && catalog.sources.Ok?
    ensures var entries := Packed(catalog, transformationId, selection).value;
      |entries| == |selection| && forall i :: 0 <= i < |selection| ==> entries[i].uuid == selection[i].uuid
  {
    var step := PackStep(catalog, catalog.sources.value);
    TraverseError(selection, step);
    assert forall i :: 0 <= i < |selection| ==> step(selection[i]).Ok? && step(selection[i]).value.Some?;
    TraverseAll(selection, step);
  }

  /** `transform`: the guard, the sources, then for each selected record
      its XML and its info, packed in selection order. */
  method Transform(catalog: Catalog, transformationId: string, selection: seq<Record>) returns (r: Result<seq<Entry>>)
    ensures r == Packed(catalog, transformationId, selection)
  {
    if transformationId == ERROR_TRANSFORMATION {
      return Err(ASKED_FOR_ERROR);
    }
    var sources := catalog.sources;
    if sources.Err? {
      return Err(sources.error);
    }
    ghost var step := PackStep(catalog, sources.value);
    var entries: seq<Entry> := [];
    for i := 0 to |selection|
      invariant Traverse(selection[..i], step) == Ok(entries)
    {
      var s := selection[i];
      TraverseStep(selection, i, step);
      var record := catalog.getRecord(s.uuid);
      if record.Err? {
        TraverseStopsAtError(selection, i + 1, step);
        return Err(record.error);
      }
      var split := catalog.extractInfo(record.value, sources.value);
      if split.Err? {
        TraverseStopsAtError(selection, i + 1, step);
        return Err(split.error);
      }
      entries := entries + [Entry(s.uuid, split.value.1, split.value.0)];
    }
    assert selection[..|selection|] == selection;
    return Ok(entries);
  }
}
