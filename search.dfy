/**
 * Record search in ISOmorphe's GeoNetwork client (isomorphe/geonetwork.py):
 * the `__extra__` overrides, the search parameters of the version 3 and
 * version 4 APIs, the uuid filters, and the pagination loop of `get_records`.
 *
 * The catalog's search endpoint is a function `search(params, from)` giving
 * a page of hits or an error.
 */
module GeonetworkSearch {
  import opened Wrappers
  import opened Text
  import opened Dicts
  import opened Seqs
  import opened Geonetwork

  /** The values a query holds: Python booleans (the `harvested` flag) and strings. */
  datatype Value = Bool(b: bool) | Str(s: string) {
    predicate Truthy() {
      match this
      case Bool(b) => b
      case Str(s) => s != []
    }

    /** `str(v)`, as an f-string renders it. */
    function Render(): string {
      match this
      case Bool(b) => if b then "True" else "False"
      case Str(s) => s
    }
  }

  type Query = Dict<Value>

  datatype Version = V3 | V4

  const EXTRA := "__extra__"

  /** One `k=v` piece of `__extra__`: exactly one `=`, both sides stripped. */
  function ParsePiece(piece: string): (r: Result<(string, string)>)
    ensures r.Ok? <==> Count(piece, '=') == 1
    ensures r.Ok? ==> Trimmed(r.value.0) && Trimmed(r.value.1)
  {
    var kv := Split(piece, '=');
    if |kv| < 2 then Err("not enough values to unpack (expected 2, got 1)")
    else if |kv| > 2 then Err("too many values to unpack (expected 2)")
    else Ok((Strip(kv[0]), Strip(kv[1])))
  }

  /** A piece that parses gives the text before its `=` and the text after
      it, each stripped of the whitespace around it. */
  lemma ParsePieceSides(piece: string)
    requires ParsePiece(piece).Ok?
    ensures exists i ::
      0 <= i < |piece| && piece[i] == '=' && ParsePiece(piece).value == (Strip(piece[..i]), Strip(piece[i + 1..]))
  {
    var kv := Split(piece, '=');
    assert kv[1..] == [kv[1]];
    assert Join(kv, "=") == kv[0] + "=" + Join(kv[1..], "=");
    assert piece == kv[0] + "=" + kv[1];
    var i := |kv[0]|;
    assert piece[..i] == kv[0] && piece[i] == '=' && piece[i + 1..] == kv[1];
  }

  /** `[p.split("=") for p in extra.split(",")]`, unpacked into stripped pairs. */
  function ParsePieces(pieces: seq<string>): (r: Result<seq<(string, string)>>)
    ensures r.Ok? <==> forall i :: 0 <= i < |pieces| ==> ParsePiece(pieces[i]).Ok?
    ensures r.Ok? ==> |r.value| == |pieces|
    ensures r.Ok? ==> forall i :: 0 <= i < |pieces| ==> r.value[i] == ParsePiece(pieces[i]).value
  {
    MapAll(pieces, ParsePiece)
  }

  function ParseExtra(extra: string): Result<seq<(string, string)>> {
    ParsePieces(Split(extra, ','))
  }

  /** The `k=v,k=v` text that `ParseExtra` reads. */
  function RenderExtra(pairs: seq<(string, string)>): string {
    Join(RenderPieces(pairs), ",")
  }

  function RenderPieces(pairs: seq<(string, string)>): (r: seq<string>)
    ensures |r| == |pairs|
    ensures forall i :: 0 <= i < |pairs| ==> r[i] == pairs[i].0 + "=" + pairs[i].1
  {
    seq(|pairs|, i requires 0 <= i < |pairs| => pairs[i].0 + "=" + pairs[i].1)
  }

  /** A key or value `ParseExtra` reads back unchanged. */
  predicate PlainText(s: string) {
    Trimmed(s) && ',' !in s && '=' !in s
  }

  lemma ParsePieceOfRendered(k: string, v: string)
    requires PlainText(k) && PlainText(v)
    ensures ParsePiece(k + "=" + v) == Ok((k, v))
  {
    SplitAfterFirstSeparator(k, v, '=');
    SplitWithoutSeparator(v, '=');
    assert Split(k + "=" + v, '=') == [k, v];
  }

  /** `__extra__` round trip: pairs of plain text written as `k=v,...` are
      read back as the same pairs, in order. */
  lemma ParseExtraOfRender(pairs: seq<(string, string)>)
    requires pairs != []
    requires forall i :: 0 <= i < |pairs| ==> PlainText(pairs[i].0) && PlainText(pairs[i].1)
    ensures ParseExtra(RenderExtra(pairs)) == Ok(pairs)
  {
    var pieces := RenderPieces(pairs);
    forall i | 0 <= i < |pieces| ensures ',' !in pieces[i] {
      assert pieces[i] == pairs[i].0 + "=" + pairs[i].1;
    }
    SplitOfJoin(pieces, ',');
    forall i | 0 <= i < |pieces| ensures ParsePiece(pieces[i]) == Ok(pairs[i]) {
      ParsePieceOfRendered(pairs[i].0, pairs[i].1);
    }
    var r := ParsePieces(pieces);
    assert r.value == pairs;
  }

  function AsValues(pairs: seq<(string, string)>): (r: seq<(string, Value)>)
    ensures |r| == |pairs|
    ensures forall i :: 0 <= i < |pairs| ==> r[i] == (pairs[i].0, Str(pairs[i].1))
  {
    seq(|pairs|, i requires 0 <= i < |pairs| => (pairs[i].0, Str(pairs[i].1)))
  }

  /** The `__extra__` step of `get_records`: a non-empty query loses its
      `__extra__` key, and a truthy `__extra__` text is parsed and merged
      over the query. A boolean `__extra__` has no `split` and raises. */
  function ApplyExtra(query: Query): (r: Result<Query>)
    ensures Get(query, EXTRA).None? ==> r == Ok(query)
    ensures query != [] && Get(query, EXTRA).Some? && !Get(query, EXTRA).value.Truthy() ==> r == Ok(Remove(query, EXTRA))
    ensures r.Err? <==>
      (query != [] && Get(query, EXTRA).Some? && Get(query, EXTRA).value.Truthy()
       && (Get(query, EXTRA).value.Bool? || ParseExtra(Get(query, EXTRA).value.s).Err?))
  {
    if query == [] then Ok(query)
    else match Get(query, EXTRA)
      case None => Ok(query)
      case Some(extra) =>
        var rest := Remove(query, EXTRA);
        if !extra.Truthy() then Ok(rest)
        else if extra.Bool? then Err("'bool' object has no attribute 'split'")
        else match ParseExtra(extra.s)
          case Err(e) => Err(e)
          case Ok(pairs) => Ok(Update(rest, AsValues(pairs)))
  }

  /** A non-empty `__extra__` text is merged exactly when it parses; its
      pairs then override the query's own values, and every other key keeps
      its value; `__extra__` itself is gone unless the text sets it again. */
  lemma ExtraOverrides(query: Query, extra: string, k: string)
    requires query != [] && Get(query, EXTRA) == Some(Str(extra)) && extra != []
    ensures ApplyExtra(query).Ok? <==> ParseExtra(extra).Ok?
    ensures ParseExtra(extra).Ok? ==>
      var last := LastValue(AsValues(ParseExtra(extra).value), k);
      Get(ApplyExtra(query).value, k) == if last.Some? then last else if k == EXTRA then None else Get(query, k)
  {
    if ParseExtra(extra).Ok? {
      var rest := Remove(query, EXTRA);
      var pairs := ParseExtra(extra).value;
      assert ApplyExtra(query) == Ok(Update(rest, AsValues(pairs)));
    }
  }

  // ---------------------------------------------------------------------------
  // Search parameters

  /** `QUERY_MAPPINGS`: the catalog field an abstract query key stands for. */
  function KeyOf(version: Version, k: string): string {
    match version
    case V3 =>
      if k == "group" then "_groupOwner"
      else if k == "harvested" then "_isHarvested"
      else if k == "source" then "_source"
      else if k == "template" then "_isTemplate"
      else if k == "uuid" then "_uuid"
      else k
    case V4 =>
      if k == "group" then "groupOwner"
      else if k == "harvested" then "isHarvested"
      else if k == "source" then "sourceCatalogue"
      else if k == "template" then "isTemplate"
      else if k == "type" then "resourceType"
      else k
  }

  /** The value sent for a query value: only `harvested` is translated,
      to "y"/"n" by truthiness for version 3, to lower-case `str(v)` for version 4. */
  function ValueOf(version: Version, k: string, v: Value): (r: Value)
    ensures k != "harvested" ==> r == v
    ensures version == V3 && k == "harvested" ==> r == Str(if v.Truthy() then "y" else "n")
    ensures version == V4 && k == "harvested" ==> r == Str(Lower(v.Render()))
  {
    if k != "harvested" then v
    else match version
      case V3 => Str(if v.Truthy() then "y" else "n")
      case V4 => Str(Lower(v.Render()))
  }

  predicate IsMappedKey(version: Version, k: string) {
    k in (match version
      case V3 => {"group", "harvested", "source", "template", "uuid"}
      case V4 => {"group", "harvested", "source", "template", "type"})
  }

  /** `m(v) if (m := QUERY_MAPPINGS.get(k)) else (k, v)` over the query, in order. */
  function MapQuery(version: Version, q: Query): (r: seq<(string, Value)>)
    ensures |r| == |q|
    ensures forall i :: 0 <= i < |q| ==> r[i] == (KeyOf(version, q[i].0), ValueOf(version, q[i].0, q[i].1))
  {
    seq(|q|, i requires 0 <= i < |q| => (KeyOf(version, q[i].0), ValueOf(version, q[i].0, q[i].1)))
  }

  /** The version 3 base parameters. */
  function BaseParamsV3(): Query {
    [("_content_type", Str("json")), ("buildSummary", Str("false")), ("fast", Str("index")),
     ("sortBy", Str("changeDate")), ("sortOrder", Str("reverse"))]
  }

  /** The parameters of a search, per version. A version 4 search sorts on
      one field in one direction (oldest change first, where version 3 asks
      for the reverse order), and its query becomes a single query string. */
  datatype SearchParams =
    | V3Params(params: Query)
    | V4Params(size: nat, sortField: string, sortOrder: string, sourceFields: seq<string>, queryString: Option<string>)

  const V4_SOURCE_FIELDS: seq<string> := ["uuid", "resourceTitleObject.default", "resourceType", "draft", "isTemplate", "mdStatus"]

  /** `" ".join(f"+{k}:{v}" for k, v in mapped.items())`. */
  function QueryString(mapped: Query): string {
    Join(seq(|mapped|, i requires 0 <= i < |mapped| => "+" + mapped[i].0 + ":" + mapped[i].1.Render()), " ")
  }

  /** `_search_params`. */
  function SearchParamsOf(version: Version, q: Query): SearchParams {
    match version
    case V3 => V3Params(if q == [] then BaseParamsV3() else Update(BaseParamsV3(), MapQuery(V3, q)))
    case V4 => V4Params(20, "changeDate", "asc", V4_SOURCE_FIELDS, if q == [] then None else Some(QueryString(FromPairs(MapQuery(V4, q)))))
  }

  /** What the mapped pairs say about the field `k` stands for, when no other
      query key stands for the same field. */
  lemma {:induction false} MappedLookup(version: Version, q: Query, k: string)
    requires UniqueKeys(q)
    requires forall i :: 0 <= i < |q| && q[i].0 != k ==> KeyOf(version, q[i].0) != KeyOf(version, k)
    ensures LastValue(MapQuery(version, q), KeyOf(version, k)) ==
      (if Get(q, k).Some? then Some(ValueOf(version, k, Get(q, k).value)) else None)
    decreases |q|
  {
    if q != [] {
      var m := MapQuery(version, q);
      assert m[1..] == MapQuery(version, q[1..]);
      assert UniqueKeys(q[1..]) by {
        forall i, j | 0 <= i < j < |q[1..]| ensures q[1..][i].0 != q[1..][j].0 {
          assert q[1..][i] == q[i + 1] && q[1..][j] == q[j + 1];
        }
      }
      forall i | 0 <= i < |q[1..]| && q[1..][i].0 != k ensures KeyOf(version, q[1..][i].0) != KeyOf(version, k) {
        assert q[1..][i] == q[i + 1];
      }
      MappedLookup(version, q[1..], k);
      if q[0].0 == k {
        forall i | 0 <= i < |q[1..]| ensures q[1..][i].0 != k {
          assert q[1..][i] == q[i + 1];
        }
        assert Get(q[1..], k) == None;
      }
    }
  }

  /** Version 3: a `harvested` flag becomes `_isHarvested` = "y"/"n" by its
      truthiness, unless the query also names `_isHarvested` itself. */
  lemma HarvestedV3(q: Query)
    requires UniqueKeys(q) && Get(q, "harvested").Some? && Get(q, "_isHarvested").None?
    ensures SearchParamsOf(V3, q).params == Update(BaseParamsV3(), MapQuery(V3, q))
    ensures Get(SearchParamsOf(V3, q).params, "_isHarvested") == Some(Str(if Get(q, "harvested").value.Truthy() then "y" else "n"))
  {
    forall i | 0 <= i < |q| && q[i].0 != "harvested" ensures KeyOf(V3, q[i].0) != "_isHarvested" { }
    MappedLookup(V3, q, "harvested");
  }

  /** Version 3: a query key outside `QUERY_MAPPINGS`, that no mapped key
      stands for and that is not a base parameter, is passed through as it is. */
  lemma PassThroughV3(q: Query, k: string)
    requires UniqueKeys(q) && q != []
    requires !IsMappedKey(V3, k) && k !in {"_groupOwner", "_isHarvested", "_source", "_isTemplate", "_uuid"}
    requires Get(BaseParamsV3(), k).None?
    ensures Get(SearchParamsOf(V3, q).params, k) == Get(q, k)
  {
    assert KeyOf(V3, k) == k;
    forall i | 0 <= i < |q| && q[i].0 != k ensures KeyOf(V3, q[i].0) != KeyOf(V3, k) { }
    MappedLookup(V3, q, k);
    var ps := MapQuery(V3, q);
    var base := BaseParamsV3();
    assert SearchParamsOf(V3, q).params == Update(base, ps);
    assert Get(Update(base, ps), k) == if LastValue(ps, k).Some? then LastValue(ps, k) else Get(base, k);
    if Get(q, k).Some? {
      assert ValueOf(V3, k, Get(q, k).value) == Get(q, k).value;
    }
  }

  /** Version 4: `harvested` becomes `isHarvested` with `str(v).lower()`. */
  lemma HarvestedV4(q: Query)
    requires UniqueKeys(q) && Get(q, "harvested").Some? && Get(q, "isHarvested").None?
    ensures Get(FromPairs(MapQuery(V4, q)), "isHarvested") == Some(Str(Lower(Get(q, "harvested").value.Render())))
  {
    forall i | 0 <= i < |q| && q[i].0 != "harvested" ensures KeyOf(V4, q[i].0) != "isHarvested" { }
    MappedLookup(V4, q, "harvested");
  }

  /** `uuid_filter`: version 3 joins the uuids with " or "; version 4 sends
      a bracketed list of quoted uuids. */
  function UuidFilter(version: Version, uuids: seq<string>): (r: Dict<string>)
    ensures |r| == 1
    ensures r[0].0 == (if version == V3 then "_uuid" else "uuid")
  {
    match version
    case V3 => [("_uuid", Join(uuids, " or "))]
    case V4 => [("uuid", "[" + Join(seq(|uuids|, i requires 0 <= i < |uuids| => "\"" + uuids[i] + "\""), ",") + "]")]
  }

  /** The words of `" or ".join(uuids)`: the uuids with "or" between them. */
  function OrWords(uuids: seq<string>): seq<string>
    requires uuids != []
    decreases |uuids|
  {
    if |uuids| == 1 then uuids else [uuids[0], "or"] + OrWords(uuids[1..])
  }

  /** Version 3 uuid filter round trip: splitting the `_uuid` text on spaces
      gives back the uuids, with "or" between each two. */
  lemma {:induction false} UuidFilterV3Words(uuids: seq<string>)
    requires uuids != []
    requires forall i :: 0 <= i < |uuids| ==> IsUuid(uuids[i])
    ensures Split(UuidFilter(V3, uuids)[0].1, ' ') == OrWords(uuids)
    decreases |uuids|
  {
    assert IsUuid(uuids[0]);
    assert forall j :: 0 <= j < |uuids[0]| ==> uuids[0][j] != ' ';
    if |uuids| == 1 {
      SplitWithoutSeparator(uuids[0], ' ');
    } else {
      UuidFilterV3Words(uuids[1..]);
      var rest := Join(uuids[1..], " or ");
      assert uuids[0] + " or " + rest == uuids[0] + [' '] + ("or" + [' '] + rest);
      SplitAfterFirstSeparator(uuids[0], "or" + [' '] + rest, ' ');
      SplitAfterFirstSeparator("or", rest, ' ');
    }
  }

  // ---------------------------------------------------------------------------
  // get_records: the pagination loop

  /** The message of the `RuntimeError` a hit that cannot be read raises,
      without the text of the hit that follows it. */
  const PROCESS_ERROR := "Failed to process record"

  /** One hit of a page: `_as_record`, with its exception re-raised as a
      `RuntimeError`. */
  function PageRecord(hit: Hit): (r: Result<Option<Record>>)
    ensures r.Err? <==> AsRecord(hit).Err?
    ensures r.Err? ==> r.error == PROCESS_ERROR
    ensures r.Ok? ==> r == AsRecord(hit)
  {
    match AsRecord(hit)
    case Err(_) => Err(PROCESS_ERROR)
    case Ok(o) => Ok(o)
  }

  /** The catalog answers every request from `total` on with an empty page:
      the results are finite. */
  ghost predicate Bounded(search: (SearchParams, nat) -> Result<seq<Hit>>, total: nat) {
    forall p, n :: total <= n ==> search(p, n) == Ok([])
  }

  /** The records of all pages from `from` on, stopping at the first empty
      page or the first error. */
  function Collect(search: (SearchParams, nat) -> Result<seq<Hit>>, params: SearchParams, total: nat, from: nat): Result<seq<Record>>
    requires Bounded(search, total)
    decreases if from <= total then total - from + 1 else 0
  {
    match search(params, from)
    case Err(e) => Err(e)
    case Ok(hits) =>
      if hits == [] then Ok([])
      else match Traverse(hits, PageRecord)
        case Err(e) => Err(e)
        case Ok(recs) => Prepend(recs, Collect(search, params, total, from + |hits|))
  }

  /** What `get_records` returns. */
  function Records(version: Version, search: (SearchParams, nat) -> Result<seq<Hit>>, total: nat, query: Query): Result<seq<Record>>
    requires Bounded(search, total)
  {
    match ApplyExtra(query)
    case Err(e) => Err(e)
    case Ok(q) => Collect(search, SearchParamsOf(version, q), total, 0)
  }

  /** The inner loop of `get_records` over one page of hits: hits without
      uuid are skipped, the first hit that cannot be read raises. */
  method RecordsOfHits(hits: seq<Hit>) returns (r: Result<seq<Record>>)
    ensures r == Traverse(hits, PageRecord)
  {
    var recs: seq<Record> := [];
    for j := 0 to |hits|
      invariant Traverse(hits[..j], PageRecord) == Ok(recs)
    {
      TraverseStep(hits, j, PageRecord);
      var rec := AsRecord(hits[j]);
      if rec.Err? {
        TraverseStopsAtError(hits, j + 1, PageRecord);
        return Err(PROCESS_ERROR);
      }
      if rec.value.Some? {
        recs := recs + [rec.value.value];
      } else {
        assert recs + [] == recs;
      }
    }
    assert hits[..|hits|] == hits;
    return Ok(recs);
  }

  /** `get_records`: parse the query, then page through the search. */
  method GetRecords(version: Version, search: (SearchParams, nat) -> Result<seq<Hit>>, total: nat, query: Query)
    returns (r: Result<seq<Record>>)
    requires Bounded(search, total)
    ensures r == Records(version, search, total, query)
  {
    var extra := ApplyExtra(query);
    if extra.Err? {
      return Err(extra.error);
    }
    var params := SearchParamsOf(version, extra.value);
    r := CollectPages(search, params, total);
  }

  /** The pagination loop of `get_records`: from position 0, advance by the
      page length, keeping the records of hits that have a uuid, until a
      page comes back empty. */
  method CollectPages(search: (SearchParams, nat) -> Result<seq<Hit>>, params: SearchParams, total: nat)
    returns (r: Result<seq<Record>>)
    requires Bounded(search, total)
    ensures r == Collect(search, params, total, 0)
  {
    var records: seq<Record> := [];
    var fromPos: nat := 0;
    PrependNothing(Collect(search, params, total, 0));
    while true
      invariant Collect(search, params, total, 0) == Prepend(records, Collect(search, params, total, fromPos))
      decreases if fromPos <= total then total - fromPos + 1 else 0
    {
      var page := search(params, fromPos);
      if page.Err? {
        return Err(page.error);
      }
      var hits := page.value;
      if hits == [] {
        assert records + [] == records;
        break;
      }
      var recs := RecordsOfHits(hits);
      if recs.Err? {
        return Err(recs.error);
      }
      PrependPrepend(records, recs.value, Collect(search, params, total, fromPos + |hits|));
      records := records + recs.value;
      fromPos := fromPos + |hits|;
    }
    return Ok(records);
  }

  predicate HasUuid(hit: Hit) {
    hit.uuid.Some?
  }

  /** A page that raises nothing gives one record per hit with a uuid, in
      the order of the hits. */
  lemma {:induction false} PageRecordsOfHits(hits: seq<Hit>)
    requires Traverse(hits, PageRecord).Ok?
    ensures |Traverse(hits, PageRecord).value| == |Filter(hits, HasUuid)|
    ensures forall i :: 0 <= i < |Filter(hits, HasUuid)| ==>
      Traverse(hits, PageRecord).value[i].uuid == Filter(hits, HasUuid)[i].uuid.value
    decreases |hits|
  {
    if hits != [] {
      var init := hits[..|hits| - 1];
      var last := hits[|hits| - 1];
      PageRecordsOfHits(init);
      assert hits == init + [last];
      FilterAppend(init, [last], HasUuid);
      assert Filter([last], HasUuid) == (if HasUuid(last) then [last] else []) + Filter([], HasUuid);
      var before := Traverse(init, PageRecord).value;
      var kept := Filter(init, HasUuid);
      var o := PageRecord(last).value;
      assert o.Some? <==> HasUuid(last);
      assert Traverse(hits, PageRecord).value == before + if o.Some? then [o.value] else [];
      if HasUuid(last) {
        assert Filter(hits, HasUuid) == kept + [last];
        assert o.value.uuid == last.uuid.value;
      } else {
        assert Filter(hits, HasUuid) == kept + [];
      }
    }
  }

  /** Every record `get_records` returns has a state a search hit can give. */
  lemma {:induction false} CollectDerivable(search: (SearchParams, nat) -> Result<seq<Hit>>, params: SearchParams, total: nat, from: nat)
    requires Bounded(search, total)
    requires Collect(search, params, total, from).Ok?
    ensures forall r :: r in Collect(search, params, total, from).value && r.state.Some? ==> Derivable(r.state.value)
    decreases if from <= total then total - from + 1 else 0
  {
    var page := search(params, from);
    if page.value != [] {
      var hits := page.value;
      TraverseDerivable(hits);
      CollectDerivable(search, params, total, from + |hits|);
    }
  }

  lemma {:induction false} TraverseDerivable(hits: seq<Hit>)
    requires Traverse(hits, PageRecord).Ok?
    ensures forall r :: r in Traverse(hits, PageRecord).value && r.state.Some? ==> Derivable(r.state.value)
    decreases |hits|
  {
    if hits != [] {
      TraverseDerivable(hits[..|hits| - 1]);
    }
  }
}
