/**
 * ISOmorphe's migrator (isomorphe/migrator.py): select records from a
 * catalog, transform each with an XSLT file into a transform batch, and
 * write the successes back, in place or as new records, into a migrate
 * batch.
 *
 * The catalog is a value of function-valued fields standing for its
 * endpoints, and the XSLT engine a pair of functions: the transformation
 * itself and `xml_to_string`, the text a document is stored and compared as.
 */
module Migrator {
  import opened Wrappers
  import opened Text
  import opened Dicts
  import opened Seqs
  import opened Geonetwork
  import opened GeonetworkSearch
  import opened Batch

  const ALWAYS_APPLY_SUFFIX := "~always"

  /** An XSLT file, known by its stem (its file name without `.xsl`). */
  datatype Transformation = Transformation(stem: string) {
    function Name(): string {
      stem
    }

    /** The stem without the "always apply" suffix. */
    function DisplayName(): (r: string)
      ensures AlwaysApply() ==> r + ALWAYS_APPLY_SUFFIX == stem
      ensures !AlwaysApply() ==> r == stem
    {
      var r := RemoveSuffix(stem, ALWAYS_APPLY_SUFFIX);
      assert AlwaysApply() ==> stem[..|stem| - |ALWAYS_APPLY_SUFFIX|] + stem[|stem| - |ALWAYS_APPLY_SUFFIX|..] == stem;
      r
    }

    /** A transformation whose stem carries the suffix is never skipped for
        leaving a record unchanged. */
    predicate AlwaysApply() {
      EndsWith(stem, ALWAYS_APPLY_SUFFIX)
    }
  }

  /** Adding the suffix to a name makes an "always apply" transformation
      that is displayed under that name. */
  lemma DisplayNameOfSuffixed(name: string)
    ensures Transformation(name + ALWAYS_APPLY_SUFFIX).AlwaysApply()
    ensures Transformation(name + ALWAYS_APPLY_SUFFIX).DisplayName() == name
  {
    var stem := name + ALWAYS_APPLY_SUFFIX;
    assert stem[|stem| - |ALWAYS_APPLY_SUFFIX|..] == ALWAYS_APPLY_SUFFIX;
    assert stem[..|stem| - |ALWAYS_APPLY_SUFFIX|] == name;
  }

  /** A transformation applies always exactly when its displayed name differs
      from its stem. */
  lemma AlwaysApplyIffRenamed(t: Transformation)
    ensures t.AlwaysApply() <==> t.DisplayName() != t.stem
  {
    if t.AlwaysApply() {
      assert |t.DisplayName()| + |ALWAYS_APPLY_SUFFIX| == |t.stem|;
    }
  }

  /** What `get_sources` yields and `extract_record_info` reads. */
  type Sources = map<string, string>

  /** A catalog: its url and API version, its search endpoint (empty from
      position `total` on), its sources, the record fetch and the
      `extract_record_info` rewrite of a fetched record, and the answers to
      writes. */
  datatype Catalog = Catalog(
    url: string,
    version: Version,
    total: nat,
    search: (SearchParams, nat) -> Result<seq<Hit>>,
    sources: Result<Sources>,
    getRecord: string -> Result<Xml>,
    extractRecordInfo: (Xml, Sources) -> Result<Xml>,
    respond: Request -> Option<string>,
    put: Request -> Result<PutResponse>)

  /** The XSLT engine: applying a transformation with its parameters, and
      `xml_to_string`. */
  datatype Engine = Engine(
    apply: (Transformation, Xml, map<string, string>) -> Result<(Xml, TransformLog)>,
    canon: Xml -> Xml)

  // ---------------------------------------------------------------------------
  // select

  const HARVESTED_DEFAULT: Query := [("harvested", Bool(false))]
  const NO_FILTERS := "unsupported operand type(s) for |: 'dict' and 'NoneType'"

  /** `{"harvested": False} | kwargs.get("filters")`: without filters the
      merge raises. */
  function SelectQuery(filters: Option<Query>): (r: Result<Query>)
    ensures r.Err? <==> filters.None?
  {
    match filters
    case None => Err(NO_FILTERS)
    case Some(f) => Ok(Update(HARVESTED_DEFAULT, f))
  }

  /** The merged query holds the caller's filters, and `harvested` is False
      unless the filters set it. */
  lemma SelectQueryOverrides(filters: Query, k: string)
    requires UniqueKeys(filters)
    ensures UniqueKeys(SelectQuery(Some(filters)).value)
    ensures Get(SelectQuery(Some(filters)).value, k) ==
      if Get(filters, k).Some? then Get(filters, k)
      else if k == "harvested" then Some(Bool(false))
      else None
  {
    LastValueOfUniqueKeys(filters, k);
    UpdateUnique(HARVESTED_DEFAULT, filters);
  }

  /** What `select` returns. */
  function Selection(catalog: Catalog, filters: Option<Query>): Result<seq<Record>>
    requires Bounded(catalog.search, catalog.total)
  {
    match SelectQuery(filters)
    case Err(e) => Err(e)
    case Ok(q) => Records(catalog.version, catalog.search, catalog.total, q)
  }

  /** On a version 3 catalog, filters that say nothing about harvesting
      select only records that were not harvested. */
  lemma SelectDefaultNotHarvested(filters: Query)
    requires UniqueKeys(filters)
    requires Get(filters, "harvested").None? && Get(filters, "_isHarvested").None? && Get(filters, EXTRA).None?
    ensures SelectQuery(Some(filters)).Ok?
    ensures var q := SelectQuery(Some(filters)).value;
      ApplyExtra(q) == Ok(q) && Get(SearchParamsOf(V3, q).params, "_isHarvested") == Some(Str("n"))
  {
    var q := SelectQuery(Some(filters)).value;
    SelectQueryOverrides(filters, "harvested");
    SelectQueryOverrides(filters, "_isHarvested");
    SelectQueryOverrides(filters, EXTRA);
    HarvestedV3(q);
  }

  // ---------------------------------------------------------------------------
  // transform

  predicate Supported(mdType: MetadataType) {
    mdType == METADATA || mdType == TEMPLATE
  }

  /** The fields a transform outcome copies from the selected record, with
      the stored document as text. */
  function TransformBaseOf(catalog: Catalog, engine: Engine, rec: Record, stored: Xml): (b: TransformBase)
    ensures b.uuid == rec.uuid && b.mdType == rec.mdType && b.state == rec.state
    ensures b.original == engine.canon(stored) && b.url == catalog.url
  {
    TransformBase(rec.uuid, rec.mdType, rec.state, engine.canon(stored), catalog.url)
  }

  /** The outcome for one fetched record: the first rule that matches wins. */
  function Classify(engine: Engine, t: Transformation, params: map<string, string>, rec: Record, base: TransformBase, stored: Xml): (r: TransformRecord)
    ensures r.base == base
    ensures !Supported(rec.mdType) ==> r == TransformSkipped(base, Some(UNSUPPORTED_METADATA_TYPE), None)
    ensures Supported(rec.mdType) && IsWorkingCopy(rec.state) ==> r == TransformSkipped(base, Some(HAS_WORKING_COPY), None)
    ensures r.TransformFailure? <==>
      Supported(rec.mdType) && !IsWorkingCopy(rec.state) && engine.apply(t, stored, params).Err?
    ensures r.TransformFailure? ==> r.error == engine.apply(t, stored, params).error
    ensures r.TransformSuccess? <==>
      (Supported(rec.mdType) && !IsWorkingCopy(rec.state) && engine.apply(t, stored, params).Ok?
       && (engine.canon(engine.apply(t, stored, params).value.0) != engine.canon(stored) || t.AlwaysApply()))
    ensures r.TransformSuccess? ==>
      r.result == engine.canon(engine.apply(t, stored, params).value.0) && r.log == engine.apply(t, stored, params).value.1
    ensures r.TransformSkipped? && r.reason.None? ==>
      (engine.apply(t, stored, params).Ok? && r.skipLog == Some(engine.apply(t, stored, params).value.1))
    ensures (Supported(rec.mdType) && !IsWorkingCopy(rec.state) && engine.apply(t, stored, params).Ok?
             && engine.canon(engine.apply(t, stored, params).value.0) == engine.canon(stored) && !t.AlwaysApply()) ==>
      r == TransformSkipped(base, None, Some(engine.apply(t, stored, params).value.1))
  {
    if !Supported(rec.mdType) then TransformSkipped(base, Some(UNSUPPORTED_METADATA_TYPE), None)
    else if IsWorkingCopy(rec.state) then TransformSkipped(base, Some(HAS_WORKING_COPY), None)
    else match engine.apply(t, stored, params)
      case Err(e) => TransformFailure(base, e)
      case Ok((result, log)) =>
        if engine.canon(result) != engine.canon(stored) || t.AlwaysApply() then TransformSuccess(base, engine.canon(result), log)
        else TransformSkipped(base, None, Some(log))
  }

  /** An unsupported record or a working copy is skipped before the engine
      runs: its outcome is the same whatever the engine would do. */
  lemma SkipBeforeTransform(e1: Engine, e2: Engine, t: Transformation, params: map<string, string>, rec: Record, base: TransformBase, stored: Xml)
    requires !Supported(rec.mdType) || IsWorkingCopy(rec.state)
    ensures Classify(e1, t, params, rec, base, stored) == Classify(e2, t, params, rec, base, stored)
    ensures Classify(e1, t, params, rec, base, stored).TransformSkipped?
  {
  }

  /** An "always apply" transformation that runs without error always
      succeeds. */
  lemma AlwaysApplySucceeds(engine: Engine, t: Transformation, params: map<string, string>, rec: Record, base: TransformBase, stored: Xml)
    requires t.AlwaysApply() && Supported(rec.mdType) && !IsWorkingCopy(rec.state)
    requires engine.apply(t, stored, params).Ok?
    ensures Classify(engine, t, params, rec, base, stored).TransformSuccess?
  {
  }

  /** One record of the loop: fetch it and rewrite it (either may raise, and
      then the whole transform raises), then classify it. */
  function ProcessRecord(catalog: Catalog, engine: Engine, t: Transformation, params: map<string, string>, sources: Sources, rec: Record): (r: Result<TransformRecord>)
    ensures r.Err? <==>
      catalog.getRecord(rec.uuid).Err? || catalog.extractRecordInfo(catalog.getRecord(rec.uuid).value, sources).Err?
    ensures r.Ok? ==> r.value.base.uuid == rec.uuid && r.value.base.mdType == rec.mdType && r.value.base.state == rec.state
    ensures r.Ok? ==>
      r.value.base.url == catalog.url && r.value.base.original == engine.canon(catalog.extractRecordInfo(catalog.getRecord(rec.uuid).value, sources).value)
    ensures r.Ok? ==>
      r.value == Classify(engine, t, params, rec, r.value.base, catalog.extractRecordInfo(catalog.getRecord(rec.uuid).value, sources).value)
  {
    match catalog.getRecord(rec.uuid)
    case Err(e) => Err(e)
    case Ok(original) =>
      match catalog.extractRecordInfo(original, sources)
      case Err(e) => Err(e)
      case Ok(stored) => Ok(Classify(engine, t, params, rec, TransformBaseOf(catalog, engine, rec, stored), stored))
  }

  function TransformStep(catalog: Catalog, engine: Engine, t: Transformation, params: map<string, string>, sources: Sources): Record -> Result<Option<TransformRecord>> {
    (rec: Record) =>
      match ProcessRecord(catalog, engine, t, params, sources, rec)
      case Err(e) => Err(e)
      case Ok(x) => Ok(Some(x))
  }

  /** What `transform` returns: the error of the sources or of the first
      fetch that fails, or one outcome per selected record. */
  function TransformOutcomes(catalog: Catalog, engine: Engine, t: Transformation, selection: seq<Record>, params: map<string, string>): Result<seq<TransformRecord>> {
    match catalog.sources
    case Err(e) => Err(e)
    case Ok(sources) => Traverse(selection, TransformStep(catalog, engine, t, params, sources))
  }

  /** A transform that completes has exactly one outcome per selected record,
      in selection order, each the classification of that record. */
  lemma TransformOnePerRecord(catalog: Catalog, engine: Engine, t: Transformation, selection: seq<Record>, params: map<string, string>)
    requires TransformOutcomes(catalog, engine, t, selection, params).Ok?
    ensures var outs := TransformOutcomes(catalog, engine, t, selection, params).value;
      |outs| == |selection|
      && forall i :: 0 <= i < |selection| ==>
        ProcessRecord(catalog, engine, t, params, catalog.sources.value, selection[i]).Ok?
        && outs[i] == ProcessRecord(catalog, engine, t, params, catalog.sources.value, selection[i]).value
        && outs[i].base.uuid == selection[i].uuid && outs[i].base.mdType == selection[i].mdType
        && outs[i].base.state == selection[i].state
  {
    var step := TransformStep(catalog, engine, t, params, catalog.sources.value);
    TraverseError(selection, step);
    assert forall i :: 0 <= i < |selection| ==> step(selection[i]).Ok? && step(selection[i]).value.Some?;
    TraverseAll(selection, step);
  }

  /** A record that cannot be fetched or rewritten aborts the transform with
      the error of the first such record; per-record transformation errors
      never do. */
  lemma TransformAbortsOnFetchError(catalog: Catalog, engine: Engine, t: Transformation, selection: seq<Record>, params: map<string, string>)
    requires catalog.sources.Ok?
    ensures TransformOutcomes(catalog, engine, t, selection, params).Err? <==>
      exists i :: 0 <= i < |selection| && ProcessRecord(catalog, engine, t, params, catalog.sources.value, selection[i]).Err?
    ensures TransformOutcomes(catalog, engine, t, selection, params).Err? ==>
      exists i :: 0 <= i < |selection|
        && ProcessRecord(catalog, engine, t, params, catalog.sources.value, selection[i]).Err?
        && TransformOutcomes(catalog, engine, t, selection, params)
           == Err(ProcessRecord(catalog, engine, t, params, catalog.sources.value, selection[i]).error)
        && forall j :: 0 <= j < i ==> ProcessRecord(catalog, engine, t, params, catalog.sources.value, selection[j]).Ok?
  {
    var step := TransformStep(catalog, engine, t, params, catalog.sources.value);
    TraverseError(selection, step);
  }

  // ---------------------------------------------------------------------------
  // migrate

  const GROUP_REQUIRED := "Group must be set when not overwriting"

  /** The fields a migrate outcome copies from a transform success. */
  function MigrateBaseOf(catalog: Catalog, r: TransformRecord): (b: MigrateBase)
    requires r.TransformSuccess?
    ensures b.sourceUuid == r.base.uuid && b.sourceContent == r.base.original && b.targetContent == r.result
    ensures b.mdType == r.base.mdType && b.url == catalog.url
  {
    MigrateBase(r.base.uuid, r.base.original, r.result, r.base.mdType, catalog.url)
  }

  /** The outcome of writing one transform success back: the in-place update
      runs without a workflow state and keeps the record's uuid; a creation
      needs a group and takes the uuid the catalog answers with. */
  function MigrateOne(catalog: Catalog, r: TransformRecord, overwrite: bool, group: Option<int>, updateDateStamp: bool): MigrateRecord
    requires r.TransformSuccess?
  {
    var base := MigrateBaseOf(catalog, r);
    if overwrite then
      match UpdateError(catalog.respond, r.base.uuid, r.result, r.base.mdType, updateDateStamp, None)
      case Some(e) => MigrateFailure(base, e)
      case None => MigrateSuccess(base, Some(r.base.uuid))
    else if group.None? then MigrateFailure(base, GROUP_REQUIRED)
    else match PutOutcome(catalog.put, r.result, r.base.mdType, group)
      case Err(e) => MigrateFailure(base, e)
      case Ok(u) => MigrateSuccess(base, u)
  }

  /** What one write-back records: the fields of the success it comes from;
      in place, success exactly when the update raises nothing, keeping the
      source uuid; as a creation, a failure without a group, and otherwise
      the creation's error or the uuid it answers with. */
  lemma MigrateOneOutcome(catalog: Catalog, r: TransformRecord, overwrite: bool, group: Option<int>, updateDateStamp: bool)
    requires r.TransformSuccess?
    ensures var m := MigrateOne(catalog, r, overwrite, group, updateDateStamp);
      && m.base.sourceUuid == r.base.uuid && m.base.sourceContent == r.base.original
      && m.base.targetContent == r.result && m.base.mdType == r.base.mdType && m.base.url == catalog.url
    ensures var m := MigrateOne(catalog, r, overwrite, group, updateDateStamp);
      overwrite ==>
        (m.MigrateSuccess? <==> UpdateError(catalog.respond, r.base.uuid, r.result, r.base.mdType, updateDateStamp, None).None?)
    ensures var m := MigrateOne(catalog, r, overwrite, group, updateDateStamp);
      overwrite && m.MigrateSuccess? ==> m.targetUuid == Some(r.base.uuid)
    ensures var m := MigrateOne(catalog, r, overwrite, group, updateDateStamp);
      overwrite && m.MigrateFailure? ==>
        Some(m.error) == UpdateError(catalog.respond, r.base.uuid, r.result, r.base.mdType, updateDateStamp, None)
    ensures var m := MigrateOne(catalog, r, overwrite, group, updateDateStamp);
      !overwrite && group.None? ==> m.MigrateFailure? && m.error == GROUP_REQUIRED
    ensures var m := MigrateOne(catalog, r, overwrite, group, updateDateStamp);
      !overwrite && group.Some? ==>
        (m.MigrateSuccess? <==> PutOutcome(catalog.put, r.result, r.base.mdType, group).Ok?)
    ensures var m := MigrateOne(catalog, r, overwrite, group, updateDateStamp);
      !overwrite && m.MigrateSuccess? ==> Ok(m.targetUuid) == PutOutcome(catalog.put, r.result, r.base.mdType, group)
    ensures var m := MigrateOne(catalog, r, overwrite, group, updateDateStamp);
      !overwrite && group.Some? && m.MigrateFailure? ==> Err(m.error) == PutOutcome(catalog.put, r.result, r.base.mdType, group)
  {
  }

  predicate AllSuccesses(rs: seq<TransformRecord>) {
    forall i :: 0 <= i < |rs| ==> rs[i].TransformSuccess?
  }

  /** What `migrate` records: one outcome per selected success, in order. */
  function MigrateAll(catalog: Catalog, selected: seq<TransformRecord>, overwrite: bool, group: Option<int>, updateDateStamp: bool): (ms: seq<MigrateRecord>)
    requires AllSuccesses(selected)
    ensures |ms| == |selected|
    ensures forall i :: 0 <= i < |selected| ==> ms[i] == MigrateOne(catalog, selected[i], overwrite, group, updateDateStamp)
  {
    seq(|selected|, i requires 0 <= i < |selected| => MigrateOne(catalog, selected[i], overwrite, group, updateDateStamp))
  }

  /** Failures are isolated: migrating two runs of records one after the
      other gives the outcomes of each run, unaffected by the other. */
  lemma MigrateIsolated(catalog: Catalog, a: seq<TransformRecord>, b: seq<TransformRecord>, overwrite: bool, group: Option<int>, updateDateStamp: bool)
    requires AllSuccesses(a) && AllSuccesses(b)
    ensures AllSuccesses(a + b)
    ensures MigrateAll(catalog, a + b, overwrite, group, updateDateStamp)
      == MigrateAll(catalog, a, overwrite, group, updateDateStamp) + MigrateAll(catalog, b, overwrite, group, updateDateStamp)
  {
    assert forall i :: 0 <= i < |a + b| ==> (a + b)[i] == if i < |a| then a[i] else b[i - |a|];
    var whole := MigrateAll(catalog, a + b, overwrite, group, updateDateStamp);
    var parts := MigrateAll(catalog, a, overwrite, group, updateDateStamp) + MigrateAll(catalog, b, overwrite, group, updateDateStamp);
    assert |whole| == |parts|;
    forall i | 0 <= i < |whole| ensures whole[i] == parts[i] {
      if i < |a| {
        assert (a + b)[i] == a[i];
      } else {
        assert (a + b)[i] == b[i - |a|];
      }
    }
  }

  /** One more record of the loop of `migrate`. */
  lemma MigrateAllStep(catalog: Catalog, selected: seq<TransformRecord>, i: nat, overwrite: bool, group: Option<int>, updateDateStamp: bool)
    requires AllSuccesses(selected) && i < |selected|
    ensures AllSuccesses(selected[..i]) && AllSuccesses(selected[..i + 1])
    ensures MigrateAll(catalog, selected[..i + 1], overwrite, group, updateDateStamp)
      == MigrateAll(catalog, selected[..i], overwrite, group, updateDateStamp) + [MigrateOne(catalog, selected[i], overwrite, group, updateDateStamp)]
  {
    assert selected[..i + 1] == selected[..i] + [selected[i]];
    MigrateIsolated(catalog, selected[..i], [selected[i]], overwrite, group, updateDateStamp);
  }

  /** The in-place update `migrate` runs never touches the workflow: it sends
      no status and never asks for a re-approval. */
  lemma OverwriteKeepsWorkflow(respond: Request -> Option<string>, uuid: string, metadata: Xml, mdType: MetadataType, updateDateStamp: bool)
    ensures var sent := UpdateRequests(respond, uuid, metadata, mdType, updateDateStamp, None);
      |sent| <= 2 && (|sent| == 2 ==> Get(FormFields(sent[1].form), "status") == None)
    ensures UpdateError(respond, uuid, metadata, mdType, updateDateStamp, None).None? <==>
      respond(EditorView(uuid)).None? && respond(EditorSave(uuid, SavedForm(updateDateStamp, mdType, metadata, None))).None?
  {
    UpdateRequestsShape(respond, uuid, metadata, mdType, updateDateStamp, None);
    UpdateErrorMeaning(respond, uuid, metadata, mdType, updateDateStamp, None);
  }

  class Migrator {
    const catalog: Catalog

    constructor(catalog: Catalog)
      ensures this.catalog == catalog
    {
      this.catalog := catalog;
    }

    /** `select(filters=...)`. */
    method Select(filters: Option<Query>) returns (r: Result<seq<Record>>)
      requires Bounded(catalog.search, catalog.total)
      ensures r == Selection(catalog, filters)
    {
      var query := SelectQuery(filters);
      if query.Err? {
        return Err(query.error);
      }
      r := GetRecords(catalog.version, catalog.search, catalog.total, query.value);
    }

    /** `transform`: fetch the sources, then one outcome per selected record,
        added to a new batch in order. */
    method Transform(engine: Engine, t: Transformation, selection: seq<Record>, params: map<string, string>)
      returns (r: Result<TransformBatch>)
      ensures r.Err? <==> TransformOutcomes(catalog, engine, t, selection, params).Err?
      ensures r.Err? ==> r.error == TransformOutcomes(catalog, engine, t, selection, params).error
      ensures r.Ok? ==> fresh(r.value) && r.value.transformation == t.Name()
      ensures r.Ok? ==> r.value.records == TransformOutcomes(catalog, engine, t, selection, params).value
    {
      var sources := catalog.sources;
      if sources.Err? {
        return Err(sources.error);
      }
      ghost var step := TransformStep(catalog, engine, t, params, sources.value);
      var batch := new TransformBatch(t.Name());
      for i := 0 to |selection|
        invariant fresh(batch) && batch.transformation == t.Name()
        invariant Traverse(selection[..i], step) == Ok(batch.records)
      {
        var rec := selection[i];
        TraverseStep(selection, i, step);
        var original := catalog.getRecord(rec.uuid);
        if original.Err? {
          TraverseStopsAtError(selection, i + 1, step);
          return Err(original.error);
        }
        var stored := catalog.extractRecordInfo(original.value, sources.value);
        if stored.Err? {
          TraverseStopsAtError(selection, i + 1, step);
          return Err(stored.error);
        }
        var base := TransformBase(rec.uuid, rec.mdType, rec.state, engine.canon(stored.value), catalog.url);
        if rec.mdType != METADATA && rec.mdType != TEMPLATE {
          batch.Add(TransformSkipped(base, Some(UNSUPPORTED_METADATA_TYPE), None));
          continue;
        }
        if rec.state.Some? && rec.state.value.stage == WorkflowStage.WORKING_COPY {
          batch.Add(TransformSkipped(base, Some(HAS_WORKING_COPY), None));
          continue;
        }
        var outcome := engine.apply(t, stored.value, params);
        if outcome.Err? {
          batch.Add(TransformFailure(base, outcome.error));
        } else {
          var resultStr := engine.canon(outcome.value.0);
          var originalStr := engine.canon(stored.value);
          if resultStr != originalStr || t.AlwaysApply() {
            batch.Add(TransformSuccess(base, resultStr, outcome.value.1));
          } else {
            batch.Add(TransformSkipped(base, None, Some(outcome.value.1)));
          }
        }
      }
      assert selection[..|selection|] == selection;
      return Ok(batch);
    }

    /** The body of the `try` in `migrate`: write one success back and
        record how it went. */
    method WriteBack(r: TransformRecord, overwrite: bool, group: Option<int>, updateDateStamp: bool) returns (outcome: MigrateRecord)
      requires r.TransformSuccess?
      ensures outcome == MigrateOne(catalog, r, overwrite, group, updateDateStamp)
    {
      var base := MigrateBase(r.base.uuid, r.base.original, r.result, r.base.mdType, catalog.url);
      if overwrite {
        var sent, error := UpdateRecord(catalog.respond, r.base.uuid, r.result, r.base.mdType, updateDateStamp, None);
        if error.Some? {
          outcome := MigrateFailure(base, error.value);
        } else {
          outcome := MigrateSuccess(base, Some(r.base.uuid));
        }
      } else if group.None? {
        outcome := MigrateFailure(base, GROUP_REQUIRED);
      } else {
        var newRecord := PutRecord(catalog.put, r.result, r.base.mdType, group);
        if newRecord.Err? {
          outcome := MigrateFailure(base, newRecord.error);
        } else {
          outcome := MigrateSuccess(base, newRecord.value);
        }
      }
    }

    /** The loop of `migrate`: one outcome per selected success, in order. */
    method WriteAll(m: MigrateBatch, selected: seq<TransformRecord>, overwrite: bool, group: Option<int>, updateDateStamp: bool)
      requires AllSuccesses(selected)
      modifies m
      ensures m.records == old(m.records) + MigrateAll(catalog, selected, overwrite, group, updateDateStamp)
    {
      ghost var before := m.records;
      assert selected[..0] == [];
      for i := 0 to |selected|
        invariant AllSuccesses(selected[..i])
        invariant m.records == before + MigrateAll(catalog, selected[..i], overwrite, group, updateDateStamp)
      {
        ghost var done := MigrateAll(catalog, selected[..i], overwrite, group, updateDateStamp);
        var outcome := WriteBack(selected[i], overwrite, group, updateDateStamp);
        MigrateAllStep(catalog, selected, i, overwrite, group, updateDateStamp);
        m.Add(outcome);
        assert m.records == before + (done + [outcome]);
      }
      assert selected[..|selected|] == selected;
    }

    /** `migrate`: write back the successes `select` keeps for the statuses
        holding SUCCESS, one outcome each, a failure never stopping the rest. */
    method Migrate(
      batch: TransformBatch, statuses: seq<RecordStatus>, keeps: (seq<RecordStatus>, TransformRecord) -> bool,
      overwrite: bool, group: Option<int>, updateDateStamp: bool, transformJobId: Option<string>)
      returns (m: MigrateBatch)
      ensures fresh(m)
      ensures m.mode == (if overwrite then OVERWRITE else CREATE) && m.transformJobId == transformJobId
      ensures AllSuccesses(batch.Select(SuccessStatuses(statuses), keeps))
      ensures m.records == MigrateAll(catalog, batch.Select(SuccessStatuses(statuses), keeps), overwrite, group, updateDateStamp)
    {
      m := new MigrateBatch(if overwrite then OVERWRITE else CREATE, transformJobId);
      var selected := batch.Select(SuccessStatuses(statuses), keeps);
      WriteAll(m, selected, overwrite, group, updateDateStamp);
      assert m.records == [] + MigrateAll(catalog, selected, overwrite, group, updateDateStamp);
    }
  }
}
