/**
 * The batches a transformation and a migration fill: one outcome record per
 * catalog record, appended in order, and read back by variant.
 */
module Batch {
  import opened Wrappers
  import opened Seqs
  import opened Geonetwork

  /** The messages the XSLT engine logged while transforming one record. */
  datatype TransformLog = TransformLog(messages: seq<string>)

  /** Why a record was left untouched, with its fixed integer code and the
      message shown for it. */
  datatype SkipReason = NO_CHANGES | UNSUPPORTED_METADATA_TYPE | HAS_WORKING_COPY {
    function Code(): (r: nat)
      ensures 1 <= r <= 3
      ensures SkipReasonOf(r) == Some(this)
    {
      match this
      case NO_CHANGES => 1
      case UNSUPPORTED_METADATA_TYPE => 2
      case HAS_WORKING_COPY => 3
    }

    /** The `SkipReasonMessage` member of the same name. */
    function Message(): string {
      match this
      case NO_CHANGES => "Pas de modification lors de la transformation."
      case UNSUPPORTED_METADATA_TYPE => "Type d'enregistrement non supporté."
      case HAS_WORKING_COPY => "L'enregistrement a une copie de travail (working copy)."
    }
  }

  /** `SkipReason(code)`: only the three codes name a reason. */
  function SkipReasonOf(code: int): (r: Option<SkipReason>)
    ensures r.Some? <==> 1 <= code <= 3
  {
    if code == 1 then Some(NO_CHANGES)
    else if code == 2 then Some(UNSUPPORTED_METADATA_TYPE)
    else if code == 3 then Some(HAS_WORKING_COPY)
    else None
  }

  /** Each reason has a message of its own. */
  lemma MessagesDistinct(a: SkipReason, b: SkipReason)
    ensures a.Message() == b.Message() <==> a == b
  {
  }

  // ---------------------------------------------------------------------------
  // Transform batches

  /** The fields every transform outcome carries: the record as selected and
      its stored XML (after `extract_record_info`), as text. */
  datatype TransformBase = TransformBase(uuid: string, mdType: MetadataType, state: Option<WorkflowState>, original: Xml, url: string)

  /** The outcome of transforming one record. A record skipped because the
      transformation changed nothing carries its log and no reason. */
  datatype TransformRecord =
    | TransformSuccess(base: TransformBase, result: Xml, log: TransformLog)
    | TransformFailure(base: TransformBase, error: string)
    | TransformSkipped(base: TransformBase, reason: Option<SkipReason>, skipLog: Option<TransformLog>)

  predicate IsTransformSuccess(r: TransformRecord) {
    r.TransformSuccess?
  }

  predicate IsTransformFailure(r: TransformRecord) {
    r.TransformFailure?
  }

  predicate IsTransformSkipped(r: TransformRecord) {
    r.TransformSkipped?
  }

  /** A flag of a record status; the engine only ever asks for SUCCESS. */
  datatype StatusFlag = SUCCESS | OtherFlag(name: string)

  /** A record status is a set of flags, tested with `in`. */
  type RecordStatus = set<StatusFlag>

  /** `[s for s in statuses if RecordStatus.SUCCESS in s]`. */
  function SuccessStatuses(statuses: seq<RecordStatus>): (r: seq<RecordStatus>)
    ensures forall s :: s in r <==> s in statuses && SUCCESS in s
    ensures forall s {:trigger multiset(r)[s]} :: multiset(r)[s] == if SUCCESS in s then multiset(statuses)[s] else 0
    ensures Subsequence(r, statuses)
  {
    FilterIsSubsequence(statuses, HasSuccessFlag);
    FilterMultiset(statuses, HasSuccessFlag);
    Filter(statuses, HasSuccessFlag)
  }

  predicate HasSuccessFlag(s: RecordStatus) {
    SUCCESS in s
  }

  class TransformBatch {
    var records: seq<TransformRecord>
    const transformation: string

    constructor(transformation: string)
      ensures records == [] && this.transformation == transformation
    {
      records := [];
      this.transformation := transformation;
    }

    /** `add`: append at the end, nothing else changes. */
    method Add(r: TransformRecord)
      modifies this
      ensures records == old(records) + [r]
      ensures Successes() == old(Successes()) + (if r.TransformSuccess? then [r] else [])
    {
      FilterAppend(records, [r], IsTransformSuccess);
      records := records + [r];
    }

    /** The success records, in the order they were added. */
    function Successes(): (r: seq<TransformRecord>)
      reads this
      ensures forall x :: x in r <==> x in records && x.TransformSuccess?
      ensures forall x {:trigger multiset(r)[x]} :: multiset(r)[x] == if x.TransformSuccess? then multiset(records)[x] else 0
      ensures Subsequence(r, records)
    {
      FilterIsSubsequence(records, IsTransformSuccess);
      FilterMultiset(records, IsTransformSuccess);
      Filter(records, IsTransformSuccess)
    }

    function Failures(): (r: seq<TransformRecord>)
      reads this
      ensures forall x :: x in r <==> x in records && x.TransformFailure?
      ensures forall x {:trigger multiset(r)[x]} :: multiset(r)[x] == if x.TransformFailure? then multiset(records)[x] else 0
      ensures Subsequence(r, records)
    {
      FilterIsSubsequence(records, IsTransformFailure);
      FilterMultiset(records, IsTransformFailure);
      Filter(records, IsTransformFailure)
    }

    function Skipped(): (r: seq<TransformRecord>)
      reads this
      ensures forall x :: x in r <==> x in records && x.TransformSkipped?
      ensures forall x {:trigger multiset(r)[x]} :: multiset(r)[x] == if x.TransformSkipped? then multiset(records)[x] else 0
      ensures Subsequence(r, records)
    {
      FilterIsSubsequence(records, IsTransformSkipped);
      FilterMultiset(records, IsTransformSkipped);
      Filter(records, IsTransformSkipped)
    }

    /** `select(statuses=...)`: which success records a set of statuses keeps
        is decided by `keeps`; the selection is always a sub-sequence of the
        success records, in batch order. */
    function Select(statuses: seq<RecordStatus>, keeps: (seq<RecordStatus>, TransformRecord) -> bool): (r: seq<TransformRecord>)
      reads this
      ensures forall i :: 0 <= i < |r| ==> r[i].TransformSuccess? && r[i] in records
      ensures Subsequence(r, Successes())
      ensures Subsequence(r, records)
    {
      var p := (x: TransformRecord) => keeps(statuses, x);
      FilterIsSubsequence(Successes(), p);
      SubsequenceTransitive(Filter(Successes(), p), Successes(), records);
      Filter(Successes(), p)
    }
  }

  /** The three variants split a batch: every record is in exactly one of the
      three filters. */
  lemma {:induction false} TransformCounts(records: seq<TransformRecord>)
    ensures |Filter(records, IsTransformSuccess)| + |Filter(records, IsTransformFailure)| + |Filter(records, IsTransformSkipped)| == |records|
    decreases |records|
  {
    if records != [] {
      TransformCounts(records[1..]);
    }
  }

  // ---------------------------------------------------------------------------
  // Migrate batches

  /** The fields every migration outcome carries. */
  datatype MigrateBase = MigrateBase(sourceUuid: string, sourceContent: Xml, targetContent: Xml, mdType: MetadataType, url: string)

  /** The outcome of writing one record back. The uuid of a created record
      is what the catalog's answer yields, possibly nothing. */
  datatype MigrateRecord =
    | MigrateSuccess(base: MigrateBase, targetUuid: Option<string>)
    | MigrateFailure(base: MigrateBase, error: string)

  predicate IsMigrateSuccess(r: MigrateRecord) {
    r.MigrateSuccess?
  }

  predicate IsMigrateFailure(r: MigrateRecord) {
    r.MigrateFailure?
  }

  datatype MigrateMode = CREATE | OVERWRITE {
    function Value(): (r: string)
      ensures MigrateModeOf(r) == Some(this)
    {
      match this
      case CREATE => "create"
      case OVERWRITE => "overwrite"
    }
  }

  /** `MigrateMode(value)`. */
  function MigrateModeOf(value: string): (r: Option<MigrateMode>)
    ensures r.Some? <==> value == "create" || value == "overwrite"
  {
    if value == "create" then Some(CREATE) else if value == "overwrite" then Some(OVERWRITE) else None
  }

  class MigrateBatch {
    var records: seq<MigrateRecord>
    const mode: MigrateMode
    const transformJobId: Option<string>

    constructor(mode: MigrateMode, transformJobId: Option<string>)
      ensures records == [] && this.mode == mode && this.transformJobId == transformJobId
    {
      records := [];
      this.mode := mode;
      this.transformJobId := transformJobId;
    }

    /** `add`: append at the end, nothing else changes. */
    method Add(r: MigrateRecord)
      modifies this
      ensures records == old(records) + [r]
    {
      records := records + [r];
    }

    function Successes(): (r: seq<MigrateRecord>)
      reads this
      ensures forall x :: x in r <==> x in records && x.MigrateSuccess?
      ensures forall x {:trigger multiset(r)[x]} :: multiset(r)[x] == if x.MigrateSuccess? then multiset(records)[x] else 0
      ensures Subsequence(r, records)
    {
      FilterIsSubsequence(records, IsMigrateSuccess);
      FilterMultiset(records, IsMigrateSuccess);
      Filter(records, IsMigrateSuccess)
    }

    function Failures(): (r: seq<MigrateRecord>)
      reads this
      ensures forall x :: x in r <==> x in records && x.MigrateFailure?
      ensures forall x {:trigger multiset(r)[x]} :: multiset(r)[x] == if x.MigrateFailure? then multiset(records)[x] else 0
      ensures Subsequence(r, records)
    {
      FilterIsSubsequence(records, IsMigrateFailure);
      FilterMultiset(records, IsMigrateFailure);
      Filter(records, IsMigrateFailure)
    }
  }

  /** Successes and failures split a migrate batch. */
  lemma {:induction false} MigrateCounts(records: seq<MigrateRecord>)
    ensures |Filter(records, IsMigrateSuccess)| + |Filter(records, IsMigrateFailure)| == |records|
    decreases |records|
  {
    if records != [] {
      MigrateCounts(records[1..]);
    }
  }
}
