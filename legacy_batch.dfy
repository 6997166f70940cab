/**
 * The batch of the first generation of the tool
 * (ecospheres_migrator/batch.py): one record per transformed catalog
 * record, a success exactly when it carries no error.
 */
module LegacyBatch {
  import opened Wrappers
  import opened Seqs

  /** A transformed record: its result and info once transformed, or the
      error that stopped it. */
  datatype BatchRecord = BatchRecord(
    uuid: string, template: bool, original: string,
    result: Option<string>, info: Option<string>, error: Option<string>)
  {
    /** `success`: no error. */
    predicate Success() {
      error.None?
    }
  }

  predicate IsSuccess(r: BatchRecord) {
    r.Success()
  }

  predicate IsFailure(r: BatchRecord) {
    !r.Success()
  }

  class Batch {
    var records: seq<BatchRecord>

    constructor()
      ensures records == []
    {
      records := [];
    }

    /** `add_success`: append a record with result and info and no error. */
    method AddSuccess(uuid: string, template: bool, original: string, result: string, info: string)
      modifies this
      ensures records == old(records) + [BatchRecord(uuid, template, original, Some(result), Some(info), None)]
      ensures Successes() == old(Successes()) + [records[|records| - 1]]
      ensures Failures() == old(Failures())
    {
      var r := BatchRecord(uuid, template, original, Some(result), Some(info), None);
      FilterAppend(records, [r], IsSuccess);
      FilterAppend(records, [r], IsFailure);
      records := records + [r];
    }

    /** `add_failure`: append a record with the error and no result. */
    method AddFailure(uuid: string, template: bool, original: string, error: string)
      modifies this
      ensures records == old(records) + [BatchRecord(uuid, template, original, None, None, Some(error))]
      ensures Successes() == old(Successes())
      ensures Failures() == old(Failures()) + [records[|records| - 1]]
    {
      var r := BatchRecord(uuid, template, original, None, None, Some(error));
      FilterAppend(records, [r], IsSuccess);
      FilterAppend(records, [r], IsFailure);
      records := records + [r];
    }

    /** `successes`: the records without error, in order. */
    function Successes(): (r: seq<BatchRecord>)
      reads this
      ensures forall x :: x in r <==> x in records && x.error.None?
      ensures forall x {:trigger multiset(r)[x]} :: multiset(r)[x] == if x.error.None? then multiset(records)[x] else 0
      ensures Subsequence(r, records)
    {
      FilterIsSubsequence(records, IsSuccess);
      FilterMultiset(records, IsSuccess);
      Filter(records, IsSuccess)
    }

    /** `failures`: the records with an error, in order. */
    function Failures(): (r: seq<BatchRecord>)
      reads this
      ensures forall x :: x in r <==> x in records && x.error.Some?
      ensures forall x {:trigger multiset(r)[x]} :: multiset(r)[x] == if x.error.Some? then multiset(records)[x] else 0
      ensures Subsequence(r, records)
    {
      FilterIsSubsequence(records, IsFailure);
      FilterMultiset(records, IsFailure);
      Filter(records, IsFailure)
    }
  }

  /** Successes and failures split the records: each record is in exactly
      one of the two, and the two counts add up. */
  lemma {:induction false} SuccessesFailuresPartition(records: seq<BatchRecord>)
    ensures |Filter(records, IsSuccess)| + |Filter(records, IsFailure)| == |records|
    ensures multiset(Filter(records, IsSuccess)) + multiset(Filter(records, IsFailure)) == multiset(records)
    decreases |records|
  {
    if records != [] {
      SuccessesFailuresPartition(records[1..]);
      assert records == [records[0]] + records[1..];
    }
  }
}
