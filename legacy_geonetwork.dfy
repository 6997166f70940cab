/**
 * The GeoNetwork client of the first generation of the tool
 * (ecospheres_migrator/geonetwork.py): the records a search yields, the
 * `@to` pagination loop, the uuid read back from a record creation, and the
 * requests `update_record` and `put_record` send.
 *
 * It shares the workflow types and the search-hit reading of the later
 * client (module Geonetwork), which kept them unchanged.
 */
module LegacyGeonetwork {
  import opened Wrappers
  import opened Text
  import opened Dicts
  import opened Seqs
  import Geonetwork

  type Xml = Geonetwork.Xml
  type WorkflowState = Geonetwork.WorkflowState
  type Hit = Geonetwork.Hit
  type Metadata = Geonetwork.Metadata
  type Info = Geonetwork.Info

  /** A record as a search lists it; `title` is `None` when the hit has no
      `defaultTitle`. */
  datatype Record = Record(uuid: string, title: Option<string>, template: bool, state: Option<WorkflowState>)

  /** `str()` of the `KeyError` a hit without uuid raises. */
  const MISSING_UUID := "'uuid'"

  /** The body of the loop over the hits of a page: `md["geonet:info"]["uuid"]`
      raises on a hit without uuid, `template` is the `isTemplate == "y"`
      test, and the state is derived as the later client does. */
  function RecordOf(hit: Hit): (r: Result<Record>)
    ensures hit.uuid.None? ==> r == Err(MISSING_UUID)
    ensures r.Err? <==> hit.uuid.None? || Geonetwork.GetWorkflowState(hit.md).Err?
    ensures r.Ok? ==> r.value.uuid == hit.uuid.value && r.value.title == hit.title
    ensures r.Ok? ==> (r.value.template <==> "isTemplate" in hit.md && hit.md["isTemplate"] == "y")
    ensures r.Ok? ==> (r.value.state.None? <==> "mdStatus" !in hit.md)
    ensures r.Ok? && "mdStatus" in hit.md && "draft" in hit.md && hit.md["draft"] == "e" ==>
      r.value.state == Some(Geonetwork.WorkflowState(Geonetwork.WorkflowStage.WORKING_COPY, Geonetwork.WorkflowStatus.UNKNOWN))
    ensures r.Ok? && r.value.state.Some? ==> Geonetwork.Derivable(r.value.state.value)
    ensures r.Ok? && r.value.state.Some? ==>
      (r.value.state.value.stage == Geonetwork.WorkflowStage.WORKING_COPY <==> "draft" in hit.md && hit.md["draft"] == "e")
    ensures r.Ok? && r.value.state.Some? && r.value.state.value.stage != Geonetwork.WorkflowStage.WORKING_COPY ==>
      Geonetwork.ParseStatus(hit.md["mdStatus"]) == Ok(r.value.state.value.status)
    ensures r.Ok? && r.value.state.Some? && r.value.state.value.stage != Geonetwork.WorkflowStage.WORKING_COPY ==>
      (r.value.state.value.stage == Geonetwork.WorkflowStage.NEVER_APPROVED
       <==> r.value.state.value.status != Geonetwork.WorkflowStatus.APPROVED)
  {
    match hit.uuid
    case None => Err(MISSING_UUID)
    case Some(uuid) =>
      var template := "isTemplate" in hit.md && hit.md["isTemplate"] == "y";
      match Geonetwork.GetWorkflowState(hit.md)
      case Err(e) => Err(e)
      case Ok(state) => Ok(Record(uuid, hit.title, template, state))
  }

  /** `RecordOf`, as one step of a loop that keeps every value. */
  function ReadHit(hit: Hit): (r: Result<Option<Record>>)
    ensures RecordOf(hit).Ok? ==> r == Ok(Some(RecordOf(hit).value))
    ensures RecordOf(hit).Err? ==> r == Err(RecordOf(hit).error)
  {
    match RecordOf(hit)
    case Err(e) => Err(e)
    case Ok(rec) => Ok(Some(rec))
  }

  /** The records of one page: a single record (not wrapped in a list by
      the catalog) is read as a list of one. */
  function PageRecords(m: Metadata): Result<seq<Record>> {
    Traverse(Geonetwork.PageHits(m), ReadHit)
  }

  /** A page holding a single record gives that record alone. */
  lemma SingleRecordWrapped(hit: Hit)
    requires RecordOf(hit).Ok?
    ensures PageRecords(Geonetwork.Single(hit)) == Ok([RecordOf(hit).value])
  {
    var rec := RecordOf(hit).value;
    assert Geonetwork.PageHits(Geonetwork.Single(hit)) == [hit];
    assert ReadHit(hit) == Ok(Some(rec));
    assert [hit][..0] == [];
    assert Traverse([hit], ReadHit) == Ok([] + [rec]);
    assert [] + [rec] == [rec];
  }

  // ---------------------------------------------------------------------------
  // The `@to` pagination loop, shared with the legacy `select`

  /** A page of a search answer: its `metadata` and its `@to` field. */
  datatype Page = Page(metadata: Metadata, to: Option<string>)

  /** `not mds`: no `metadata` at all, or an empty list. */
  predicate EmptyMetadata(m: Metadata) {
    m.NoMetadata? || (m.Listed? && m.hits == [])
  }

  const TO_MISSING := "int() argument must be a string, a bytes-like object or a real number, not 'NoneType'"

  /** `int(rsp.get("@to")) + 1`, the position the next request asks for. */
  function NextFrom(page: Page): (r: Result<int>)
    ensures r.Ok? <==> page.to.Some? && ParseInt(page.to.value).Some?
    ensures r.Ok? ==> r.value == ParseInt(page.to.value).value + 1
  {
    match page.to
    case None => Err(TO_MISSING)
    case Some(s) =>
      match ParseInt(s)
      case None => Err(IntLiteralError(s))
      case Some(to) => Ok(to + 1)
  }

  /** The search endpoint answers every position past `total` with an empty
      page, and each page it fills ends (`@to`) at or after the position
      asked for: the loop, which trusts `@to`, then ends. */
  ghost predicate Paged(search: (Dict<string>, int) -> Result<Page>, total: nat) {
    && (forall p, n :: total < n ==> search(p, n) == Ok(Page(Geonetwork.NoMetadata, None)))
    && (forall p, n :: search(p, n).Ok? && NextFrom(search(p, n).value).Ok? ==> NextFrom(search(p, n).value).value > n)
  }

  /** The records of every page from position `from` on: the loop stops at
      the first page yielding nothing and otherwise asks next for the
      position after `@to`; any error ends it. */
  function Scroll<R>(search: (Dict<string>, int) -> Result<Page>, params: Dict<string>, total: nat, from: int, read: Metadata -> Result<seq<R>>): Result<seq<R>>
    requires Paged(search, total)
    requires read(Geonetwork.NoMetadata) == Ok([])
    decreases if from <= total then total - from + 1 else 0
  {
    match search(params, from)
    case Err(e) => Err(e)
    case Ok(page) =>
      match read(page.metadata)
      case Err(e) => Err(e)
      case Ok(recs) =>
        if recs == [] then Ok([])
        else
          match NextFrom(page)
          case Err(e) => Err(e)
          case Ok(next) => Prepend(recs, Scroll(search, params, total, next, read))
  }

  /** A property every page's records have holds of all the records the
      loop returns. */
  lemma {:induction false} ScrollAll<R>(search: (Dict<string>, int) -> Result<Page>, params: Dict<string>, total: nat, from: int, read: Metadata -> Result<seq<R>>, p: R -> bool)
    requires Paged(search, total)
    requires read(Geonetwork.NoMetadata) == Ok([])
    requires forall m :: read(m).Ok? ==> forall x :: x in read(m).value ==> p(x)
    ensures Scroll(search, params, total, from, read).Ok? ==>
      forall x :: x in Scroll(search, params, total, from, read).value ==> p(x)
    decreases if from <= total then total - from + 1 else 0
  {
    var page := search(params, from);
    if page.Ok? && read(page.value.metadata).Ok? && read(page.value.metadata).value != [] && NextFrom(page.value).Ok? {
      ScrollAll(search, params, total, NextFrom(page.value).value, read, p);
    }
  }

  /** The parameters every search starts from. */
  function BaseParams(): Dict<string> {
    [
      ("_content_type", "json"),
      ("buildSummary", "false"),
      ("fast", "index"),
      ("sortBy", "title"),
      ("sortOrder", "reverse")
    ]
  }

  /** What `get_records(query)` returns: the caller's query merged over the
      base parameters, then every page's records. */
  function Records(search: (Dict<string>, int) -> Result<Page>, total: nat, query: Dict<string>): Result<seq<Record>>
    requires Paged(search, total)
  {
    Scroll(search, Update(BaseParams(), query), total, 1, PageRecords)
  }

  /** A record a search yields has a state a search hit can give. */
  predicate WellFormed(r: Record) {
    r.state.None? || Geonetwork.Derivable(r.state.value)
  }

  /** Every record `get_records` returns has a state a search hit can give. */
  lemma RecordsWellFormed(search: (Dict<string>, int) -> Result<Page>, total: nat, query: Dict<string>)
    requires Paged(search, total)
    requires Records(search, total, query).Ok?
    ensures forall r :: r in Records(search, total, query).value ==> WellFormed(r)
  {
    forall m | PageRecords(m).Ok? ensures forall x :: x in PageRecords(m).value ==> WellFormed(x) {
      TraverseValues(Geonetwork.PageHits(m), ReadHit);
    }
    ScrollAll(search, Update(BaseParams(), query), total, 1, PageRecords, WellFormed);
  }

  /** The inner loop of `get_records`: one record per hit, in order; the
      first hit that cannot be read raises. */
  method ReadPage(hits: seq<Hit>) returns (r: Result<seq<Record>>)
    ensures r == Traverse(hits, ReadHit)
    ensures r.Ok? ==> |r.value| == |hits|
  {
    var recs: seq<Record> := [];
    for j := 0 to |hits|
      invariant Traverse(hits[..j], ReadHit) == Ok(recs)
      invariant |recs| == j
    {
      TraverseStep(hits, j, ReadHit);
      var rec := RecordOf(hits[j]);
      if rec.Err? {
        TraverseStopsAtError(hits, j + 1, ReadHit);
        return Err(rec.error);
      }
      recs := recs + [rec.value];
    }
    assert hits[..|hits|] == hits;
    return Ok(recs);
  }

  /** `get_records`: from position 1, read each page, wrapping a single
      record as a list of one, and go on after `@to` until a page comes
      back without records. */
  method GetRecords(search: (Dict<string>, int) -> Result<Page>, total: nat, query: Dict<string>)
    returns (r: Result<seq<Record>>)
    requires Paged(search, total)
    ensures r == Records(search, total, query)
  {
    var params := Update(BaseParams(), query);
    var records: seq<Record> := [];
    var from: int := 1;
    PrependNothing(Scroll(search, params, total, 1, PageRecords));
    while true
      invariant Scroll(search, params, total, 1, PageRecords) == Prepend(records, Scroll(search, params, total, from, PageRecords))
      decreases if from <= total then total - from + 1 else 0
    {
      var rsp := search(params, from);
      if rsp.Err? {
        return Err(rsp.error);
      }
      var mds := rsp.value.metadata;
      if EmptyMetadata(mds) {
        assert records + [] == records;
        break;
      }
      var recs := ReadPage(Geonetwork.PageHits(mds));
      if recs.Err? {
        return Err(recs.error);
      }
      var next := NextFrom(rsp.value);
      if next.Err? {
        return Err(next.error);
      }
      PrependPrepend(records, recs.value, Scroll(search, params, total, next.value, PageRecords));
      records := records + recs.value;
      from := next.value;
    }
    return Ok(records);
  }

  // ---------------------------------------------------------------------------
  // The uuid of a created record: the inner `break` leaves only the inner loop

  /** The scan over the lists of `metadataInfos` as written: each non-empty
      list sets the result anew (its first match, or nothing), an empty list
      leaves it as it was, and a missing message reached raises. */
  function ScanLists(lists: seq<seq<Info>>): Result<Option<string>>
    decreases |lists|
  {
    if lists == [] then Ok(None)
    else
      match ScanLists(lists[..|lists| - 1])
      case Err(e) => Err(e)
      case Ok(prev) =>
        var last := lists[|lists| - 1];
        if last == [] then Ok(prev) else Geonetwork.FirstUuid(last)
  }

  /** What `_extract_uuid_from_put_response` returns. */
  function UuidOfPutResponse(payload: Geonetwork.PutResponse): Result<Option<string>> {
    match payload.metadataInfos
    case None => Ok(None)
    case Some(lists) => if lists == [] then Ok(None) else ScanLists(lists)
  }

  /** The result is the scan of the last non-empty list: the first match in
      it, or nothing, whatever the earlier lists held. */
  lemma {:induction false} LastNonEmptyListWins(lists: seq<seq<Info>>, k: nat)
    requires k < |lists| && lists[k] != []
    requires forall j :: k < j < |lists| ==> lists[j] == []
    requires ScanLists(lists).Ok?
    ensures ScanLists(lists) == Geonetwork.FirstUuid(lists[k])
    decreases |lists|
  {
    var init := lists[..|lists| - 1];
    if k < |lists| - 1 {
      assert forall j :: k < j < |init| ==> init[j] == lists[j];
      LastNonEmptyListWins(init, k);
    }
  }

  /** With no non-empty list the result is nothing. */
  lemma {:induction false} AllListsEmpty(lists: seq<seq<Info>>)
    requires forall j :: 0 <= j < |lists| ==> lists[j] == []
    ensures ScanLists(lists) == Ok(None)
    decreases |lists|
  {
    if lists != [] {
      var init := lists[..|lists| - 1];
      assert forall j :: 0 <= j < |init| ==> init[j] == lists[j];
      AllListsEmpty(init);
    }
  }

  /** Once the scan has raised it stays raised. */
  lemma {:induction false} ScanListsStopsAtError(lists: seq<seq<Info>>, i: nat)
    requires i <= |lists|
    requires ScanLists(lists[..i]).Err?
    ensures ScanLists(lists) == ScanLists(lists[..i])
    decreases |lists| - i
  {
    if i < |lists| {
      assert lists[..i + 1][..i] == lists[..i];
      ScanListsStopsAtError(lists, i + 1);
    } else {
      assert lists[..i] == lists;
    }
  }

  /** One message of the inner loop: a missing message raises, a match ends
      the list with it, and otherwise the list has no match so far. */
  lemma InnerStep(infos: seq<Info>, j: nat)
    requires j < |infos|
    requires Geonetwork.FirstUuid(infos[..j]) == Ok(None)
    ensures infos[j].message.None? ==> Geonetwork.FirstUuid(infos) == Err(Geonetwork.NO_MESSAGE)
    ensures infos[j].message.Some? && Geonetwork.SearchUuid(infos[j].message.value).Some? ==>
      Geonetwork.FirstUuid(infos) == Ok(Geonetwork.SearchUuid(infos[j].message.value))
    ensures infos[j].message.Some? && Geonetwork.SearchUuid(infos[j].message.value).None? ==>
      Geonetwork.FirstUuid(infos[..j + 1]) == Ok(None)
  {
    assert infos == infos[..j] + infos[j..];
    Geonetwork.FirstUuidAppend(infos[..j], infos[j..]);
    assert infos[j..][0] == infos[j];
    assert infos[..j + 1] == infos[..j] + [infos[j]];
    Geonetwork.FirstUuidAppend(infos[..j], [infos[j]]);
  }

  /** `_extract_uuid_from_put_response`: the nested loop reassigning
      `uuid_match`, whose `break` ends only the scan of the current list. */
  method ExtractUuidFromPutResponse(payload: Geonetwork.PutResponse) returns (r: Result<Option<string>>)
    ensures r == UuidOfPutResponse(payload)
  {
    if payload.metadataInfos.None? || payload.metadataInfos.value == [] {
      return Ok(None);
    }
    var lists := payload.metadataInfos.value;
    var uuidMatch: Option<string> := None;
    for i := 0 to |lists|
      invariant ScanLists(lists[..i]) == Ok(uuidMatch)
    {
      var mdInfo := lists[i];
      ghost var prev := uuidMatch;
      for j := 0 to |mdInfo|
        invariant j == 0 ==> uuidMatch == prev
        invariant j > 0 ==> uuidMatch.None? && Geonetwork.FirstUuid(mdInfo[..j]) == Ok(None)
      {
        assert mdInfo[..0] == [];
        InnerStep(mdInfo, j);
        var message := mdInfo[j].message;
        if message.None? {
          assert lists[..i + 1][..i] == lists[..i];
          ScanListsStopsAtError(lists, i + 1);
          return Err(Geonetwork.NO_MESSAGE);
        }
        uuidMatch := Geonetwork.SearchUuid(message.value);
        if uuidMatch.Some? {
          break;
        }
      }
      assert mdInfo[..|mdInfo|] == mdInfo;
      assert lists[..i + 1][..i] == lists[..i];
    }
    assert lists[..|lists|] == lists;
    return Ok(uuidMatch);
  }

  /** A uuid found in one list is lost when a later list holds a message
      without one, where the later client returns it. */
  lemma EarlierMatchLost(uuid: string, other: string)
    requires Geonetwork.IsUuid(uuid)
    requires Geonetwork.SearchUuid(other).None?
    ensures var payload := Geonetwork.PutResponse(Some([[Geonetwork.Info(Some(Geonetwork.ImportMessage(uuid)))], [Geonetwork.Info(Some(other))]]));
      UuidOfPutResponse(payload) == Ok(None) && Geonetwork.UuidOfPutResponse(payload) == Ok(Some(uuid))
  {
    var first := [Geonetwork.Info(Some(Geonetwork.ImportMessage(uuid)))];
    var second := [Geonetwork.Info(Some(other))];
    var lists := [first, second];
    Geonetwork.SearchUuidOfImportMessage(uuid);
    assert lists[..1] == [first];
    assert [first][..0] == [];
    assert ScanLists(lists[..1]) == Ok(Some(uuid));
    assert Geonetwork.FirstUuid(second) == Ok(None);
    assert Geonetwork.Flatten(lists) == first + second + [] by {
      assert Geonetwork.Flatten(lists[1..]) == second + Geonetwork.Flatten([]);
    }
    Geonetwork.FirstUuidAppend(first, second);
  }

  // ---------------------------------------------------------------------------
  // put_record and update_record

  const GENERATE_UUID := "GENERATEUUID"

  /** The query parameters of `put_record`: TEMPLATE for a template and
      METADATA for anything else. */
  function CreateParams(template: bool, group: Option<int>): (p: Geonetwork.PutParams)
    ensures p.uuidProcessing == GENERATE_UUID && p.group == group
    ensures p.metadataType == "TEMPLATE" <==> template
    ensures p.metadataType == "METADATA" <==> !template
  {
    Geonetwork.PutParams(GENERATE_UUID, group, if template then "TEMPLATE" else "METADATA")
  }

  /** For the two record types the tool migrates, the first client asks for
      the creation the later one asks for: the same generated uuid, group and
      `metadataType`. */
  lemma CreateParamsAgree(mdType: Geonetwork.MetadataType, group: Option<int>)
    requires mdType == Geonetwork.METADATA || mdType == Geonetwork.TEMPLATE
    ensures CreateParams(mdType == Geonetwork.TEMPLATE, group) == Geonetwork.CreateParams(mdType, group)
  {
  }

  /** The fields of the editor form: the record type as `y`/`n`, the XML,
      and the status once set. */
  datatype SaveForm = SaveForm(template: string, data: Xml, status: Option<Geonetwork.WorkflowStatus>)

  /** A request of `update_record`. */
  datatype Request =
    | EditorView(uuid: string)
    | EditorSave(uuid: string, form: SaveForm)
    | StatusChange(uuid: string, changeMessage: string, status: Geonetwork.WorkflowStatus)

  const REAPPROVAL_MESSAGE := "Approved by Migrator"

  /** The form carries the caller's choices: "y" exactly for a template,
      the XML, and the status `StatusSent` picks (SUBMITTED in place of
      APPROVED, none without workflow). */
  predicate FormCarries(form: SaveForm, metadata: Xml, template: bool, state: Option<WorkflowState>) {
    && (form.template == "y" <==> template)
    && (form.template == "n" <==> !template)
    && form.data == metadata
    && form.status == Geonetwork.StatusSent(state)
  }

  function SavedForm(metadata: Xml, template: bool, state: Option<WorkflowState>): (form: SaveForm)
    ensures FormCarries(form, metadata, template, state)
    ensures form.status.None? <==> state.None?
    ensures form.status != Some(Geonetwork.WorkflowStatus.APPROVED)
    ensures state.Some? && state.value.status == Geonetwork.WorkflowStatus.APPROVED ==>
      form.status == Some(Geonetwork.WorkflowStatus.SUBMITTED)
    ensures state.Some? && state.value.status != Geonetwork.WorkflowStatus.APPROVED ==>
      form.status == Some(state.value.status)
  {
    SaveForm(if template then "y" else "n", metadata, Geonetwork.StatusSent(state))
  }

  /** The requests `update_record` sends, in order. */
  function UpdateRequests(respond: Request -> Option<string>, uuid: string, metadata: Xml, template: bool, state: Option<WorkflowState>): seq<Request> {
    var view := EditorView(uuid);
    if respond(view).Some? || Geonetwork.IsWorkingCopy(state) then [view]
    else
      var save := EditorSave(uuid, SavedForm(metadata, template, state));
      if respond(save).Some? || !Geonetwork.NeedsReapproval(state) then [view, save]
      else [view, save, StatusChange(uuid, REAPPROVAL_MESSAGE, Geonetwork.WorkflowStatus.APPROVED)]
  }

  /** The error `update_record` ends with, if any. */
  function UpdateError(respond: Request -> Option<string>, uuid: string, metadata: Xml, template: bool, state: Option<WorkflowState>): Option<string> {
    var view := EditorView(uuid);
    if respond(view).Some? then respond(view)
    else if Geonetwork.IsWorkingCopy(state) then Some(Geonetwork.WORKING_COPY_UNSUPPORTED)
    else
      var save := EditorSave(uuid, SavedForm(metadata, template, state));
      if respond(save).Some? then respond(save)
      else if Geonetwork.NeedsReapproval(state) then respond(StatusChange(uuid, REAPPROVAL_MESSAGE, Geonetwork.WorkflowStatus.APPROVED))
      else None
  }

  /** The save goes out exactly when the view succeeds on a record without
      working copy, and carries the caller's choices; the re-approval goes
      out exactly when the save succeeds on a record in stage APPROVED. */
  lemma UpdateRequestsShape(respond: Request -> Option<string>, uuid: string, metadata: Xml, template: bool, state: Option<WorkflowState>)
    ensures var sent := UpdateRequests(respond, uuid, metadata, template, state);
      && 1 <= |sent| <= 3 && sent[0] == EditorView(uuid)
      && (|sent| >= 2 <==> respond(EditorView(uuid)).None? && !Geonetwork.IsWorkingCopy(state))
      && (|sent| >= 2 ==> sent[1].EditorSave? && sent[1].uuid == uuid && FormCarries(sent[1].form, metadata, template, state))
      && (|sent| == 3 <==> |sent| >= 2 && respond(sent[1]).None? && Geonetwork.NeedsReapproval(state))
      && (|sent| == 3 ==> sent[2] == StatusChange(uuid, REAPPROVAL_MESSAGE, Geonetwork.WorkflowStatus.APPROVED))
  {
  }

  /** No error exactly when the record has no working copy and every
      request sent succeeds; a working copy is refused once the view
      succeeds. */
  lemma UpdateErrorMeaning(respond: Request -> Option<string>, uuid: string, metadata: Xml, template: bool, state: Option<WorkflowState>)
    ensures var sent := UpdateRequests(respond, uuid, metadata, template, state);
      var r := UpdateError(respond, uuid, metadata, template, state);
      && (r.None? <==> !Geonetwork.IsWorkingCopy(state) && forall i :: 0 <= i < |sent| ==> respond(sent[i]).None?)
      && (r.Some? && !Geonetwork.IsWorkingCopy(state) ==> exists i :: 0 <= i < |sent| && r == respond(sent[i]))
      && (respond(EditorView(uuid)).None? && Geonetwork.IsWorkingCopy(state) ==> r == Some(Geonetwork.WORKING_COPY_UNSUPPORTED))
  {
    var sent := UpdateRequests(respond, uuid, metadata, template, state);
    var r := UpdateError(respond, uuid, metadata, template, state);
    if r.Some? && !Geonetwork.IsWorkingCopy(state) {
      assert r == respond(sent[|sent| - 1]);
    }
  }

  /** `update_record`: fetch the editor view, fill the form, save it, then
      re-approve a record that was approved. */
  method UpdateRecord(respond: Request -> Option<string>, uuid: string, metadata: Xml, template: bool, state: Option<WorkflowState>)
    returns (sent: seq<Request>, error: Option<string>)
    ensures sent == UpdateRequests(respond, uuid, metadata, template, state)
    ensures error == UpdateError(respond, uuid, metadata, template, state)
  {
    sent := [EditorView(uuid)];
    error := respond(EditorView(uuid));
    if error.Some? {
      return;
    }
    var data := SaveForm(if template then "y" else "n", metadata, None);
    if state.Some? {
      if state.value.stage == Geonetwork.WorkflowStage.WORKING_COPY {
        error := Some(Geonetwork.WORKING_COPY_UNSUPPORTED);
        return;
      }
      if state.value.status == Geonetwork.WorkflowStatus.APPROVED {
        data := data.(status := Some(Geonetwork.WorkflowStatus.SUBMITTED));
      } else {
        data := data.(status := Some(state.value.status));
      }
    }
    var save := EditorSave(uuid, data);
    sent := [EditorView(uuid), save];
    error := respond(save);
    if error.Some? {
      return;
    }
    if state.Some? && state.value.stage == Geonetwork.WorkflowStage.APPROVED {
      var approve := StatusChange(uuid, REAPPROVAL_MESSAGE, Geonetwork.WorkflowStatus.APPROVED);
      sent := [EditorView(uuid), save, approve];
      error := respond(approve);
    }
  }
}
