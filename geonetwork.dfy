/**
 * The decision logic of ISOmorphe's GeoNetwork client (isomorphe/geonetwork.py):
 * the record types, how a search hit yields a metadata type and a workflow
 * state, how the uuid of a created record is read back from the catalog's
 * answer, and which requests `update_record` and `put_record` send.
 *
 * The catalog itself is not modelled: a request's outcome is given by a
 * function `respond` (an error text, or `None` for a 2xx answer) or `put`.
 */
module Geonetwork {
  import opened Wrappers
  import opened Text
  import opened Dicts

  type Xml = string

  /** The four GeoNetwork record types and their `isTemplate` codes. */
  datatype MetadataType = METADATA | TEMPLATE | SUB_TEMPLATE | TEMPLATE_OF_SUB_TEMPLATE {
    /** The enum value, as found in `isTemplate` and sent as `template`. */
    function Value(): (r: string)
      ensures MetadataTypeOf(r) == Ok(this)
    {
      match this
      case METADATA => "n"
      case TEMPLATE => "y"
      case SUB_TEMPLATE => "s"
      case TEMPLATE_OF_SUB_TEMPLATE => "t"
    }

    /** The enum name, sent as `metadataType` when a record is created. */
    function Name(): string {
      match this
      case METADATA => "METADATA"
      case TEMPLATE => "TEMPLATE"
      case SUB_TEMPLATE => "SUB_TEMPLATE"
      case TEMPLATE_OF_SUB_TEMPLATE => "TEMPLATE_OF_SUB_TEMPLATE"
    }
  }

  /** `MetadataType(v)`: raises for anything but the four codes. */
  function MetadataTypeOf(v: string): (r: Result<MetadataType>)
    ensures r.Ok? <==> v == "n" || v == "y" || v == "s" || v == "t"
  {
    if v == "n" then Ok(METADATA)
    else if v == "y" then Ok(TEMPLATE)
    else if v == "s" then Ok(SUB_TEMPLATE)
    else if v == "t" then Ok(TEMPLATE_OF_SUB_TEMPLATE)
    else Err("'" + v + "' is not a valid MetadataType")
  }

  datatype WorkflowStatus = UNKNOWN | DRAFT | APPROVED | RETIRED | SUBMITTED | REJECTED {
    /** The integer code of the status. */
    function Code(): (r: nat)
      ensures r <= 5
      ensures WorkflowStatusOf(r) == Ok(this)
    {
      match this
      case UNKNOWN => 0
      case DRAFT => 1
      case APPROVED => 2
      case RETIRED => 3
      case SUBMITTED => 4
      case REJECTED => 5
    }
  }

  /** `WorkflowStatus(n)`: raises for a code outside 0..5. */
  function WorkflowStatusOf(n: int): (r: Result<WorkflowStatus>)
    ensures r.Ok? <==> 0 <= n <= 5
  {
    if n == 0 then Ok(WorkflowStatus.UNKNOWN)
    else if n == 1 then Ok(WorkflowStatus.DRAFT)
    else if n == 2 then Ok(WorkflowStatus.APPROVED)
    else if n == 3 then Ok(WorkflowStatus.RETIRED)
    else if n == 4 then Ok(WorkflowStatus.SUBMITTED)
    else if n == 5 then Ok(WorkflowStatus.REJECTED)
    else Err(IntToString(n) + " is not a valid WorkflowStatus")
  }

  datatype WorkflowStage = NEVER_APPROVED | APPROVED | WORKING_COPY

  /** The stage of a record, with the status of its working copy in the
      WORKING_COPY stage and the record's own status otherwise. */
  datatype WorkflowState = WorkflowState(stage: WorkflowStage, status: WorkflowStatus)

  /** The states a search hit can give: a working copy with an unknown status,
      or a record that is APPROVED in stage exactly when in status. */
  predicate Derivable(s: WorkflowState) {
    if s.stage == WorkflowStage.WORKING_COPY then s.status == WorkflowStatus.UNKNOWN
    else (s.stage == WorkflowStage.APPROVED <==> s.status == WorkflowStatus.APPROVED)
  }

  datatype Record = Record(uuid: string, title: string, mdType: MetadataType, state: Option<WorkflowState>)

  /** A search hit, with the JSON paths of each version already followed:
      `uuid` is absent when the hit carries no uuid, and `md` holds the
      hit's flat string fields (`isTemplate`, `mdStatus`, `draft`, ...). */
  datatype Hit = Hit(uuid: Option<string>, title: Option<string>, md: map<string, string>)

  /** The `metadata` field of a version 3 search answer: absent, a single hit
      (one record: not wrapped in a list) or a list of hits. */
  datatype Metadata = NoMetadata | Single(hit: Hit) | Listed(hits: seq<Hit>)

  /** The hits of a version 3 page: a single hit is wrapped as a list of one. */
  function PageHits(m: Metadata): (r: seq<Hit>)
    ensures m.Single? ==> r == [m.hit]
    ensures m.Listed? ==> r == m.hits
    ensures m.NoMetadata? ==> r == []
  {
    match m
    case NoMetadata => []
    case Single(h) => [h]
    case Listed(hs) => hs
  }

  /** `_get_metadata_type`: a hit without `isTemplate` is a plain METADATA record. */
  function GetMetadataType(md: map<string, string>): (r: Result<MetadataType>)
    ensures "isTemplate" !in md ==> r == Ok(METADATA)
    ensures "isTemplate" in md ==> (r.Ok? <==> md["isTemplate"] in {"n", "y", "s", "t"})
    ensures "isTemplate" in md && r.Ok? ==> r.value.Value() == md["isTemplate"]
  {
    MetadataTypeOf(if "isTemplate" in md then md["isTemplate"] else METADATA.Value())
  }

  /** `WorkflowStatus(int(s))`. */
  function ParseStatus(s: string): (r: Result<WorkflowStatus>)
    ensures r.Ok? <==> ParseInt(s).Some? && 0 <= ParseInt(s).value <= 5
    ensures r.Ok? ==> ParseInt(s) == Some(r.value.Code() as int)
  {
    var n := ParseInt(s);
    if n.None? then Err(IntLiteralError(s))
    else
      StatusOfCode(n.value);
      WorkflowStatusOf(n.value)
  }

  /** The status a code names has that code. */
  lemma StatusOfCode(n: int)
    ensures WorkflowStatusOf(n).Ok? ==> WorkflowStatusOf(n).value.Code() == n
  {
  }

  predicate IsWorkingCopy(state: Option<WorkflowState>) {
    state.Some? && state.value.stage == WorkflowStage.WORKING_COPY
  }

  /** `_get_workflow_state`. */
  function GetWorkflowState(md: map<string, string>): (r: Result<Option<WorkflowState>>)
    ensures r == Ok(None) <==> "mdStatus" !in md
    ensures "mdStatus" in md && "draft" in md && md["draft"] == "e" ==>
      r == Ok(Some(WorkflowState(WorkflowStage.WORKING_COPY, WorkflowStatus.UNKNOWN)))
    ensures r.Ok? && r.value.Some? ==> Derivable(r.value.value)
    ensures r.Ok? && r.value.Some? ==>
      (r.value.value.stage == WorkflowStage.WORKING_COPY <==> "draft" in md && md["draft"] == "e")
    ensures r.Ok? && r.value.Some? && r.value.value.stage != WorkflowStage.WORKING_COPY ==>
      ParseStatus(md["mdStatus"]) == Ok(r.value.value.status)
    ensures r.Ok? && r.value.Some? && r.value.value.stage != WorkflowStage.WORKING_COPY ==>
      (r.value.value.stage == WorkflowStage.NEVER_APPROVED <==> r.value.value.status != WorkflowStatus.APPROVED)
    ensures r.Err? <==>
      "mdStatus" in md && !("draft" in md && md["draft"] == "e") && ParseStatus(md["mdStatus"]).Err?
  {
    if "mdStatus" !in md then Ok(None)
    else if !("draft" in md && md["draft"] == "e") then
      match ParseStatus(md["mdStatus"])
      case Err(e) => Err(e)
      case Ok(status) =>
        var stage := if status == WorkflowStatus.APPROVED then WorkflowStage.APPROVED else WorkflowStage.NEVER_APPROVED;
        Ok(Some(WorkflowState(stage, status)))
    else Ok(Some(WorkflowState(WorkflowStage.WORKING_COPY, WorkflowStatus.UNKNOWN)))
  }

  /** `_as_record`: a hit without uuid yields no record; an unreadable
      `isTemplate` or `mdStatus` raises. */
  function AsRecord(hit: Hit): (r: Result<Option<Record>>)
    ensures r == Ok(None) <==> hit.uuid.None?
    ensures r.Err? <==> hit.uuid.Some? && (GetMetadataType(hit.md).Err? || GetWorkflowState(hit.md).Err?)
    ensures r.Ok? && r.value.Some? ==>
      r.value.value.uuid == hit.uuid.value
      && r.value.value.title == hit.title.GetOr("")
      && Ok(r.value.value.mdType) == GetMetadataType(hit.md)
      && Ok(r.value.value.state) == GetWorkflowState(hit.md)
  {
    match hit.uuid
    case None => Ok(None)
    case Some(uuid) =>
      match GetMetadataType(hit.md)
      case Err(e) => Err(e)
      case Ok(mdType) =>
        match GetWorkflowState(hit.md)
        case Err(e) => Err(e)
        case Ok(state) => Ok(Some(Record(uuid, hit.title.GetOr(""), mdType, state)))
  }

  // ---------------------------------------------------------------------------
  // The uuid of a created record, read back from the messages of the answer

  predicate IsLowerHex(c: char) {
    '0' <= c <= '9' || 'a' <= c <= 'f'
  }

  /** Matches `[0-9a-f]{8}-[0-9a-f]{4}-[0-9a-f]{4}-[0-9a-f]{4}-[0-9a-f]{12}`. */
  predicate IsUuid(s: string) {
    |s| == 36
    && forall i :: 0 <= i < 36 ==>
      if i == 8 || i == 13 || i == 18 || i == 23 then s[i] == '-' else IsLowerHex(s[i])
  }

  /** The quoted pattern `'<uuid>'` matches `m` at position `p`. */
  predicate QuotedUuidAt(m: string, p: nat) {
    p + 38 <= |m| && m[p] == '\'' && IsUuid(m[p + 1..p + 37]) && m[p + 37] == '\''
  }

  /** The leftmost match at or after `p`, as `re.search` finds it. */
  function MatchFrom(m: string, p: nat): (r: Option<nat>)
    requires p <= |m|
    ensures r.Some? ==> p <= r.value && QuotedUuidAt(m, r.value)
    ensures r.Some? ==> forall q :: p <= q < r.value ==> !QuotedUuidAt(m, q)
    ensures r.None? ==> forall q :: p <= q ==> !QuotedUuidAt(m, q)
    decreases |m| - p
  {
    if QuotedUuidAt(m, p) then Some(p) else if p == |m| then None else MatchFrom(m, p + 1)
  }

  /** `re.search(r"'(<uuid>)'", m).group(1)`, or `None` without a match. */
  function SearchUuid(m: string): (r: Option<string>)
    ensures r.None? <==> forall p :: !QuotedUuidAt(m, p)
    ensures r.Some? ==> IsUuid(r.value)
    ensures r.Some? ==>
      (exists p :: QuotedUuidAt(m, p) && r.value == m[p + 1..p + 37] && forall q :: 0 <= q < p ==> !QuotedUuidAt(m, q))
  {
    match MatchFrom(m, 0)
    case None => None
    case Some(p) => Some(m[p + 1..p + 37])
  }

  /** The message GeoNetwork writes for a record imported from XML. */
  function ImportMessage(uuid: string): string {
    "Metadata imported from XML with UUID '" + uuid + "'"
  }

  /** The uuid in GeoNetwork's import message is the one found. */
  lemma SearchUuidOfImportMessage(uuid: string)
    requires IsUuid(uuid)
    ensures SearchUuid(ImportMessage(uuid)) == Some(uuid)
  {
    var m := ImportMessage(uuid);
    var prefix := "Metadata imported from XML with UUID ";
    var p := |prefix|;
    assert m[p] == '\'' && m[p + 1..p + 37] == uuid && m[p + 37] == '\'';
    assert QuotedUuidAt(m, p);
    forall q | 0 <= q < p ensures !QuotedUuidAt(m, q) {
      assert m[q] == prefix[q];
    }
    var r := SearchUuid(m);
    var p' :| QuotedUuidAt(m, p') && r.value == m[p' + 1..p' + 37] && forall q :: 0 <= q < p' ==> !QuotedUuidAt(m, q);
    assert p' == p;
  }

  /** One entry of a `metadataInfos` list; `message` may be missing. */
  datatype Info = Info(message: Option<string>)

  /** The answer to a record creation: `metadataInfos` maps local ids to
      lists of infos, given here as the dictionary's values in order. */
  datatype PutResponse = PutResponse(metadataInfos: Option<seq<seq<Info>>>)

  const NO_MESSAGE := "expected string or bytes-like object, got 'NoneType'"

  /** The first uuid over `infos` in order; an info without message raises
      (`re.search` on `None`) if it is reached before a match. */
  function FirstUuid(infos: seq<Info>): (r: Result<Option<string>>)
    ensures r.Ok? && r.value.Some? ==> IsUuid(r.value.value)
    ensures r == Ok(None) <==> forall i :: 0 <= i < |infos| ==> infos[i].message.Some? && SearchUuid(infos[i].message.value).None?
  {
    if infos == [] then Ok(None)
    else match infos[0].message
      case None => Err(NO_MESSAGE)
      case Some(m) => if SearchUuid(m).Some? then Ok(SearchUuid(m)) else FirstUuid(infos[1..])
  }

  function Flatten(lists: seq<seq<Info>>): seq<Info> {
    if lists == [] then [] else lists[0] + Flatten(lists[1..])
  }

  /** What `_extract_uuid_from_put_response` returns: nothing when
      `metadataInfos` is missing or empty, else the first uuid over all
      messages in order. */
  function UuidOfPutResponse(payload: PutResponse): (r: Result<Option<string>>)
    ensures payload.metadataInfos.None? || payload.metadataInfos.value == [] ==> r == Ok(None)
    ensures r.Ok? && r.value.Some? ==> IsUuid(r.value.value)
  {
    match payload.metadataInfos
    case None => Ok(None)
    case Some(lists) => if lists == [] then Ok(None) else FirstUuid(Flatten(lists))
  }

  lemma {:induction false} FirstUuidAppend(a: seq<Info>, b: seq<Info>)
    ensures FirstUuid(a + b) == if FirstUuid(a) == Ok(None) then FirstUuid(b) else FirstUuid(a)
    decreases |a|
  {
    if a == [] {
      assert a + b == b;
    } else {
      assert (a + b)[0] == a[0] && (a + b)[1..] == a[1..] + b;
      FirstUuidAppend(a[1..], b);
    }
  }

  lemma {:induction false} FlattenAppend(a: seq<seq<Info>>, b: seq<seq<Info>>)
    ensures Flatten(a + b) == Flatten(a) + Flatten(b)
    decreases |a|
  {
    if a == [] {
      assert a + b == b;
    } else {
      assert (a + b)[0] == a[0] && (a + b)[1..] == a[1..] + b;
      FlattenAppend(a[1..], b);
    }
  }

  lemma FlattenPrefixStep(lists: seq<seq<Info>>, i: nat)
    requires i < |lists|
    ensures Flatten(lists[..i + 1]) == Flatten(lists[..i]) + lists[i]
  {
    assert lists[..i + 1] == lists[..i] + [lists[i]];
    FlattenAppend(lists[..i], [lists[i]]);
    assert Flatten([lists[i]]) == lists[i] + Flatten([]);
  }

  /** The messages of `lists` cut at message `j` of list `i`. */
  lemma FlattenSplit(lists: seq<seq<Info>>, i: nat, j: nat)
    requires i < |lists| && j <= |lists[i]|
    ensures Flatten(lists) == Flatten(lists[..i]) + lists[i][..j] + (lists[i][j..] + Flatten(lists[i + 1..]))
  {
    assert lists == lists[..i] + ([lists[i]] + lists[i + 1..]);
    FlattenAppend(lists[..i], [lists[i]] + lists[i + 1..]);
    assert Flatten([lists[i]] + lists[i + 1..]) == lists[i] + Flatten(lists[i + 1..]);
    assert lists[i] == lists[i][..j] + lists[i][j..];
  }

  /** One message of the scan: a missing message raises, a match is the
      answer, and otherwise the scan goes on with nothing found. */
  lemma ScanStep(lists: seq<seq<Info>>, i: nat, j: nat)
    requires i < |lists| && j < |lists[i]|
    requires FirstUuid(Flatten(lists[..i]) + lists[i][..j]) == Ok(None)
    ensures lists[i][j].message.None? ==> FirstUuid(Flatten(lists)) == Err(NO_MESSAGE)
    ensures lists[i][j].message.Some? && SearchUuid(lists[i][j].message.value).Some? ==>
      FirstUuid(Flatten(lists)) == Ok(SearchUuid(lists[i][j].message.value))
    ensures lists[i][j].message.Some? && SearchUuid(lists[i][j].message.value).None? ==>
      FirstUuid(Flatten(lists[..i]) + lists[i][..j + 1]) == Ok(None)
  {
    var done := Flatten(lists[..i]) + lists[i][..j];
    var rest := lists[i][j..] + Flatten(lists[i + 1..]);
    FlattenSplit(lists, i, j);
    FirstUuidAppend(done, rest);
    assert rest[0] == lists[i][j];
    assert lists[i][..j + 1] == lists[i][..j] + [lists[i][j]];
    assert Flatten(lists[..i]) + lists[i][..j + 1] == done + [lists[i][j]];
    FirstUuidAppend(done, [lists[i][j]]);
  }

  /** `_extract_uuid_from_put_response`: the nested loop over the lists and
      their messages, returning at the first match. */
  method ExtractUuidFromPutResponse(payload: PutResponse) returns (r: Result<Option<string>>)
    ensures r == UuidOfPutResponse(payload)
    ensures r.Ok? && r.value.Some? ==> IsUuid(r.value.value)
  {
    if payload.metadataInfos.None? || payload.metadataInfos.value == [] {
      return Ok(None);
    }
    var lists := payload.metadataInfos.value;
    for i := 0 to |lists|
      invariant FirstUuid(Flatten(lists[..i])) == Ok(None)
    {
      var mdInfo := lists[i];
      for j := 0 to |mdInfo|
        invariant FirstUuid(Flatten(lists[..i]) + mdInfo[..j]) == Ok(None)
      {
        ScanStep(lists, i, j);
        var message := mdInfo[j].message;
        if message.None? {
          return Err(NO_MESSAGE);
        }
        var uuidMatch := SearchUuid(message.value);
        if uuidMatch.Some? {
          return Ok(uuidMatch);
        }
      }
      FlattenPrefixStep(lists, i);
      assert mdInfo[..|mdInfo|] == mdInfo;
    }
    assert lists[..|lists|] == lists;
    return Ok(None);
  }

  // ---------------------------------------------------------------------------
  // update_record and put_record: the requests sent and the decisions taken

  /** A request to the catalog. The editor save carries the form `data`,
      whose url-encoded fields `FormFields` gives. */
  datatype Request =
    | EditorView(uuid: string)
    | EditorSave(uuid: string, form: SaveForm)
    | StatusChange(uuid: string, changeMessage: string, status: WorkflowStatus)
    | Create(params: PutParams, body: Xml)

  /** The query parameters of a record creation. */
  datatype PutParams = PutParams(uuidProcessing: string, group: Option<int>, metadataType: string)

  const WORKING_COPY_UNSUPPORTED := "Migrating working copies is not supported"
  const REAPPROVAL_MESSAGE := "Approved by ISOmorphe"

  /** The status the editor form carries for a record in `state`: none
      without workflow, SUBMITTED for an approved record (the editor refuses
      APPROVED), and the record's own status otherwise. */
  function StatusSent(state: Option<WorkflowState>): (r: Option<WorkflowStatus>)
    ensures r.None? <==> state.None?
    ensures r != Some(WorkflowStatus.APPROVED)
    ensures state.Some? && state.value.status == WorkflowStatus.APPROVED ==> r == Some(WorkflowStatus.SUBMITTED)
    ensures state.Some? && state.value.status != WorkflowStatus.APPROVED ==> r == Some(state.value.status)
  {
    match state
    case None => None
    case Some(s) => if s.status == WorkflowStatus.APPROVED then Some(WorkflowStatus.SUBMITTED) else Some(s.status)
  }

  /** `str()` of an optional status, as a form field. */
  function StatusField(s: Option<WorkflowStatus>): Option<string> {
    match s
    case None => None
    case Some(st) => Some(NatToString(st.Code()))
  }

  /** The editor form is read back: the status field gives the status sent. */
  lemma StatusFieldReadBack(s: Option<WorkflowStatus>)
    requires s.Some?
    ensures ParseInt(StatusField(s).value) == Some(s.value.Code() as int)
    ensures WorkflowStatusOf(ParseInt(StatusField(s).value).value) == Ok(s.value)
  {
    ParseIntOfNatToString(s.value.Code());
  }

  /** The fields of the editor form `update_record` fills in: the date-stamp
      flag `minor`, the record type, the XML, and the status once set. */
  datatype SaveForm = SaveForm(minor: string, template: string, data: Xml, status: Option<WorkflowStatus>)

  /** The fields the dictionary literal of `update_record` gives, in its order. */
  function LiteralFields(f: SaveForm): Dict<string> {
    [
      ("tab", "xml"),
      ("minor", f.minor),
      ("withAttributes", "false"),
      ("withValidationErrors", "false"),
      ("commit", "true"),
      ("terminate", "true"),
      ("template", f.template),
      ("data", f.data)
    ]
  }

  lemma LiteralMinor(f: SaveForm)
    ensures Get(LiteralFields(f), "minor") == Some(f.minor)
  {
    GetAt(LiteralFields(f), 1, "minor");
  }

  lemma LiteralTemplate(f: SaveForm)
    ensures Get(LiteralFields(f), "template") == Some(f.template)
  {
    GetAt(LiteralFields(f), 6, "template");
  }

  lemma LiteralData(f: SaveForm)
    ensures Get(LiteralFields(f), "data") == Some(f.data)
  {
    GetAt(LiteralFields(f), 7, "data");
  }

  lemma LiteralStatus(f: SaveForm)
    ensures Get(LiteralFields(f), "status") == None
  {
    var d := LiteralFields(f);
    assert forall j :: 0 <= j < |d| ==> d[j].0 != "status";
  }

  /** The form as the url-encoded dictionary sent: the literal's fields, then
      `status` when it was set; each field reads back what the form holds. */
  function FormFields(f: SaveForm): (d: Dict<string>)
    ensures Get(d, "minor") == Some(f.minor)
    ensures Get(d, "template") == Some(f.template)
    ensures Get(d, "data") == Some(f.data)
    ensures Get(d, "status") == StatusField(f.status)
  {
    LiteralMinor(f);
    LiteralTemplate(f);
    LiteralData(f);
    LiteralStatus(f);
    var fixed := LiteralFields(f);
    if f.status.Some? then Set(fixed, "status", StatusField(f.status).value) else fixed
  }

  /** The form before any status is added. */
  function EditorForm(updateDateStamp: bool, mdType: MetadataType, metadata: Xml): SaveForm {
    SaveForm(if updateDateStamp then "false" else "true", mdType.Value(), metadata, None)
  }

  /** The form carries the caller's choices: `minor` is "false" exactly when
      the date stamp is to be updated, and the status is the one `StatusSent`
      picks. */
  predicate FormCarries(form: SaveForm, updateDateStamp: bool, mdType: MetadataType, metadata: Xml, state: Option<WorkflowState>) {
    && (form.minor == "false" <==> updateDateStamp)
    && (form.minor == "true" <==> !updateDateStamp)
    && form.template == mdType.Value()
    && form.data == metadata
    && form.status == StatusSent(state)
  }

  /** The editor form once the status of `state`, if any, is added: the
      record type reads back from `template`, and the catalog is asked to
      keep an approved record SUBMITTED rather than APPROVED. */
  function SavedForm(updateDateStamp: bool, mdType: MetadataType, metadata: Xml, state: Option<WorkflowState>): (form: SaveForm)
    ensures FormCarries(form, updateDateStamp, mdType, metadata, state)
    ensures MetadataTypeOf(form.template) == Ok(mdType)
    ensures form.status.None? <==> state.None?
    ensures form.status != Some(WorkflowStatus.APPROVED)
    ensures state.Some? && state.value.status == WorkflowStatus.APPROVED ==> form.status == Some(WorkflowStatus.SUBMITTED)
    ensures state.Some? && state.value.status != WorkflowStatus.APPROVED ==> form.status == Some(state.value.status)
  {
    EditorForm(updateDateStamp, mdType, metadata).(status := StatusSent(state))
  }

  predicate NeedsReapproval(state: Option<WorkflowState>) {
    state.Some? && state.value.stage == WorkflowStage.APPROVED
  }

  /** The requests `update_record` sends, in order: the editor view; then,
      unless the view fails or the record has a working copy, the save of
      the new XML; then, once the save succeeds, the re-approval of a record
      that was approved. */
  function UpdateRequests(
    respond: Request -> Option<string>, uuid: string, metadata: Xml, mdType: MetadataType,
    updateDateStamp: bool, state: Option<WorkflowState>): (sent: seq<Request>)
  {
    var view := EditorView(uuid);
    if respond(view).Some? || IsWorkingCopy(state) then [view]
    else
      var save := EditorSave(uuid, SavedForm(updateDateStamp, mdType, metadata, state));
      if respond(save).Some? || !NeedsReapproval(state) then [view, save]
      else [view, save, StatusChange(uuid, REAPPROVAL_MESSAGE, WorkflowStatus.APPROVED)]
  }

  /** The shape of what `update_record` sends: the save goes out exactly when
      the view succeeds on a record without working copy, and carries the
      caller's choices; the re-approval goes out exactly when the save
      succeeds on an approved record. */
  lemma UpdateRequestsShape(
    respond: Request -> Option<string>, uuid: string, metadata: Xml, mdType: MetadataType,
    updateDateStamp: bool, state: Option<WorkflowState>)
    ensures var sent := UpdateRequests(respond, uuid, metadata, mdType, updateDateStamp, state);
      && 1 <= |sent| <= 3 && sent[0] == EditorView(uuid)
      && (|sent| >= 2 <==> respond(EditorView(uuid)).None? && !IsWorkingCopy(state))
      && (|sent| >= 2 ==>
            sent[1].EditorSave? && sent[1].uuid == uuid && FormCarries(sent[1].form, updateDateStamp, mdType, metadata, state))
      && (|sent| == 3 <==> |sent| >= 2 && respond(sent[1]).None? && NeedsReapproval(state))
      && (|sent| == 3 ==> sent[2] == StatusChange(uuid, REAPPROVAL_MESSAGE, WorkflowStatus.APPROVED))
  {
  }

  /** The error `update_record` ends with: none exactly when every request
      sent succeeds and the record has no working copy. */
  function UpdateError(
    respond: Request -> Option<string>, uuid: string, metadata: Xml, mdType: MetadataType,
    updateDateStamp: bool, state: Option<WorkflowState>): Option<string>
  {
    var view := EditorView(uuid);
    if respond(view).Some? then respond(view)
    else if IsWorkingCopy(state) then Some(WORKING_COPY_UNSUPPORTED)
    else
      var save := EditorSave(uuid, SavedForm(updateDateStamp, mdType, metadata, state));
      if respond(save).Some? then respond(save)
      else if NeedsReapproval(state) then respond(StatusChange(uuid, REAPPROVAL_MESSAGE, WorkflowStatus.APPROVED))
      else None
  }

  /** `update_record` reports no error exactly when the record has no working
      copy and every request it sends succeeds; a working copy is refused
      once the view succeeds. */
  lemma UpdateErrorMeaning(
    respond: Request -> Option<string>, uuid: string, metadata: Xml, mdType: MetadataType,
    updateDateStamp: bool, state: Option<WorkflowState>)
    ensures var sent := UpdateRequests(respond, uuid, metadata, mdType, updateDateStamp, state);
      var r := UpdateError(respond, uuid, metadata, mdType, updateDateStamp, state);
      && (r.None? <==> !IsWorkingCopy(state) && forall i :: 0 <= i < |sent| ==> respond(sent[i]).None?)
      && (r.Some? && !IsWorkingCopy(state) ==> exists i :: 0 <= i < |sent| && r == respond(sent[i]))
      && (respond(EditorView(uuid)).None? && IsWorkingCopy(state) ==> r == Some(WORKING_COPY_UNSUPPORTED))
      && (r.None? ==> |sent| == if NeedsReapproval(state) then 3 else 2)
  {
    var sent := UpdateRequests(respond, uuid, metadata, mdType, updateDateStamp, state);
    var r := UpdateError(respond, uuid, metadata, mdType, updateDateStamp, state);
    if r.Some? && !IsWorkingCopy(state) {
      assert r == respond(sent[|sent| - 1]);
    }
  }

  /** `update_record`: fetch the editor view, fill the editor form field by
      field, save it, then re-approve a record that was approved. */
  method UpdateRecord(
    respond: Request -> Option<string>, uuid: string, metadata: Xml, mdType: MetadataType,
    updateDateStamp: bool, state: Option<WorkflowState>)
    returns (sent: seq<Request>, error: Option<string>)
    ensures sent == UpdateRequests(respond, uuid, metadata, mdType, updateDateStamp, state)
    ensures error == UpdateError(respond, uuid, metadata, mdType, updateDateStamp, state)
  {
    sent := [EditorView(uuid)];
    error := respond(EditorView(uuid));
    if error.Some? {
      return;
    }
    var data := EditorForm(updateDateStamp, mdType, metadata);
    if state.Some? {
      if state.value.stage == WorkflowStage.WORKING_COPY {
        error := Some(WORKING_COPY_UNSUPPORTED);
        return;
      }
      if state.value.status == WorkflowStatus.APPROVED {
        data := data.(status := Some(WorkflowStatus.SUBMITTED));
      } else {
        data := data.(status := Some(state.value.status));
      }
    }
    var save := EditorSave(uuid, data);
    sent := [EditorView(uuid), save];
    error := respond(save);
    if error.Some? {
      return;
    }
    if state.Some? && state.value.stage == WorkflowStage.APPROVED {
      var approve := StatusChange(uuid, REAPPROVAL_MESSAGE, WorkflowStatus.APPROVED);
      sent := [EditorView(uuid), save, approve];
      error := respond(approve);
    }
  }

  const GENERATE_UUID := "GENERATEUUID"

  /** The parameters `put_record` sends: the type goes by its enum name. */
  function CreateParams(mdType: MetadataType, group: Option<int>): (p: PutParams)
    ensures p.uuidProcessing == GENERATE_UUID && p.group == group
    ensures p.metadataType == "TEMPLATE" <==> mdType == TEMPLATE
    ensures p.metadataType == "METADATA" <==> mdType == METADATA
  {
    PutParams(GENERATE_UUID, group, mdType.Name())
  }

  /** What `put_record(...)["new_record_uuid"]` gives: the creation's error,
      or the uuid read back from its answer. */
  function PutOutcome(put: Request -> Result<PutResponse>, metadata: Xml, mdType: MetadataType, group: Option<int>): (r: Result<Option<string>>)
    ensures put(Create(CreateParams(mdType, group), metadata)).Err? ==> r == Err(put(Create(CreateParams(mdType, group), metadata)).error)
    ensures put(Create(CreateParams(mdType, group), metadata)).Ok? ==> r == UuidOfPutResponse(put(Create(CreateParams(mdType, group), metadata)).value)
    ensures r.Ok? && r.value.Some? ==> IsUuid(r.value.value)
  {
    match put(Create(CreateParams(mdType, group), metadata))
    case Err(e) => Err(e)
    case Ok(response) => UuidOfPutResponse(response)
  }

  /** `put_record(...)["new_record_uuid"]`: create the record, then read its
      uuid back from the answer. */
  method PutRecord(put: Request -> Result<PutResponse>, metadata: Xml, mdType: MetadataType, group: Option<int>)
    returns (r: Result<Option<string>>)
    ensures r == PutOutcome(put, metadata, mdType, group)
  {
    var response := put(Create(CreateParams(mdType, group), metadata));
    if response.Err? {
      return Err(response.error);
    }
    r := ExtractUuidFromPutResponse(response.value);
  }
}
