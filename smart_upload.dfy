/** The upload bookkeeping of composables/useSmartUpload.ts: the storage-configured check, the
    multipart form and progress milestones of one upload, and the per-file status records of a
    batch. Server results are parameters; the files of a batch are uploaded one after another. */
module SmartUpload {
  import opened Js
  import ApiClient

  const NOT_CONFIGURED_MESSAGE := "Storage is not configured. Please configure a storage directory in Admin Settings before uploading photos."
  const STATUS_UNAVAILABLE_MESSAGE := "Unable to check storage configuration."
  const CHECK_FAILED_MESSAGE := "Unable to check storage configuration. Please try again or contact support."
  const UPLOAD_FILE_FAILED := "Failed to upload file"
  const UPLOAD_PREFIX := "upload-"

  /** The progress values one upload reports, in order. */
  const STARTED_PROGRESS := 10
  const PREPARED_PROGRESS := 30
  const DONE_PROGRESS := 100

  const METADATA_FIELDS: set<string> := {"caption", "description", "taken_at"}

  // Storage check

  /** `{ configured, message? }`; `message` is `Undefined` when absent. */
  datatype StorageCheck = StorageCheck(configured: bool, message: Value)

  /** `checkStorageConfiguration()` given how the status call completed. On success the
      `configured` flag is read with a strict property access, so a success without data
      lands in the catch. */
  function CheckStorageConfiguration(status: Outcome<ApiClient.ApiResponse>): (r: StorageCheck)
    ensures r.configured <==>
      status.Returned? && status.value.success
      && !IsNullish(status.value.data) && Truthy(OptionalProp(status.value.data, "configured"))
    ensures r.configured ==> r.message == Undefined
    ensures !r.configured ==> Truthy(r.message)
    ensures (status.Returned? && status.value.success && !IsNullish(status.value.data)
             && !Truthy(OptionalProp(status.value.data, "configured")))
      ==> r.message == Str(NOT_CONFIGURED_MESSAGE)
    ensures status.Returned? && !status.value.success ==>
      r.message == Or(status.value.error, Str(STATUS_UNAVAILABLE_MESSAGE))
    ensures status.Threw? || (status.value.success && IsNullish(status.value.data)) ==>
      r.message == Str(CHECK_FAILED_MESSAGE)
  {
    match status
    case Threw(_) => StorageCheck(false, Str(CHECK_FAILED_MESSAGE))
    case Returned(response) =>
      if response.success then
        match Prop(response.data, "configured")
        case Threw(_) => StorageCheck(false, Str(CHECK_FAILED_MESSAGE))
        case Returned(configured) =>
          if !Truthy(configured) then StorageCheck(false, Str(NOT_CONFIGURED_MESSAGE))
          else StorageCheck(true, Undefined)
      else StorageCheck(false, Or(response.error, Str(STATUS_UNAVAILABLE_MESSAGE)))
  }

  /** A status call that never reached the server is reported with the client's network message,
      not with the "contact support" message of the catch. */
  lemma UnreachableServerIsNotACatch(message: string, json: Json)
    ensures CheckStorageConfiguration(Returned(ApiClient.Normalize(ApiClient.Rejected(message), json)))
      == StorageCheck(false, Str(if message != "" then message else ApiClient.NETWORK_ERROR))
  {
  }

  // One upload

  /** The `opts` object: the fields the caller passed. */
  type Options = map<string, Value>

  function Field(opts: Options, key: string): Value {
    if key in opts then opts[key] else Undefined
  }

  /** The metadata record: only the truthy caption, description and taken_at. */
  function Metadata(opts: Options): (m: map<string, Value>)
    ensures forall k :: k in m ==> k in METADATA_FIELDS && k in opts && Truthy(opts[k]) && m[k] == opts[k]
    ensures forall k :: k in opts && k in METADATA_FIELDS && Truthy(opts[k]) ==> k in m
  {
    var withCaption: map<string, Value> :=
      if Truthy(Field(opts, "caption")) then map["caption" := Field(opts, "caption")] else map[];
    var withDescription :=
      if Truthy(Field(opts, "description")) then withCaption["description" := Field(opts, "description")] else withCaption;
    if Truthy(Field(opts, "taken_at")) then withDescription["taken_at" := Field(opts, "taken_at")] else withDescription
  }

  /** The FormData sent: the file, then a JSON 'metadata' part when `opts` has any key. */
  function UploadForm(file: ApiClient.File, opts: Option<Options>, json: Json): (form: ApiClient.FormData)
    ensures |form| >= 1 && form[0] == ("file", ApiClient.FilePart(file))
    ensures |form| == 2 <==> opts.Some? && opts.value != map[]
    ensures |form| == 2 ==> form[1] == ("metadata", ApiClient.TextPart(json.stringify(Obj(Metadata(opts.value)))))
    ensures |form| <= 2
  {
    [("file", ApiClient.FilePart(file))]
      + if opts.Some? && |opts.value| > 0
        then [("metadata", ApiClient.TextPart(json.stringify(Obj(Metadata(opts.value)))))]
        else []
  }

  /** The metadata part, once parsed by the server, holds exactly the truthy metadata fields. */
  lemma MetadataRoundTrip(file: ApiClient.File, opts: Options, json: Json)
    requires Faithful(json) && opts != map[]
    requires forall k :: k in opts ==> !opts[k].Arr? && !opts[k].Obj?
    ensures UploadForm(file, Some(opts), json)[1].1.TextPart?
    ensures json.parse(UploadForm(file, Some(opts), json)[1].1.text) == Some(Obj(Metadata(opts)))
  {
    var m := Metadata(opts);
    forall k | k in m
      ensures JsonNormal(m[k]) == m[k] && !m[k].Undefined?
    {
      JsonNormalKeepsPrimitives(m[k]);
    }
    assert JsonNormal(Obj(m)) == Obj(m);
  }

  /** What one `uploadFile` call does: the form it sends, the progress values it reports in
      order, and how it completes. */
  datatype FileUpload = FileUpload(form: ApiClient.FormData, progress: seq<int>, outcome: Outcome<Value>)

  /** `uploadFile(file, onProgress, opts)` given the server's result. A failed result throws
      `result.error || 'Failed to upload file'`; a success reads `result.data.id` strictly, which
      throws when the data is null, after 100 has been reported. */
  function UploadFile(file: ApiClient.File, opts: Option<Options>, result: ApiClient.ApiResponse, json: Json): (u: FileUpload)
    ensures u.form == UploadForm(file, opts, json)
    ensures |u.progress| >= 2 && u.progress[0] == STARTED_PROGRESS && u.progress[1] == PREPARED_PROGRESS
    ensures DONE_PROGRESS in u.progress <==> result.success
    ensures forall i, j :: 0 <= i < j < |u.progress| ==> u.progress[i] < u.progress[j]
    ensures u.outcome.Returned? <==> result.success && !IsNullish(result.data)
    ensures u.outcome.Returned? ==> u.outcome.value == OptionalProp(result.data, "id")
    ensures !result.success ==> u.outcome == Threw(ApiClient.FailureError(result, UPLOAD_FILE_FAILED))
    ensures result.success && IsNullish(result.data) ==> u.outcome == Threw(ReadError(result.data, "id"))
  {
    var form := UploadForm(file, opts, json);
    if !result.success then
      FileUpload(form, [STARTED_PROGRESS, PREPARED_PROGRESS], Threw(ApiClient.FailureError(result, UPLOAD_FILE_FAILED)))
    else
      FileUpload(form, [STARTED_PROGRESS, PREPARED_PROGRESS, DONE_PROGRESS], Prop(result.data, "id"))
  }

  // A batch

  datatype Status = Pending | Uploading | Processing | Completed | Failed

  /** An `UploadFile` record of `uploadFiles`. */
  datatype UploadItem = UploadItem(
    file: ApiClient.File, id: string, progress: int, status: Status,
    error: Option<string>, assetId: Option<Value>)

  /** The callbacks of `uploadFiles`, in the order they are made. */
  datatype Notice =
    | ProgressReported(id: string, progress: int)
    | FileCompleted(id: string, assetId: Value)
    | FileFailed(id: string, message: string)

  /** The inputs of one `uploadFiles` call: the files, the `Date.now()` reading taken for each,
      the options, and the server's result for each file. */
  datatype Batch = Batch(
    files: seq<ApiClient.File>, clock: nat -> nat, options: Option<Options>,
    results: nat -> ApiClient.ApiResponse, json: Json)

  /** `upload-${Date.now()}-${index}`. */
  function UploadId(now: nat, index: nat): string {
    UPLOAD_PREFIX + NatToString(now) + "-" + NatToString(index)
  }

  /** An id is the prefix, the decimal clock reading, one dash, and the decimal index; the
      clock digits contain no dash, so the first dash after the prefix ends them. */
  lemma UploadIdLayout(now: nat, index: nat)
    ensures var id := UploadId(now, index);
      var k := |UPLOAD_PREFIX| + |NatToString(now)|;
      && |id| == k + 1 + |NatToString(index)|
      && id[..|UPLOAD_PREFIX|] == UPLOAD_PREFIX
      && id[|UPLOAD_PREFIX|..k] == NatToString(now)
      && id[k] == '-'
      && (forall c :: |UPLOAD_PREFIX| <= c < k ==> id[c] != '-')
      && id[k + 1..] == NatToString(index)
  {
    var id := UploadId(now, index);
    var k := |UPLOAD_PREFIX| + |NatToString(now)|;
    assert id == UPLOAD_PREFIX + NatToString(now) + "-" + NatToString(index);
    assert id[|UPLOAD_PREFIX|..k] == NatToString(now);
    forall c | |UPLOAD_PREFIX| <= c < k
      ensures id[c] != '-'
    {
      assert id[c] == NatToString(now)[c - |UPLOAD_PREFIX|];
    }
  }

  /** A digit string followed by '-' is not a proper prefix of a longer digit string. */
  lemma DashAfterDigits(a: string, b: string, a': string, b': string)
    requires AllDigits(a') && |a| < |a'|
    ensures a + "-" + b != a' + "-" + b'
  {
    assert (a + "-" + b)[|a|] == '-';
    assert (a' + "-" + b')[|a|] == a'[|a|];
  }

  /** Two digit strings followed by '-' split the same way. */
  lemma {:induction false} SplitAtDash(a: string, b: string, a': string, b': string)
    requires AllDigits(a) && AllDigits(a')
    requires a + "-" + b == a' + "-" + b'
    ensures a == a' && b == b'
  {
    var s := a + "-" + b;
    if |a| < |a'| {
      DashAfterDigits(a, b, a', b');
      assert false;
    } else if |a'| < |a| {
      DashAfterDigits(a', b', a, b);
      assert false;
    }
    assert a == s[..|a|] == a';
    assert b == s[|a| + 1..] == b';
  }

  /** Upload ids determine both the clock reading and the index, so the ids of one batch are
      distinct even when the clock moves between files. */
  lemma UploadIdInjective(now: nat, i: nat, now': nat, j: nat)
    requires UploadId(now, i) == UploadId(now', j)
    ensures now == now' && i == j
  {
    var s := UploadId(now, i);
    assert s == UPLOAD_PREFIX + (NatToString(now) + "-" + NatToString(i));
    assert s == UPLOAD_PREFIX + (NatToString(now') + "-" + NatToString(j));
    var rest := s[|UPLOAD_PREFIX|..];
    assert rest == NatToString(now) + "-" + NatToString(i);
    assert rest == NatToString(now') + "-" + NatToString(j);
    SplitAtDash(NatToString(now), NatToString(i), NatToString(now'), NatToString(j));
    NatToStringInjective(now, now');
    NatToStringInjective(i, j);
  }

  /** The record created for file `i` before any upload starts. */
  function Queued(b: Batch, i: nat): (item: UploadItem)
    requires i < |b.files|
  {
    UploadItem(b.files[i], UploadId(b.clock(i), i), 0, Pending, None, None)
  }

  /** The upload of file `i`. */
  function UploadOf(b: Batch, i: nat): FileUpload
    requires i < |b.files|
  {
    UploadFile(b.files[i], b.options, b.results(i), b.json)
  }

  /** The record of file `i` once its upload has completed or failed. Every exception the
      modelled upload raises is an Error, so the record keeps its message. */
  function Settled(b: Batch, i: nat): (item: UploadItem)
    requires i < |b.files|
  {
    var u := UploadOf(b, i);
    var q := Queued(b, i);
    match u.outcome
    case Returned(assetId) =>
      q.(progress := u.progress[|u.progress| - 1], status := Completed, assetId := Some(assetId))
    case Threw(e) =>
      q.(progress := u.progress[|u.progress| - 1], status := Failed, error := Some(e.message))
  }

  /** The progress callbacks of one upload. */
  function ProgressNotices(id: string, progress: seq<int>): (ns: seq<Notice>)
    ensures |ns| == |progress|
    ensures forall k :: 0 <= k < |ns| ==> ns[k] == ProgressReported(id, progress[k])
  {
    if progress == [] then [] else ProgressNotices(id, progress[..|progress| - 1]) + [ProgressReported(id, progress[|progress| - 1])]
  }

  /** The callbacks for file `i`: its progress values, then exactly one completion or error. */
  function ItemNotices(b: Batch, i: nat): seq<Notice>
    requires i < |b.files|
  {
    var u := UploadOf(b, i);
    var id := Queued(b, i).id;
    ProgressNotices(id, u.progress)
      + match u.outcome
        case Returned(assetId) => [FileCompleted(id, assetId)]
        case Threw(e) => [FileFailed(id, e.message)]
  }

  /** The callbacks for the first `n` files. */
  function BatchNotices(b: Batch, n: nat): seq<Notice>
    requires n <= |b.files|
  {
    if n == 0 then [] else BatchNotices(b, n - 1) + ItemNotices(b, n - 1)
  }

  /** The settled records of the first `n` files. */
  function SettledUpTo(b: Batch, n: nat): (items: seq<UploadItem>)
    requires n <= |b.files|
    ensures |items| == n
  {
    if n == 0 then [] else SettledUpTo(b, n - 1) + [Settled(b, n - 1)]
  }

  lemma {:induction false} SettledUpToAt(b: Batch, n: nat, j: nat)
    requires j < n <= |b.files|
    ensures SettledUpTo(b, n)[j] == Settled(b, j)
  {
    if j < n - 1 {
      SettledUpToAt(b, n - 1, j);
    }
  }

  /** `uploadFiles(files, onProgress, onFileComplete, onFileError, options)`: the final records,
      one per file in input order, and the callbacks made. */
  method UploadFiles(b: Batch) returns (items: seq<UploadItem>, notices: seq<Notice>)
    ensures |items| == |b.files|
    ensures forall i :: 0 <= i < |items| ==> items[i] == Settled(b, i)
    ensures notices == BatchNotices(b, |b.files|)
  {
    items := [];
    notices := [];
    var i := 0;
    while i < |b.files|
      invariant 0 <= i <= |b.files|
      invariant items == SettledUpTo(b, i)
      invariant notices == BatchNotices(b, i)
    {
      var item, reported := SettleItem(b, i, Queued(b, i));
      items := items + [item];
      notices := notices + reported;
      i := i + 1;
    }
    forall j | 0 <= j < |items|
      ensures items[j] == Settled(b, j)
    {
      SettledUpToAt(b, |b.files|, j);
    }
  }

  /** The per-file task of `uploadFiles`: marks the queued record uploading, records each
      progress value as it is reported, then completes or fails it. Returns the settled record
      and the callbacks made for this file. */
  method SettleItem(b: Batch, i: nat, queued: UploadItem) returns (item: UploadItem, reported: seq<Notice>)
    requires i < |b.files| && queued == Queued(b, i)
    ensures item == Settled(b, i)
    ensures reported == ItemNotices(b, i)
  {
    item := queued.(status := Uploading);
    var u := UploadFile(item.file, b.options, b.results(i), b.json);
    reported := [];
    var p := 0;
    while p < |u.progress|
      invariant 0 <= p <= |u.progress|
      invariant item == Queued(b, i).(status := Uploading, progress := if p == 0 then 0 else u.progress[p - 1])
      invariant reported == ProgressNotices(item.id, u.progress[..p])
    {
      item := item.(progress := u.progress[p]);
      reported := reported + [ProgressReported(item.id, u.progress[p])];
      assert u.progress[..p + 1][..p] == u.progress[..p];
      p := p + 1;
    }
    assert u.progress[..p] == u.progress;
    match u.outcome {
      case Returned(assetId) =>
        item := item.(status := Completed, assetId := Some(assetId));
        reported := reported + [FileCompleted(item.id, assetId)];
      case Threw(e) =>
        item := item.(status := Failed, error := Some(e.message));
        reported := reported + [FileFailed(item.id, e.message)];
    }
  }

  /** The final record of file `i`: it keeps its file and id, shows the last progress value
      reported, is completed with `data.id` exactly when the server succeeded with data, and
      otherwise failed with the message of the error thrown. */
  lemma SettledRecord(b: Batch, i: nat)
    requires i < |b.files|
    ensures var item := Settled(b, i);
      && item.file == b.files[i] && item.id == UploadId(b.clock(i), i)
      && item.progress == UploadOf(b, i).progress[|UploadOf(b, i).progress| - 1]
      && (item.status == Completed <==> b.results(i).success && !IsNullish(b.results(i).data))
      && (item.status == Completed ==> item.assetId == Some(OptionalProp(b.results(i).data, "id")) && item.error.None?)
      && (item.status != Completed ==> item.status == Failed && item.assetId.None? && item.error.Some?)
      && (!b.results(i).success ==>
            item.error == Some(ApiClient.FailureError(b.results(i), UPLOAD_FILE_FAILED).message))
      && (b.results(i).success && IsNullish(b.results(i).data) ==>
            item.error == Some(ReadError(b.results(i).data, "id").message))
  {
  }

  /** Every record ends either completed with an asset id or failed with a message, never both,
      and keeps the id it was queued with. */
  lemma SettledExclusive(b: Batch, i: nat)
    requires i < |b.files|
    ensures Settled(b, i).status == Completed || Settled(b, i).status == Failed
    ensures Settled(b, i).status == Completed <==> Settled(b, i).assetId.Some?
    ensures Settled(b, i).status == Failed <==> Settled(b, i).error.Some?
    ensures Settled(b, i).id == UploadId(b.clock(i), i) && Settled(b, i).file == b.files[i]
  {
  }

  /** A record's progress is the last value passed to its progress callback, and a completed
      record reached 100. */
  lemma ProgressIsLastReported(b: Batch, i: nat)
    requires i < |b.files|
    ensures var ns := ProgressNotices(Settled(b, i).id, UploadOf(b, i).progress);
      ns != [] && ns[|ns| - 1] == ProgressReported(Settled(b, i).id, Settled(b, i).progress)
    ensures Settled(b, i).status == Completed ==> Settled(b, i).progress == DONE_PROGRESS && b.results(i).success
  {
  }

  /** The callbacks for one file end with exactly one completion or error, and it matches the
      record's final state. */
  lemma {:induction false} OneTerminalNotice(b: Batch, i: nat)
    requires i < |b.files|
    ensures var ns := ItemNotices(b, i);
      && |ns| == |UploadOf(b, i).progress| + 1
      && (forall k :: 0 <= k < |ns| - 1 ==> ns[k].ProgressReported?)
      && (ns[|ns| - 1].FileCompleted? <==> Settled(b, i).status == Completed)
      && (ns[|ns| - 1].FileFailed? <==> Settled(b, i).status == Failed)
  {
  }

  /** Distinct positions of one batch get distinct ids. */
  lemma BatchIdsDistinct(b: Batch, i: nat, j: nat)
    requires i < j < |b.files|
    ensures Settled(b, i).id != Settled(b, j).id
  {
    if Settled(b, i).id == Settled(b, j).id {
      UploadIdInjective(b.clock(i), i, b.clock(j), j);
    }
  }
}
