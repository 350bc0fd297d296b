/**
 * The upload workflow's pure parts (app.py:97-100, 465-526): the endpoint,
 * the default display name, the document id taken from the reply or made up
 * by the client, and the registry record built from a successful reply.
 */
module Upload {
  import opened Wrappers
  import opened Text
  import opened Records

  const UploadPath: string := "/upload"

  /** `get_upload_endpoint`: the API URL with its trailing slashes removed, followed by "/upload". */
  function UploadEndpoint(apiUrl: string): (r: string)
    ensures |r| >= |UploadPath| && r[|r| - |UploadPath|..] == UploadPath
    ensures var base := r[..|r| - |UploadPath|];
      && base <= apiUrl
      && (base == [] || base[|base| - 1] != '/')
      && forall k | |base| <= k < |apiUrl| :: apiUrl[k] == '/'
  {
    var base := RStrip(apiUrl, '/');
    assert (base + UploadPath)[..|base|] == base;
    base + UploadPath
  }

  /** A trailing slash on the configured URL does not change the endpoint. */
  lemma EndpointIgnoresTrailingSlash(apiUrl: string)
    ensures UploadEndpoint(apiUrl + "/") == UploadEndpoint(apiUrl)
  {
    assert (apiUrl + "/")[..|apiUrl|] == apiUrl;
  }

  /** The name field's initial value: the file name with every ".pdf" removed (app.py:467). */
  function DefaultDisplayName(fileName: string): string {
    RemoveAll(fileName, ".pdf")
  }

  /** For a stem without a dot, the default display name of `stem + ".pdf"` is the stem. */
  lemma {:induction false} DefaultDisplayNameDropsExtension(stem: string)
    requires '.' !in stem
    ensures DefaultDisplayName(stem + ".pdf") == stem
    decreases |stem|
  {
    if stem == [] {
      assert stem + ".pdf" == ".pdf";
    } else {
      assert (stem + ".pdf")[1..] == stem[1..] + ".pdf";
      assert !(".pdf" <= stem + ".pdf") by { assert (stem + ".pdf")[0] == stem[0]; }
      DefaultDisplayNameDropsExtension(stem[1..]);
      assert [stem[0]] + stem[1..] == stem;
    }
  }

  /** The id the client makes up when the reply carries none: "doc_<epoch>_<first 20 characters of the file name>". */
  function SynthesizedId(epoch: int, fileName: string): string {
    "doc_" + IntToString(epoch) + "_" + Take(fileName, 20)
  }

  /** Splits a made-up id back into its epoch and file-name part. */
  function ParseSynthesizedId(id: string): Option<(int, string)> {
    if !("doc_" <= id) then None
    else match SplitAtFirst(id[4..], '_')
      case None => None
      case Some(parts) =>
        match ParseInt(parts.0)
        case None => None
        case Some(epoch) => Some((epoch, parts.1))
  }

  /** A made-up id records the epoch and the truncated file name it was made from. */
  lemma SynthesizedIdRoundTrip(epoch: int, fileName: string)
    ensures ParseSynthesizedId(SynthesizedId(epoch, fileName)) == Some((epoch, Take(fileName, 20)))
  {
    var digits := IntToString(epoch);
    var id := SynthesizedId(epoch, fileName);
    assert '_' !in digits by {
      forall k | 0 <= k < |digits| ensures digits[k] != '_' {
        assert digits[k] == '-' || IsDigit(digits[k]);
      }
    }
    assert id[4..] == digits + ['_'] + Take(fileName, 20);
    SplitAtFirstJoin(digits, '_', Take(fileName, 20));
    IntToStringRoundTrip(epoch);
  }

  /**
   * The document id of a successful upload: the first non-empty one of the
   * reply's `document_id`, `id` and `file_id`, else a made-up one.
   */
  function ResolveDocumentId(body: UploadBody, epoch: int, fileName: string): (r: string)
    ensures r != ""
    ensures Truthy(body.documentId) ==> r == body.documentId.value
    ensures !Truthy(body.documentId) && Truthy(body.id) ==> r == body.id.value
    ensures !Truthy(body.documentId) && !Truthy(body.id) && Truthy(body.fileId) ==> r == body.fileId.value
    ensures !Truthy(body.documentId) && !Truthy(body.id) && !Truthy(body.fileId) ==>
      ParseSynthesizedId(r) == Some((epoch, Take(fileName, 20)))
  {
    if Truthy(body.documentId) then body.documentId.value
    else if Truthy(body.id) then body.id.value
    else if Truthy(body.fileId) then body.fileId.value
    else SynthesizedIdRoundTrip(epoch, fileName); SynthesizedId(epoch, fileName)
  }

  /** The registry record a successful upload appends (app.py:513-524). */
  function NewDocument(
    fileName: string, processName: string, sizeBytes: nat, chunkSize: int, chunkOverlap: int,
    body: UploadBody, epoch: int, stamp: string): (d: Document)
    ensures d.name == (if processName != "" then processName else fileName)
    ensures fileName != "" ==> d.name != ""
    ensures d.originalFilename == fileName && d.sizeBytes == sizeBytes
    ensures d.chunks == body.chunksAdded.GetOr(0)
    ensures d.chunkSize == chunkSize && d.chunkOverlap == chunkOverlap
    ensures d.documentId == ResolveDocumentId(body, epoch, fileName) && d.documentId != ""
    ensures d.status == Processed && d.timestamp == stamp && d.uploadResponse == body
  {
    Document(
      if processName != "" then processName else fileName,
      fileName, sizeBytes, body.chunksAdded.GetOr(0), chunkSize, chunkOverlap, stamp,
      Processed, ResolveDocumentId(body, epoch, fileName), body)
  }

  /** What the upload reports to the user; only `Uploaded` comes with a new registry entry. */
  datatype UploadReport =
    | Uploaded(documentId: string)
    | Rejected(status: int)
    | TimedOut
    | Failed(message: string)
}
