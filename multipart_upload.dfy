/**
 * The multipart upload component (client/src/Multipart.js).
 *
 * The network is a value of type `Network`: the reply each request gets.
 * `UploadRun` states what one run of `uploadMultipartFile` sends and how it
 * ends; the class `MultipartUploader` holds the component's state cells
 * and its handlers update them as the source does.
 */
module MultipartUpload {

  import opened Wrappers
  import opened Http
  import opened Text
  import opened Chunking
  import opened Progress

  /** The chosen file: its name, its MIME type and its size in bytes. */
  datatype SourceFile = SourceFile(name: string, mimeType: string, size: nat)

  /** Bodies of the API's replies; a field missing from a reply is the empty string. */
  datatype IdData = IdData(status: bool, uploadId: string, message: string)
  datatype UrlData = UrlData(uploadUrl: string)
  datatype PutData = PutData(etag: string)
  datatype LocationData = LocationData(location: string)

  /**
   * How the network answers each request: `url` and `put` by part number.
   * The body of the abort reply is never read.
   */
  datatype Network = Network(
    start: Reply<IdData>,
    url: nat -> Reply<UrlData>,
    put: nat -> Reply<PutData>,
    complete: Reply<LocationData>,
    abort: Reply<bool>)

  /** The requests the component sends, in the order it sends them. */
  datatype Request =
    | StartRequest(fileName: string, fileType: string)
    | UrlRequest(fileName: string, partNumber: nat, uploadId: string)
    | PutRequest(url: string, blob: Range, contentType: string)
    | CompleteRequest(fileName: string, parts: seq<ManifestEntry>, uploadId: string)
    | AbortRequest(fileName: string, uploadId: string)

  /** How a run ends: the location of the assembled file, or the error shown. */
  datatype Outcome = Uploaded(location: string) | Failure(error: string)

  datatype Run = Run(trace: seq<Request>, outcome: Outcome)

  const UploadedMessage := "Successfully uploaded"
  const AbortedMessage := "Successfully aborted"
  const StartFailedMessage := "Unable to start upload. Try again!"
  const MissingUrlsMessage := "Missing urls found. Try again!"
  const MissingFieldsMessage := "Missing fields found. Try again!"
  const AbortFailedMessage := "Unable to abort"

  /** `${Date.now()}-${inputFile?.name}`: the timestamp, a dash, the file's name. */
  function FileName(now: nat, chosen: Option<SourceFile>): (s: string)
    ensures Split(s, '-')[0] == Decimal(now)
    ensures |s| > |Decimal(now)|
    ensures chosen.Some? ==> s[|Decimal(now)| + 1..] == chosen.value.name
  {
    var stamp := Decimal(now);
    var name := if chosen.Some? then chosen.value.name else "undefined";
    assert '-' !in stamp;
    SplitAtFirst(stamp, '-', name);
    stamp + "-" + name
  }

  /** Files chosen at different instants get different names, whatever their own names. */
  lemma FileNamesDistinct(now1: nat, chosen1: Option<SourceFile>, now2: nat, chosen2: Option<SourceFile>)
    requires now1 != now2
    ensures FileName(now1, chosen1) != FileName(now2, chosen2)
  {
    if FileName(now1, chosen1) == FileName(now2, chosen2) {
      DecimalRoundTrip(now1);
      DecimalRoundTrip(now2);
    }
  }

  /** One URL request per part, numbered from 1. */
  function UrlRequests(fileName: string, uploadId: string, n: nat): (r: seq<Request>)
    ensures |r| == n
    ensures forall i :: 0 <= i < n ==> r[i] == UrlRequest(fileName, i + 1, uploadId)
  {
    seq(n, i requires 0 <= i < n => UrlRequest(fileName, i + 1, uploadId))
  }

  /** `item?.data?.uploadUrl` of each reply (a rejected reply has none). */
  function UrlsOf(replies: seq<Reply<UrlData>>): (urls: seq<string>)
    ensures |urls| == |replies|
  {
    seq(|replies|, i requires 0 <= i < |replies| => if replies[i].Ok? then replies[i].data.uploadUrl else "")
  }

  /** `item?.headers?.etag` of each reply (a rejected reply has none). */
  function EtagsOf(replies: seq<Reply<PutData>>): (etags: seq<string>)
    ensures |etags| == |replies|
  {
    seq(|replies|, i requires 0 <= i < |replies| => if replies[i].Ok? then replies[i].data.etag else "")
  }

  /** `uploadUrlsArray.every(Boolean)`. */
  predicate AllPresent(urls: seq<string>)
  {
    forall i :: 0 <= i < |urls| ==> urls[i] != ""
  }

  /** One PUT per part: part `i`'s bytes to the `i`-th URL. */
  function PutRequests(urls: seq<string>, parts: seq<Range>, contentType: string): (r: seq<Request>)
    requires |urls| == |parts|
    ensures |r| == |parts|
    ensures forall i :: 0 <= i < |parts| ==> r[i] == PutRequest(urls[i], parts[i], contentType)
  {
    seq(|parts|, i requires 0 <= i < |parts| => PutRequest(urls[i], parts[i], contentType))
  }

  /** How one `Promise.all` stage ends: its result, or the error that stops the run. */
  datatype Stage<T> = Passed(value: T) | Stopped(error: string)

  /** Every one of the `n` URL requests succeeded with a URL. */
  ghost predicate UrlsArrived(n: nat, net: Network)
  {
    forall k :: 1 <= k <= n ==> net.url(k).Ok? && net.url(k).data.uploadUrl != ""
  }

  /** Every one of the `n` PUTs succeeded with an ETag. */
  ghost predicate PartsAcknowledged(n: nat, net: Network)
  {
    forall k :: 1 <= k <= n ==> net.put(k).Ok? && net.put(k).data.etag != ""
  }

  /**
   * The URL stage: a rejected request stops the run with the server's
   * message (or the default); so does a reply without a URL.
   */
  function UrlStage(replies: seq<Reply<UrlData>>): (r: Stage<seq<string>>)
    ensures r.Passed? ==> |r.value| == |replies|
  {
    var failure := FirstFailure(replies);
    if failure.Some? then Stopped(OrElse(failure.value, MissingUrlsMessage))
    else
      var urls := UrlsOf(replies);
      if AllPresent(urls) then Passed(urls) else Stopped(MissingUrlsMessage)
  }

  /**
   * The PUT stage: a rejected PUT stops the run with the server's message
   * (or, as the source has it, "Missing urls found"); a reply without an
   * ETag stops it with "Missing fields found"; otherwise the manifest.
   */
  function PutStage(replies: seq<Reply<PutData>>): (r: Stage<seq<ManifestEntry>>)
  {
    var failure := FirstFailure(replies);
    if failure.Some? then Stopped(OrElse(failure.value, MissingUrlsMessage))
    else
      var manifest := Manifest(EtagsOf(replies));
      if ManifestReady(manifest) then Passed(manifest) else Stopped(MissingFieldsMessage)
  }

  /**
   * The URL stage passes exactly when every URL arrived, and then yields the
   * URLs in part order. When a request is rejected, the error is the message
   * of the first rejected one (or the default); when every request resolved
   * but a URL is missing, it is "Missing urls found. Try again!".
   */
  lemma UrlStageOutcome(n: nat, net: Network)
    ensures var r := UrlStage(Replies(net.url, n));
      && (r.Passed? <==> UrlsArrived(n, net))
      && (r.Passed? ==> forall i :: 0 <= i < n ==> r.value[i] == net.url(i + 1).data.uploadUrl)
      && ((exists k :: 1 <= k <= n && net.url(k).Failed?) ==>
            exists k :: 1 <= k <= n && net.url(k).Failed? && (forall j :: 1 <= j < k ==> net.url(j).Ok?)
                        && r == Stopped(OrElse(net.url(k).message, MissingUrlsMessage)))
      && ((forall k :: 1 <= k <= n ==> net.url(k).Ok?) && !UrlsArrived(n, net) ==> r == Stopped(MissingUrlsMessage))
      && (r.Stopped? ==> r.error == MissingUrlsMessage || exists k :: 1 <= k <= n && net.url(k) == Failed(r.error))
  {
    var replies := Replies(net.url, n);
    var failure := FirstFailure(replies);
    if failure.Some? {
      var i :| 0 <= i < n && replies[i] == Failed(failure.value) && forall j :: 0 <= j < i ==> replies[j].Ok?;
      assert net.url(i + 1).Failed?;
      forall j | 1 <= j < i + 1
        ensures net.url(j).Ok?
      {
        assert replies[j - 1] == net.url(j);
      }
    } else if !AllPresent(UrlsOf(replies)) {
      forall k | 1 <= k <= n
        ensures net.url(k).Ok?
      {
        assert replies[k - 1] == net.url(k);
      }
      var i :| 0 <= i < n && UrlsOf(replies)[i] == "";
      assert net.url(i + 1).data.uploadUrl == "";
    } else {
      forall k | 1 <= k <= n
        ensures net.url(k).Ok? && net.url(k).data.uploadUrl != ""
      {
        assert replies[k - 1] == net.url(k);
        assert UrlsOf(replies)[k - 1] != "";
      }
    }
  }

  /**
   * The PUT stage passes exactly when every part was acknowledged, and then
   * yields the manifest: part `i + 1` with the ETag of its PUT's reply. When
   * a PUT is rejected, the error is the message of the first rejected one
   * (or "Missing urls found. Try again!"); when every PUT resolved but an
   * ETag is missing, it is "Missing fields found. Try again!".
   */
  lemma PutStageOutcome(n: nat, net: Network)
    ensures var r := PutStage(Replies(net.put, n));
      && (r.Passed? <==> PartsAcknowledged(n, net))
      && (r.Passed? ==> |r.value| == n && forall i :: 0 <= i < n ==> r.value[i] == ManifestEntry(net.put(i + 1).data.etag, i + 1))
      && ((exists k :: 1 <= k <= n && net.put(k).Failed?) ==>
            exists k :: 1 <= k <= n && net.put(k).Failed? && (forall j :: 1 <= j < k ==> net.put(j).Ok?)
                        && r == Stopped(OrElse(net.put(k).message, MissingUrlsMessage)))
      && ((forall k :: 1 <= k <= n ==> net.put(k).Ok?) && !PartsAcknowledged(n, net) ==> r == Stopped(MissingFieldsMessage))
  {
    var replies := Replies(net.put, n);
    var failure := FirstFailure(replies);
    var manifest := Manifest(EtagsOf(replies));
    if failure.Some? {
      var i :| 0 <= i < n && replies[i] == Failed(failure.value) && forall j :: 0 <= j < i ==> replies[j].Ok?;
      assert net.put(i + 1).Failed?;
      forall j | 1 <= j < i + 1
        ensures net.put(j).Ok?
      {
        assert replies[j - 1] == net.put(j);
      }
    } else if !ManifestReady(manifest) {
      forall k | 1 <= k <= n
        ensures net.put(k).Ok?
      {
        assert replies[k - 1] == net.put(k);
      }
      var i :| 0 <= i < n && !(manifest[i].etag != "" && manifest[i].partNumber != 0);
      assert net.put(i + 1).data.etag == "";
    } else {
      forall k | 1 <= k <= n
        ensures net.put(k).Ok? && net.put(k).data.etag != ""
      {
        assert replies[k - 1] == net.put(k);
        assert manifest[k - 1].etag != "";
      }
    }
  }

  /**
   * `uploadMultipartFile(fileName, uploadId)` for the file `f`: all URL
   * requests, then (if every one succeeded with a URL) all PUTs, then (if
   * every PUT succeeded and every reply carried an ETag) the completion
   * request. `Promise.all` is read as a fold in part order, so the message
   * shown is that of the first rejected request by part number.
   */
  function UploadRun(fileName: string, uploadId: string, f: SourceFile, net: Network): Run
  {
    var n := PartCount(f.size);
    var urlSent := UrlRequests(fileName, uploadId, n);
    match UrlStage(Replies(net.url, n))
    case Stopped(e) => Run(urlSent, Failure(e))
    case Passed(urls) =>
      var putSent := PutRequests(urls, Chunks(f.size), f.mimeType);
      match PutStage(Replies(net.put, n))
      case Stopped(e) => Run(urlSent + putSent, Failure(e))
      case Passed(manifest) =>
        var trace := urlSent + putSent + [CompleteRequest(fileName, manifest, uploadId)];
        match net.complete
        case Failed(m) => Run(trace, Failure(OrElse(m, MissingUrlsMessage)))
        case Ok(d) => Run(trace, Uploaded(d.location))
  }

  /** Every run first asks for one URL per part, numbered 1 to N in part order. */
  lemma RunAsksOneUrlPerPart(fileName: string, uploadId: string, f: SourceFile, net: Network)
    ensures var n := PartCount(f.size); var trace := UploadRun(fileName, uploadId, f, net).trace;
      && |trace| >= n
      && forall i :: 0 <= i < n ==> trace[i] == UrlRequest(fileName, i + 1, uploadId)
  {
  }

  /**
   * Unless every URL arrived, nothing but the URL requests is sent (no PUT,
   * no completion), and the run fails: with the first rejected URL request's
   * message (or "Missing urls found. Try again!" when it has none), or, when
   * every request resolved but a URL is missing, with "Missing urls found. Try again!".
   */
  lemma NoPutWithoutEveryUrl(fileName: string, uploadId: string, f: SourceFile, net: Network)
    requires !UrlsArrived(PartCount(f.size), net)
    ensures var n := PartCount(f.size); var run := UploadRun(fileName, uploadId, f, net);
      && run.trace == UrlRequests(fileName, uploadId, n)
      && run.outcome.Failure?
      && ((exists k :: 1 <= k <= n && net.url(k).Failed?) ==>
            exists k :: 1 <= k <= n && net.url(k).Failed? && (forall j :: 1 <= j < k ==> net.url(j).Ok?)
                        && run.outcome == Failure(OrElse(net.url(k).message, MissingUrlsMessage)))
      && ((forall k :: 1 <= k <= n ==> net.url(k).Ok?) ==> run.outcome == Failure(MissingUrlsMessage))
  {
    UrlStageOutcome(PartCount(f.size), net);
  }

  /**
   * When every URL arrived but a PUT is rejected, the run stops after the
   * PUTs, without completion, and shows the first rejected PUT's message or
   * "Missing urls found. Try again!".
   */
  lemma RejectedPutStopsRun(fileName: string, uploadId: string, f: SourceFile, net: Network)
    requires UrlsArrived(PartCount(f.size), net)
    requires exists k :: 1 <= k <= PartCount(f.size) && net.put(k).Failed?
    ensures var n := PartCount(f.size); var run := UploadRun(fileName, uploadId, f, net);
      && |run.trace| == 2 * n
      && (forall i :: 0 <= i < |run.trace| ==> !run.trace[i].CompleteRequest?)
      && exists k :: 1 <= k <= n && net.put(k).Failed? && (forall j :: 1 <= j < k ==> net.put(j).Ok?)
                     && run.outcome == Failure(OrElse(net.put(k).message, MissingUrlsMessage))
  {
    UrlStageOutcome(PartCount(f.size), net);
    PutStageOutcome(PartCount(f.size), net);
  }

  /**
   * When every URL arrived and every PUT resolved but a reply lacks its ETag,
   * the run stops after the PUTs, without completion, and shows
   * "Missing fields found. Try again!".
   */
  lemma MissingEtagStopsRun(fileName: string, uploadId: string, f: SourceFile, net: Network)
    requires UrlsArrived(PartCount(f.size), net)
    requires forall k :: 1 <= k <= PartCount(f.size) ==> net.put(k).Ok?
    requires !PartsAcknowledged(PartCount(f.size), net)
    ensures var run := UploadRun(fileName, uploadId, f, net);
      && |run.trace| == 2 * PartCount(f.size)
      && (forall i :: 0 <= i < |run.trace| ==> !run.trace[i].CompleteRequest?)
      && run.outcome == Failure(MissingFieldsMessage)
  {
    UrlStageOutcome(PartCount(f.size), net);
    PutStageOutcome(PartCount(f.size), net);
  }

  /** When every URL arrived, part `i`'s bytes go to the `i`-th URL, right after the URL requests. */
  lemma PutsCarryTheirParts(fileName: string, uploadId: string, f: SourceFile, net: Network)
    requires UrlsArrived(PartCount(f.size), net)
    ensures var n := PartCount(f.size); var trace := UploadRun(fileName, uploadId, f, net).trace;
      && |trace| >= 2 * n
      && forall i :: 0 <= i < n ==> trace[n + i] == PutRequest(net.url(i + 1).data.uploadUrl, Chunks(f.size)[i], f.mimeType)
  {
    var n := PartCount(f.size);
    UrlStageOutcome(n, net);
    var urlSent := UrlRequests(fileName, uploadId, n);
    var putSent := PutRequests(UrlStage(Replies(net.url, n)).value, Chunks(f.size), f.mimeType);
    var trace := UploadRun(fileName, uploadId, f, net).trace;
    var tail := trace[2 * n..];
    assert trace == urlSent + putSent + tail by {
      match PutStage(Replies(net.put, n))
      case Stopped(_) =>
        assert trace == urlSent + putSent;
      case Passed(manifest) =>
        assert trace == urlSent + putSent + [CompleteRequest(fileName, manifest, uploadId)];
    }
    forall i | 0 <= i < n
      ensures trace[n + i] == putSent[i]
    {
      assert (urlSent + putSent + tail)[n + i] == putSent[i];
    }
  }

  /**
   * The completion request is sent exactly when every part was acknowledged,
   * and then it is the last of `2N + 1` requests, with the manifest numbering
   * the parts' ETags from 1 in part order.
   */
  lemma CompletionIffEveryPartAcknowledged(fileName: string, uploadId: string, f: SourceFile, net: Network)
    ensures var n := PartCount(f.size); var trace := UploadRun(fileName, uploadId, f, net).trace;
      && ((exists i :: 0 <= i < |trace| && trace[i].CompleteRequest?) <==> UrlsArrived(n, net) && PartsAcknowledged(n, net))
      && (UrlsArrived(n, net) && PartsAcknowledged(n, net) ==>
            && |trace| == 2 * n + 1
            && trace[2 * n].CompleteRequest?
            && trace[2 * n].fileName == fileName && trace[2 * n].uploadId == uploadId
            && |trace[2 * n].parts| == n
            && forall i :: 0 <= i < n ==> trace[2 * n].parts[i] == ManifestEntry(net.put(i + 1).data.etag, i + 1))
  {
    var n := PartCount(f.size);
    UrlStageOutcome(n, net);
    PutStageOutcome(n, net);
    var trace := UploadRun(fileName, uploadId, f, net).trace;
    var urlSent := UrlRequests(fileName, uploadId, n);
    if UrlsArrived(n, net) && PartsAcknowledged(n, net) {
      var putSent := PutRequests(UrlStage(Replies(net.url, n)).value, Chunks(f.size), f.mimeType);
      var manifest := PutStage(Replies(net.put, n)).value;
      assert trace == urlSent + putSent + [CompleteRequest(fileName, manifest, uploadId)];
      assert trace[2 * n] == CompleteRequest(fileName, manifest, uploadId);
    } else {
      assert forall i :: 0 <= i < |trace| ==> !trace[i].CompleteRequest?;
    }
  }

  /** A run never asks the server to abort: every failure only resets the component. */
  lemma RunNeverAborts(fileName: string, uploadId: string, f: SourceFile, net: Network)
    ensures var trace := UploadRun(fileName, uploadId, f, net).trace;
      forall i :: 0 <= i < |trace| ==> !trace[i].AbortRequest?
  {
  }

  /** A run ends with the file's location exactly when every part was acknowledged and completion succeeded. */
  lemma UploadedIffAllSucceeded(fileName: string, uploadId: string, f: SourceFile, net: Network)
    ensures var n := PartCount(f.size); var run := UploadRun(fileName, uploadId, f, net);
      && (run.outcome.Uploaded? <==> UrlsArrived(n, net) && PartsAcknowledged(n, net) && net.complete.Ok?)
      && (run.outcome.Uploaded? ==> run.outcome.location == net.complete.data.location)
  {
    UrlStageOutcome(PartCount(f.size), net);
    PutStageOutcome(PartCount(f.size), net);
  }

  /**
   * `Promise.all` over the URL requests, as a loop in part order: one
   * request per part; the replies' URLs, and the first rejection if any.
   */
  method FetchUploadUrls(fileName: string, uploadId: string, n: nat, net: Network)
    returns (urls: seq<string>, failure: Option<string>, sent: seq<Request>)
    ensures sent == UrlRequests(fileName, uploadId, n)
    ensures failure == FirstFailure(Replies(net.url, n))
    ensures urls == UrlsOf(Replies(net.url, n))
  {
    urls, failure, sent := [], None, [];
    var i := 0;
    while i < n
      invariant 0 <= i <= n
      invariant sent == UrlRequests(fileName, uploadId, i)
      invariant failure == FirstFailure(Replies(net.url, i))
      invariant urls == UrlsOf(Replies(net.url, i))
    {
      var reply := net.url(i + 1);
      sent := sent + [UrlRequest(fileName, i + 1, uploadId)];
      if failure.None? && reply.Failed? {
        failure := Some(reply.message);
      }
      urls := urls + [if reply.Ok? then reply.data.uploadUrl else ""];
      assert Replies(net.url, i + 1)[..i] == Replies(net.url, i);
      i := i + 1;
    }
  }

  /**
   * `Promise.all` over the PUTs, as a loop in part order: part `i`'s bytes to
   * the `i`-th URL; the replies' ETags, and the first rejection if any.
   */
  method PutParts(urls: seq<string>, parts: seq<Range>, contentType: string, net: Network)
    returns (etags: seq<string>, failure: Option<string>, sent: seq<Request>)
    requires |urls| == |parts|
    ensures sent == PutRequests(urls, parts, contentType)
    ensures failure == FirstFailure(Replies(net.put, |parts|))
    ensures etags == EtagsOf(Replies(net.put, |parts|))
  {
    etags, failure, sent := [], None, [];
    var i := 0;
    while i < |parts|
      invariant 0 <= i <= |parts|
      invariant sent == PutRequests(urls[..i], parts[..i], contentType)
      invariant failure == FirstFailure(Replies(net.put, i))
      invariant etags == EtagsOf(Replies(net.put, i))
    {
      var reply := net.put(i + 1);
      sent := sent + [PutRequest(urls[i], parts[i], contentType)];
      if failure.None? && reply.Failed? {
        failure := Some(reply.message);
      }
      etags := etags + [if reply.Ok? then reply.data.etag else ""];
      assert Replies(net.put, i + 1)[..i] == Replies(net.put, i);
      i := i + 1;
    }
    assert urls[..i] == urls && parts[..i] == parts;
  }

  /** How `startUpload` reads the reply to `/id`: an upload id to go on with, or the error to show. */
  datatype Started = Launched(uploadId: string) | NotStarted(error: string)

  function Begin(reply: Reply<IdData>): Started
  {
    match reply
    case Failed(m) => NotStarted(OrElse(m, StartFailedMessage))
    case Ok(d) => if d.status && d.uploadId != "" then Launched(d.uploadId) else NotStarted(d.message)
  }

  /** A click on Upload carried through: the `/id` request, then the run it launches. */
  function Session(fileName: string, f: SourceFile, net: Network): Run
  {
    var start := StartRequest(fileName, f.mimeType);
    match Begin(net.start)
    case NotStarted(e) => Run([start], Failure(e))
    case Launched(id) =>
      var run := UploadRun(fileName, id, f, net);
      Run([start] + run.trace, run.outcome)
  }

  /**
   * A 60 MB file is cut into parts of 25, 25 and 10 MB; when every request
   * succeeds and the PUTs return the ETags "a", "b" and "c", completion is
   * asked with the manifest [(a, 1), (b, 2), (c, 3)] and the run ends with
   * the returned location.
   */
  lemma SixtyMegabyteUpload(fileName: string, net: Network)
    requires net.start == Ok(IdData(true, "upload-1", ""))
    requires forall k :: 1 <= k <= 3 ==> net.url(k).Ok? && net.url(k).data.uploadUrl != ""
    requires net.put(1) == Ok(PutData("a")) && net.put(2) == Ok(PutData("b")) && net.put(3) == Ok(PutData("c"))
    requires net.complete == Ok(LocationData("https://bucket/file"))
    ensures var f := SourceFile("movie.mp4", "video/mp4", 60000000); var run := Session(fileName, f, net);
      && Chunks(f.size) == [Range(0, 25000000), Range(25000000, 50000000), Range(50000000, 60000000)]
      && |run.trace| == 8
      && run.trace[7] == CompleteRequest(fileName, [ManifestEntry("a", 1), ManifestEntry("b", 2), ManifestEntry("c", 3)], "upload-1")
      && run.outcome == Uploaded("https://bucket/file")
  {
    var f := SourceFile("movie.mp4", "video/mp4", 60000000);
    assert PartCount(f.size) == 3;
    assert UrlsArrived(3, net) && PartsAcknowledged(3, net);
    CompletionIffEveryPartAcknowledged(fileName, "upload-1", f, net);
    UploadedIffAllSucceeded(fileName, "upload-1", f, net);
    var run := UploadRun(fileName, "upload-1", f, net);
    assert run.trace[6].parts == [ManifestEntry("a", 1), ManifestEntry("b", 2), ManifestEntry("c", 3)];
  }

  /**
   * The same file when the PUT of part 2 fails without a message: the run
   * sends its three URL requests and three PUTs, never asks for completion
   * nor for an abort, and shows "Missing urls found. Try again!".
   */
  lemma SixtyMegabytePartFails(fileName: string, net: Network)
    requires net.start == Ok(IdData(true, "upload-1", ""))
    requires forall k :: 1 <= k <= 3 ==> net.url(k).Ok? && net.url(k).data.uploadUrl != ""
    requires net.put(1).Ok? && net.put(2) == Failed("") && net.put(3).Ok?
    ensures var run := Session(fileName, SourceFile("movie.mp4", "video/mp4", 60000000), net);
      && |run.trace| == 7
      && (forall i :: 0 <= i < 7 ==> !run.trace[i].CompleteRequest? && !run.trace[i].AbortRequest?)
      && run.outcome == Failure(MissingUrlsMessage)
  {
    var f := SourceFile("movie.mp4", "video/mp4", 60000000);
    assert PartCount(f.size) == 3;
    UrlStageOutcome(3, net);
    var replies := Replies(net.put, 3);
    assert replies[0].Ok? && replies[1] == Failed("");
    assert FirstFailure(replies[..2]) == Some("");
    assert replies[..3] == replies;
    CompletionIffEveryPartAcknowledged(fileName, "upload-1", f, net);
    RunNeverAborts(fileName, "upload-1", f, net);
  }

  /** What `startUpload` hands to `uploadMultipartFile`: the file name, the upload id and the file it captured. */
  datatype Launch = Launch(fileName: string, uploadId: string, file: SourceFile)

  /**
   * The component's state cells (`useState` in the source). `successMsg`
   * and `errorMsg` start as `false` there; the empty string stands for both.
   */
  class MultipartUploader {
    var file: Option<SourceFile>
    var fileName: string
    var fileUploadId: string
    var uploading: bool
    var aborting: bool
    var successMsg: string
    var errorMsg: string
    var fileUrl: string
    var percentage: map<nat, Entry>

    constructor ()
      ensures file == None && fileName == "" && fileUploadId == ""
      ensures !uploading && !aborting
      ensures successMsg == "" && errorMsg == "" && fileUrl == "" && percentage == map[]
    {
      file, fileName, fileUploadId := None, "", "";
      uploading, aborting := false, false;
      successMsg, errorMsg, fileUrl := "", "", "";
      percentage := map[];
    }

    /** The Upload button is enabled: `!(uploading || aborting || !file)`. */
    predicate UploadEnabled()
      reads this
    {
      !(uploading || aborting || file.None?)
    }

    /** The Abort button is enabled: `!(aborting || !uploading)`. */
    predicate AbortEnabled()
      reads this
    {
      !(aborting || !uploading)
    }

    /** Every entry of the progress map is at most 100 percent. */
    ghost predicate ProgressBounded()
      reads this
    {
      forall k :: k in percentage ==> percentage[k].Counted() <= 100
    }

    /** The state `reset({ upload, abort, success, error, file: location })` leaves behind. */
    ghost predicate IsReset(upload: bool, abort: bool, success: string, error: string, location: string,
                            file0: Option<SourceFile>, fileName0: string)
      reads this
    {
      && fileUploadId == "" && fileUrl == location
      && successMsg == success && errorMsg == error
      && uploading == upload && aborting == abort
      && percentage == map[]
      && if success != "" then file == None && fileName == "" else file == file0 && fileName == fileName0
    }

    /** The state a run that ended with `outcome` leaves behind. */
    ghost predicate SettledBy(outcome: Outcome, file0: Option<SourceFile>, fileName0: string)
      reads this
    {
      match outcome
      case Uploaded(location) => IsReset(false, false, UploadedMessage, "", location, file0, fileName0)
      case Failure(error) => IsReset(false, false, "", error, "", file0, fileName0)
    }

    /** The file input's `onChange`: keep the first chosen file and name it after the current time. */
    method SelectFile(chosen: Option<SourceFile>, now: nat)
      modifies this`file, this`fileName
      ensures file == chosen && fileName == FileName(now, chosen)
    {
      file := chosen;
      fileName := FileName(now, chosen);
    }

    /** `onUploadProgress` of part `index`: only that part's entry changes. */
    method RecordProgress(index: nat, loaded: nat, total: nat)
      modifies this`percentage
      ensures percentage == Record(old(percentage), index, loaded, total)
      ensures old(ProgressBounded()) && loaded <= total ==> ProgressBounded() && PercentageCount(percentage) <= 100
    {
      percentage := Record(percentage, index, loaded, total);
      if old(ProgressBounded()) && loaded <= total {
        PercentageBounds(loaded, total);
        PercentageCountAtMost100(percentage);
      }
    }

    /** `reset`: clears the upload id and the progress, and forgets the file only on success. */
    method Reset(upload: bool := false, abort: bool := false, success: string := "", error: string := "", location: string := "")
      modifies this
      ensures IsReset(upload, abort, success, error, location, old(file), old(fileName))
    {
      fileUploadId := "";
      fileUrl := location;
      successMsg := success;
      errorMsg := error;
      uploading := upload;
      aborting := abort;
      percentage := map[];
      if success != "" {
        fileName := "";
        file := None;
      }
    }

    /**
     * `startUpload`, up to launching `uploadMultipartFile` (which the source
     * does not await: the caller runs the returned launch). The Upload button
     * only calls it with a file chosen.
     */
    method StartUpload(net: Network) returns (sent: seq<Request>, launch: Option<Launch>)
      requires file.Some?
      modifies this
      ensures sent == [StartRequest(old(fileName), old(file).value.mimeType)]
      ensures match Begin(net.start)
        case Launched(id) =>
          && launch == Some(Launch(old(fileName), id, old(file).value))
          && fileUploadId == id && uploading && !aborting
          && successMsg == "" && errorMsg == "" && fileUrl == "" && percentage == map[]
          && file == old(file) && fileName == old(fileName)
          && AbortEnabled() && !UploadEnabled()
        case NotStarted(error) =>
          && launch == None
          && IsReset(false, false, "", error, "", old(file), old(fileName))
          && !AbortEnabled() && UploadEnabled()
    {
      var name, f := fileName, file.value;
      Reset(upload := true);
      sent := [StartRequest(name, f.mimeType)];
      match net.start {
        case Failed(m) =>
          Reset(error := OrElse(m, StartFailedMessage));
          launch := None;
        case Ok(d) =>
          if d.status && d.uploadId != "" {
            fileUploadId := d.uploadId;
            launch := Some(Launch(name, d.uploadId, f));
          } else {
            Reset(error := d.message);
            launch := None;
          }
      }
    }

    /** `uploadMultipartFile`: the run `UploadRun` describes, ended by one `reset`. */
    method UploadMultipartFile(name: string, uploadId: string, f: SourceFile, net: Network) returns (sent: seq<Request>)
      modifies this
      ensures sent == UploadRun(name, uploadId, f, net).trace
      ensures SettledBy(UploadRun(name, uploadId, f, net).outcome, old(file), old(fileName))
      ensures !AbortEnabled()
      ensures UploadEnabled() <==> UploadRun(name, uploadId, f, net).outcome.Failure? && old(file).Some?
    {
      var n := PartCount(f.size);
      var parts := Chunks(f.size);
      // `blobArray.every(Boolean)` always holds: every slice is a Blob, and objects are truthy.
      var urls, urlFailure, urlSent := FetchUploadUrls(name, uploadId, n, net);
      sent := urlSent;
      if urlFailure.Some? {
        Reset(error := OrElse(urlFailure.value, MissingUrlsMessage));
        return;
      }
      if !AllPresent(urls) {
        Reset(error := MissingUrlsMessage);
        return;
      }
      var etags, putFailure, putSent := PutParts(urls, parts, f.mimeType, net);
      sent := sent + putSent;
      if putFailure.Some? {
        Reset(error := OrElse(putFailure.value, MissingUrlsMessage));
        return;
      }
      var manifest := Manifest(etags);
      if !ManifestReady(manifest) {
        Reset(error := MissingFieldsMessage);
        return;
      }
      sent := sent + [CompleteRequest(name, manifest, uploadId)];
      match net.complete {
        case Failed(m) =>
          Reset(error := OrElse(m, MissingUrlsMessage));
        case Ok(d) =>
          Reset(success := UploadedMessage, location := d.location);
      }
    }

    /**
     * `abortUpload`: the abort request carries the file name and upload id
     * the component held when Abort was clicked, which `reset` then clears.
     */
    method AbortUpload(net: Network) returns (sent: seq<Request>)
      modifies this
      ensures sent == [AbortRequest(old(fileName), old(fileUploadId))]
      ensures net.abort.Ok? ==> IsReset(false, false, AbortedMessage, "", "", old(file), old(fileName))
      ensures net.abort.Failed? ==>
        IsReset(false, false, "", OrElse(net.abort.message, AbortFailedMessage), "", old(file), old(fileName))
      ensures !AbortEnabled()
    {
      var name, id := fileName, fileUploadId;
      Reset(abort := true);
      sent := [AbortRequest(name, id)];
      match net.abort {
        case Ok(_) =>
          Reset(success := AbortedMessage);
        case Failed(m) =>
          Reset(error := OrElse(m, AbortFailedMessage));
      }
    }
  }
}
