/**
 * The image upload form of the client (client/src/DragAndDrop.js): the
 * drop zone of ImagePicker, whose code that file repeats, plus the key
 * field and `handleUpload`, which posts the accepted files to the API's
 * `/` route and shows what came back.
 */
module ImageUploader {

  import opened Wrappers
  import opened Http
  import opened ImagePicker
  import UploadRoutes

  /** The body of the `/` route's reply; a field missing from it is empty. */
  datatype UploadData = UploadData(status: bool, files: seq<string>, message: string)

  /** The form post: the files as `photos`, and the key as the `x-pass` header. */
  datatype UploadRequest = UploadRequest(photos: seq<InputFile>, pass: string)

  const UploadedMessage := "Successfully uploaded"
  const NothingUploadedMessage := "Nothing got uploaded"
  const WentWrongMessage := "Something went wrong"

  /** The files of the entries, in order: what `formData.append("photos", item.file)` sends. */
  function Photos(files: seq<Entry>): (photos: seq<InputFile>)
    ensures |photos| == |files|
    ensures forall i :: 0 <= i < |files| ==> photos[i] == files[i].file
  {
    seq(|files|, i requires 0 <= i < |files| => files[i].file)
  }

  /** How the form reads a reply: the stored files' locations, or the error to show. */
  datatype FormOutcome = Stored(locations: seq<string>) | NotStored(error: string)

  function Settle(reply: Reply<UploadData>): (outcome: FormOutcome)
    ensures outcome.Stored? <==> reply.Ok? && reply.data.status && reply.data.files != []
    ensures outcome.Stored? ==> outcome.locations == reply.data.files
    ensures outcome.NotStored? ==> outcome.error != ""
    ensures reply.Failed? ==> outcome == NotStored(WentWrongMessage)
    ensures reply.Ok? && outcome.NotStored? ==> outcome.error == OrElse(reply.data.message, NothingUploadedMessage)
  {
    match reply
    case Failed(_) => NotStored(WentWrongMessage)
    case Ok(d) =>
      if d.status && d.files != [] then Stored(d.files)
      else NotStored(OrElse(d.message, NothingUploadedMessage))
  }

  /**
   * What the form receives for a server response: axios resolves with the
   * body for a 2xx status and rejects otherwise.
   */
  function Received(response: UploadRoutes.Response): Reply<UploadData>
  {
    if 200 <= response.code < 300 then
      match response.body
      case Accepted(payload) => Ok(UploadData(true, if payload.Files? then payload.files else [], ""))
      case Refused(message) => Ok(UploadData(false, [], message))
    else Failed(if response.body.Refused? then response.body.message else "")
  }

  /**
   * Against the server of server/upload.js: a key the server does not
   * accept shows "Invalid key"; an accepted key shows "Something went wrong"
   * when the `photos` middleware failed, and otherwise the stored photos'
   * locations, or "Nothing got uploaded" when none was stored.
   */
  lemma FormAgainstServer(key: string, uploadKey: string, photos: UploadRoutes.PhotosResult)
    ensures var reply := Received(UploadRoutes.Serve(Some(key), uploadKey, UploadRoutes.PhotosRoute(photos)).response);
      && (key != uploadKey || key == "" ==> Settle(reply) == NotStored(UploadRoutes.InvalidKeyMessage))
      && (key == uploadKey && key != "" && photos.MiddlewareFailed? ==> Settle(reply) == NotStored(WentWrongMessage))
      && (key == uploadKey && key != "" && photos.Parsed? && photos.photos.Some? && photos.photos.value != [] ==>
            Settle(reply) == Stored(photos.photos.value))
      && (key == uploadKey && key != "" && photos.Parsed? && (photos.photos.None? || photos.photos.value == []) ==>
            Settle(reply) == NotStored(NothingUploadedMessage))
  {
    UploadRoutes.GuardDecides(Some(key), uploadKey, UploadRoutes.PhotosRoute(photos));
  }

  /**
   * With the server's default `maxFileCount` of 1, the right key and a batch
   * of two images show "Something went wrong".
   */
  lemma TwoImagesGoWrongByDefault(key: string, a: nat, b: nat, stored: Option<seq<string>>)
    requires key != ""
    ensures var photos := UploadRoutes.Multer([a, b], UploadRoutes.DefaultMaxFileCount, stored);
      Settle(Received(UploadRoutes.Serve(Some(key), key, UploadRoutes.PhotosRoute(photos)).response))
        == NotStored(WentWrongMessage)
  {
    UploadRoutes.DefaultRefusesTwoFiles(a, b, stored);
    FormAgainstServer(key, key, UploadRoutes.MiddlewareFailed);
  }

  /** The client form's state: its drop zone, the upload flags and messages, and the key typed in. */
  class UploadForm {
    const zone: DropZone
    var uploading: bool
    var result: seq<string>
    var error: string
    var success: string
    var key: string

    constructor ()
      ensures fresh(zone)
      ensures zone.dragCounter == 0 && !zone.dragging && zone.files == [] && zone.ignoredFiles == []
      ensures !uploading && result == [] && error == "" && success == "" && key == ""
    {
      zone := new DropZone();
      uploading, result := false, [];
      error, success, key := "", "", "";
    }

    /** The password field's `onChange`. */
    method SetKey(typed: string)
      modifies this`key
      ensures key == typed
    {
      key := typed;
    }

    /** The Upload button is enabled: `disabled={uploading}`. */
    predicate UploadEnabled()
      reads this
    {
      !uploading
    }

    /**
     * `handleUpload`: nothing happens unless there are files and a key;
     * otherwise the form clears its messages and ignored names, marks itself
     * uploading and posts the files. The reply arrives later
     * (`ReceiveReply`); until then the drop zone stays live.
     */
    method HandleUpload() returns (sent: Option<UploadRequest>)
      modifies this, zone
      ensures sent.Some? <==> old(zone.files) != [] && old(key) != ""
      ensures sent.None? ==>
        && zone.files == old(zone.files) && zone.ignoredFiles == old(zone.ignoredFiles)
        && uploading == old(uploading) && result == old(result)
        && error == old(error) && success == old(success)
      ensures sent.Some? ==>
        && sent.value == UploadRequest(Photos(old(zone.files)), old(key))
        && uploading && !UploadEnabled()
        && result == [] && error == "" && success == ""
        && zone.files == old(zone.files) && zone.ignoredFiles == []
      ensures key == old(key) && zone.dragCounter == old(zone.dragCounter) && zone.dragging == old(zone.dragging)
    {
      if |zone.files| > 0 && key != "" {
        uploading, result, error, success := true, [], "", "";
        zone.ignoredFiles := [];
        sent := Some(UploadRequest(Photos(zone.files), key));
      } else {
        sent := None;
      }
    }

    /**
     * The post's `then`/`catch`: `uploading` ends and the reply settles the
     * form. A stored reply empties the whole list, including entries dropped
     * while the post was in flight; any other reply only sets the error.
     */
    method ReceiveReply(reply: Reply<UploadData>)
      modifies this, zone
      ensures !uploading && UploadEnabled()
      ensures match Settle(reply)
        case Stored(locations) =>
          result == locations && zone.files == [] && success == UploadedMessage && error == old(error)
        case NotStored(message) =>
          result == old(result) && zone.files == old(zone.files) && success == old(success) && error == message
      ensures key == old(key) && zone.ignoredFiles == old(zone.ignoredFiles)
      ensures zone.dragCounter == old(zone.dragCounter) && zone.dragging == old(zone.dragging)
    {
      uploading := false;
      match reply {
        case Failed(_) =>
          error := WentWrongMessage;
        case Ok(d) =>
          if d.status && |d.files| > 0 {
            result, success := d.files, UploadedMessage;
            zone.files := [];
          } else {
            error := OrElse(d.message, NothingUploadedMessage);
          }
      }
    }

    /**
     * An upload during which nothing is dropped or removed: the post, then
     * its reply. The form ends settled by the reply, with the files kept
     * exactly when nothing was stored.
     */
    method UploadUndisturbed(reply: Reply<UploadData>) returns (sent: Option<UploadRequest>)
      modifies this, zone
      ensures sent.Some? <==> old(zone.files) != [] && old(key) != ""
      ensures sent.Some? ==>
        && sent.value == UploadRequest(Photos(old(zone.files)), old(key))
        && !uploading && zone.ignoredFiles == []
        && match Settle(reply)
           case Stored(locations) =>
             result == locations && zone.files == [] && success == UploadedMessage && error == ""
           case NotStored(message) =>
             result == [] && zone.files == old(zone.files) && success == "" && error == message
    {
      sent := HandleUpload();
      if sent.Some? {
        ReceiveReply(reply);
      }
    }
  }
}
