/**
 * The upload API's routes (server/upload.js): the `x-pass` guard in front
 * of every route, and how each route turns the result of its store call
 * into a response. The store calls themselves are inputs: `Callback`
 * carries the `(error, value)` pair a store call hands its callback.
 */
module UploadRoutes {

  import opened Wrappers

  /** What a `{ status: true, ... }` body carries besides the status. */
  datatype Payload =
    | NoPayload
    | UploadId(uploadId: string)
    | UploadUrl(uploadUrl: string)
    | Location(location: string)
    | Files(files: seq<string>)

  /** A reply body: `{ status: true, ... }` or `{ status: false, message }`. */
  datatype Body = Accepted(payload: Payload) | Refused(message: string)

  /** An HTTP status code and a body. */
  datatype Response = Response(code: nat, body: Body)

  const InvalidKeyMessage := "Invalid key"

  /** `req.headers["x-pass"] && req.headers["x-pass"] === uploadkey`. */
  predicate AuthHeader(header: Option<string>, uploadKey: string)
  {
    header.Some? && header.value != "" && header.value == uploadKey
  }

  /** The guard admits a request exactly when it carries the configured key, and that key is not empty. */
  lemma AuthHeaderExactMatch(header: Option<string>, uploadKey: string)
    ensures AuthHeader(header, uploadKey) <==> uploadKey != "" && header == Some(uploadKey)
  {
  }

  /** The `(error, value)` a store call passes to its callback; a falsy value is the empty string. */
  datatype Callback = Callback(error: string, value: string)

  /** multer's file size limit for the `/` route: 10 MB (server/aws.js:23). */
  const MaxFileSize: nat := 1024 * 1024 * 10

  /** `maxFileCount` when `MAX_FILE_COUNT` is not set (server/key.js:19). */
  const DefaultMaxFileCount: nat := 1

  /**
   * What the `photos` middleware leaves for the `/` handler: `req.files.photos`
   * (`None` when the post carried no file), or a failure passed on with `next(err)`.
   */
  datatype PhotosResult = Parsed(photos: Option<seq<string>>) | MiddlewareFailed

  /**
   * `uploadAnyFile.fields([{ name: "photos", maxCount }])` on a post whose
   * files have the given sizes; `stored` is what the store gives back for
   * them, `None` when it fails. More files than `maxCount`, a file over the
   * size limit or a store failure stop the request before its handler.
   */
  function Multer(sizes: seq<nat>, maxCount: nat, stored: Option<seq<string>>): PhotosResult
  {
    if |sizes| > maxCount then MiddlewareFailed
    else if exists i :: 0 <= i < |sizes| && sizes[i] > MaxFileSize then MiddlewareFailed
    else if sizes == [] then Parsed(None)
    else if stored.None? then MiddlewareFailed
    else Parsed(stored)
  }

  /** The middleware fails exactly on a limit broken or a store failure, and otherwise hands on what was stored. */
  lemma MulterOutcome(sizes: seq<nat>, maxCount: nat, stored: Option<seq<string>>)
    ensures Multer(sizes, maxCount, stored).MiddlewareFailed? <==>
      |sizes| > maxCount
      || (exists i :: 0 <= i < |sizes| && sizes[i] > MaxFileSize)
      || (sizes != [] && stored.None?)
    ensures Multer(sizes, maxCount, stored).Parsed? ==>
      Multer(sizes, maxCount, stored).photos == (if sizes == [] then None else stored)
  {
  }

  /** With the default `maxFileCount`, a post of two files fails whatever their sizes and the store say. */
  lemma DefaultRefusesTwoFiles(a: nat, b: nat, stored: Option<seq<string>>)
    ensures Multer([a, b], DefaultMaxFileCount, stored) == MiddlewareFailed
  {
  }

  /** A request to one of the routes, with what its middleware or store call produced. */
  datatype Route =
    | PhotosRoute(photos: PhotosResult)
    | IdRoute(cb: Callback)
    | UrlRoute(cb: Callback)
    | LocationRoute(cb: Callback)
    | AbortRoute(cb: Callback)

  /** `if (value) 200 { status: true, ... } else 400 { status: false, message: error }`. */
  function FromCallback(cb: Callback, payload: Payload): Response
  {
    if cb.value != "" then Response(200, Accepted(payload)) else Response(400, Refused(cb.error))
  }

  /**
   * A route once the guard has let the request through: its handler, or,
   * when the `photos` middleware failed, Express's default error reply, a
   * 500 whose page carries no `message`.
   */
  function Handle(route: Route): Response
  {
    match route
    case PhotosRoute(MiddlewareFailed) => Response(500, Refused(""))
    case PhotosRoute(Parsed(photos)) => Response(200, Accepted(Files(if photos.Some? then photos.value else [])))
    case IdRoute(cb) => FromCallback(cb, UploadId(cb.value))
    case UrlRoute(cb) => FromCallback(cb, UploadUrl(cb.value))
    case LocationRoute(cb) => FromCallback(cb, Location(cb.value))
    case AbortRoute(cb) => FromCallback(cb, NoPayload)
  }

  /** The one response a request gets, and whether the store was called for it. */
  datatype Served = Served(response: Response, storeCalled: bool)

  /** `authHeader` in front of a route: `next()` or `{ status: false, message: "Invalid key" }`. */
  function Serve(header: Option<string>, uploadKey: string, route: Route): Served
  {
    if AuthHeader(header, uploadKey) then Served(Handle(route), true)
    else Served(Response(200, Refused(InvalidKeyMessage)), false)
  }

  /**
   * A request without the right key never reaches the store and is answered
   * `{ status: false, message: "Invalid key" }`, with Express's default
   * status 200; a request with it reaches the store and gets its route's
   * response.
   */
  lemma GuardDecides(header: Option<string>, uploadKey: string, route: Route)
    ensures var served := Serve(header, uploadKey, route);
      && (served.storeCalled <==> uploadKey != "" && header == Some(uploadKey))
      && (!served.storeCalled ==> served.response == Response(200, Refused(InvalidKeyMessage)))
      && (served.storeCalled ==> served.response == Handle(route))
  {
    AuthHeaderExactMatch(header, uploadKey);
  }

  /** With the key left at its default, the empty string, every request is refused. */
  lemma EmptyKeyAdmitsNobody(header: Option<string>, route: Route)
    ensures !Serve(header, "", route).storeCalled
    ensures Serve(header, "", route).response.body == Refused(InvalidKeyMessage)
  {
  }

  /**
   * Past the guard, a route answers 200 exactly when the body says
   * `status: true`; `/` does so whenever its middleware succeeded, with the
   * stored photos' locations (none when nothing was stored), and answers
   * 500 when it failed; `/id`, `/url` and `/location` return the store's value
   * as `uploadId`, `uploadUrl` and `location`, `/abort` returns no payload,
   * and a falsy value gives 400 with the store's error.
   */
  lemma HandleMapsCallback(route: Route)
    ensures Handle(route).code == 200 <==> Handle(route).body.Accepted?
    ensures Handle(route).code == 200 || Handle(route).code == 400 || Handle(route).code == 500
    ensures Handle(route).code == 500 <==> route.PhotosRoute? && route.photos.MiddlewareFailed?
    ensures route.PhotosRoute? && route.photos.MiddlewareFailed? ==> Handle(route) == Response(500, Refused(""))
    ensures route.PhotosRoute? && route.photos.Parsed? ==>
      var photos := route.photos.photos;
      Handle(route) == Response(200, Accepted(Files(if photos.Some? then photos.value else [])))
    ensures !route.PhotosRoute? ==>
      (Handle(route).code == 200 <==> route.cb.value != "")
      && (route.cb.value == "" ==> Handle(route).body == Refused(route.cb.error))
    ensures route.IdRoute? && route.cb.value != "" ==> Handle(route).body == Accepted(UploadId(route.cb.value))
    ensures route.UrlRoute? && route.cb.value != "" ==> Handle(route).body == Accepted(UploadUrl(route.cb.value))
    ensures route.LocationRoute? && route.cb.value != "" ==> Handle(route).body == Accepted(Location(route.cb.value))
    ensures route.AbortRoute? && route.cb.value != "" ==> Handle(route).body == Accepted(NoPayload)
  {
  }
}
