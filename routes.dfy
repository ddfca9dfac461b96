/**
 * The chat router: the upload middleware's file filter and size limit, and the route table
 * in registration order, which Express matches first to last.
 */
module ChatRoutes {
  import opened Wrappers
  import opened Text

  /** `limits.fileSize`: ten mebibytes. */
  const MaxFileSize: nat := 10 * 1024 * 1024

  const ImagesOnly: string := "Only image files are allowed!"

  /** One call of the filter's callback: `cb(error, accept)`. */
  datatype Callback = Callback(error: Option<string>, accept: bool)

  /**
   * The file filter, as the calls it makes to its callback: exactly one, accepting exactly
   * the image mimetypes and rejecting the rest with the "images only" error.
   */
  function FileFilter(mimetype: string): (calls: seq<Callback>)
    ensures |calls| == 1
    ensures calls[0].accept <==> StartsWith(mimetype, "image/")
    ensures calls[0].accept ==> calls[0].error.None?
    ensures !calls[0].accept ==> calls[0].error == Some(ImagesOnly)
  {
    if !StartsWith(mimetype, "image/") then [Callback(Some(ImagesOnly), false)]
    else [Callback(None, true)]
  }

  /** Whether an upload passes the middleware: an image of at most the size limit. */
  predicate UploadAccepted(mimetype: string, size: nat) {
    FileFilter(mimetype)[0].accept && size <= MaxFileSize
  }

  /** The limit is 10485760 bytes, and a file one byte over it is refused. */
  lemma SizeLimit(mimetype: string)
    requires StartsWith(mimetype, "image/")
    ensures MaxFileSize == 10485760
    ensures UploadAccepted(mimetype, MaxFileSize) && !UploadAccepted(mimetype, MaxFileSize + 1)
  {
  }

  datatype Verb = Get | Post | Delete

  datatype Handler =
    | SendMessageStream | SendMessage | GenerateFlashCards | GenerateQuiz
    | GetChatHistory | GetActivities | GetChatById | DeleteChat

  /** A path pattern: a fixed path, or `/:param`. */
  datatype Pattern = Exact(path: string) | OneParam

  datatype Route = Route(verb: Verb, pattern: Pattern, handler: Handler)

  /** The routes in the order they are registered. */
  const RouteTable: seq<Route> := [
    Route(Post, Exact("/stream"), SendMessageStream),
    Route(Post, Exact("/"), SendMessage),
    Route(Post, Exact("/flashcards"), GenerateFlashCards),
    Route(Post, Exact("/quiz"), GenerateQuiz),
    Route(Get, Exact("/history"), GetChatHistory),
    Route(Get, Exact("/activities"), GetActivities),
    Route(Get, OneParam, GetChatById),
    Route(Delete, OneParam, DeleteChat)
  ]

  /** The value a `/:param` pattern takes from a path: one non-empty segment. */
  function ParamOf(path: string): Option<string> {
    if |path| >= 2 && path[0] == '/' && '/' !in path[1..] then Some(path[1..]) else None
  }

  predicate Matches(r: Route, verb: Verb, path: string) {
    r.verb == verb && match r.pattern
      case Exact(p) => path == p
      case OneParam => ParamOf(path).Some?
  }

  /** A dispatch: the route's handler and the `chatId` parameter when the pattern has one. */
  datatype Dispatched = Dispatched(handler: Handler, chatId: Option<string>)

  /** First-match dispatch over `routes`. */
  function FirstMatch(routes: seq<Route>, verb: Verb, path: string): (d: Option<nat>)
    ensures d.Some? ==> d.value < |routes| && Matches(routes[d.value], verb, path)
                        && forall j :: 0 <= j < d.value ==> !Matches(routes[j], verb, path)
    ensures d.None? ==> forall j :: 0 <= j < |routes| ==> !Matches(routes[j], verb, path)
  {
    if routes == [] then None
    else if Matches(routes[0], verb, path) then Some(0)
    else
      match FirstMatch(routes[1..], verb, path)
      case None => None
      case Some(k) => Some(k + 1)
  }

  function Dispatch(verb: Verb, path: string): Option<Dispatched> {
    match FirstMatch(RouteTable, verb, path)
    case None => None
    case Some(k) =>
      var r := RouteTable[k];
      Some(Dispatched(r.handler, if r.pattern.OneParam? then ParamOf(path) else None))
  }

  /**
   * `/history` and `/activities` are registered before `/:chatId`, so they reach their own
   * handlers and are never read as a chat id.
   */
  lemma ListingsAreNotChatIds()
    ensures Dispatch(Get, "/history") == Some(Dispatched(GetChatHistory, None))
    ensures Dispatch(Get, "/activities") == Some(Dispatched(GetActivities, None))
  {
    assert Matches(RouteTable[4], Get, "/history");
    assert Matches(RouteTable[5], Get, "/activities");
  }

  /**
   * In the route table, matched exactly, any other single segment is a chat id for GET and
   * DELETE.
   */
  lemma OtherSegmentsAreChatIds(id: string)
    requires id != [] && '/' !in id && id != "history" && id != "activities"
    ensures Dispatch(Get, "/" + id) == Some(Dispatched(GetChatById, Some(id)))
    ensures Dispatch(Delete, "/" + id) == Some(Dispatched(DeleteChat, Some(id)))
  {
    var path := "/" + id;
    assert path[1..] == id;
    assert Matches(RouteTable[6], Get, path);
    assert Matches(RouteTable[7], Delete, path);
  }

  /** The order is what protects the listings: with `/:chatId` first, `/history` is a chat id. */
  lemma OrderMatters()
    ensures var reordered := [RouteTable[6], RouteTable[4]];
            FirstMatch(reordered, Get, "/history") == Some(0)
  {
    assert ParamOf("/history") == Some("history");
  }
}
