/**
 * The world-addressing and routing layer of the HTTP API (api/worlds.go):
 * the per-world record, the response object and the handler that decides,
 * for one request, between a sub-resource, an error reply and a JSON body.
 *
 * The handler's collaborators are inputs: the file system as a map from path
 * to contents (`Env.files`) and a directory listing, the database handle as a
 * `WorldDb.Store`, Go's URL path escaping as the function `Env.escapePath`,
 * and the JSON serialiser's failure as `Env.marshalFault`.
 */
module Worlds {
  import opened Wrappers
  import opened UrlEscape
  import opened WorldDb

  /** api.World; `NoWorld` is its zero value. */
  datatype World = World(
    name: string,
    dirName: string,
    fqdnDirName: string,
    url: string,
    dbUrl: string,
    levelUrl: string,
    error: string)

  const NoWorld := World("", "", "", "", "", "", "")

  /** `d` is the text after the last '/' of `s`, or all of `s` when it has none. */
  predicate IsLastSegment(s: string, d: string) {
    |d| <= |s| && s[|s| - |d|..] == d && '/' !in d && (|d| < |s| ==> s[|s| - |d| - 1] == '/')
  }

  /** `p` is the text before the first '/' of `s`, or all of `s` when it has none. */
  predicate IsFirstSegment(s: string, p: string) {
    p <= s && '/' !in p && (|p| < |s| ==> s[|p|] == '/')
  }

  /** The last element of strings.Split(s, "/"). */
  function LastSegment(s: string): (r: string)
    ensures IsLastSegment(s, r)
  {
    if s == [] || s[|s| - 1] == '/' then []
    else
      var r := LastSegment(s[..|s| - 1]) + [s[|s| - 1]];
      assert s[..|s| - 1][|s| - |r|..] + [s[|s| - 1]] == s[|s| - |r|..];
      r
  }

  /** The first element of strings.Split(s, "/"). */
  function FirstSegment(s: string): (r: string)
    ensures IsFirstSegment(s, r)
  {
    if s == [] || s[0] == '/' then [] else [s[0]] + FirstSegment(s[1..])
  }

  /** The contract of LastSegment determines its result. */
  lemma LastSegmentUnique(s: string, d: string)
    requires IsLastSegment(s, d)
    ensures LastSegment(s) == d
  {
  }

  /** The contract of FirstSegment determines its result. */
  lemma FirstSegmentUnique(s: string, p: string)
    requires IsFirstSegment(s, p)
    ensures FirstSegment(s) == p
  {
  }

  /** A world directory named without a '/' below any root has that name as its last segment. */
  lemma LastSegmentOfChild(root: string, d: string)
    requires '/' !in d
    ensures LastSegment(root + "/" + d) == d
  {
    var s := root + "/" + d;
    assert s[|s| - |d|..] == d;
    assert s[|s| - |d| - 1] == '/';
    LastSegmentUnique(s, d);
  }

  /** The file whose contents, when it can be read, are a world's display name. */
  function LevelNamePath(worldPath: string): string {
    worldPath + "/levelname.txt"
  }

  /** WorldInfo: the record for the world stored at `worldPath` and served under `urlPrefix`. */
  function WorldInfo(worldPath: string, urlPrefix: string, files: map<string, string>): (w: World)
    ensures w.fqdnDirName == worldPath
    ensures IsLastSegment(worldPath, w.dirName)
    ensures LevelNamePath(worldPath) in files ==> w.name == files[LevelNamePath(worldPath)]
    ensures LevelNamePath(worldPath) !in files ==> w.name == w.dirName
    ensures w.url == urlPrefix + "/" && w.url <= w.dbUrl && w.url <= w.levelUrl
    ensures w.dbUrl == w.url + "db/" && w.levelUrl == w.url + "level/"
    ensures w.error == ""
  {
    var dirName := LastSegment(worldPath);
    var url := urlPrefix + "/";
    World(
      if LevelNamePath(worldPath) in files then files[LevelNamePath(worldPath)] else dirName,
      dirName,
      worldPath,
      url,
      url + "db/",
      url + "level/",
      "")
  }

  /** The worlds a Fill over `dirs` produces: one WorldInfo per name, in order. */
  function FilledWorlds(worldPath: string, urlPrefix: string, dirs: seq<string>, files: map<string, string>,
                        escapePath: (string, string) -> string): seq<World>
  {
    seq(|dirs|, i requires 0 <= i < |dirs| => WorldInfo(worldPath + "/" + dirs[i], escapePath(urlPrefix, dirs[i]), files))
  }

  /** Entry i of a Fill describes directory i: its full path, its URLs and, for a plain name, its name. */
  lemma FilledEntries(worldPath: string, urlPrefix: string, dirs: seq<string>, files: map<string, string>,
                      escapePath: (string, string) -> string, i: int)
    requires 0 <= i < |dirs|
    ensures |FilledWorlds(worldPath, urlPrefix, dirs, files, escapePath)| == |dirs|
    ensures FilledWorlds(worldPath, urlPrefix, dirs, files, escapePath)[i].fqdnDirName == worldPath + "/" + dirs[i]
    ensures FilledWorlds(worldPath, urlPrefix, dirs, files, escapePath)[i].url == escapePath(urlPrefix, dirs[i]) + "/"
    ensures '/' !in dirs[i] ==> FilledWorlds(worldPath, urlPrefix, dirs, files, escapePath)[i].dirName == dirs[i]
  {
    var w := WorldInfo(worldPath + "/" + dirs[i], escapePath(urlPrefix, dirs[i]), files);
    assert FilledWorlds(worldPath, urlPrefix, dirs, files, escapePath)[i] == w;
    if '/' !in dirs[i] {
      LastSegmentOfChild(worldPath, dirs[i]);
    }
  }

  /** The JSON document the handler writes: WorldsResponse without its unexported worldDirs. */
  datatype ResponseBody = ResponseBody(apiVersion: string, worlds: seq<World>, world: World)

  /** WorldsResponse, the object the handler fills before serialising it. */
  class WorldsResponse {
    var worldDirs: seq<string>
    var apiVersion: string
    var worlds: seq<World>
    var world: World

    /** NewWorldsResponse: only the API version is set. */
    constructor (apiVersion: string)
      ensures this.apiVersion == apiVersion && worldDirs == [] && worlds == [] && world == NoWorld
    {
      this.apiVersion := apiVersion;
      worldDirs := [];
      worlds := [];
      world := NoWorld;
    }

    /** What json.MarshalIndent serialises. */
    function Body(): ResponseBody
      reads this
    {
      ResponseBody(apiVersion, worlds, world)
    }

    /** Fill: one record per entry of worldDirs, written in place. */
    method Fill(worldPath: string, urlPrefix: string, files: map<string, string>,
                escapePath: (string, string) -> string)
      modifies this
      ensures worlds == FilledWorlds(worldPath, urlPrefix, worldDirs, files, escapePath)
      ensures worldDirs == old(worldDirs) && apiVersion == old(apiVersion) && world == old(world)
    {
      worlds := seq(|worldDirs|, _ => NoWorld);
      ghost var expected := FilledWorlds(worldPath, urlPrefix, worldDirs, files, escapePath);
      var i := 0;
      while i < |worlds|
        invariant worldDirs == old(worldDirs) && apiVersion == old(apiVersion) && world == old(world)
        invariant 0 <= i <= |worlds| == |worldDirs| == |expected|
        invariant forall j :: 0 <= j < i ==> worlds[j] == expected[j]
      {
        var urlEncoded := escapePath(urlPrefix, worldDirs[i]);
        worlds := worlds[i := WorldInfo(worldPath + "/" + worldDirs[i], urlEncoded, files)];
        i := i + 1;
      }
    }
  }

  /** The handler's fixed parameters and the version string NewWorldsResponse uses. */
  datatype Config = Config(worldsFilePath: string, mount: string, apiVersion: string)

  /**
   * The parts of an HTTP request the handler reads: URL path, method (as `verb`) and Origin header.
   * `path` is r.URL.Path, which net/http has already percent-decoded once.
   */
  datatype Request = Request(path: string, verb: string, origin: string)

  /** An entry of the worlds folder as ioutil.ReadDir lists it (files as well as directories). */
  datatype DirEntry = DirEntry(name: string, isDir: bool)

  /** The outcomes of the handler's collaborators for one request. */
  datatype Env = Env(
    files: map<string, string>,
    listing: Result<seq<DirEntry>, string>,
    openFault: Option<string>,
    escapePath: (string, string) -> string,
    marshalFault: Option<string>)

  /** The sub-handler a request is handed to, with the base URL it is given. */
  datatype SubApi = DbApi(baseUrl: string) | LevelApi(baseUrl: string)

  /** The reasons the handler answers with http.Error. */
  datatype Failure =
    | BadEscape(text: string)
    | OpeningWorld(msg: string)
    | EndpointNotFound
    | MethodNotSupported(verb: string)
    | ReadingWorldsFolder(msg: string)
    | Marshal(msg: string)
  {
    function Status(): int {
      match this
      case BadEscape(_) => 404
      case OpeningWorld(_) => 404
      case EndpointNotFound => 404
      case MethodNotSupported(_) => 405
      case ReadingWorldsFolder(_) => 500
      case Marshal(_) => 500
    }

    /** The error text; a bad escape is shown as url.EscapeError prints it. */
    function Message(): string {
      match this
      case BadEscape(text) => "Error decoding url: invalid URL escape \"" + text + "\""
      case OpeningWorld(msg) => "Error opening world: " + msg
      case EndpointNotFound => "Endpoint not found"
      case MethodNotSupported(verb) => "Method " + verb + " not supported"
      case ReadingWorldsFolder(msg) => "Error while reading minecraftWorlds folder: " + msg
      case Marshal(msg) => msg
    }
  }

  /** How the handler answers: by handing over, with an error, or with a JSON body. */
  datatype Reply = Delegated(api: SubApi) | Error(failure: Failure) | Served(body: ResponseBody)

  datatype Response = Response(headers: map<string, string>, reply: Reply)

  const AllowOrigin := "Access-Control-Allow-Origin"
  const AllowMethods := "Access-Control-Allow-Methods"
  const AllowHeaders := "Access-Control-Allow-Headers"
  const AllowedMethods := "POST, GET, OPTIONS, PUT, DELETE"
  const AllowedHeaders := "Accept, Content-Type, Content-Length, Accept-Encoding, X-CSRF-Token, Authorization"

  /** The CORS headers the handler sets for a request's Origin value. */
  function CorsHeaders(origin: string): (h: map<string, string>)
    ensures AllowOrigin in h <==> origin != ""
    ensures origin != "" ==> h[AllowOrigin] == origin
    ensures origin != "" ==> AllowMethods in h && h[AllowMethods] == AllowedMethods
    ensures origin != "" ==> AllowHeaders in h && h[AllowHeaders] == AllowedHeaders
    ensures origin == "" ==> AllowMethods !in h && AllowHeaders !in h
    ensures origin == "" ==> h == map[]
    ensures origin != "" ==> h.Keys == {AllowOrigin, AllowMethods, AllowHeaders}
  {
    if origin == "" then map[]
    else map[AllowOrigin := origin, AllowMethods := AllowedMethods, AllowHeaders := AllowedHeaders]
  }

  /** `sel` occurs at index i >= 1 with no line break before it: the regexp "^.+" + sel matches there. */
  predicate SelectorAt(path: string, sel: string, i: int) {
    1 <= i && i + |sel| <= |path| && path[i..i + |sel|] == sel &&
    forall j :: 0 <= j < i ==> path[j] != '\n'
  }

  /** regexp.MustCompile("^.+" + sel).MatchString(path). */
  predicate Matches(path: string, sel: string) {
    exists i | 1 <= i <= |path| - |sel| :: SelectorAt(path, sel, i)
  }

  /** The switch over the two sub-resource patterns: /db/ is tried before /level/. */
  function SubResource(path: string, w: World): (r: Reply)
    ensures r.Delegated? <==> Matches(path, "/db/") || Matches(path, "/level/")
    ensures r == Delegated(DbApi(w.dbUrl)) <==> Matches(path, "/db/")
    ensures r == Delegated(LevelApi(w.levelUrl)) <==> !Matches(path, "/db/") && Matches(path, "/level/")
    ensures !r.Delegated? ==> r == Error(EndpointNotFound)
  {
    if Matches(path, "/db/") then Delegated(DbApi(w.dbUrl))
    else if Matches(path, "/level/") then Delegated(LevelApi(w.levelUrl))
    else Error(EndpointNotFound)
  }

  /** The names of the listed entries, in listing order. */
  function Names(entries: seq<DirEntry>): (names: seq<string>)
    ensures |names| == |entries|
    ensures forall i :: 0 <= i < |entries| ==> names[i] == entries[i].name
  {
    if entries == [] then [] else Names(entries[..|entries| - 1]) + [entries[|entries| - 1].name]
  }

  /** The part of the request path below the mount point. */
  function RelPath(cfg: Config, req: Request): string
    requires cfg.mount <= req.path
  {
    req.path[|cfg.mount|..]
  }

  /** The world directory a request names: its first path segment, URL-unescaped. */
  function WorldDir(cfg: Config, req: Request): Result<string, EscapeError>
    requires cfg.mount <= req.path
  {
    QueryUnescape(FirstSegment(RelPath(cfg, req)))
  }

  /** The handler's steps after the store is open: dispatch, method check, listing, serialisation. */
  function AfterOpen(cfg: Config, req: Request, env: Env, w: World): (r: Reply)
    requires cfg.mount <= req.path
  {
    if 0 < |w.url| < |req.path| then SubResource(req.path, w)
    else if req.verb != "GET" then Error(MethodNotSupported(req.verb))
    else if RelPath(cfg, req) == "" && env.listing.Err? then Error(ReadingWorldsFolder(env.listing.error))
    else if env.marshalFault.Some? then Error(Marshal(env.marshalFault.value))
    else
      var dirs := if RelPath(cfg, req) == "" then Names(env.listing.value) else [];
      Served(ResponseBody(cfg.apiVersion, FilledWorlds(cfg.worldsFilePath, cfg.mount, dirs, env.files, env.escapePath), w))
  }

  /** The world record the handler builds for a request naming a world. */
  function RequestedWorld(cfg: Config, req: Request, env: Env): World
    requires cfg.mount <= req.path && WorldDir(cfg, req).Ok?
  {
    WorldInfo(cfg.worldsFilePath + "/" + WorldDir(cfg, req).value, cfg.mount + FirstSegment(RelPath(cfg, req)), env.files)
  }

  /** The handler's answer to one request. */
  function Decide(cfg: Config, req: Request, env: Env): Reply
    requires cfg.mount <= req.path
  {
    var rel := RelPath(cfg, req);
    if rel == "" then AfterOpen(cfg, req, env, NoWorld)
    else if WorldDir(cfg, req).Err? then Error(BadEscape(WorldDir(cfg, req).error.text))
    else if env.openFault.Some? then Error(OpeningWorld(env.openFault.value))
    else AfterOpen(cfg, req, env, RequestedWorld(cfg, req, env))
  }

  /** The calls the handler makes on the database handle for one request. */
  function StoreCalls(cfg: Config, req: Request, env: Env): (calls: seq<Call>)
    requires cfg.mount <= req.path
    ensures Balanced(calls)
    ensures RelPath(cfg, req) == "" || WorldDir(cfg, req).Err? <==> calls == []
    ensures calls != [] ==> calls[0] == Call.Open(cfg.worldsFilePath + "/" + WorldDir(cfg, req).value, env.openFault.None?)
  {
    var rel := RelPath(cfg, req);
    if rel == "" || WorldDir(cfg, req).Err? then []
    else
      var path := cfg.worldsFilePath + "/" + WorldDir(cfg, req).value;
      if env.openFault.Some? then [Call.Open(path, false)] else [Call.Open(path, true), Call.Close]
  }

  /** The request gets past the world lookup and is not handed over, so it reaches the switch on the method. */
  predicate ReachesMethodCheck(cfg: Config, req: Request, env: Env)
    requires cfg.mount <= req.path
  {
    RelPath(cfg, req) == "" ||
    (WorldDir(cfg, req).Ok? && env.openFault.None? && |RelPath(cfg, req)| <= |FirstSegment(RelPath(cfg, req))| + 1)
  }

  /** What each kind of reply implies about the request, its collaborators and the store. */
  lemma DecideOutcomes(cfg: Config, req: Request, env: Env, r: Reply)
    requires cfg.mount <= req.path && r == Decide(cfg, req, env)
    ensures r.Error? && r.failure.BadEscape? <==> RelPath(cfg, req) != "" && WorldDir(cfg, req).Err?
    ensures r.Error? && r.failure.BadEscape? ==> StoreCalls(cfg, req, env) == [] && r.failure.Status() == 404
    ensures r.Error? && r.failure.OpeningWorld? <==>
      RelPath(cfg, req) != "" && WorldDir(cfg, req).Ok? && env.openFault.Some?
    ensures r.Error? && r.failure.OpeningWorld? ==>
      StoreCalls(cfg, req, env) == [Call.Open(cfg.worldsFilePath + "/" + WorldDir(cfg, req).value, false)]
    ensures r.Delegated? ==> RelPath(cfg, req) != "" && |FirstSegment(RelPath(cfg, req))| + 1 < |RelPath(cfg, req)|
    ensures r.Delegated? ==> StoreCalls(cfg, req, env) == [Call.Open(cfg.worldsFilePath + "/" + WorldDir(cfg, req).value, true), Call.Close]
    ensures r.Delegated? && r.api.DbApi? ==> Matches(req.path, "/db/")
    ensures r.Delegated? && r.api.LevelApi? ==> !Matches(req.path, "/db/") && Matches(req.path, "/level/")
    ensures r.Error? && r.failure.MethodNotSupported? <==> ReachesMethodCheck(cfg, req, env) && req.verb != "GET"
    ensures ReachesMethodCheck(cfg, req, env) && req.verb != "GET" ==>
      r == Error(MethodNotSupported(req.verb)) && r.failure.Status() == 405
    ensures r.Error? && r.failure.ReadingWorldsFolder? <==>
      RelPath(cfg, req) == "" && req.verb == "GET" && env.listing.Err?
    ensures RelPath(cfg, req) == "" && req.verb == "GET" && env.listing.Err? ==>
      r == Error(ReadingWorldsFolder(env.listing.error)) && r.failure.Status() == 500
    ensures r.Error? && r.failure.Marshal? <==>
      ReachesMethodCheck(cfg, req, env) && req.verb == "GET" && (RelPath(cfg, req) == "" ==> env.listing.Ok?) &&
      env.marshalFault.Some?
    ensures r.Error? && r.failure.Marshal? ==> r == Error(Marshal(env.marshalFault.value)) && r.failure.Status() == 500
    ensures r.Served? ==> req.verb == "GET" && env.marshalFault.None? && r.body.apiVersion == cfg.apiVersion
    ensures r.Served? && RelPath(cfg, req) == "" ==>
      env.listing.Ok? && |r.body.worlds| == |env.listing.value| && r.body.world == NoWorld
    ensures r.Served? && RelPath(cfg, req) != "" ==> r.body.worlds == []
  {
    if RelPath(cfg, req) != "" && WorldDir(cfg, req).Ok? {
      assert |RequestedWorld(cfg, req, env).url| == |cfg.mount| + |FirstSegment(RelPath(cfg, req))| + 1;
    }
  }

  /** A request for an opened world names a sub-resource exactly when its path goes on past the world's URL. */
  lemma DispatchIff(cfg: Config, req: Request, env: Env)
    requires cfg.mount <= req.path && RelPath(cfg, req) != ""
    requires WorldDir(cfg, req).Ok? && env.openFault.None?
    ensures Decide(cfg, req, env).Delegated? || Decide(cfg, req, env) == Error(EndpointNotFound) <==>
      |FirstSegment(RelPath(cfg, req))| + 1 < |RelPath(cfg, req)|
  {
    var w := RequestedWorld(cfg, req, env);
    assert |w.url| == |cfg.mount| + |FirstSegment(RelPath(cfg, req))| + 1;
  }

  /** The request path below the mount point, split at its first '/'. */
  lemma RelPathSplit(cfg: Config, req: Request, seg: string, tail: string)
    requires req.path == cfg.mount + seg + tail && '/' !in seg && (tail == [] || tail[0] == '/')
    ensures cfg.mount <= req.path && RelPath(cfg, req) == seg + tail
    ensures FirstSegment(RelPath(cfg, req)) == seg
  {
    assert req.path[|cfg.mount|..] == seg + tail;
    FirstSegmentUnique(seg + tail, seg);
  }

  lemma Assoc<T>(a: seq<T>, b: seq<T>, c: seq<T>)
    ensures a + b + c == a + (b + c)
  {
  }

  /** A selector that follows a non-empty prefix free of line breaks is matched. */
  lemma SelectorMatched(prefix: string, sel: string, rest: string)
    requires |prefix| >= 1 && forall j :: 0 <= j < |prefix| ==> prefix[j] != '\n'
    ensures Matches(prefix + sel + rest, sel)
  {
    var p := prefix + sel + rest;
    assert p[|prefix|..|prefix| + |sel|] == sel;
    assert SelectorAt(p, sel, |prefix|);
  }

  /** A path under a world's db URL is handed to the db sub-handler with that URL. */
  lemma DbPathDelegated(cfg: Config, req: Request, env: Env, seg: string, rest: string)
    requires req.path == cfg.mount + seg + "/db/" + rest && '/' !in seg
    requires |cfg.mount + seg| >= 1 && forall j :: 0 <= j < |cfg.mount + seg| ==> (cfg.mount + seg)[j] != '\n'
    requires QueryUnescape(seg).Ok? && env.openFault.None?
    ensures cfg.mount <= req.path
    ensures Decide(cfg, req, env) == Delegated(DbApi(cfg.mount + seg + "/db/"))
  {
    var base := cfg.mount + seg;
    Assoc(base, "/db/", rest);
    RelPathSplit(cfg, req, seg, "/db/" + rest);
    SelectorMatched(base, "/db/", rest);
    var w := RequestedWorld(cfg, req, env);
    Assoc(base, "/", "db/");
    assert w.dbUrl == base + "/db/";
    assert |w.url| == |base| + 1 < |req.path|;
    assert Decide(cfg, req, env) == AfterOpen(cfg, req, env, w);
  }

  /** A path under a world's level URL with no db selector is handed to the level sub-handler. */
  lemma LevelPathDelegated(cfg: Config, req: Request, env: Env, seg: string, rest: string)
    requires req.path == cfg.mount + seg + "/level/" + rest && '/' !in seg
    requires |cfg.mount + seg| >= 1 && forall j :: 0 <= j < |cfg.mount + seg| ==> (cfg.mount + seg)[j] != '\n'
    requires !Matches(req.path, "/db/")
    requires QueryUnescape(seg).Ok? && env.openFault.None?
    ensures cfg.mount <= req.path
    ensures Decide(cfg, req, env) == Delegated(LevelApi(cfg.mount + seg + "/level/"))
  {
    var base := cfg.mount + seg;
    Assoc(base, "/level/", rest);
    RelPathSplit(cfg, req, seg, "/level/" + rest);
    SelectorMatched(base, "/level/", rest);
    var w := RequestedWorld(cfg, req, env);
    Assoc(base, "/", "level/");
    assert w.levelUrl == base + "/level/";
    assert |w.url| == |base| + 1 < |req.path|;
    assert Decide(cfg, req, env) == AfterOpen(cfg, req, env, w);
  }

  /** A GET of a world's own URL (with or without the trailing '/') serves that world's record alone. */
  lemma WorldPathServed(cfg: Config, req: Request, env: Env, seg: string, trailing: bool)
    requires req.path == cfg.mount + seg + (if trailing then "/" else "") && '/' !in seg
    requires seg != "" || trailing
    requires req.verb == "GET" && QueryUnescape(seg).Ok? && env.openFault.None? && env.marshalFault.None?
    ensures cfg.mount <= req.path
    ensures Decide(cfg, req, env) ==
      Served(ResponseBody(cfg.apiVersion, [], WorldInfo(cfg.worldsFilePath + "/" + QueryUnescape(seg).value, cfg.mount + seg, env.files)))
    ensures StoreCalls(cfg, req, env) == [Call.Open(cfg.worldsFilePath + "/" + QueryUnescape(seg).value, true), Call.Close]
  {
    RelPathSplit(cfg, req, seg, if trailing then "/" else "");
    var w := RequestedWorld(cfg, req, env);
    assert w == WorldInfo(cfg.worldsFilePath + "/" + QueryUnescape(seg).value, cfg.mount + seg, env.files);
    assert |w.url| == |cfg.mount + seg| + 1;
    assert FilledWorlds(cfg.worldsFilePath, cfg.mount, [], env.files, env.escapePath) == [];
    assert Decide(cfg, req, env) == AfterOpen(cfg, req, env, w);
  }

  /** A GET of the mount point lists the worlds folder: one record per entry, in listing order, and opens nothing. */
  lemma CollectionServed(cfg: Config, req: Request, env: Env)
    requires req.path == cfg.mount && req.verb == "GET"
    requires env.listing.Ok? && env.marshalFault.None?
    ensures Decide(cfg, req, env).Served? && StoreCalls(cfg, req, env) == []
    ensures Decide(cfg, req, env).body.apiVersion == cfg.apiVersion && Decide(cfg, req, env).body.world == NoWorld
    ensures |Decide(cfg, req, env).body.worlds| == |env.listing.value|
    ensures forall i :: 0 <= i < |env.listing.value| ==>
      Decide(cfg, req, env).body.worlds[i].fqdnDirName == cfg.worldsFilePath + "/" + env.listing.value[i].name &&
      ('/' !in env.listing.value[i].name ==> Decide(cfg, req, env).body.worlds[i].dirName == env.listing.value[i].name)
  {
    assert RelPath(cfg, req) == "";
    assert Decide(cfg, req, env) == AfterOpen(cfg, req, env, NoWorld);
    forall i | 0 <= i < |env.listing.value|
      ensures Decide(cfg, req, env).body.worlds[i].fqdnDirName == cfg.worldsFilePath + "/" + env.listing.value[i].name
      ensures '/' !in env.listing.value[i].name ==> Decide(cfg, req, env).body.worlds[i].dirName == env.listing.value[i].name
    {
      FilledEntries(cfg.worldsFilePath, cfg.mount, Names(env.listing.value), env.files, env.escapePath, i);
    }
  }

  /** The worldsApi handler for one request. The deferred Close runs once the rest of the handler returns. */
  method ServeWorlds(cfg: Config, req: Request, env: Env, db: Store) returns (resp: Response)
    requires cfg.mount <= req.path
    requires !db.isOpen
    modifies db
    ensures resp.headers == CorsHeaders(req.origin)
    ensures resp.reply == Decide(cfg, req, env)
    ensures db.calls == old(db.calls) + StoreCalls(cfg, req, env)
    ensures !db.isOpen && db.data == old(db.data)
  {
    var headers: map<string, string> := map[];
    var origin := req.origin;
    if origin != "" {
      headers := headers[AllowOrigin := origin];
      headers := headers[AllowMethods := AllowedMethods];
      headers := headers[AllowHeaders := AllowedHeaders];
    }
    var outData := new WorldsResponse(cfg.apiVersion);
    var relPath := req.path[|cfg.mount|..];
    var isOpened := false;
    if relPath != "" {
      var urlencodedDir := FirstSegment(relPath);
      var worldDir := QueryUnescape(urlencodedDir);
      if worldDir.Err? {
        return Response(headers, Error(BadEscape(worldDir.error.text)));
      }
      assert req.path[..|cfg.mount|] == cfg.mount && worldDir == WorldDir(cfg, req);
      outData.world := WorldInfo(cfg.worldsFilePath + "/" + worldDir.value, req.path[..|cfg.mount|] + urlencodedDir, env.files);
      assert outData.world == RequestedWorld(cfg, req, env);
      var err := db.Open(cfg.worldsFilePath + "/" + worldDir.value, env.openFault);
      if err.Some? {
        return Response(headers, Error(OpeningWorld(err.value.msg)));
      }
      isOpened := true;
    }
    assert relPath == RelPath(cfg, req);
    assert Decide(cfg, req, env) == AfterOpen(cfg, req, env, outData.world);
    var reply := Respond(cfg, req, env, outData);
    if isOpened {
      db.Close();
    }
    return Response(headers, reply);
  }

  /** The body of the handler after the world is resolved and opened (api/worlds.go:105-143). */
  method Respond(cfg: Config, req: Request, env: Env, outData: WorldsResponse) returns (reply: Reply)
    requires cfg.mount <= req.path
    requires outData.worldDirs == [] && outData.worlds == [] && outData.apiVersion == cfg.apiVersion
    modifies outData
    ensures reply == AfterOpen(cfg, req, env, old(outData.world))
    ensures outData.world == old(outData.world) && outData.apiVersion == old(outData.apiVersion)
    ensures reply.Served? ==>
      outData.worldDirs == (if RelPath(cfg, req) == "" then Names(env.listing.value) else []) &&
      outData.worlds == reply.body.worlds && reply.body == outData.Body()
    ensures !reply.Served? && !(reply.Error? && reply.failure.Marshal?) ==> outData.worldDirs == [] && outData.worlds == []
  {
    var relPath := req.path[|cfg.mount|..];
    if 0 < |outData.world.url| < |req.path| {
      if Matches(req.path, "/db/") {
        return Delegated(DbApi(outData.world.dbUrl));
      } else if Matches(req.path, "/level/") {
        return Delegated(LevelApi(outData.world.levelUrl));
      } else {
        return Error(EndpointNotFound);
      }
    }
    if req.verb != "GET" {
      return Error(MethodNotSupported(req.verb));
    }
    if relPath == "" {
      if env.listing.Err? {
        return Error(ReadingWorldsFolder(env.listing.error));
      }
      var dirs := env.listing.value;
      outData.worldDirs := seq(|dirs|, _ => "");
      var i := 0;
      while i < |dirs|
        invariant 0 <= i <= |dirs| == |outData.worldDirs|
        invariant forall j :: 0 <= j < i ==> outData.worldDirs[j] == dirs[j].name
        invariant outData.worlds == [] && outData.apiVersion == cfg.apiVersion && outData.world == old(outData.world)
      {
        outData.worldDirs := outData.worldDirs[i := dirs[i].name];
        i := i + 1;
      }
      assert outData.worldDirs == Names(dirs);
    }
    assert req.path[..|cfg.mount|] == cfg.mount;
    assert outData.worldDirs == if relPath == "" then Names(env.listing.value) else [];
    outData.Fill(cfg.worldsFilePath, req.path[..|cfg.mount|], env.files, env.escapePath);
    if env.marshalFault.Some? {
      return Error(Marshal(env.marshalFault.value));
    }
    return Served(outData.Body());
  }
}
