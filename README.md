# McpeTool: world addressing, routing and key/value commands

MCPE Tool exposes a folder of Minecraft Pocket Edition worlds in two ways. Each world is a directory holding a LevelDB database and a few metadata files.

- An HTTP API lists the worlds and hands requests for a world's `db/` and `level/` sub-resources to their handlers.
- Command-line actions (`keys`, `get`, `put`, `delete`) read and write raw database entries. Keys are written in hex and values in base64.

This project models, in Dafny, the two pieces of sequential logic in the tool and proves properties of them:

- **api/worlds.go**.
  - `WorldInfo` builds the record for one world. It takes the directory name from the last path segment and the display name from `levelname.txt`, and builds three URLs that share a prefix.
  - `WorldsResponse.Fill` writes one record per listed directory, in place and in order.
  - The `worldsApi` handler makes an ordered decision for each request:
    1. set the CORS headers;
    2. strip the mount point;
    3. take the first path segment and URL-unescape it;
    4. open the world's database;
    5. dispatch to `/db/` before `/level/`;
    6. refuse methods other than GET;
    7. list the worlds folder;
    8. serialise the response.
  - The database handle opened here is closed by a deferred `Close`.
- **main.go**: the `keys`, `get`, `put` and `delete` actions. Each opens the database, decodes its hex key and base64 value, and makes one database call, returning at the first error. A deferred `Close` is meant to release the handle.

The codecs these actions rely on are modelled as functions, with round-trip lemmas:

- `encoding/hex`: the base16 alphabet of section 8 of RFC 4648, in lower case.
- `encoding/base64` `StdEncoding`: section 4 of RFC 4648, padded, with Go's non-strict decoder.
- `url.QueryUnescape`: percent-decoding per section 2.1 of RFC 3986, plus form encoding's `+` for a space.

Files:

- `wrappers.dfy`: `Option`, `Result`, and the `byte` type.
- `hex.dfy`, `base64.dfy`, `url_escape.dfy`: the codecs.
- `world_db.dfy`: a class `Store` standing in for the world package's database handle. It holds a key/value map, an open flag and a ghost log of calls.
- `worlds.dfy`: api/worlds.go.
- `cli.dfy`: main.go.

Conventions:

- Go strings are byte strings. They are modelled as `string` with one `char` per byte, so every char is below 256.
- The handler's collaborators are parameters:
  - the file system, as a map from path to file contents plus a directory listing;
  - the database's failures, as optional messages;
  - `url.Parse`/`URL.String` path escaping, as a function `escapePath`;
  - the JSON serialiser's failure, as an optional message.
- The handler's result is a value: the header map plus one of "delegated to a sub-handler", "http.Error with status and message" or "served this response body".

The model follows the code on these points, where a reader might expect otherwise:

- The world list holds every entry `ioutil.ReadDir` returns, files included, not only directories.
- `Request.path` stands for `r.URL.Path`, which net/http has already percent-decoded once. A world's URL is built from its first segment as taken before `url.QueryUnescape`, not from a re-escaped name. The directory name is that segment decoded a second time, so `a+b` in the decoded path names the directory `a b`.
- `Error` in a world record is never set: the code that set it is commented out.
- With a single world, `worlds` is empty, because `worldDirs` is never filled on that path.
- The `/db/` and `/level/` patterns match anywhere after the first character of the full request path, not just directly after the world segment.

## Model

| member | source | states |
|---|---|---|
| Hex.DigitValue | main.go:77 | a char is a hex digit exactly when it is 0-9, a-f or A-F, and its value is its position in the base 16 alphabet, so an upper-case digit has the value of its lower-case twin |
| Hex.Digit | main.go:56 | the digit written for a value below 16 is lower case and decodes back to that value |
| Hex.EncodeToString | main.go:56 | the hex of a key has two chars per byte, all of them lower-case digits |
| Hex.DecodeString | main.go:77-80 | decoding succeeds exactly when every char is a hex digit and the length is even, and then yields half as many bytes as chars |
| Hex.RoundTrip | main.go:55-57 | decoding the hex printed for a key gives the key back |
| Hex.CanonicalEncoding | main.go:77 | a lower-case hex string that decodes is exactly the encoding of the bytes it decodes to |
| Hex.FirstInvalidReported | main.go:77-80 | the error names the first char, in reading order, that is not a hex digit, even when the length is odd |
| Hex.OddLengthReported | main.go:77-80 | the length error is reported exactly for all-digit strings of odd length |
| Base64.EncodedLength | main.go:88 | the base64 of n bytes has 4 * ceil(n/3) chars |
| Base64.RoundTrip | main.go:88 | decoding the printed base64 of a value gives the value back |
| Base64.DecodeString | main.go:111-114 | the decode succeeds exactly when the input, once CR and LF are removed, is whole four-char quanta of A-Z a-z 0-9 + / with '=' only as the last char or the last two; any other char, or '=' elsewhere, is CorruptInput |
| Base64.QuantaAcceptsIff | main.go:111-114 | the quanta decoder, which sees the input after CR and LF are dropped, accepts exactly whole quanta of alphabet chars with '=' only as the last char or the last two |
| Base64.TrailingNewlineIgnored | main.go:107-111 | a newline after the base64 text on standard input does not change the decoded value or the error |
| UrlEscape.QueryUnescape | api/worlds.go:91-95 | unescaping never lengthens the text, and an error carries one to three chars starting with the offending '%' |
| UrlEscape.UnescapeSucceedsIff | api/worlds.go:91-95 | unescaping fails exactly when some '%' is not followed by two hex digits |
| UrlEscape.UnescapeErrorText | api/worlds.go:91-93 | the error text starts at the first malformed '%' and holds it and at most the two chars after it |
| UrlEscape.PlainTextUnchanged | api/worlds.go:91 | a segment with no '%' and no '+' unescapes to itself |
| UrlEscape.EscapeRoundTrip | api/worlds.go:90-91 | unescaping a query-escaped byte string gives the string back |
| WorldDb.Store.Open | main.go:46-49 | the handle is open exactly when the open reports no error; the error is the database's message; the map is unchanged and the call is logged |
| WorldDb.Store.Close | main.go:50 | after Close the handle is not open, the map is unchanged and the call is logged |
| WorldDb.Store.GetKeys | main.go:51-54 | on an open handle without a fault, every stored key is listed exactly once; otherwise the error is returned |
| WorldDb.Store.Get | main.go:81-84 | the stored value of the key, or not-open, the database's failure, or not-found |
| WorldDb.Store.Put | main.go:115-118 | on success the key maps to the value and nothing else changes; on failure the map is unchanged |
| WorldDb.Store.Delete | main.go:136-139 | on success the key is absent and nothing else changes, including when it was absent before |
| Worlds.LastSegment | api/worlds.go:26-28 | the result is the text after the last '/' of the path, or the whole path when it has no '/' |
| Worlds.FirstSegment | api/worlds.go:90 | the result is the prefix before the first '/', or the whole text when it has no '/' |
| Worlds.LastSegmentOfChild | api/worlds.go:26-28 | the directory name of root + "/" + d is d, for any d without a '/' |
| Worlds.WorldInfo | api/worlds.go:25-48 | FqdnDirName is the world path; DirName is its last segment; Name is levelname.txt verbatim when it can be read, else DirName; DbUrl and LevelUrl extend Url = prefix + "/"; Error is empty |
| Worlds.FilledEntries | api/worlds.go:64-73 | entry i of a Fill has path root + "/" + dirs[i] and URL escapePath(prefix, dirs[i]) + "/"; for a name without '/' its DirName is the name; there are as many entries as names |
| Worlds.WorldsResponse.constructor | api/worlds.go:59-61 | a new response has only its API version set |
| Worlds.WorldsResponse.Fill | api/worlds.go:64-73 | the worlds become one WorldInfo per listed name, in order; nothing else in the response changes |
| Worlds.CorsHeaders | api/worlds.go:80-85 | Access-Control-Allow-Origin is set, to the request's Origin, exactly when Origin is non-empty, together with the fixed methods and headers lists; no other header is set, and none at all without an Origin |
| Worlds.SubResource | api/worlds.go:106-115 | a path matching ^.+/db/ goes to the db handler with the world's DbUrl, even if it also matches ^.+/level/; otherwise a ^.+/level/ match goes to the level handler with LevelUrl; otherwise 404 Endpoint not found |
| Worlds.Names | api/worlds.go:127-130 | one name per listed entry, in listing order |
| Worlds.DecideOutcomes | api/worlds.go:86-143 | a bad escape fails the non-empty relative path, and an open failure the named world; dispatch needs more path after the world segment plus its '/'; Served needs GET and a serialisable body; a collection body holds one record per listing entry and the zero world; a single-world body has no worlds; exactly the requests that reach the method switch and are not GET get 405; exactly a GET of the mount point whose folder listing fails gets 500 with the listing error; exactly a GET that reaches the switch, has its listing and fails to serialise gets 500 with the serialiser's message; an open failure leaves exactly the one failed Open in the store's log |
| Worlds.StoreCalls | api/worlds.go:96-102 | no store is touched for an empty relative path or a bad escape; otherwise it is opened at root + "/" + the unescaped segment, and a successful open is followed by exactly one Close, while a failed open gets none |
| Worlds.DispatchIff | api/worlds.go:105 | once a world is open, the request is dispatched (or refused as an unknown endpoint) exactly when the relative path goes on past the world segment and its '/' |
| Worlds.RelPathSplit | api/worlds.go:87-90 | the world segment of mount + seg + tail is seg, when seg has no '/' and tail is empty or starts with '/' |
| Worlds.DbPathDelegated | api/worlds.go:105-110 | a path of the form mount + seg + "/db/" + rest is handed to the db handler with base URL mount + seg + "/db/" |
| Worlds.LevelPathDelegated | api/worlds.go:105-112 | a path of the form mount + seg + "/level/" + rest with no db match is handed to the level handler with base URL mount + seg + "/level/" |
| Worlds.WorldPathServed | api/worlds.go:89-143 | a GET of mount + seg, with or without a trailing '/', serves that world's record alone, having opened and closed its store |
| Worlds.CollectionServed | api/worlds.go:118-136 | a GET of the mount point whose listing succeeds opens no store and serves the zero world with one record per listing entry (none for an empty folder), in order, with its full path and, for a plain name, its directory name |
| Worlds.ServeWorlds | api/worlds.go:75-145 | the handler's headers are the CORS headers and its reply is Decide's; its calls on the store are StoreCalls; the store ends closed with its contents unchanged |
| Worlds.Respond | api/worlds.go:105-143 | after the world is resolved, the reply is the dispatch, 405, 500 or served body the decision prescribes; the world record and API version stay as they were; on a served reply the names were copied from the listing in place (none for a single world) and the filled records are the body's worlds; a dispatch, 405 or listing failure leaves both lists empty |
| Cli.PrintKeys | main.go:55-57 | one line per key in the order given, each the lower-case hex of the key, which decodes back to it |
| Cli.KeyLinesCoverStore | main.go:51-57 | the printed lines decode to stored keys, cover every stored key and repeat no line |
| Cli.Keys | main.go:45-59 | a failed open returns its error without a close; otherwise the keys are listed and the handle closed; on success one distinct decodable line per stored key |
| Cli.Get | main.go:71-91 | a failed open returns its error without a close; a bad hex key returns before any read; a missing key or store error is returned; on success one line holding StdEncoding's padded base64 of the stored value, which decodes back to it, or the dump of it; the handle is closed after a successful open |
| Cli.Put | main.go:97-120 | as written: a bad key returns with the handle still open and the open unbalanced; the open error is lost; bad stdin or base64 leaves the map unchanged; otherwise only the key's entry changes |
| Cli.PutChecked | main.go:97-120 | as intended: an open failure is returned; every successful open is followed by Close; bad stdin or base64 leaves the map unchanged; on success only the key's entry changes |
| Cli.Delete | main.go:126-141 | a failed open returns its error without a close; the key is decoded before the delete; on success it is absent and no other entry changes; the handle is closed after a successful open |
| Cli.PutThenGet | main.go:77-118 | put as written followed by get with the same hex key prints the base64 encoding of exactly the bytes supplied, which decodes like the supplied text, and only that key's entry changed |
| Cli.DeleteThenGet | main.go:77-139 | delete followed by get of the same key reports not-found, and only that key was removed |
| Cli.PutLeaksOnBadKey | main.go:98-106 | put as written with key "zz" on a world that opens returns the key error and leaves the handle open |
| Cli.PutCheckedClosesOnBadKey | main.go:98-106 | the corrected put with the same input returns the same error and leaves the handle closed |
| Cli.PutLosesOpenError | main.go:98-99 | put as written on a world that fails to open, with a valid key and value, does not return the open error |
| Cli.PutCheckedReportsOpenError | main.go:98-99 | the corrected put with the same input returns the open error |

## Left out

- The HTTP server, `http.ResponseWriter` and `fmt.Fprintln`: the response is a returned value.
  - `http.Error`'s own headers (`Content-Type`, `X-Content-Type-Options`) and its trailing newline are not modelled.
- `json.MarshalIndent`: a foreign serialiser. Its failure is an input, and the served body is the record it would serialise (without the unexported `worldDirs`).
- `ioutil.ReadFile` and `ioutil.ReadDir`: file-system I/O. They are a map of readable files and a listing result; any read error of `levelname.txt` counts as the file being absent.
- `url.Parse` and `URL.String` in `Fill`: library escaping rules, replaced by the parameter `escapePath`. The ignored parse error, which would make `Fill` dereference nil, is not modelled.
- Worlds.Failure.Message: `url.EscapeError` quotes its text with `strconv.Quote`; the model puts plain double quotes around it, so the escaping of unprintable chars is not modelled.
- The world package (`OpenWorld`, `GetKeys`, `Get`, `Put`, `Delete`, `Close`) is not part of this model. It is replaced by `WorldDb.Store`, an in-memory map with an open flag.
  - Its failures are inputs.
  - An operation on a handle whose open failed returns `NotOpen`, and `Close` on such a handle does nothing. What the real package does with a zero `World` is not visible.
  - The key iteration order is left unspecified.
- `dbApi` and `levelApi` are not part of this model. They appear only as dispatch tags carrying their base URL; their effects on the store are not modelled.
- The `regexp` engine: the two patterns are modelled directly as "the selector occurs at an index of at least 1 with no line break before it".
- Cli.Get: the dump branch returns the value's bytes, not the text layout of `hex.Dump`.
- Base64.DecodeString: `CorruptInputError`'s offset is not modelled, only that the input is corrupt.
- Hex.DecodeString: follows the current Go library, which reports an invalid char before an odd length. Older Go releases checked the length first; either way a bad key is an error before any store access.
- The `api` and `develop` commands: server startup, panics and diagnostic printing.
- `urfave/cli` argument parsing and reading `os.Stdin`: the arguments are parameters, and standard input is a `Result` holding the text or the read error. Printed lines are returned.
- The API version constant lives in a file that is not part of this model, so it is the `Config.apiVersion` parameter.
- The handler requires the request path to start with the mount point. The HTTP mux guarantees this; otherwise `r.URL.Path[len(path):]` would panic.
- Each command requires a handle that is not yet open, because each action opens a fresh one.
- Per-request concurrency of the HTTP host.

## Findings

| source | as written | input that shows it | evidently intended | confidence | as-written member | corrected member |
|---|---|---|---|---|---|---|
| main.go:98-106 | `put` returns on a bad hex key at line 101, before `defer world.Close()` at line 106 is reached, so the opened database handle is never closed | a world that opens, key argument `zz` | close the handle on every return after a successful open, as `keys`, `get` and `delete` do | high; not executed | Cli.PutLeaksOnBadKey | Cli.PutChecked |
| main.go:98-99 | `put` assigns the open error to `err` and overwrites it with the hex result at line 99, so a failed open is never reported; the duplicated check at lines 103-105 is dead | a world that fails to open, key `00`, value `AAAA` | check the open error right after line 98 and return it, as the other commands do | medium (what the real store then does is not visible); not executed | Cli.PutLosesOpenError | Cli.PutChecked |
