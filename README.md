# URL shortener core, modelled in Dafny

This project models the server of a small URL-shortening service written in Go
(`cmd/server/main.go`). The service keeps a map from short id to original URL.
`POST /` stores a plain-text body under the configured id. `POST /api/shorten`
does the same for a JSON body. `GET /{id}` answers a temporary redirect to the
stored URL. A gate in front of the router (`checkURL`) lets only these three
request shapes through and answers 400 "Invalid URL" to everything else. The
gate also wraps the response writer in `logResponse`, which records the status
code and the byte count for the request log. A helper, `RandString`, builds ids
from a 62-letter alphabet.

Modules, one per part of the server:

- `Wrappers` (`wrappers.dfy`): the `Option` type.
- `Http` (`http.dfy`): requests and handler answers as values. `Transport` is
  the connection's response writer, a byte sink with a budget of bytes it still
  accepts.
- `ShortIds` (`short_ids.dfy`): `letterBytes`, `shortURLsize` and `RandString`.
  The indices the random source would draw are a parameter.
- `Routing` (`routing.dfy`): the decision inside `checkURL`. The pattern
  `^/[a-zA-Z0-9-]+$` is written two ways: as a per-character predicate and as
  the automaton a regular-expression matcher runs. A lemma proves the two agree.
- `Logging` (`logging.dfy`): `logResponse` as a class whose methods update
  `code` and `size` in place.
- `Server` (`server.dfy`): `GetHandler` is a pure lookup. `Connection` is a class
  whose handlers update `mapURL` in place. `Serve` runs one request through the
  gate, the router and the logging writer. `Dispatch` is the pure specification
  that `Serve` is proved against: its contract states the new map and the
  status, Location and bytes the client gets as those of `Dispatch`, so the
  lemmas about `Dispatch` (round trips, last write wins, what any sequence of
  requests leaves in the store) hold of every request `Serve` handles. The
  handler methods state the same answers and map updates case by case.
- `ServerScenarios` (`server.dfy`): the request sequences of
  `cmd/server/main_test.go`, replayed through `Serve`.

The model follows the code in these points:

- Every create stores under the configured id (`config.UrlID`). Nothing in the
  server calls `RandString` or uses `shortURLsize`. The model takes the
  configured id as a parameter and never generates one.
- The tests run with an empty configured id. A create then succeeds and answers
  `/`, but the stored mapping can never be resolved, because `GET /` does not
  pass the gate. `CreateThenResolve` proves this for every id outside
  `[a-zA-Z0-9-]+`, and `EmptyIdScenario` shows it on the tests' own requests.
- `RandString` seeds a new source from the current second on every call, not
  once per process. Two calls in the same second therefore draw the same
  indices. The model makes the result a function of the drawn indices.
- A rejected request gets "Invalid URL" twice. `http.Error` writes it with a
  newline straight to the connection, and then `checkURL` writes it again
  through the logging writer. Only the second write is counted in `size`.

## Model

| member | source | states |
|---|---|---|
| `ShortIds.LetterBytesAt` | cmd/server/main.go:21 | position k of the alphabet is the k-th letter of a-z, then A-Z, then 1-9 and 0; the alphabet has 62 letters |
| `ShortIds.LetterBytesAreAlphaNum` | cmd/server/main.go:21 | every letter of the alphabet is an ASCII letter or digit |
| `ShortIds.AlphaNumInLetterBytes` | cmd/server/main.go:21 | every ASCII letter and digit is in the alphabet |
| `ShortIds.LetterBytesDistinct` | cmd/server/main.go:21 | no letter occurs twice in the alphabet |
| `ShortIds.LetterBytesIsAlphanumeric` | cmd/server/main.go:21 | the alphabet is exactly the 62 letters and digits, each once, so a uniform draw is uniform over them |
| `ShortIds.RandString` | cmd/server/main.go:63-71 | the result has exactly n characters; position i holds the letter at the i-th drawn index, which is a letter or digit |
| `Routing.RunFailed` | cmd/server/main.go:148 | once the matcher has failed it stays failed, whatever follows |
| `Routing.RunInId` | cmd/server/main.go:148 | from inside an id, the matcher ends accepting iff every remaining character is in `[a-zA-Z0-9-]` |
| `Routing.RunAfterSlash` | cmd/server/main.go:148 | after the leading slash, the matcher accepts iff the rest is a non-empty run of `[a-zA-Z0-9-]` |
| `Routing.MatchStringIsIdPath` | cmd/server/main.go:148 | the matcher for `^/[a-zA-Z0-9-]+$` accepts exactly the paths that are a slash followed by one or more id characters |
| `Routing.CheckURL` | cmd/server/main.go:148-158 | exact accept table: GET with an id path goes to resolve, with the id being the path minus its slash; POST `/` goes to create; POST `/api/shorten` goes to JSON create; everything else is rejected (both directions of each case) |
| `Routing.IdPathRoutes` | cmd/server/main.go:148-149 | `GET /` followed by an id reaches the resolver with that id iff the id is in `[a-zA-Z0-9-]+`; otherwise it is rejected |
| `Routing.RejectedGets` | cmd/server/main.go:148-158 | `GET /`, `GET /abc/def` and `DELETE /sharaga` are rejected |
| `Routing.RejectedCreates` | cmd/server/main_test.go:160-167 | a plain create on a path other than `/` is rejected: the tests' `/unneededID`, and `/wrong` as a further example |
| `Routing.RejectedShortens` | cmd/server/main_test.go:303-318 | POST to `/api/path` and PUT to `/api/shorten` are rejected |
| `Routing.AcceptedShapes` | cmd/server/main_test.go:47-302 | the accepted request of each test table: `GET /sharaga` (lines 47-56) resolves id `sharaga`; `POST /` (lines 152-159) and `POST /api/shorten` (lines 295-302) reach their create handlers |
| `Logging.LogResponse.constructor` | cmd/server/main.go:144 | a fresh wrapper records code 0 and size 0 around the given writer |
| `Logging.LogResponse.Write` | cmd/server/main.go:42-49 | forwards the bytes; on a writer error it returns 0 and leaves size unchanged; otherwise size grows by exactly the count written; size never decreases and never exceeds the bytes sent; the connection's remaining budget shrinks by what it took |
| `Logging.LogResponse.WriteHeader` | cmd/server/main.go:51-54 | forwards the status and records it as code; size and the sent bytes are unchanged |
| `Logging.LogResponse.AddLocation` | cmd/server/main.go:56-58 | a header added through the wrapper lands in the wrapped writer's header while the status is unwritten, and is dropped after; nothing else changes |
| `Server.GetHandler` | cmd/server/main.go:73-87 | a stored id answers 307 with Location set to the stored URL and an empty body; an unknown id answers 400 with no Location and body "Invalid URL for GET" |
| `Server.DispatchEffect` | cmd/server/main.go:99-119 | the store changes only through a successful create, and only at the configured id; a request answers 201 iff it stores; every 400 leaves the store untouched; a Location is set iff the answer is 307 |
| `Server.CreateThenResolve` | cmd/server/main.go:76-103 | after `POST /` stores u, a GET of the configured id redirects to u if the id is in `[a-zA-Z0-9-]+`, and is rejected with no Location otherwise |
| `Server.CreateJSONThenResolve` | cmd/server/main.go:114-126 | a JSON create whose body decodes to u answers 201 with the marshalled id and stores u under the configured id, whatever the id; a GET of the id then redirects to u if the id is in `[a-zA-Z0-9-]+` and is rejected with no Location otherwise; a body that fails to decode answers 400 and leaves the store unchanged |
| `Server.LastWriteWins` | cmd/server/main.go:99 | two creates under the same id, whatever the id: the lookup handler then redirects the id to the second URL |
| `Server.SingleSlot` | cmd/server/main.go:99-119 | after any sequence of requests, the store equals the initial one except at the configured id, which holds the URL of the last successful create (if any) |
| `Server.ResolveAfterRequests` | cmd/server/main.go:73-87 | after any sequence of requests, every other id resolves as before, and the configured id resolves to the last URL created |
| `Server.Connection.constructor` | cmd/server/main.go:181 | the connection starts with the given map |
| `Server.Connection.PostHandler` | cmd/server/main.go:89-104 | an unreadable body answers 400 "Invalid URL for POST" and leaves the map alone; otherwise the body is stored under the configured id, every other id resolves as before, and the answer is 201 with the path followed by the id |
| `Server.Connection.PostHandlerJSON` | cmd/server/main.go:106-127 | a body that does not decode answers 400 with no body and leaves the map alone; otherwise the decoded URL is stored under the configured id, every other id resolves as before, and the answer is 201 with the marshalled id |
| `Server.Connection.Serve` | cmd/server/main.go:129-177 | one request through the gate, router and logging writer: the new map, the logged code, the client's status, the Location value the handler sets and the received bytes are those of `Dispatch`; the connection's budget shrinks by the bytes sent; the logged size of an accepted request is the body length if the connection took it all, and 0 otherwise; for a rejected request it is 11 (the counted "Invalid URL") if the connection took both writes, and 0 otherwise |
| `Server.Reject` | cmd/server/main.go:154-158 | a rejected request answers 400 and records code 400; the client receives "Invalid URL" twice; only the second write is counted; the connection's budget shrinks by the bytes sent |
| `Server.Answer` | cmd/server/main.go:78-126 | a handler's writes in order (Location, status, body) leave the status and Location in the writer, the body prefix the connection accepted in the sent bytes, and the code and size in the log record; the connection's budget shrinks by the bytes sent |
| `ServerScenarios.ResolveScenarios` | cmd/server/main_test.go:47-79 | on the seeded store `GET /sharaga` answers 307 to https://mai.ru; `GET /test` on a store without it answers 400 with no Location |
| `ServerScenarios.EmptyIdScenario` | cmd/server/main_test.go:152-159 | with the empty configured id, `POST /` answers 201 with body `/`, and `GET /` is then rejected with 400 |
| `ServerScenarios.RoundTripScenario` | cmd/server/main.go:99-103 | with a well-formed configured id, `POST /` answers 201 with `/` plus the id, and a GET of the id then redirects to the stored URL |
| `ServerScenarios.ShortenScenarios` | cmd/server/main_test.go:295-326 | a JSON create succeeds with 201; a wrong path, a wrong method and a malformed body each answer 400; a plain create on `/unneededID` answers 400 |

## Left out

- Gzip compression of request and response bodies: the tests expect it, but `cmd/server/main.go` has no compression code.
- Concurrency: the Go map is shared with no lock. The model serves requests one after another.
- Logging and timing: the zap logger, its construction error branch (`cmd/server/main.go:133-136`), the log lines and the request duration. The model returns the logged code and size instead.
- JSON: `encoding/json` enters as a `JsonCodec` value with two functions, a decoder that may fail and a marshaller. Marshalling a struct with one string field cannot fail, so the `MarshalIndent` error branch (`cmd/server/main.go:121-125`) is not modelled.
- The JSON handler's decode-error branch writes no body. The model writes an empty one, which changes neither the writer nor the count.
- RandString: the length is a `nat`; Go's `make([]byte, n)` panics on a negative n, and that panic is not modelled.
- The random source: `RandString` takes the drawn indices as a parameter. Seeding from the clock is not modelled.
- The chi router: the `{id}` parameter is the path without its leading slash. The model routes on the decoded path. chi routes on the escaped path when the request spells it with percent-escapes; the handler may then get an escaped id (`GET /%73haraga` misses the lookup), or no route may match (`POST /api/shorte%6E` runs no handler). That case is not modelled.
- net/http: only the status, the Location header and the body bytes of the response writer are modelled. Other headers are not (the Content-Type that `http.Error` sets, for one). `WriteHeader` panics on codes outside 100-999; the model does not, and `Server.Answer` requires a valid code instead. Header values are recorded as the handler sets them; net/http's wire encoding (CR and LF turned into spaces, surrounding whitespace trimmed) is not modelled.
- Bytes: Go strings are byte strings. The model uses Dafny strings with one character per byte, so byte counts are character counts.
- Configuration, process start-up and the other programs: `cmd/config/flags.go`, `cmd/client/main.go`, `cmd/skill/main.go` and `main`/`ListenAndServe` are not part of this model. The configured id is a plain parameter.
