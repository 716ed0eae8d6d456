# Session layer of a location-based game client, in Dafny

This project models the session layer of the game's RPC client (`api/session.go`, package
`api`). A `Session` starts *bootstrapping*: its endpoint `url` is empty, so every call goes to
the default URL. A successful `Init` logs in through the auth provider and sends a batch of
five sub-requests. It then *binds* the session to the endpoint the server assigns,
`https://<ApiUrl>/rpc`. Nothing moves the session back. `Announce`, `GetPlayer` and
`GetInventory` each send one batch through `Call`. `Call` wraps the batch in an envelope that
carries fixed protocol values, the session's location and the provider's credentials.

Files:

- `wrappers.dfy`: `Option` and `Result`.
- `protos.dfy` (module `Protos`): the protocol buffer types the session touches. These are the
  fixed-width integers, `RequestType`, `Request`, the three marshalled sub-request messages,
  the request and response envelopes, and the decoded sub-responses.
- `session.dfy` (module `Api`): the constants, `Location`, `Error` and `getCellIDs`. Also the
  endpoint URL format and the `Session` class with `setURL`, `getURL`, `Call`, `Init`,
  `Announce`, `GetPlayer` and `GetInventory`, plus two client scenarios.

Foreign code is not modelled; it is passed in. The deterministic libraries are the s2
geometry calls, `proto.Marshal` and `GetErrorFromStatus`. They are the function-typed fields
of `Libraries`, so nothing is assumed about them. What the outside world answers during one
operation is a `World`. That covers the result of `Login`, the provider string and access
token, `time.Now().Unix()`, and the RPC transport. The transport is a function from the
target URL and the envelope to a response or an error. The ghost field `Session.sent` records
every transport call (URL and envelope), in order. Contracts use it to say what was sent and
to say that no call was made.

## Model

| member | source | states |
|---|---|---|
| `Protos.RequestTypes` | api/session.go:120-144 | The kinds of a batch, position by position, so that batch order can be stated as a sequence of `RequestType` values. |
| `Api.GenerateRequests` | api/session.go:37-39 | Every batch starts out empty. |
| `Api.WrapInt64` | api/session.go:164 | Go's int64 product `Unix() * 1000` wraps to 64 bits: the result is congruent to the exact product modulo 2^64, and equal to it when it fits. |
| `Api.LastTimestamp` | api/session.go:164 | `time.Now().Unix() * 1000` as Go computes it in int64: congruent to the exact millisecond product modulo 2^64, and equal to it whenever it fits in int64. |
| `Api.ZeroInt64s` | api/session.go:174 | `make([]int64, n)` has length n and every element is 0. |
| `Api.GetCellIDs` | api/session.go:41-49 | The result is the origin cell followed by that cell's edge neighbours, in the library's order. The origin, computed by `Origin` as at line 42, is the level-15 parent of the cell the library finds from latitude then longitude. It is at index 0 and the length is one more than the number of neighbours. |
| `Api.BoundURL` | api/session.go:61-63 | `"https://" + token + "/rpc"` is never empty, has the bound-URL shape, and gives back exactly the token it was built from. |
| `Api.BoundURLOfToken` | api/session.go:61-63 | In the other direction, every URL of the bound shape is rebuilt exactly from the token it contains. |
| `Api.BoundURLInjective` | api/session.go:61-63 | Two tokens yield the same bound URL if and only if they are equal. |
| `Api.PositionalTransportReturnsResults` | api/session.go:213-219 | A transport that answers one result per sub-request answers every non-empty batch with a result 0. So it meets the precondition of `Announce`, `GetPlayer` and `GetInventory`, and the index `Returns[0]` at lines 219, 236 and 254 is in range for it. |
| `Api.Session.constructor` | api/session.go:52-59 | A new session keeps the given location and debug flag, has an empty endpoint and has made no transport call. |
| `Api.Session.SetURL` | api/session.go:61-63 | Afterwards `url == "https://" + token + "/rpc"`; the endpoint invariant holds and the token can be read back from it. |
| `Api.Session.GetURL` | api/session.go:65-73 | Returns the default URL when `url` is empty and `url` otherwise. It is never empty. |
| `Api.Session.Call` | api/session.go:76-111 | Makes exactly one transport call, to `getURL()`. The envelope carries request id 8145806132888207460, status code 2, Unknown12 989 and token Unknown2 59. It carries the session's longitude, latitude and altitude, the provider string and access token read at call time, and the batch unchanged. The transport's answer to that URL and envelope is returned as is. |
| `Api.Session.Init` | api/session.go:114-158 | If login fails, Init returns that error, makes no transport call and leaves `url` unchanged. Otherwise it makes one call to the URL in force before Init, with the Init batch: GET_PLAYER, GET_HATCHED_EGGS, GET_INVENTORY, CHECK_AWARDED_BADGES, DOWNLOAD_SETTINGS. Only the last carries a payload, the marshalled settings hash. A transport error is returned unchanged and leaves `url` alone. An empty `ApiUrl` gives the "service might be down" error and leaves `url` alone. A non-empty `ApiUrl` sets `url` to `"https://" + ApiUrl + "/rpc"` with no error. The endpoint invariant holds: a non-empty `url` is the bound URL of the token it contains, and a non-empty `url` never becomes empty. |
| `Api.Session.Announce` | api/session.go:161-221 | Makes one call to `getURL()` with five sub-requests: GET_MAP_OBJECTS, GET_HATCHED_EGGS, GET_INVENTORY, CHECK_AWARDED_BADGES, DOWNLOAD_SETTINGS. GET_MAP_OBJECTS carries the cell list of `getCellIDs`, one zero timestamp per cell, and the latitude and longitude. GET_INVENTORY carries the wrapped millisecond timestamp, and DOWNLOAD_SETTINGS the settings hash; the other two carry nothing. Any transport error becomes `RequestError` with no map objects. On success, result 0 is decoded and the classifier's verdict on the status code is the error. `url` is not touched. |
| `Api.Session.GetPlayer` | api/session.go:224-239 | Makes one call to `getURL()` with the one-element batch [GET_PLAYER, no payload]. A transport error is returned unchanged. On success it returns result 0 decoded, with no error. `url` is not touched. |
| `Api.Session.GetInventory` | api/session.go:242-257 | Makes one call to `getURL()` with the one-element batch [GET_INVENTORY, no payload]. A transport error is returned unchanged. On success it returns result 0 decoded, with no error. `url` is not touched. |
| `Api.BindThenOperate` | api/session.go:146-157 | A fresh session targets the default URL. After an Init whose response assigns a non-empty token, `getURL()` is `https://<token>/rpc`. It stays so through a failing Announce, a GetPlayer and a failing GetInventory. |
| `Api.RedirectThenFetch` | api/session.go:146-157 | A server answers the default URL with an endpoint and no results, and a bound URL with one result per sub-request. After Init, `GetPlayer` and `GetInventory` go to the bound URL and each decodes its result 0. |
| `Api.EmptyEndpointKeepsBootstrap` | api/session.go:151-154 | An Init whose response has an empty `ApiUrl` returns the binding-failure error, and the session still targets the default URL. |

## Left out

- s2 geometry (`CellIDFromLatLng`, `LatLngFromDegrees`, `Parent`, `EdgeNeighbors`): floating-point code in a foreign library. It is an uninterpreted function in `Libraries`, so the model states no neighbour count. The source asserts no neighbour count and no uniqueness of the cells; it returns whatever the library gives.
- `proto.Marshal` and `proto.Unmarshal`: foreign code. Marshal is an uninterpreted function from message to bytes. Its error is discarded at api/session.go:137, 169, 191 and 204, so it is total here. A decoded sub-response is represented by the bytes it is decoded from; the discarded Unmarshal error and the message contents are not modelled.
- `rpc.Client` and its `Request`: network transport, an uninterpreted function of URL and envelope in `World`. Any response that Go returns beside a non-nil error is ignored by the session, so it is not modelled.
- `auth.Provider` (`Login`, `GetProviderString`, `GetAccessToken`): an external capability. Its answers during one operation are fields of `World`. The first result of `Login` is discarded by the source and is not modelled. The access token is modelled as a string.
- `GetErrorFromStatus` and `RequestError` are defined in files that are not part of this model. The classifier is an uninterpreted function of the status code; `RequestError` is a constructor of `Error`.
- `time.Now()`: wall-clock input. `World.unixSeconds` is the value of `Unix()` during the operation.
- Debug logging (api/session.go:100-108): I/O with no effect on behaviour. The `debug` flag is kept but unused.
- Floating-point values: locations are kept as 64-bit patterns and only copied.
- The session holds a `*Location` pointer, which the caller could still modify. The model stores the location by value.
- `Api.Session.Announce`, `Api.Session.GetPlayer`, `Api.Session.GetInventory`: the source indexes `Returns[0]` without a length check, which would panic on an empty result list. These methods instead require that the answer to the envelope the method sends to `getURL()`, if successful, carries at least one result (`AnswersWithResult`).
