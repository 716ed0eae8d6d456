/** The session layer of the game client (package api): endpoint binding, the request
    batches of the four protocol operations, envelope assembly and error routing. */
module Api {
  import opened Wrappers
  import opened Protos

  /** The bootstrap endpoint, used until Init binds the session. */
  const DefaultURL := "https://pgorelease.nianticlabs.com/plfe/rpc"
  /** The settings version sent with every DOWNLOAD_SETTINGS sub-request. */
  const DownloadSettingsHash := "05daf51635c82611d1aac95c0b051d3ec088a930"
  /** The s2 level of the cells that describe the player's surroundings. */
  const CellIDLevel := 15

  // Fixed envelope fields that must match what the server expects from this client.
  const EnvelopeRequestId: uint64 := 8145806132888207460
  const EnvelopeStatusCode: int32 := 2
  const EnvelopeUnknown12: int64 := 989
  const TokenUnknown2: int32 := 59

  /** The text of the error Init returns when the server assigns no endpoint. */
  const InitFailureMessage := "Could not initialize session, the service might be down"

  /** A geographic fix; the floats are only copied, never computed with. */
  datatype Location = Location(lon: Float64, lat: Float64, alt: Float64)

  /** Errors: one raised by a collaborator (auth provider, transport, status
      classifier), the RequestError value, or one built with fmt.Errorf. */
  datatype Error = Foreign(description: string) | RequestError | Errorf(message: string)

  /** The deterministic foreign code the session calls: the s2 geometry library,
      proto.Marshal (its error is discarded at every call site) and GetErrorFromStatus. */
  datatype Libraries = Libraries(
    // s2.CellIDFromLatLng(s2.LatLngFromDegrees(lat, lon))
    cellIDFromDegrees: (Float64, Float64) -> uint64,
    // CellID.Parent(level)
    parent: (uint64, int) -> uint64,
    // CellID.EdgeNeighbors()
    edgeNeighbors: uint64 -> seq<uint64>,
    marshal: Message -> Bytes,
    errorFromStatus: int32 -> Option<Error>)

  /** What the outside world answers during one operation: the auth provider's
      Login result and credentials, the wall clock (time.Now().Unix()) and the
      RPC transport, which maps a URL and an envelope to a response or an error. */
  datatype World = World(
    loginError: Option<Error>,
    providerString: string,
    accessToken: string,
    unixSeconds: int64,
    transport: (string, RequestEnvelope) -> Result<ResponseEnvelope, Error>)

  /** The transport's answer to this one call, if successful, carries a result 0. */
  ghost predicate AnswersWithResult(transport: (string, RequestEnvelope) -> Result<ResponseEnvelope, Error>,
                                    url: string, envelope: RequestEnvelope) {
    transport(url, envelope).Success? ==> transport(url, envelope).value.results != []
  }

  /** A transport that answers one result per sub-request, as the protocol's positional
      rule has it, has a result 0 for every non-empty batch, so for each batch Announce,
      GetPlayer and GetInventory send. */
  lemma PositionalTransportReturnsResults(transport: (string, RequestEnvelope) -> Result<ResponseEnvelope, Error>)
    requires forall url: string, envelope: RequestEnvelope ::
      transport(url, envelope).Success? ==> |transport(url, envelope).value.results| == |envelope.requests|
    ensures forall url: string, envelope: RequestEnvelope ::
      envelope.requests != [] ==> AnswersWithResult(transport, url, envelope)
  {
  }

  /** Go's int64 multiplication: the mathematical value wrapped to 64 bits in two's complement. */
  function WrapInt64(x: int): (r: int64)
    ensures (r as int - x) % 0x1_0000_0000_0000_0000 == 0
    ensures -0x8000_0000_0000_0000 <= x < 0x8000_0000_0000_0000 ==> r as int == x
  {
    ((x + 0x8000_0000_0000_0000) % 0x1_0000_0000_0000_0000 - 0x8000_0000_0000_0000) as int64
  }

  /** The LastTimestampMs Announce sends: time.Now().Unix() * 1000, in milliseconds. */
  function LastTimestamp(unixSeconds: int64): (ms: int64)
    ensures (ms as int - unixSeconds as int * 1000) % 0x1_0000_0000_0000_0000 == 0
    ensures -0x8000_0000_0000_0000 <= unixSeconds as int * 1000 < 0x8000_0000_0000_0000 ==>
              ms as int == unixSeconds as int * 1000
  {
    WrapInt64(unixSeconds as int * 1000)
  }

  /** make([]int64, n): n zeros. */
  function ZeroInt64s(n: nat): (zeros: seq<int64>)
    ensures |zeros| == n
    ensures forall i :: 0 <= i < n ==> zeros[i] == 0
  {
    seq(n, _ => 0)
  }

  /** generateRequests: every batch starts out empty. */
  function GenerateRequests(): (requests: seq<Request>)
    ensures |requests| == 0
  {
    []
  }

  // ---- Cells ------------------------------------------------------------------

  /** The level-15 cell that contains the location, found from its latitude and longitude. */
  function Origin(lib: Libraries, location: Location): uint64 {
    lib.parent(lib.cellIDFromDegrees(location.lat, location.lon), CellIDLevel)
  }

  /** getCellIDs: the origin cell, then each of its edge neighbours in the library's order. */
  method GetCellIDs(lib: Libraries, location: Location) returns (cellIDs: seq<uint64>)
    ensures cellIDs == [Origin(lib, location)] + lib.edgeNeighbors(Origin(lib, location))
    ensures |cellIDs| == 1 + |lib.edgeNeighbors(Origin(lib, location))| && cellIDs[0] == Origin(lib, location)
  {
    var origin := Origin(lib, location);
    cellIDs := [];
    cellIDs := cellIDs + [origin];
    var neighbors := lib.edgeNeighbors(origin);
    for i := 0 to |neighbors|
      invariant cellIDs == [origin] + neighbors[..i]
    {
      cellIDs := cellIDs + [neighbors[i]];
    }
  }

  // ---- Endpoint URLs ---------------------------------------------------------

  /** The shape of every URL setURL writes. */
  predicate IsBoundURL(url: string) {
    |url| >= 12 && url[..8] == "https://" && url[|url| - 4..] == "/rpc"
  }

  /** The server-assigned token inside a bound URL. */
  function TokenOf(url: string): string
    requires IsBoundURL(url)
  {
    url[8..|url| - 4]
  }

  /** fmt.Sprintf("https://%s/rpc", urlToken): always a bound URL, from which the token is recovered. */
  function BoundURL(urlToken: string): (url: string)
    ensures url != ""
    ensures IsBoundURL(url) && TokenOf(url) == urlToken
  {
    "https://" + urlToken + "/rpc"
  }

  /** The other direction of the round trip: a bound URL is rebuilt from its token. */
  lemma BoundURLOfToken(url: string)
    requires IsBoundURL(url)
    ensures BoundURL(TokenOf(url)) == url
  {
  }

  /** Two tokens bind the same URL only when they are equal. */
  lemma BoundURLInjective(a: string, b: string)
    ensures BoundURL(a) == BoundURL(b) <==> a == b
  {
  }

  // ---- Envelopes and batches ---------------------------------------------------

  /** The fields Call fills in around a batch: the fixed protocol values, the
      session's location and the provider's credentials read at call time. */
  ghost predicate Stamped(envelope: RequestEnvelope, location: Location, world: World) {
    && envelope.requestId == 8145806132888207460
    && envelope.statusCode == 2
    && envelope.unknown12 == 989
    && envelope.longitude == location.lon
    && envelope.latitude == location.lat
    && envelope.altitude == location.alt
    && envelope.authInfo.provider == world.providerString
    && envelope.authInfo.token.contents == world.accessToken
    && envelope.authInfo.token.unknown2 == 59
  }

  /** The Init batch: five sub-requests in this order; only the settings download carries a payload. */
  ghost predicate IsInitBatch(requests: seq<Request>, lib: Libraries) {
    && RequestTypes(requests) == [GET_PLAYER, GET_HATCHED_EGGS, GET_INVENTORY, CHECK_AWARDED_BADGES, DOWNLOAD_SETTINGS]
    && (forall i :: 0 <= i < 4 ==> requests[i].requestMessage == [])
    && requests[4].requestMessage == lib.marshal(DownloadSettingsMessage(DownloadSettingsHash))
  }

  /** The Announce batch: the map-objects query over the cell neighbourhood with one
      zero timestamp per cell, then the same housekeeping bundle as Init, the
      inventory request carrying the current time. */
  ghost predicate IsAnnounceBatch(requests: seq<Request>, lib: Libraries, location: Location, lastTimestamp: int64) {
    var cellIDs := [Origin(lib, location)] + lib.edgeNeighbors(Origin(lib, location));
    && RequestTypes(requests) == [GET_MAP_OBJECTS, GET_HATCHED_EGGS, GET_INVENTORY, CHECK_AWARDED_BADGES, DOWNLOAD_SETTINGS]
    && requests[0].requestMessage
       == lib.marshal(GetMapObjectsMessage(cellIDs, ZeroInt64s(|cellIDs|), location.lat, location.lon))
    && requests[1].requestMessage == []
    && requests[2].requestMessage == lib.marshal(GetInventoryMessage(lastTimestamp))
    && requests[3].requestMessage == []
    && requests[4].requestMessage == lib.marshal(DownloadSettingsMessage(DownloadSettingsHash))
  }

  /** How Init ends once its call returned `reply`: the transport error as is, a
      binding failure on an empty ApiUrl, or the session bound to the assigned URL. */
  ghost predicate InitOutcome(reply: Result<ResponseEnvelope, Error>, before: string, after: string, err: Option<Error>) {
    match reply
    case Failure(e) => err == Some(e) && after == before
    case Success(response) =>
      if response.apiUrl == "" then err == Some(Errorf(InitFailureMessage)) && after == before
      else err == None && after == "https://" + response.apiUrl + "/rpc"
  }

  /** How Announce ends once its call returned `reply`: any transport error becomes
      RequestError; otherwise result 0 is decoded and the status code classified. */
  ghost predicate AnnounceOutcome(reply: Result<ResponseEnvelope, Error>, lib: Libraries,
                                  mapObjects: Option<GetMapObjectsResponse>, err: Option<Error>) {
    match reply
    case Failure(_) => mapObjects == None && err == Some(RequestError)
    case Success(response) =>
      && response.results != []
      && mapObjects == Some(GetMapObjectsResponse(response.results[0]))
      && err == lib.errorFromStatus(response.statusCode)
  }

  /** One call of the transport, as the session made it. */
  datatype Sent = Sent(url: string, envelope: RequestEnvelope)

  // ---- Session -----------------------------------------------------------------

  /** A client session: the location it reports, and the endpoint it is bound to
      ("" while bootstrapping). `sent` records every transport call, in order. */
  class Session {
    const location: Location
    const debug: bool
    var url: string
    ghost var sent: seq<Sent>

    /** The endpoint is either unset or a URL setURL built. */
    ghost predicate Valid()
      reads this`url
    {
      url == "" || IsBoundURL(url)
    }

    /** NewSession: a bootstrapping session that has not called the transport yet. */
    constructor (location: Location, debug: bool)
      ensures this.location == location && this.debug == debug
      ensures url == "" && sent == [] && Valid()
    {
      this.location := location;
      this.debug := debug;
      url := "";
      sent := [];
    }

    /** setURL: bind the session to the server-assigned token. */
    method SetURL(urlToken: string)
      modifies this`url
      ensures url == "https://" + urlToken + "/rpc"
      ensures Valid() && TokenOf(url) == urlToken
    {
      url := BoundURL(urlToken);
    }

    /** getURL: the bound endpoint, or the bootstrap one while unbound; never empty. */
    function GetURL(): (r: string)
      reads this`url
      ensures url == "" ==> r == DefaultURL
      ensures url != "" ==> r == url
      ensures r != ""
    {
      if url != "" then url else DefaultURL
    }

    ghost function LastSent(): Sent
      reads this`sent
      requires sent != []
    {
      sent[|sent| - 1]
    }

    /** Exactly one transport call was added to `before`. */
    ghost predicate SentOneMore(before: seq<Sent>)
      reads this`sent
    {
      |sent| == |before| + 1 && sent[..|before|] == before
    }

    /** Call: wrap the batch, unchanged, in an envelope and send it to getURL(). */
    method Call(requests: seq<Request>, world: World) returns (reply: Result<ResponseEnvelope, Error>)
      modifies this`sent
      ensures SentOneMore(old(sent))
      ensures LastSent().url == GetURL()
      ensures Stamped(LastSent().envelope, location, world)
      ensures LastSent().envelope.requests == requests
      ensures reply == world.transport(LastSent().url, LastSent().envelope)
    {
      var auth := AuthInfo(world.providerString, JWT(world.accessToken, TokenUnknown2));
      var requestEnvelope := RequestEnvelope(
        EnvelopeRequestId, EnvelopeStatusCode, EnvelopeUnknown12,
        location.lon, location.lat, location.alt,
        auth, requests);
      var target := GetURL();
      sent := sent + [Sent(target, requestEnvelope)];
      reply := world.transport(target, requestEnvelope);
    }

    /** Init: log in, send the Init batch, and bind to the endpoint the server assigns. */
    method Init(lib: Libraries, world: World) returns (err: Option<Error>)
      requires Valid()
      modifies this`url, this`sent
      ensures Valid()
      ensures url != "" ==> GetURL() == BoundURL(TokenOf(url))
      ensures old(url) != "" ==> url != ""
      ensures world.loginError.Some? ==> err == world.loginError && url == old(url) && sent == old(sent)
      ensures world.loginError.None? ==>
        && SentOneMore(old(sent))
        && LastSent().url == old(GetURL())
        && Stamped(LastSent().envelope, location, world)
        && IsInitBatch(LastSent().envelope.requests, lib)
        && InitOutcome(world.transport(LastSent().url, LastSent().envelope), old(url), url, err)
    {
      if world.loginError.Some? {
        return world.loginError;
      }

      var requests := GenerateRequests();
      requests := requests + [Request(GET_PLAYER, [])];
      requests := requests + [Request(GET_HATCHED_EGGS, [])];
      requests := requests + [Request(GET_INVENTORY, [])];
      requests := requests + [Request(CHECK_AWARDED_BADGES, [])];
      var settingsMessage := lib.marshal(DownloadSettingsMessage(DownloadSettingsHash));
      requests := requests + [Request(DOWNLOAD_SETTINGS, settingsMessage)];

      var response := Call(requests, world);
      if response.Failure? {
        return Some(response.error);
      }

      var apiUrl := response.value.apiUrl;
      if apiUrl == "" {
        return Some(Errorf(InitFailureMessage));
      }

      SetURL(apiUrl);
      return None;
    }

    /** Announce: report the player's surroundings and fetch the map objects. */
    method Announce(lib: Libraries, world: World) returns (mapObjects: Option<GetMapObjectsResponse>, err: Option<Error>)
      requires forall e: RequestEnvelope ::
        Stamped(e, location, world) && IsAnnounceBatch(e.requests, lib, location, LastTimestamp(world.unixSeconds))
        ==> AnswersWithResult(world.transport, GetURL(), e)
      modifies this`sent
      ensures SentOneMore(old(sent))
      ensures LastSent().url == GetURL()
      ensures Stamped(LastSent().envelope, location, world)
      ensures IsAnnounceBatch(LastSent().envelope.requests, lib, location, LastTimestamp(world.unixSeconds))
      ensures AnswersWithResult(world.transport, LastSent().url, LastSent().envelope)
      ensures AnnounceOutcome(world.transport(LastSent().url, LastSent().envelope), lib, mapObjects, err)
    {
      var cellIDs := GetCellIDs(lib, location);
      var lastTimestamp := LastTimestamp(world.unixSeconds);

      var requests := GenerateRequests();
      var getMapObjectsMessage :=
        lib.marshal(GetMapObjectsMessage(cellIDs, ZeroInt64s(|cellIDs|), location.lat, location.lon));
      requests := requests + [Request(GET_MAP_OBJECTS, getMapObjectsMessage)];
      requests := requests + [Request(GET_HATCHED_EGGS, [])];
      var getInventoryMessage := lib.marshal(GetInventoryMessage(lastTimestamp));
      requests := requests + [Request(GET_INVENTORY, getInventoryMessage)];
      requests := requests + [Request(CHECK_AWARDED_BADGES, [])];
      var settingsMessage := lib.marshal(DownloadSettingsMessage(DownloadSettingsHash));
      requests := requests + [Request(DOWNLOAD_SETTINGS, settingsMessage)];

      var response := Call(requests, world);
      if response.Failure? {
        return None, Some(RequestError);
      }

      mapObjects := Some(GetMapObjectsResponse(response.value.results[0]));
      err := lib.errorFromStatus(response.value.statusCode);
    }

    /** GetPlayer: fetch the player profile; a transport error is returned unchanged. */
    method GetPlayer(world: World) returns (player: Result<GetPlayerResponse, Error>)
      requires forall e: RequestEnvelope ::
        Stamped(e, location, world) && e.requests == [Request(GET_PLAYER, [])]
        ==> AnswersWithResult(world.transport, GetURL(), e)
      modifies this`sent
      ensures SentOneMore(old(sent))
      ensures LastSent().url == GetURL()
      ensures Stamped(LastSent().envelope, location, world)
      ensures LastSent().envelope.requests == [Request(GET_PLAYER, [])]
      ensures AnswersWithResult(world.transport, LastSent().url, LastSent().envelope)
      ensures var reply := world.transport(LastSent().url, LastSent().envelope);
        player == if reply.Failure? then Failure(reply.error)
                  else Success(GetPlayerResponse(reply.value.results[0]))
    {
      var requests := GenerateRequests();
      requests := requests + [Request(GET_PLAYER, [])];

      var response := Call(requests, world);
      if response.Failure? {
        return Failure(response.error);
      }

      return Success(GetPlayerResponse(response.value.results[0]));
    }

    /** GetInventory: fetch the player's items; a transport error is returned unchanged. */
    method GetInventory(world: World) returns (inventory: Result<GetInventoryResponse, Error>)
      requires forall e: RequestEnvelope ::
        Stamped(e, location, world) && e.requests == [Request(GET_INVENTORY, [])]
        ==> AnswersWithResult(world.transport, GetURL(), e)
      modifies this`sent
      ensures SentOneMore(old(sent))
      ensures LastSent().url == GetURL()
      ensures Stamped(LastSent().envelope, location, world)
      ensures LastSent().envelope.requests == [Request(GET_INVENTORY, [])]
      ensures AnswersWithResult(world.transport, LastSent().url, LastSent().envelope)
      ensures var reply := world.transport(LastSent().url, LastSent().envelope);
        inventory == if reply.Failure? then Failure(reply.error)
                     else Success(GetInventoryResponse(reply.value.results[0]))
    {
      var requests := GenerateRequests();
      requests := requests + [Request(GET_INVENTORY, [])];

      var response := Call(requests, world);
      if response.Failure? {
        return Failure(response.error);
      }

      return Success(GetInventoryResponse(response.value.results[0]));
    }
  }
  // ---- Scenarios ---------------------------------------------------------------

  /** A fresh session targets the bootstrap URL; an Init whose response assigns
      `token` binds it to https://<token>/rpc, and later operations, failing or
      not, leave that endpoint in place. */
  method BindThenOperate(location: Location, lib: Libraries, world: World, token: string)
    returns (before: string, bound: string, after: string)
    requires token != ""
    ensures before == DefaultURL
    ensures bound == "https://" + token + "/rpc"
    ensures after == bound
  {
    var session := new Session(location, false);
    before := session.GetURL();

    var assigning := world.(loginError := None,
                            transport := (u: string, e: RequestEnvelope) => Success(ResponseEnvelope(1, token, [[]])));
    var err := session.Init(lib, assigning);
    bound := session.GetURL();

    var failing := world.(transport := (u: string, e: RequestEnvelope) => Failure(Foreign("connection refused")));
    var mapObjects, status := session.Announce(lib, failing);
    var player := session.GetPlayer(assigning);
    var inventory := session.GetInventory(failing);
    after := session.GetURL();
  }

  /** A server that answers the bootstrap URL with an endpoint and no results, and a
      bound URL with one result per sub-request: after Init binds the session,
      GetPlayer and GetInventory both decode a result. */
  method RedirectThenFetch(location: Location, lib: Libraries, world: World, token: string)
    returns (bound: string, player: Result<GetPlayerResponse, Error>, inventory: Result<GetInventoryResponse, Error>)
    requires token != "" && BoundURL(token) != DefaultURL
    ensures bound == "https://" + token + "/rpc"
    ensures player == Success(GetPlayerResponse([])) && inventory == Success(GetInventoryResponse([]))
  {
    var session := new Session(location, false);
    var redirecting := world.(loginError := None,
      transport := (u: string, e: RequestEnvelope) =>
        if u == DefaultURL then Success(ResponseEnvelope(53, token, []))
        else Success(ResponseEnvelope(1, "", seq(|e.requests|, _ => []))));
    var err := session.Init(lib, redirecting);
    bound := session.GetURL();
    player := session.GetPlayer(redirecting);
    inventory := session.GetInventory(redirecting);
  }

  /** An Init whose response assigns no endpoint fails and leaves the session
      on the bootstrap URL. */
  method EmptyEndpointKeepsBootstrap(location: Location, lib: Libraries, world: World)
    returns (err: Option<Error>, target: string)
    ensures err == Some(Errorf(InitFailureMessage))
    ensures target == DefaultURL
  {
    var session := new Session(location, false);
    var unassigning := world.(loginError := None,
                              transport := (u: string, e: RequestEnvelope) => Success(ResponseEnvelope(1, "", [[]])));
    err := session.Init(lib, unassigning);
    target := session.GetURL();
  }
}
