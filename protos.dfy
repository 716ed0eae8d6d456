/** The protocol buffer types of the game's RPC protocol, as far as the session layer
    touches them. Payloads of sub-requests and sub-responses stay opaque bytes. */
module Protos {

  newtype uint8 = x: int | 0 <= x < 0x100
  newtype int32 = x: int | -0x8000_0000 <= x < 0x8000_0000
  newtype int64 = x: int | -0x8000_0000_0000_0000 <= x < 0x8000_0000_0000_0000
  newtype uint64 = x: int | 0 <= x < 0x1_0000_0000_0000_0000

  type Bytes = seq<uint8>

  /** A Go float64, kept as its IEEE-754 bit pattern: the session only copies these. */
  type Float64 = bv64

  /** The sub-request kinds the session sends (protobuf enum RequestType). */
  datatype RequestType =
    | GET_PLAYER
    | GET_HATCHED_EGGS
    | GET_INVENTORY
    | CHECK_AWARDED_BADGES
    | DOWNLOAD_SETTINGS
    | GET_MAP_OBJECTS

  /** One sub-request of a batch; an unset RequestMessage (nil) is the empty sequence. */
  datatype Request = Request(requestType: RequestType, requestMessage: Bytes)

  /** The sub-request messages the session marshals into RequestMessage payloads. */
  datatype Message =
    | DownloadSettingsMessage(hash: string)
    | GetMapObjectsMessage(cellId: seq<uint64>, sinceTimestampMs: seq<int64>,
                           latitude: Float64, longitude: Float64)
    | GetInventoryMessage(lastTimestampMs: int64)

  datatype JWT = JWT(contents: string, unknown2: int32)

  datatype AuthInfo = AuthInfo(provider: string, token: JWT)

  datatype RequestEnvelope = RequestEnvelope(
    requestId: uint64,
    statusCode: int32,
    unknown12: int64,
    longitude: Float64,
    latitude: Float64,
    altitude: Float64,
    authInfo: AuthInfo,
    requests: seq<Request>)

  /** The fields of a response envelope the session reads. */
  datatype ResponseEnvelope = ResponseEnvelope(statusCode: int32, apiUrl: string, results: seq<Bytes>)  // results: the envelope's Returns

  /** Decoded sub-responses. Each stands for the message proto.Unmarshal reads from
      `encoded`; what the message holds is not modelled. */
  datatype GetPlayerResponse = GetPlayerResponse(encoded: Bytes)
  datatype GetInventoryResponse = GetInventoryResponse(encoded: Bytes)
  datatype GetMapObjectsResponse = GetMapObjectsResponse(encoded: Bytes)

  /** The kinds of a batch, in batch order. */
  function RequestTypes(requests: seq<Request>): (types: seq<RequestType>)
    ensures |types| == |requests|
    ensures forall i :: 0 <= i < |requests| ==> types[i] == requests[i].requestType
  {
    if requests == [] then [] else [requests[0].requestType] + RequestTypes(requests[1..])
  }
}
