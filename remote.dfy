/**
 * The upload endpoint at its interface: the request body of one record
 * (LocationRequest.kt) and the outcome of one `upload` call, which either
 * returns normally or throws. The server's behaviour is an arbitrary
 * function from the number of the call to its outcome.
 */
module Remote {
  import opened Entities

  /** One record as uploaded: every column except the key and the synced flag. */
  datatype LocationRequest = LocationRequest(
    employeeId: string,
    latitude: real,
    longitude: real,
    accuracy: real,
    timestamp: int,
    speed: Option<real>)

  /**
   * `Ok`: the call returned (a 2xx status). `Http(code)`: an HttpException
   * with that status. `IOErr`: an IOException (timeouts and unknown hosts
   * included). `OtherErr`: any other exception.
   */
  datatype Response = Ok | Http(code: int) | IOErr | OtherErr

  function ToRequest(e: LocationEntity): (r: LocationRequest)
    ensures r.employeeId == e.employeeId && r.timestamp == e.timestamp && r.speed == e.speed
    ensures r.latitude == e.latitude && r.longitude == e.longitude && r.accuracy == e.accuracy
  {
    LocationRequest(e.employeeId, e.latitude, e.longitude, e.accuracy, e.timestamp, e.speed)
  }

  /** The key and the synced flag never reach the server: records differing only there upload alike. */
  lemma RequestIgnoresKey(e: LocationEntity, id: int, synced: bool)
    ensures ToRequest(e.(id := id, synced := synced)) == ToRequest(e)
  {
  }

  /** The body of one upload: the batch's records, in the batch's order. */
  function Requests(batch: seq<LocationEntity>): (r: seq<LocationRequest>)
    ensures |r| == |batch|
    ensures forall i :: 0 <= i < |batch| ==> r[i] == ToRequest(batch[i])
  {
    if batch == [] then [] else [ToRequest(batch[0])] + Requests(batch[1..])
  }

  class LocationApi {
    /** The outcome of the n-th upload call made through this client. */
    const respond: nat -> Response
    /** Every body uploaded so far, in call order. */
    var sent: seq<seq<LocationRequest>>

    constructor (respond: nat -> Response)
      ensures this.respond == respond && sent == []
    {
      this.respond := respond;
      sent := [];
    }

    method Upload(body: seq<LocationRequest>) returns (r: Response)
      modifies this
      ensures sent == old(sent) + [body]
      ensures r == respond(|old(sent)|)
    {
      r := respond(|sent|);
      sent := sent + [body];
    }
  }
}
