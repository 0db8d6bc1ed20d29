/**
 * The memoising location-area fetch of internal/pokeapi/client.go
 * (MakeLocationsRequestCtx). The outcome of the HTTP exchange and the JSON
 * decoder are parameters: `network` answers a GET for a URL, `decode` plays
 * json.Unmarshal into LocationAreas. The package-level cache is passed in.
 */
module PokeApi {
  import opened Common
  import opened PokeCache

  /** The listing endpoint used when no page cursor is given. */
  const BaseUrl: string := "https://pokeapi.co/api/v2/location-area"

  /** The Go status code http.StatusOK. */
  const StatusOK: int := 200

  /** One element of LocationAreas.Results (models.go). */
  datatype LocationAreaResult = LocationAreaResult(name: string, url: string)

  /** One page of the listing; Next and Previous are nullable cursors (models.go). */
  datatype LocationAreas = LocationAreas(
    next: Option<string>,
    previous: Option<string>,
    results: seq<LocationAreaResult>)

  /** What reading a response body yields: the bytes, or an I/O error. */
  datatype BodyOutcome = Body(bytes: Bytes) | ReadFailure(detail: string)

  /** What a GET yields: a transport error, or a status with its body. */
  datatype HttpOutcome = TransportFailure(detail: string) | Response(status: int, body: BodyOutcome)

  /** The errors the client returns: the transport's, errBadStatus, io.ReadAll's, json.Unmarshal's. */
  datatype ApiError =
    | TransportError(detail: string)
    | ErrBadStatus
    | BodyReadError(detail: string)
    | DecodeError(detail: string)

  /** The decoder's result lifted into the client's error type. */
  function Decoded(d: Result<LocationAreas, string>): (r: Result<LocationAreas, ApiError>)
    ensures r.Ok? <==> d.Ok?
    ensures r.Ok? ==> r.value == d.value
    ensures r.Err? ==> r.error == DecodeError(d.error)
  {
    match d
    case Ok(areas) => Ok(areas)
    case Err(detail) => Err(DecodeError(detail))
  }

  /** The URL to fetch: the cursor unless it is nil or empty, else the base URL. */
  function TargetUrl(configUrl: Option<string>): (url: string)
    ensures url != ""
    ensures configUrl.Some? && configUrl.value != "" ==> url == configUrl.value
    ensures configUrl.None? || configUrl.value == "" ==> url == BaseUrl
  {
    if configUrl.Some? && |configUrl.value| > 0 then configUrl.value else BaseUrl
  }

  /** The whole effect of one call: what it returns, the cache after it, the URL requested (None: no request). */
  datatype Exchange = Exchange(
    result: Result<LocationAreas, ApiError>,
    entries: map<string, Entry>,
    requested: Option<string>)

  /** The specification of MakeLocationsRequestCtx for a cache map, a target URL and a clock. */
  function Request(entries: map<string, Entry>, target: string,
                   network: string -> HttpOutcome, decode: Bytes -> Result<LocationAreas, string>,
                   now: int): (x: Exchange)
    ensures x.requested == None <==> target in entries
    ensures x.requested.Some? ==> x.requested.value == target
    ensures x.entries.Keys == entries.Keys || x.entries.Keys == entries.Keys + {target}
    ensures forall k :: k in entries && k != target ==> x.entries[k] == entries[k]
    ensures x.entries != entries ==>
      target !in entries && network(target).Response? && network(target).status == StatusOK
      && network(target).body.Body?
  {
    if target in entries then
      Exchange(Decoded(decode(entries[target].value)), entries, None)
    else
      match network(target)
      case TransportFailure(detail) => Exchange(Err(TransportError(detail)), entries, Some(target))
      case Response(status, body) =>
        if status != StatusOK then
          Exchange(Err(ErrBadStatus), entries, Some(target))
        else
          match body
          case ReadFailure(detail) => Exchange(Err(BodyReadError(detail)), entries, Some(target))
          case Body(bytes) =>
            Exchange(Decoded(decode(bytes)), entries[target := NewEntry(bytes, now)], Some(target))
  }

  /** Hit: no request, cache unchanged, the cached bytes decoded (or the decode error). */
  lemma HitDecodesCachedBytes(entries: map<string, Entry>, target: string,
                              network: string -> HttpOutcome, decode: Bytes -> Result<LocationAreas, string>,
                              now: int)
    requires target in entries
    ensures var x := Request(entries, target, network, decode, now);
      x.requested == None && x.entries == entries
      && (decode(entries[target].value).Ok? ==> x.result == Ok(decode(entries[target].value).value))
      && (decode(entries[target].value).Err? ==> x.result == Err(DecodeError(decode(entries[target].value).error)))
  {
  }

  /** Every failure before the body is in hand (transport, non-200 status, body read) leaves the cache unchanged. */
  lemma FailedFetchCachesNothing(entries: map<string, Entry>, target: string,
                                 network: string -> HttpOutcome, decode: Bytes -> Result<LocationAreas, string>,
                                 now: int)
    requires target !in entries
    ensures var x := Request(entries, target, network, decode, now);
      && (network(target).TransportFailure? ==>
            x.result == Err(TransportError(network(target).detail)) && x.entries == entries)
      && (network(target).Response? && network(target).status != StatusOK ==>
            x.result == Err(ErrBadStatus) && x.entries == entries)
      && (network(target).Response? && network(target).status == StatusOK && network(target).body.ReadFailure? ==>
            x.result == Err(BodyReadError(network(target).body.detail)) && x.entries == entries)
  {
  }

  /** A 200 with a readable body is cached under the target URL before decoding, so it stays cached when decoding fails. */
  lemma SuccessfulFetchIsCached(entries: map<string, Entry>, target: string, bytes: Bytes,
                                network: string -> HttpOutcome, decode: Bytes -> Result<LocationAreas, string>,
                                now: int)
    requires target !in entries
    requires network(target) == Response(StatusOK, Body(bytes))
    ensures var x := Request(entries, target, network, decode, now);
      x.requested == Some(target)
      && x.entries == entries[target := Entry(now, bytes)]
      && (decode(bytes).Err? ==> x.result == Err(DecodeError(decode(bytes).error)))
      && (decode(bytes).Ok? ==> x.result == Ok(decode(bytes).value))
  {
  }

  /**
   * A second call with the same URL, after a successful fetch and with no sweep in
   * between, makes no request, writes nothing and returns what the first call returned.
   */
  lemma RepeatedRequestIsHit(entries: map<string, Entry>, target: string,
                             network: string -> HttpOutcome, network': string -> HttpOutcome,
                             decode: Bytes -> Result<LocationAreas, string>, now: int, later: int)
    requires target !in entries
    requires network(target).Response? && network(target).status == StatusOK && network(target).body.Body?
    ensures var first := Request(entries, target, network, decode, now);
      var second := Request(first.entries, target, network', decode, later);
      second.requested == None && second.entries == first.entries && second.result == first.result
  {
  }

  /**
   * A fetched page is still served from the cache after a sweep at most one interval later;
   * a sweep strictly more than one interval later forces a new request.
   */
  lemma CachedPageExpiry(entries: map<string, Entry>, target: string,
                         network: string -> HttpOutcome, network': string -> HttpOutcome,
                         decode: Bytes -> Result<LocationAreas, string>,
                         now: int, later: int, interval: int)
    requires target !in entries
    requires network(target).Response? && network(target).status == StatusOK && network(target).body.Body?
    ensures var first := Request(entries, target, network, decode, now);
      var swept := Swept(first.entries, later, interval);
      var second := Request(swept, target, network', decode, later);
      (later - now <= interval ==> second.requested == None && second.result == first.result)
      && (later - now > interval ==> second.requested == Some(target))
  {
    var first := Request(entries, target, network, decode, now);
    SweptKeepsExactlyFresh(first.entries, later, interval, target);
  }

  /**
   * MakeLocationsRequestCtx: look the target URL up; on a hit decode the cached bytes;
   * on a miss fetch it, reject a non-200 status, read the body, Add it to the cache,
   * then decode. `requested` is the URL handed to the network, None when none was.
   */
  method MakeLocationsRequest(cache: Cache, configUrl: Option<string>,
                              network: string -> HttpOutcome,
                              decode: Bytes -> Result<LocationAreas, string>, now: int)
    returns (r: Result<LocationAreas, ApiError>, requested: Option<string>)
    modifies cache
    ensures var x := Request(old(cache.entries), TargetUrl(configUrl), network, decode, now);
      r == x.result && cache.entries == x.entries && requested == x.requested
  {
    var targetUrl := TargetUrl(configUrl);
    var cached, ok := cache.Get(targetUrl);
    if ok {
      r, requested := Decoded(decode(cached)), None;
      return;
    }
    requested := Some(targetUrl);
    var resp := network(targetUrl);
    if resp.TransportFailure? {
      r := Err(TransportError(resp.detail));
      return;
    }
    if resp.status != StatusOK {
      r := Err(ErrBadStatus);
      return;
    }
    if resp.body.ReadFailure? {
      r := Err(BodyReadError(resp.body.detail));
      return;
    }
    var bytes := resp.body.bytes;
    cache.Add(targetUrl, bytes, now);
    r := Decoded(decode(bytes));
  }
}
