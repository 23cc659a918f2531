/** The two provider queries (index.go:19-106). The HTTP exchange and the
    response decoders are parameters: each query hands its request to its
    service's transport and classifies what the decoder makes of the reply. */
module Providers {
  import opened GoBytes
  import opened Results
  import AppleRequest

  /** What the transport returns: the failure text of the POST or of reading
      the body, or the whole body. */
  datatype Exchange = TransportError(message: GoString) | Received(body: GoString)

  /** A request handed to a transport. */
  datatype Request = ApplePost(payload: GoString) | GooglePost(request: GoogleRequest)

  /** A query's result together with the request it issued, if any. */
  datatype Query = Query(result: QueryResult, sent: Option<Request>)

  // ---- First provider.

  datatype Location = Location(lat: int64, lon: int64)

  /** A decoded access point; its location is a nested message, absent when
      the response leaves it out. */
  datatype WifiDevice = WifiDevice(location: Option<Location>)

  /** What the Protocol Buffers decoder makes of the bytes it is given. */
  datatype AppleDecoded = DecodeError(message: GoString) | BssidResp(wifi: seq<WifiDevice>)

  datatype AppleService = AppleService(post: GoString -> Exchange, decode: GoString -> AppleDecoded)

  const NoLocationData: GoString := Ascii("no location data")

  /** What the code relies on without checking: reading the first entry's
      location dereferences it. */
  predicate FirstEntryHasLocation(d: AppleDecoded)
  {
    d.BssidResp? && |d.wifi| > 0 ==> d.wifi[0].location.Some?
  }

  /** What the code relies on without checking about a response: a body of
      at least 10 bytes, and a first entry with a location. */
  predicate AppleServiceFits(svc: AppleService, bssid: GoString)
  {
    var e := svc.post(AppleRequest.Payload(bssid));
    e.Received? ==> |e.body| >= 10 && FirstEntryHasLocation(svc.decode(e.body[10..]))
  }

  /** The branches after decoding (index.go:40-56). */
  function ClassifyApple(bssid: GoString, d: AppleDecoded): (r: QueryResult)
    requires FirstEntryHasLocation(d)
    ensures r.provider == Apple
    ensures r.Success? <==> d.BssidResp? && |d.wifi| > 0
    ensures r.Success? ==>
      && r.bssid == bssid
      && r.latitude * FixedPointScale == d.wifi[0].location.value.lat as real
      && r.longitude * FixedPointScale == d.wifi[0].location.value.lon as real
    ensures d.DecodeError? ==> r.Failure? && r.error == d.message
    ensures d.BssidResp? && d.wifi == [] ==> r.Failure? && r.error == NoLocationData
  {
    match d
    case DecodeError(msg) =>
      Failure(Apple, msg)
    case BssidResp(wifi) =>
      if |wifi| > 0 then
        var loc := wifi[0].location.value;
        Success(Apple, bssid, FixedToDegrees(loc.lat), FixedToDegrees(loc.lon))
      else
        Failure(Apple, NoLocationData)
  }

  /** `AQuery`: always posts the payload; a transport failure is reported
      with its text, and otherwise the decoder sees the body after its
      first 10 bytes. */
  function AQuery(bssid: GoString, svc: AppleService): (q: Query)
    requires AppleServiceFits(svc, bssid)
    ensures q.sent == Some(ApplePost(AppleRequest.Payload(bssid)))
    ensures q.result.provider == Apple
    ensures q.result.Success? ==> q.result.bssid == bssid
    ensures svc.post(AppleRequest.Payload(bssid)).TransportError? ==>
      q.result == Failure(Apple, svc.post(AppleRequest.Payload(bssid)).message)
    ensures svc.post(AppleRequest.Payload(bssid)).Received? ==>
      var body := svc.post(AppleRequest.Payload(bssid)).body;
      q.result == ClassifyApple(bssid, svc.decode(body[10..]))
  {
    var payload := AppleRequest.Payload(bssid);
    var r := match svc.post(payload)
      case TransportError(msg) => Failure(Apple, msg)
      case Received(body) => ClassifyApple(bssid, svc.decode(body[10..]));
    Query(r, Some(ApplePost(payload)))
  }

  /** The response header is never looked at: two services whose replies
      agree from byte 10 on, as far as their decoders can tell, give the
      same query. */
  lemma AQueryIgnoresResponseHeader(bssid: GoString, svc1: AppleService, svc2: AppleService)
    requires AppleServiceFits(svc1, bssid) && AppleServiceFits(svc2, bssid)
    requires var e1, e2 := svc1.post(AppleRequest.Payload(bssid)), svc2.post(AppleRequest.Payload(bssid));
      && e1.TransportError? == e2.TransportError?
      && (e1.TransportError? ==> e1.message == e2.message)
      && (e1.Received? ==> svc1.decode(e1.body[10..]) == svc2.decode(e2.body[10..]))
    ensures AQuery(bssid, svc1) == AQuery(bssid, svc2)
  {
  }

  // ---- Second provider.

  /** The request: the key that goes into the URL's query string, and the
      two fields of the JSON body. */
  datatype GoogleRequest = GoogleRequest(apiKey: GoString, considerIp: bool, macAddresses: seq<GoString>)

  /** What the JSON decoder makes of the body: its failure text, or the
      location and error message, each zero when the reply leaves it out. */
  datatype GoogleDecoded = JsonError(message: GoString) | GeolocateResp(lat: real, lng: real, errorMessage: GoString)

  datatype GoogleService = GoogleService(
    apiKey: GoString, post: GoogleRequest -> Exchange, decode: GoString -> GoogleDecoded)

  /** The key the source hard-codes: empty, waiting to be filled in. */
  const SourceApiKey: GoString := []

  const ApiKeyRequired: GoString := Ascii("API key is required")

  /** The access point the request always lists after the queried one. */
  const FallbackMac: GoString := Ascii("00:25:9c:cf:1c:ad")

  /** The request for a key and a BSSID (index.go:65-73). */
  function GoogleRequestFor(apiKey: GoString, bssid: GoString): (g: GoogleRequest)
    ensures g.apiKey == apiKey && !g.considerIp
    ensures |g.macAddresses| == 2 && g.macAddresses[0] == bssid && g.macAddresses[1] == FallbackMac
  {
    GoogleRequest(apiKey, false, [bssid, FallbackMac])
  }

  /** The branches after decoding (index.go:92-105). */
  function ClassifyGoogle(bssid: GoString, d: GoogleDecoded): (r: QueryResult)
    ensures r.provider == Google
    ensures r.Success? <==> d.GeolocateResp? && d.errorMessage == []
    ensures r.Success? ==> r.bssid == bssid && r.latitude == d.lat && r.longitude == d.lng
    ensures d.JsonError? ==> r.Failure? && r.error == d.message
    ensures d.GeolocateResp? && d.errorMessage != [] ==> r.Failure? && r.error == d.errorMessage
  {
    match d
    case JsonError(msg) => Failure(Google, msg)
    case GeolocateResp(lat, lng, msg) =>
      if msg != [] then Failure(Google, msg) else Success(Google, bssid, lat, lng)
  }

  /** `GQuery`: without a key it fails at once and sends nothing; with one
      it posts the request, reports a transport failure with its text, and
      otherwise classifies the decoded body. */
  function GQuery(bssid: GoString, svc: GoogleService): (q: Query)
    ensures q.result.provider == Google
    ensures q.result.Success? ==> q.result.bssid == bssid
    ensures svc.apiKey == [] <==> q.sent == None
    ensures q.sent.Some? ==>
      q.sent.value == GooglePost(GoogleRequest(svc.apiKey, false, [bssid, FallbackMac]))
    ensures svc.apiKey == [] ==> q.result == Failure(Google, ApiKeyRequired)
    ensures svc.apiKey != [] ==>
      var req := GoogleRequestFor(svc.apiKey, bssid);
      && q.sent == Some(GooglePost(req))
      && (svc.post(req).TransportError? ==> q.result == Failure(Google, svc.post(req).message))
      && (svc.post(req).Received? ==> q.result == ClassifyGoogle(bssid, svc.decode(svc.post(req).body)))
  {
    if svc.apiKey == [] then
      Query(Failure(Google, ApiKeyRequired), None)
    else
      var req := GoogleRequestFor(svc.apiKey, bssid);
      var r := match svc.post(req)
        case TransportError(msg) => Failure(Google, msg)
        case Received(body) => ClassifyGoogle(bssid, svc.decode(body));
      Query(r, Some(GooglePost(req)))
  }

  /** Without a key neither the transport nor the decoder is consulted: any
      two such services give the same query. */
  lemma GQueryWithoutKeyIgnoresService(bssid: GoString, svc1: GoogleService, svc2: GoogleService)
    requires svc1.apiKey == [] && svc2.apiKey == []
    ensures GQuery(bssid, svc1) == GQuery(bssid, svc2)
  {
  }

  /** With the key as the source ships it, the query always fails with
      "API key is required" and sends nothing. */
  lemma SourceKeyAlwaysFails(bssid: GoString, post: GoogleRequest -> Exchange, decode: GoString -> GoogleDecoded)
    ensures GQuery(bssid, GoogleService(SourceApiKey, post, decode)) == Query(Failure(Google, ApiKeyRequired), None)
  {
  }

  // ---- Examples of the classification.

  lemma AppleExample(bssid: GoString)
    ensures ClassifyApple(bssid, BssidResp([WifiDevice(Some(Location(3400000000, -12200000000)))]))
      == Success(Apple, bssid, 34.0, -122.0)
    ensures ClassifyApple(bssid, BssidResp([])) == Failure(Apple, NoLocationData)
  {
  }

  lemma GoogleExample(bssid: GoString)
    ensures ClassifyGoogle(bssid, GeolocateResp(37.5, -122.3, [])) == Success(Google, bssid, 37.5, -122.3)
    ensures ClassifyGoogle(bssid, GeolocateResp(0.0, 0.0, Ascii("keyInvalid"))) == Failure(Google, Ascii("keyInvalid"))
  {
  }
}
