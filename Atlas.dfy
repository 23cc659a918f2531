/** The command's entry point (index.go:113-151): the input gate, then one
    query per provider, whose two results arrive in either order. */
module Atlas {
  import opened GoBytes
  import opened Results
  import opened Providers
  import Bssid
  import AppleRequest

  /** Why the gate refused to query. */
  datatype GateError = NoBssid | InvalidFormat

  /** A run either stops at the gate or collects both queries' results and
      the requests they sent, as unordered collections. */
  datatype RunOutcome =
    | Rejected(reason: GateError)
    | Completed(results: multiset<QueryResult>, sent: multiset<Request>)

  /** The requests a run sends. */
  function SentRequests(o: RunOutcome): multiset<Request>
  {
    if o.Rejected? then multiset{} else o.sent
  }

  /** The requests a query sends. */
  function QuerySent(q: Query): multiset<Request>
  {
    if q.sent.Some? then multiset{q.sent.value} else multiset{}
  }

  /** `main`, with the arguments after the program name. */
  function Run(args: seq<GoString>, apple: AppleService, google: GoogleService): (o: RunOutcome)
    requires |args| >= 1 && Bssid.IsValidBssid(args[0]) ==> AppleServiceFits(apple, args[0])
    ensures o.Rejected? <==> |args| == 0 || !Bssid.IsValidBssid(args[0])
    ensures o.Rejected? ==> o.reason == (if |args| == 0 then NoBssid else InvalidFormat)
    ensures o.Completed? ==>
      var a, g := AQuery(args[0], apple), GQuery(args[0], google);
      && o.results == multiset{a.result, g.result}
      && o.sent == QuerySent(a) + QuerySent(g)
  {
    if |args| < 1 then
      Rejected(NoBssid)
    else
      var bssid := args[0];
      if !Bssid.IsValidBssid(bssid) then
        Rejected(InvalidFormat)
      else
        var a := AQuery(bssid, apple);
        var g := GQuery(bssid, google);
        Completed(multiset{a.result, g.result}, QuerySent(a) + QuerySent(g))
  }

  /** A refused input sends nothing; an accepted one yields exactly two
      results, one from each provider, each about the queried BSSID. */
  lemma RunYieldsOneResultPerProvider(args: seq<GoString>, apple: AppleService, google: GoogleService)
    requires |args| >= 1 && Bssid.IsValidBssid(args[0]) ==> AppleServiceFits(apple, args[0])
    ensures Run(args, apple, google).Rejected? ==> SentRequests(Run(args, apple, google)) == multiset{}
    ensures Run(args, apple, google).Completed? ==>
      var rs := Run(args, apple, google).results;
      && |rs| == 2
      && (forall r | r in rs :: rs[r] == 1)
      && (exists r :: r in rs && r.provider == Apple)
      && (exists r :: r in rs && r.provider == Google)
      && (forall r | r in rs && r.Success? :: r.bssid == args[0])
  {
    var o := Run(args, apple, google);
    if o.Completed? {
      var a, g := AQuery(args[0], apple).result, GQuery(args[0], google).result;
      assert a != g by { assert a.provider != g.provider; }
      assert o.results == multiset{a, g};
      assert a in o.results && g in o.results;
    }
  }

  /** An accepted run always posts the 75-byte framed payload to the first
      provider, whatever the second one does. */
  lemma RunSendsFramedPayload(args: seq<GoString>, apple: AppleService, google: GoogleService)
    requires |args| >= 1 && Bssid.IsValidBssid(args[0]) ==> AppleServiceFits(apple, args[0])
    ensures Run(args, apple, google).Completed? ==>
      var p := AppleRequest.Payload(args[0]);
      && ApplePost(p) in SentRequests(Run(args, apple, google))
      && |p| == 75
      && p == AppleRequest.FramedRequest(AppleRequest.DataBssid(args[0]))
  {
    if |args| >= 1 && Bssid.IsValidBssid(args[0]) {
      AppleRequest.ValidBssidPayload(args[0]);
    }
  }

  /** With the key the source ships, an accepted run sends only the first
      provider's request and its second result is "API key is required". */
  lemma RunWithSourceKey(args: seq<GoString>, apple: AppleService,
                         post: GoogleRequest -> Exchange, decode: GoString -> GoogleDecoded)
    requires |args| >= 1 && Bssid.IsValidBssid(args[0]) ==> AppleServiceFits(apple, args[0])
    ensures var o := Run(args, apple, GoogleService(SourceApiKey, post, decode));
      o.Completed? ==>
        && Failure(Google, ApiKeyRequired) in o.results
        && o.sent == multiset{ApplePost(AppleRequest.Payload(args[0]))}
  {
  }
}
