/** The outcome of one provider query, which the program keeps in a
    string-keyed map whose "error" key marks a failure (index.go:17). */
module Results {
  import opened GoBytes

  datatype Option<T> = None | Some(value: T)

  datatype Provider = Apple | Google

  /** The "module" value of a result. */
  function ModuleName(p: Provider): GoString
  {
    match p
    case Apple => Ascii("apple")
    case Google => Ascii("google")
  }

  /** Exactly one of a location and an error description; both name the
      provider. */
  datatype QueryResult =
    | Success(provider: Provider, bssid: GoString, latitude: real, longitude: real)
    | Failure(provider: Provider, error: GoString)

  /** Degrees as fixed-point integers scaled by 10^8. */
  const FixedPointScale: real := 100000000.0

  newtype int64 = x: int | -0x8000_0000_0000_0000 <= x < 0x8000_0000_0000_0000

  /** A fixed-point coordinate in degrees, divided exactly. */
  function FixedToDegrees(x: int64): (d: real)
    ensures d * FixedPointScale == x as real
    ensures x >= 0 <==> d >= 0.0
  {
    x as real / FixedPointScale
  }

  // ---- The map the program actually builds.

  datatype JsnValue = Text(s: GoString) | Number(x: real)

  type Jsn = map<GoString, JsnValue>

  const ModuleKey: GoString := Ascii("module")
  const BssidKey: GoString := Ascii("bssid")
  const LatitudeKey: GoString := Ascii("latitude")
  const LongitudeKey: GoString := Ascii("longitude")
  const ErrorKey: GoString := Ascii("error")

  /** The map a query returns for a result: a success has "module",
      "bssid", "latitude" and "longitude"; a failure has "module" and
      "error". The printer tests for the "error" key. */
  function ToJsn(r: QueryResult): (m: Jsn)
    ensures ModuleKey in m && m[ModuleKey] == Text(ModuleName(r.provider))
    ensures ErrorKey in m <==> r.Failure?
    ensures r.Failure? ==> m.Keys == {ModuleKey, ErrorKey} && m[ErrorKey] == Text(r.error)
    ensures r.Success? ==> m.Keys == {ModuleKey, BssidKey, LatitudeKey, LongitudeKey}
    ensures r.Success? ==>
      m[BssidKey] == Text(r.bssid) && m[LatitudeKey] == Number(r.latitude) && m[LongitudeKey] == Number(r.longitude)
  {
    assert ErrorKey[0] != BssidKey[0];
    match r
    case Success(p, bssid, lat, lon) =>
      map[ModuleKey := Text(ModuleName(p)), BssidKey := Text(bssid),
          LatitudeKey := Number(lat), LongitudeKey := Number(lon)]
    case Failure(p, msg) =>
      map[ModuleKey := Text(ModuleName(p)), ErrorKey := Text(msg)]
  }

  /** Two results that give the same map are the same result, so the map
      loses nothing of the result. */
  lemma ToJsnInjective(r1: QueryResult, r2: QueryResult)
    requires ToJsn(r1) == ToJsn(r2)
    ensures r1 == r2
  {
    assert ModuleName(Apple)[0] != ModuleName(Google)[0];
  }

  lemma FixedPointExample()
    ensures FixedToDegrees(3400000000) == 34.0
    ensures FixedToDegrees(-12200000000) == -122.0
  {
  }
}
