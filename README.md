# atlas: BSSID geolocation lookup, modelled in Dafny

`atlas` takes a wireless access point's hardware address (BSSID) on the
command line. It checks the address's format, then asks two geolocation
services for its position at the same time and prints one line per
service. This project models the deterministic parts of `index.go`:

- **the validator** `isValidBSSID`: six groups of two hexadecimal digits, in
  either case, separated by colons (`Bssid`);
- **the request body for the first provider** (`apple`) built in `AQuery`:
  a hand-written Protocol Buffers message that carries the BSSID text,
  behind a fixed header of length-prefixed strings and a 4-byte length
  (`AppleRequest`, over the byte helpers in `GoBytes`);
- **the outcome classification** of both queries, `AQuery` and `GQuery`
  (`Providers`). The HTTP exchange and the response decoders are
  parameters: a transport function that receives the request, and a
  decoder function that receives the bytes the code hands it;
- **the result record**, which replaces the `map[string]interface{}` whose
  `"error"` key marks a failure, and a function back to that map
  (`Results`);
- **the input gate** in `main`, and the collection of the two results as
  an unordered multiset (`Atlas`).

A Go string is a byte string, so `GoBytes.GoString` is `seq<byte>`. The
text literals of the source are written through `GoBytes.Ascii`.

What is proved:

- The position-by-position validator accepts exactly the language of the
  anchored pattern `(?i)^[0-9A-F]{2}(:[0-9A-F]{2}){5}$`, read as a grammar
  with ASCII case folding.
- The hard-coded bytes of `dataBSSID` are the intended Protocol Buffers
  request encoding exactly when the BSSID is 17 bytes long: field 2,
  length-delimited, holding field 1 = the BSSID string, then the varint
  fields 3 = 0 and 4 = 1. `0x11` is then the length of the BSSID and `0x13`
  the length of the field-1 sub-message.
- Each 2-byte big-endian prefix in the header is the length of the string
  that follows it.
- The payload is the framing of `dataBSSID` behind its 4-byte big-endian
  length exactly when `%c` writes that length as a single byte. For every
  valid BSSID it is 75 bytes long and ends with `dataBSSID`.
- The two providers' branches, error cases included.
- The first provider's decoder sees exactly `body[10:]`.
- Without an API key, the second provider's query sends nothing. With the
  key as the source ships it (empty), that query always fails.
- A refused input sends no request. An accepted one gives exactly two
  results, one per provider.

Three facts about the code shape the model:

- `dataBSSID` carries the BSSID's 17-character text, not 6 raw bytes
  (index.go:20), and so does `AppleRequest.DataBssid`.
- `body[10:]` panics on a body shorter than 10 bytes, and
  `Wifi[0].Location.Lat` dereferences a location that may be nil
  (index.go:40, 46). Both are preconditions here
  (`Providers.AppleServiceFits`), not invented error results.
- The API key is the literal `""` (index.go:60). The model takes it as a
  field of `Providers.GoogleService`, and `Providers.SourceKeyAlwaysFails`
  states what the shipped constant does.

## Model

| member | source | states |
|---|---|---|
| `Bssid.IsValidBssid` | index.go:108-111 | 17 bytes, ':' at offsets 2, 5, 8, 11, 14, a hex digit of either case elsewhere; its contract gives the length and the colons, and `Bssid.ValidIffMatchesPattern` ties it to the pattern |
| `Bssid.ValidIffMatchesPattern` | index.go:108-111 | the position-by-position validator (17 bytes, colons at offsets 2, 5, 8, 11, 14, hex digits elsewhere) holds exactly when the anchored, case-insensitive pattern matches, in both directions |
| `Bssid.ColonGroupsShape` | index.go:109 | `(:[0-9A-F]{2}){n}$` matches exactly 3n bytes with a colon at every third offset and a hex digit at the others |
| `Bssid.FoldedClassIsHexDigit` | index.go:109 | under `(?i)` the class `[0-9A-F]` accepts exactly `[0-9A-Fa-f]` |
| `Bssid.ValidHasLength17` | index.go:109-110 | a valid BSSID is 17 bytes long |
| `Bssid.ValidFromPositions` | index.go:109-110 | the seventeen per-position conditions together make a valid BSSID |
| `Bssid.UpperCaseAccepted` | index.go:109-110 | `AA:BB:CC:DD:EE:FF` is accepted |
| `Bssid.LowerCaseAccepted` | index.go:109-110 | the lower-case `00:25:9c:cf:1c:ad` is accepted |
| `Bssid.FiveGroupsRejected` | index.go:109-110 | five groups, `AA:BB:CC:DD:EE`, are rejected |
| `Bssid.NonHexDigitRejected` | index.go:109-110 | a non-hex digit, `GG:BB:CC:DD:EE:FF`, is rejected |
| `AppleRequest.DataBssid` | index.go:20 | dataBSSID is 8 bytes longer than the BSSID and carries it verbatim at offset 4 |
| `AppleRequest.DataBssidIsLocationRequest` | index.go:20 | dataBSSID equals the Protocol Buffers encoding (field 2 holding field 1 = the BSSID, then varint fields 3 = 0 and 4 = 1) exactly when the BSSID is 17 bytes, so `0x11` and `0x13` are the lengths they cover |
| `AppleRequest.Payload` | index.go:21-22 | the payload starts with the literal header and ends with dataBSSID, with 1 to 4 bytes of `%c` between them |
| `AppleRequest.RequestHeaderLayout` | index.go:21 | the header is 49 bytes; its prefixes `00 05`, `00 13` and `00 0a` are the lengths of `en_US`, `com.apple.locationd` and `8.1.12B411`, which follow them |
| `AppleRequest.PayloadIsFramed` | index.go:21-22 | the payload is the framing with a 4-byte big-endian length of dataBSSID exactly when the BSSID is shorter than 120 bytes, i.e. when `%c` writes one byte |
| `AppleRequest.ValidBssidPayload` | index.go:20-22 | for a valid BSSID: dataBSSID is 25 bytes and is the intended request encoding, byte 3 is 17 and byte 1 is 19, the payload is 75 bytes with length byte 25 at offset 49 followed by dataBSSID, and it is the framed request |
| `GoBytes.FormatChar` | index.go:21-22 | `%c` of a length writes 1 to 4 bytes, and exactly one byte, the value itself, when the length is below 128 |
| `GoBytes.BigEndian16` | index.go:21 | a 2-byte big-endian prefix reads back as the length it encodes |
| `GoBytes.BigEndian32` | index.go:21 | a 4-byte big-endian field reads back as the length it encodes |
| `Results.FixedToDegrees` | index.go:46-47 | the degrees times 10^8 are the fixed-point integer, with the same sign |
| `Results.FixedPointExample` | index.go:46-47 | the fixed-point pair (3400000000, -12200000000) is 34.0 and -122.0 degrees |
| `Results.ToJsn` | index.go:48-53 | the map of a result always names its module; it has an `"error"` key exactly for a failure, holding the error text; a success holds bssid, latitude and longitude instead |
| `Results.ToJsnInjective` | index.go:144 | results with the same map are equal, so the map loses nothing of the result |
| `Providers.ClassifyApple` | index.go:40-56 | a decode error gives a failure with its text; a non-empty list gives a success from entry 0 and the queried BSSID, with coordinates that are the fixed-point values over 10^8; an empty list gives the failure "no location data" |
| `Providers.AQuery` | index.go:19-57 | the query always sends the payload; a transport failure gives a failure with its text; otherwise the result is the classification of what the decoder makes of exactly `body[10:]` |
| `Providers.AQueryIgnoresResponseHeader` | index.go:40 | the first 10 bytes of the response never affect the result |
| `Providers.GoogleRequestFor` | index.go:65-73 | the request carries the key for the URL, `considerIp` false, and exactly two access points: the queried BSSID, then the fixed `00:25:9c:cf:1c:ad` |
| `Providers.ClassifyGoogle` | index.go:92-105 | a JSON decode error gives a failure with its text; a non-empty upstream message gives a failure carrying it; otherwise a success with the decoded lat/lng and the queried BSSID |
| `Providers.GQuery` | index.go:59-106 | no key means the failure "API key is required" and no request; with a key the query sends the key, `considerIp` false and the access points [bssid, `00:25:9c:cf:1c:ad`], and classifies the transport failure or the decoded body |
| `Providers.GQueryWithoutKeyIgnoresService` | index.go:60-63 | without a key the transport and decoder are never consulted |
| `Providers.SourceKeyAlwaysFails` | index.go:60-63 | with the key the source ships, every query fails with "API key is required" and sends nothing |
| `Providers.AppleExample` | index.go:44-56 | one entry at (3400000000, -12200000000) gives latitude 34.0, longitude -122.0; no entries give "no location data" |
| `Providers.GoogleExample` | index.go:96-105 | location (37.5, -122.3) gives that success; the message "keyInvalid" gives that failure |
| `Atlas.Run` | index.go:113-141 | the run stops at the gate exactly when no argument is given (no BSSID) or the first is not a valid BSSID (invalid format); otherwise it collects the results of both queries, unordered, and the requests they sent |
| `Atlas.RunYieldsOneResultPerProvider` | index.go:114-143 | a refused input sends no request; an accepted one yields exactly two distinct results, one per provider, every success about the queried BSSID |
| `Atlas.RunSendsFramedPayload` | index.go:118-133 | every accepted run posts the 75-byte framed payload to the first provider |
| `Atlas.RunWithSourceKey` | index.go:60-63 | with the shipped key an accepted run sends only the first provider's request and reports "API key is required" for the second |

## Left out

- `http.Post`, `io.ReadAll` and `resp.Body.Close` (network I/O). Each becomes the transport function of a service record. Its failure text is an input.
- `proto.Unmarshal` into `pb.BSSIDResp`. The generated package `manav.ch/atlas/proto` is not part of this model. Its result is the output of the decoder function: a decode error, or a list of entries whose location may be absent.
- `json.Marshal` and `json.NewDecoder(...).Decode`: library serialisation. The request is kept as its fields. The decoded reply is an input in which missing fields read as zero, as Go's decoder leaves them.
- The URL text built with `fmt.Sprintf` (index.go:65): the request records the key it carries instead.
- `float64(...) / 1e8` (index.go:46-47): the model divides exactly over `real`. Rounding to float64 is not modelled, and neither are the float64 values of the second provider.
- The goroutines, the `sync.WaitGroup` and the buffered channel (index.go:125-141). The two results are collected as a multiset, because their order is unspecified.
- The console output with its emoji (index.go:115, 121, 143-150). Which line is printed follows from `Results.ToJsn`'s `"error"` key.
- The regular-expression engine (index.go:109). The model states the language it accepts. Go's `$` without multi-line mode matches only at the end of the text. No byte outside ASCII folds onto `[0-9A-F]`, so the ASCII case folding used here is the whole of `(?i)` for this pattern.
- `Providers.AQuery` requires a body of at least 10 bytes and a location on a first entry. The code panics otherwise (index.go:40, 46), and the model does not invent an error for either case.
