/** The Nominatim geocoding client: validates an address, builds the search request, classifies
    the ways the call can fail, and normalises the entries of a successful response. The HTTP
    transport and the JavaScript number parser are parameters: `transport` answers a request
    with what `fetch` and `response.json()` would produce, and `parse` is `Number(s)` followed by
    the `Number.isFinite` test (Some of the value exactly when the number is finite). */
module Geocoding {
  import opened Wrappers
  import Text

  const BaseUrl := "https://nominatim.openstreetmap.org/search"
  const DefaultLimit := 5
  const AppId := "node-poc-map-location-app/1.0"
  const RefererUrl := "https://example.com/node-poc-map-location-app"

  /** A normalised result: a display name and WGS84 decimal degrees. */
  datatype GeocodeResult = GeocodeResult(displayName: string, latitude: real, longitude: real)

  /** The fields of a response element that the client reads; None is an absent field. */
  datatype RawEntry = RawEntry(displayName: Option<string>, lat: Option<string>, lon: Option<string>)

  /** One element of the response array: JSON `null`, or any other JSON value, seen through the
      three fields it may have (a number, a string or an array has none of them). */
  datatype RawItem = NullItem | Entry(entry: RawEntry)

  /** The decoded JSON body: an array, or any other JSON value. */
  datatype Json = NotArray | Array(items: seq<RawItem>)

  /** What `response.json()` does: reject, or resolve with a decoded value. */
  datatype Body = NotJson | JsonBody(value: Json)

  datatype Response = Response(ok: bool, body: Body)

  /** What `fetch` does: reject (connectivity, CORS), or resolve with a response. */
  datatype FetchOutcome = TransportFailed | Received(response: Response)

  /** The optional second argument of `geocodeAddress`; None is an omitted property. */
  datatype GeocodeOptions = GeocodeOptions(limit: Option<int>, countryCodes: Option<string>)

  /** A GET request: the endpoint, its query parameters in order, and the request headers. */
  datatype Request = Request(httpMethod: string, baseUrl: string,
                             params: seq<(ParamName, string)>, headers: seq<(HeaderName, string)>)

  /** The messages of the `Error`s the client throws. */
  const InvalidInputMessage := "Address must not be empty."
  const NetworkErrorMessage := "Failed to reach geocoding service. Please check your network connection."
  const ServiceErrorMessage := "Geocoding service responded with an unexpected status. Please try again later."
  const MalformedBodyMessage := "Received an invalid response from the geocoding service."
  const UnexpectedPayloadMessage := "Geocoding service returned an unexpected payload format."

  datatype GeocodeError = InvalidInput | NetworkError | ServiceError | MalformedBody | UnexpectedPayload
  {
    /** The message of the `Error` the client throws. */
    function Message(): (m: string)
      ensures this == InvalidInput ==> m == "Address must not be empty."
      ensures this == NetworkError ==> m == "Failed to reach geocoding service. Please check your network connection."
      ensures this == ServiceError ==> m == "Geocoding service responded with an unexpected status. Please try again later."
      ensures this == MalformedBody ==> m == "Received an invalid response from the geocoding service."
      ensures this == UnexpectedPayload ==> m == "Geocoding service returned an unexpected payload format."
    {
      match this
      case InvalidInput => InvalidInputMessage
      case NetworkError => NetworkErrorMessage
      case ServiceError => ServiceErrorMessage
      case MalformedBody => MalformedBodyMessage
      case UnexpectedPayload => UnexpectedPayloadMessage
    }
  }

  /** Every failure kind has its own message, so a caller can tell them apart. */
  lemma MessagesDistinct()
    ensures forall e1: GeocodeError, e2: GeocodeError :: e1 != e2 ==> e1.Message() != e2.Message()
  {
    assert |InvalidInputMessage| == 26 && |NetworkErrorMessage| == 72 && |ServiceErrorMessage| == 78;
    assert |MalformedBodyMessage| == 56 && |UnexpectedPayloadMessage| == 56;
    assert MalformedBodyMessage != UnexpectedPayloadMessage;
  }

  // ---------------------------------------------------------------------------------------------
  // Name/value lists: query parameters and headers

  /** The query parameters the client sets, and the names they have on the wire. */
  datatype ParamName = Q | Format | Limit | AddressDetails | CountryCodes
  {
    function Spelling(): string {
      match this
      case Q => "q"
      case Format => "format"
      case Limit => "limit"
      case AddressDetails => "addressdetails"
      case CountryCodes => "countrycodes"
    }
  }

  /** The request headers the client sends, and their names on the wire. */
  datatype HeaderName = UserAgent | Referer | Accept
  {
    function Spelling(): string {
      match this
      case UserAgent => "User-Agent"
      case Referer => "Referer"
      case Accept => "Accept"
    }
  }

  /** The names of a name/value list, in order. */
  function Names<K>(ps: seq<(K, string)>): (ns: seq<K>)
    ensures |ns| == |ps| && forall i :: 0 <= i < |ps| ==> ns[i] == ps[i].0
  {
    if ps == [] then [] else [ps[0].0] + Names(ps[1..])
  }

  /** The value of the first pair named `k` (what `URLSearchParams.get` returns). */
  function Lookup<K(==)>(ps: seq<(K, string)>, k: K): (v: Option<string>)
  {
    if ps == [] then None else if ps[0].0 == k then Some(ps[0].1) else Lookup(ps[1..], k)
  }

  /** A name has a value exactly when some pair carries it. */
  lemma {:induction false} LookupNoneIff<K>(ps: seq<(K, string)>, k: K)
    ensures Lookup(ps, k).None? <==> k !in Names(ps)
  {
    if ps != [] {
      LookupNoneIff(ps[1..], k);
      assert Names(ps) == [ps[0].0] + Names(ps[1..]);
    }
  }

  /** The value of a pair whose name no earlier pair has. */
  lemma {:induction false} LookupAt<K>(ps: seq<(K, string)>, i: nat)
    requires i < |ps| && forall j :: 0 <= j < i ==> ps[j].0 != ps[i].0
    ensures Lookup(ps, ps[i].0) == Some(ps[i].1)
  {
    if i > 0 {
      LookupAt(ps[1..], i - 1);
    }
  }

  /** `ps` without any pair named `k`. */
  function RemoveName<K(==,!new)>(ps: seq<(K, string)>, k: K): (r: seq<(K, string)>)
    ensures k !in Names(r)
    ensures forall k' :: k' != k ==> Lookup(r, k') == Lookup(ps, k')
  {
    if ps == [] then []
    else if ps[0].0 == k then RemoveName(ps[1..], k)
    else [ps[0]] + RemoveName(ps[1..], k)
  }

  /** `URLSearchParams.set(k, v)`: the first pair named `k` gets the value `v` and the others
      named `k` are removed; when there is none, the pair is appended. */
  function SetParam<K(==,!new)>(ps: seq<(K, string)>, k: K, v: string): (r: seq<(K, string)>)
    ensures Lookup(r, k) == Some(v)
    ensures k !in Names(ps) ==> r == ps + [(k, v)]
  {
    if ps == [] then [(k, v)]
    else if ps[0].0 == k then [(k, v)] + RemoveName(ps[1..], k)
    else [ps[0]] + SetParam(ps[1..], k, v)
  }

  /** `set` leaves the values of the other names as they were. */
  lemma {:induction false} SetParamKeepsOthers<K(!new)>(ps: seq<(K, string)>, k: K, v: string, other: K)
    requires other != k
    ensures Lookup(SetParam(ps, k, v), other) == Lookup(ps, other)
  {
    if ps != [] && ps[0].0 != k {
      SetParamKeepsOthers(ps[1..], k, v, other);
    }
  }

  /** JavaScript truthiness of an optional string: present and not empty. */
  predicate Truthy(o: Option<string>) {
    o.Some? && o.value != []
  }

  /** The query of the search URL, built by successive `set` calls on an empty parameter list:
      the query text, the output format, the limit (5 when omitted), the address-details flag,
      and the country-code filter only when it is a non-empty string. */
  function QueryParams(query: string, options: GeocodeOptions): (ps: seq<(ParamName, string)>)
    ensures ps == [(Q, query), (Format, "jsonv2"),
                   (Limit, Text.IntToDecimal(options.limit.GetOr(DefaultLimit))), (AddressDetails, "1")]
                  + (if Truthy(options.countryCodes) then [(CountryCodes, options.countryCodes.value)] else [])
  {
    var limit := Text.IntToDecimal(options.limit.GetOr(DefaultLimit));
    var ps1 := SetParam([], Q, query);
    var ps2 := SetParam(ps1, Format, "jsonv2");
    assert Names(ps1) == [Q];
    var ps3 := SetParam(ps2, Limit, limit);
    assert Names(ps2) == [Q, Format];
    var ps4 := SetParam(ps3, AddressDetails, "1");
    assert Names(ps3) == [Q, Format, Limit];
    assert Names(ps4) == [Q, Format, Limit, AddressDetails];
    if Truthy(options.countryCodes) then SetParam(ps4, CountryCodes, options.countryCodes.value) else ps4
  }

  /** What the server reads from the query: `q` is the query text, `format` is `jsonv2`, `limit`
      is the given limit or 5, `addressdetails` is 1, and `countrycodes` is present exactly when
      a non-empty country-code string was given, with that string as its value. */
  lemma QueryParamValues(query: string, options: GeocodeOptions)
    ensures var ps := QueryParams(query, options);
            && Lookup(ps, Q) == Some(query)
            && Lookup(ps, Format) == Some("jsonv2")
            && Lookup(ps, Limit) == Some(Text.IntToDecimal(options.limit.GetOr(DefaultLimit)))
            && Lookup(ps, AddressDetails) == Some("1")
            && (Lookup(ps, CountryCodes).Some? <==> Truthy(options.countryCodes))
            && (Truthy(options.countryCodes) ==> Lookup(ps, CountryCodes) == options.countryCodes)
  {
    var ps := QueryParams(query, options);
    FixedParamValues(ps, query, Text.IntToDecimal(options.limit.GetOr(DefaultLimit)));
    if Truthy(options.countryCodes) {
      LookupAt(ps, 4);
    } else {
      LookupNoneIff(ps, CountryCodes);
      assert Names(ps) == [Q, Format, Limit, AddressDetails];
    }
  }

  /** The four parameters every query starts with read back their values. */
  lemma FixedParamValues(ps: seq<(ParamName, string)>, query: string, limit: string)
    requires |ps| >= 4 && ps[..4] == [(Q, query), (Format, "jsonv2"), (Limit, limit), (AddressDetails, "1")]
    ensures Lookup(ps, Q) == Some(query) && Lookup(ps, Format) == Some("jsonv2")
    ensures Lookup(ps, Limit) == Some(limit) && Lookup(ps, AddressDetails) == Some("1")
  {
    assert ps[0] == (Q, query) && ps[1] == (Format, "jsonv2");
    assert ps[2] == (Limit, limit) && ps[3] == (AddressDetails, "1");
    LookupAt(ps, 0);
    LookupAt(ps, 1);
    LookupAt(ps, 2);
    LookupAt(ps, 3);
  }

  /** The identification headers required by Nominatim's usage policy, and the accepted type:
      the same three headers for every request, differing only in the platform name. */
  function Headers(platformOs: string): (hs: seq<(HeaderName, string)>)
    ensures Names(hs) == [UserAgent, Referer, Accept]
    ensures Lookup(hs, UserAgent) == Some(AppId + " (" + platformOs + ")")
    ensures Lookup(hs, Referer) == Some(RefererUrl)
    ensures Lookup(hs, Accept) == Some("application/json")
  {
    var hs := [(UserAgent, AppId + " (" + platformOs + ")"), (Referer, RefererUrl), (Accept, "application/json")];
    LookupAt(hs, 0);
    LookupAt(hs, 1);
    LookupAt(hs, 2);
    hs
  }

  /** A name/value list with each name as `spell` writes it on the wire. */
  function Wire<K>(ps: seq<(K, string)>, spell: K -> string): (ws: seq<(string, string)>)
    ensures |ws| == |ps|
  {
    seq(|ps|, i requires 0 <= i < |ps| => (spell(ps[i].0), ps[i].1))
  }

  function ParamSpelling(n: ParamName): string { n.Spelling() }
  function HeaderSpelling(n: HeaderName): string { n.Spelling() }

  /** Distinct names are spelled differently, so a name read back on the wire is the name set. */
  lemma SpellingsDistinct()
    ensures forall a: ParamName, b: ParamName :: a != b ==> a.Spelling() != b.Spelling()
    ensures forall a: HeaderName, b: HeaderName :: a != b ==> a.Spelling() != b.Spelling()
  {
    assert Format.Spelling()[0] == 'f' && Limit.Spelling()[0] == 'l' && AddressDetails.Spelling()[0] == 'a';
    assert CountryCodes.Spelling()[0] == 'c' && Q.Spelling()[0] == 'q';
    assert UserAgent.Spelling()[0] == 'U' && Referer.Spelling()[0] == 'R' && Accept.Spelling()[0] == 'A';
  }

  /** The request: a GET to the search endpoint whose query and headers, spelled as they go on
      the wire, are `q`, `format=jsonv2`, `limit`, `addressdetails=1` and, for a non-empty
      country-code string, `countrycodes`; then `User-Agent`, `Referer` and
      `Accept: application/json`. */
  function BuildRequest(query: string, options: GeocodeOptions, platformOs: string): (req: Request)
    ensures req.httpMethod == "GET" && req.baseUrl == BaseUrl
    ensures req.params == QueryParams(query, options) && req.headers == Headers(platformOs)
    ensures Wire(req.params, ParamSpelling)
            == [("q", query), ("format", "jsonv2"),
                ("limit", Text.IntToDecimal(options.limit.GetOr(DefaultLimit))), ("addressdetails", "1")]
               + (if Truthy(options.countryCodes) then [("countrycodes", options.countryCodes.value)] else [])
    ensures Wire(req.headers, HeaderSpelling)
            == [("User-Agent", AppId + " (" + platformOs + ")"), ("Referer", RefererUrl),
                ("Accept", "application/json")]
  {
    WireQuery(query, options);
    WireHeaderList(platformOs);
    Request("GET", BaseUrl, QueryParams(query, options), Headers(platformOs))
  }

  /** The query as it goes on the wire: the parameter names spelled out, in `set` order. */
  lemma WireQuery(query: string, options: GeocodeOptions)
    ensures Wire(QueryParams(query, options), ParamSpelling)
            == [("q", query), ("format", "jsonv2"),
                ("limit", Text.IntToDecimal(options.limit.GetOr(DefaultLimit))), ("addressdetails", "1")]
               + (if Truthy(options.countryCodes) then [("countrycodes", options.countryCodes.value)] else [])
  {
    var ps := QueryParams(query, options);
    var ws := Wire(ps, ParamSpelling);
    var expected := [("q", query), ("format", "jsonv2"),
                     ("limit", Text.IntToDecimal(options.limit.GetOr(DefaultLimit))), ("addressdetails", "1")]
                    + (if Truthy(options.countryCodes) then [("countrycodes", options.countryCodes.value)] else []);
    assert |ws| == |expected|;
    forall i | 0 <= i < |ws| ensures ws[i] == expected[i] {
      assert ws[i] == (ParamSpelling(ps[i].0), ps[i].1);
    }
  }

  /** The headers as they go on the wire: the three header names spelled out, in order. */
  lemma WireHeaderList(platformOs: string)
    ensures Wire(Headers(platformOs), HeaderSpelling)
            == [("User-Agent", AppId + " (" + platformOs + ")"), ("Referer", RefererUrl),
                ("Accept", "application/json")]
  {
    var hs := Headers(platformOs);
    var ws := Wire(hs, HeaderSpelling);
    assert |ws| == 3;
    assert ws[0] == (HeaderSpelling(hs[0].0), hs[0].1);
    assert ws[1] == (HeaderSpelling(hs[1].0), hs[1].1);
    assert ws[2] == (HeaderSpelling(hs[2].0), hs[2].1);
  }

  // ---------------------------------------------------------------------------------------------
  // Normalisation

  /** An element survives normalisation: it is not null, its name and both coordinates are
      present and non-empty, and both coordinates parse to finite numbers. */
  predicate Kept(item: RawItem, parse: string -> Option<real>)
    ensures Kept(item, parse) ==> && item.Entry?
                                  && item.entry.displayName.Some? && item.entry.displayName.value != []
                                  && item.entry.lat.Some? && item.entry.lat.value != []
                                  && item.entry.lon.Some? && item.entry.lon.value != []
    ensures item.NullItem? ==> !Kept(item, parse)
  {
    && item.Entry?
    && Truthy(item.entry.displayName) && Truthy(item.entry.lat) && Truthy(item.entry.lon)
    && parse(item.entry.lat.value).Some? && parse(item.entry.lon.value).Some?
  }

  /** The `.map` callback: the normalised result of one element, or None (JavaScript `null`)
      when the element is dropped. */
  function NormalizeItem(item: RawItem, parse: string -> Option<real>): (r: Option<GeocodeResult>)
    ensures r.Some? <==> Kept(item, parse)
    ensures r.Some? ==> && r.value.displayName == item.entry.displayName.value
                        && Some(r.value.latitude) == parse(item.entry.lat.value)
                        && Some(r.value.longitude) == parse(item.entry.lon.value)
  {
    match item
    case NullItem => None
    case Entry(e) =>
      if !Truthy(e.displayName) || !Truthy(e.lat) || !Truthy(e.lon) then None
      else
        var latitude := parse(e.lat.value);
        var longitude := parse(e.lon.value);
        if latitude.None? || longitude.None? then None
        else Some(GeocodeResult(e.displayName.value, latitude.value, longitude.value))
  }

  /** What one element contributes after the `.filter`: its result, or nothing. */
  function ItemResults(item: RawItem, parse: string -> Option<real>): (rs: seq<GeocodeResult>)
    ensures |rs| == if Kept(item, parse) then 1 else 0
  {
    match NormalizeItem(item, parse) case Some(r) => [r] case None => []
  }

  /** `rawResults.map(...).filter(r => r !== null)`: the results of the kept elements. */
  function Normalize(items: seq<RawItem>, parse: string -> Option<real>): (rs: seq<GeocodeResult>)
    ensures |rs| <= |items|
  {
    if items == [] then []
    else
      ItemResults(items[0], parse) + Normalize(items[1..], parse)
  }

  function Shift(idx: seq<nat>): (r: seq<nat>)
    ensures |r| == |idx| && forall k :: 0 <= k < |idx| ==> r[k] == idx[k] + 1
  {
    seq(|idx|, k requires 0 <= k < |idx| => idx[k] + 1)
  }

  /** The positions of the kept elements, in increasing order. */
  function KeptIndices(items: seq<RawItem>, parse: string -> Option<real>): (idx: seq<nat>)
    ensures |idx| <= |items|
  {
    if items == [] then []
    else (if Kept(items[0], parse) then [0] else []) + Shift(KeptIndices(items[1..], parse))
  }

  /** Every position KeptIndices lists holds a kept element. */
  lemma {:induction false} KeptIndicesAreKept(items: seq<RawItem>, parse: string -> Option<real>)
    ensures forall k :: 0 <= k < |KeptIndices(items, parse)| ==>
              KeptIndices(items, parse)[k] < |items| && Kept(items[KeptIndices(items, parse)[k]], parse)
  {
    if items != [] {
      var rest := KeptIndices(items[1..], parse);
      KeptIndicesAreKept(items[1..], parse);
      var head: seq<nat> := if Kept(items[0], parse) then [0] else [];
      var idx := head + Shift(rest);
      assert KeptIndices(items, parse) == idx;
      forall k | 0 <= k < |idx| ensures idx[k] < |items| && Kept(items[idx[k]], parse) {
        if k >= |head| {
          var j := k - |head|;
          assert idx[k] == rest[j] + 1;
          assert items[idx[k]] == items[1..][rest[j]];
        }
      }
    }
  }

  /** KeptIndices lists positions in increasing order. */
  lemma {:induction false} KeptIndicesIncrease(items: seq<RawItem>, parse: string -> Option<real>)
    ensures forall k, l :: 0 <= k < l < |KeptIndices(items, parse)| ==>
              KeptIndices(items, parse)[k] < KeptIndices(items, parse)[l]
  {
    if items != [] {
      var rest := KeptIndices(items[1..], parse);
      KeptIndicesIncrease(items[1..], parse);
      var head: seq<nat> := if Kept(items[0], parse) then [0] else [];
      var idx := head + Shift(rest);
      assert KeptIndices(items, parse) == idx;
      forall k, l | 0 <= k < l < |idx| ensures idx[k] < idx[l] {
        assert idx[l] == rest[l - |head|] + 1;
        if k >= |head| {
          assert idx[k] == rest[k - |head|] + 1;
        }
      }
    }
  }

  /** Every kept element's position is listed by KeptIndices. */
  lemma {:induction false} KeptIndicesComplete(items: seq<RawItem>, parse: string -> Option<real>)
    ensures forall i :: 0 <= i < |items| && Kept(items[i], parse) ==> i in KeptIndices(items, parse)
  {
    if items != [] {
      var rest := KeptIndices(items[1..], parse);
      KeptIndicesComplete(items[1..], parse);
      var head: seq<nat> := if Kept(items[0], parse) then [0] else [];
      var idx := head + Shift(rest);
      assert KeptIndices(items, parse) == idx;
      forall i | 0 <= i < |items| && Kept(items[i], parse) ensures i in idx {
        if i == 0 {
          assert idx[0] == 0;
        } else {
          assert items[1..][i - 1] == items[i];
          var k :| 0 <= k < |rest| && rest[k] == i - 1;
          assert idx[|head| + k] == i;
        }
      }
    }
  }

  /** `rs` holds, in order, the normalised elements of `items` at the positions `idx`. */
  predicate Selects(items: seq<RawItem>, idx: seq<nat>, rs: seq<GeocodeResult>, parse: string -> Option<real>) {
    && |rs| == |idx|
    && forall k :: 0 <= k < |idx| ==> idx[k] < |items| && Some(rs[k]) == NormalizeItem(items[idx[k]], parse)
  }

  /** One step of the normaliser: the first element, if kept, goes in front of the selection
      from the rest, whose positions move up by one. */
  lemma SelectsCons(items: seq<RawItem>, rest: seq<nat>, rs: seq<GeocodeResult>, parse: string -> Option<real>)
    requires items != [] && Selects(items[1..], rest, rs, parse)
    ensures var head: seq<nat> := if Kept(items[0], parse) then [0] else [];
            Selects(items, head + Shift(rest), ItemResults(items[0], parse) + rs, parse)
  {
    var head: seq<nat> := if Kept(items[0], parse) then [0] else [];
    var h := ItemResults(items[0], parse);
    var idx := head + Shift(rest);
    assert |h| == |head|;
    forall k | 0 <= k < |idx|
      ensures idx[k] < |items| && Some((h + rs)[k]) == NormalizeItem(items[idx[k]], parse)
    {
      if k >= |head| {
        var j := k - |head|;
        assert (h + rs)[k] == rs[j] && idx[k] == rest[j] + 1;
        assert items[1..][rest[j]] == items[idx[k]];
      }
    }
  }

  /** The normaliser keeps exactly the kept elements, in their original order: the k-th result
      is the normalised form of the element at the k-th kept position. Dropped elements leave no
      trace and never cause a failure. */
  lemma {:induction false} NormalizeSelectsKept(items: seq<RawItem>, parse: string -> Option<real>)
    ensures |Normalize(items, parse)| == |KeptIndices(items, parse)|
    ensures forall k :: 0 <= k < |KeptIndices(items, parse)| ==>
              && KeptIndices(items, parse)[k] < |items|
              && Some(Normalize(items, parse)[k]) == NormalizeItem(items[KeptIndices(items, parse)[k]], parse)
  {
    NormalizeSelects(items, parse);
  }

  /** NormalizeSelectsKept, stated through Selects. */
  lemma {:induction false} NormalizeSelects(items: seq<RawItem>, parse: string -> Option<real>)
    ensures Selects(items, KeptIndices(items, parse), Normalize(items, parse), parse)
  {
    if items != [] {
      NormalizeSelects(items[1..], parse);
      SelectsCons(items, KeptIndices(items[1..], parse), Normalize(items[1..], parse), parse);
    }
  }

  /** Normalisation distributes over concatenation, so it never reorders results. */
  lemma {:induction false} NormalizeAppend(a: seq<RawItem>, b: seq<RawItem>, parse: string -> Option<real>)
    ensures Normalize(a + b, parse) == Normalize(a, parse) + Normalize(b, parse)
  {
    if a == [] {
      assert a + b == b;
    } else {
      var ab := a + b;
      assert ab[0] == a[0] && ab[1..] == a[1..] + b;
      NormalizeAppend(a[1..], b, parse);
      ConcatAssoc(ItemResults(a[0], parse), Normalize(a[1..], parse), Normalize(b, parse));
    }
  }

  lemma ConcatAssoc<T>(x: seq<T>, y: seq<T>, z: seq<T>)
    ensures x + (y + z) == (x + y) + z
  {
  }

  /** When every element is well formed, nothing is dropped. */
  lemma {:induction false} NormalizeKeepsAll(items: seq<RawItem>, parse: string -> Option<real>)
    requires forall i :: 0 <= i < |items| ==> Kept(items[i], parse)
    ensures |Normalize(items, parse)| == |items|
  {
    if items != [] {
      NormalizeKeepsAll(items[1..], parse);
    }
  }

  /** The normaliser as the source writes it: the callback reads `candidate.display_name` on
      every element, so a JSON `null` element makes it throw a TypeError, which rejects the
      whole call instead of dropping that element. None stands for that TypeError. */
  function NormalizeAsWritten(items: seq<RawItem>, parse: string -> Option<real>): (r: Option<seq<GeocodeResult>>)
    ensures r.None? <==> NullItem in items
    ensures r.Some? ==> |r.value| <= |items|
  {
    if items == [] then Some([])
    else if items[0].NullItem? then None
    else
      match NormalizeAsWritten(items[1..], parse)
      case None => None
      case Some(rest) => Some(ItemResults(items[0], parse) + rest)
  }

  /** The code as written agrees with the intended normaliser except that any `null` element
      turns the whole batch into a failure. */
  lemma {:induction false} NormalizeAsWrittenFailsOnNull(items: seq<RawItem>, parse: string -> Option<real>)
    ensures NormalizeAsWritten(items, parse) == if NullItem in items then None else Some(Normalize(items, parse))
  {
    if items != [] {
      NormalizeAsWrittenFailsOnNull(items[1..], parse);
      assert items == [items[0]] + items[1..];
    }
  }

  /** The input that shows it: the response `[null]`. */
  lemma NullElementRejectsBatch(parse: string -> Option<real>)
    ensures NormalizeAsWritten([NullItem], parse) == None
    ensures Normalize([NullItem], parse) == []
  {
  }

  // ---------------------------------------------------------------------------------------------
  // The request and the failure ladder

  /** What the client makes of the outcome of its request, checking in a fixed order: the
      transport, then the HTTP status, then the JSON decoding, then the array shape. Each check
      is reached only when the earlier ones passed. */
  function InterpretResponse(outcome: FetchOutcome, parse: string -> Option<real>): (r: Result<seq<GeocodeResult>, GeocodeError>)
    ensures r == Failure(NetworkError) <==> outcome.TransportFailed?
    ensures r == Failure(ServiceError) <==> outcome.Received? && !outcome.response.ok
    ensures r == Failure(MalformedBody) <==> outcome.Received? && outcome.response.ok && outcome.response.body.NotJson?
    ensures r == Failure(UnexpectedPayload) <==> outcome == Received(Response(true, JsonBody(NotArray)))
    ensures r.Success? <==> outcome.Received? && outcome.response.ok
                            && outcome.response.body.JsonBody? && outcome.response.body.value.Array?
    ensures r.Success? ==> r.value == Normalize(outcome.response.body.value.items, parse)
    ensures r != Failure(InvalidInput)
  {
    match outcome
    case TransportFailed => Failure(NetworkError)
    case Received(response) =>
      if !response.ok then Failure(ServiceError)
      else
        match response.body
        case NotJson => Failure(MalformedBody)
        case JsonBody(NotArray) => Failure(UnexpectedPayload)
        case JsonBody(Array(items)) => Success(Normalize(items, parse))
  }

  /** `geocodeAddress(address, options)`: a blank address is rejected before any request is
      made; otherwise the request for the trimmed address is sent and its outcome interpreted. */
  function GeocodeAddress(address: string, options: GeocodeOptions, platformOs: string,
                          transport: Request -> FetchOutcome, parse: string -> Option<real>)
    : (r: Result<seq<GeocodeResult>, GeocodeError>)
    ensures r == Failure(InvalidInput) <==> Text.AllWhitespace(address)
    ensures !Text.AllWhitespace(address) ==>
              r == InterpretResponse(transport(BuildRequest(Text.Trim(address), options, platformOs)), parse)
  {
    Text.TrimEmptyIff(address);
    var trimmedAddress := Text.Trim(address);
    if trimmedAddress == [] then Failure(InvalidInput)
    else InterpretResponse(transport(BuildRequest(trimmedAddress, options, platformOs)), parse)
  }

  /** A blank address fails with the same error whatever the transport would have answered:
      no request is made. */
  lemma BlankAddressMakesNoRequest(address: string, options: GeocodeOptions, platformOs: string,
                                   t1: Request -> FetchOutcome, t2: Request -> FetchOutcome,
                                   parse: string -> Option<real>)
    requires Text.AllWhitespace(address)
    ensures GeocodeAddress(address, options, platformOs, t1, parse) == Failure(InvalidInput)
    ensures GeocodeAddress(address, options, platformOs, t1, parse)
            == GeocodeAddress(address, options, platformOs, t2, parse)
  {
  }

  /** The address `"   "` is rejected with "Address must not be empty.". */
  lemma SpacesAreRejected(options: GeocodeOptions, platformOs: string,
                          transport: Request -> FetchOutcome, parse: string -> Option<real>)
    ensures GeocodeAddress("   ", options, platformOs, transport, parse) == Failure(InvalidInput)
    ensures InvalidInput.Message() == "Address must not be empty."
  {
  }

  /** The sample request: `"Test address"` with limit 1 sends `q=Test address` and `limit=1`. */
  lemma SampleRequest(platformOs: string)
    ensures var req := BuildRequest(Text.Trim("Test address"), GeocodeOptions(Some(1), None), platformOs);
            Lookup(req.params, Q) == Some("Test address") && Lookup(req.params, Limit) == Some("1")
  {
    Text.TrimFixesTrimmed("Test address");
    QueryParamValues("Test address", GeocodeOptions(Some(1), None));
    assert Text.IntToDecimal(1) == [Text.DigitChar(1)] == "1";
  }

  /** The sample answer: its one well-formed element comes back as the one result. */
  lemma SampleResponse(platformOs: string, parse: string -> Option<real>)
    requires parse("10.1234") == Some(10.1234) && parse("-20.5678") == Some(-20.5678)
    ensures GeocodeAddress("Test address", GeocodeOptions(Some(1), None), platformOs,
                           _ => Received(Response(true, JsonBody(Array([Entry(RawEntry(Some("Test Place"), Some("10.1234"), Some("-20.5678")))])))),
                           parse)
            == Success([GeocodeResult("Test Place", 10.1234, -20.5678)])
  {
    var item := Entry(RawEntry(Some("Test Place"), Some("10.1234"), Some("-20.5678")));
    assert NormalizeItem(item, parse) == Some(GeocodeResult("Test Place", 10.1234, -20.5678));
    assert Normalize([item], parse) == [GeocodeResult("Test Place", 10.1234, -20.5678)];
    assert !Text.IsWhitespace("Test address"[0]);
  }
}
