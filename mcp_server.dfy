/**
 * The MCP tool server: the city-membership validator, the request shaping of
 * the two search tools, the name lists they hand back to the agent and the
 * cache entries they leave for the chat endpoint.
 *
 * The HTTP calls themselves are parameters: a tool receives the upstream
 * service as a function from the request it builds to the reply it gets.
 */
module McpServer {
  import opened Common
  import KeyValue

  // ---------------------------------------------------------------------
  // Names and keys shared with the chat endpoint
  // ---------------------------------------------------------------------

  /** The tool names the agent reports on its tool messages. */
  const GOOGLE_PLACES_TOOL := "recomendar_lugares_google_places"
  const PARTNER_TOOL := "recomendar_lugares_clapzy"

  /** Cache keys: `{session_id}` holds place records, these suffixes the rest. */
  const QUERY_KEY_SUFFIX := "_query"
  const PARTNER_KEY_SUFFIX := "_clapzy"

  const JSON_MEDIA_TYPE := "application/json"

  // ---------------------------------------------------------------------
  // verificar_ciudades_clapzy
  // ---------------------------------------------------------------------

  /** The tool name of the city validator, as it appears on its tool messages. */
  const CITY_CHECK_TOOL := "verificar_ciudades_clapzy"

  /** The default candidate list of the tool's `lista_ciudades` argument. */
  const DEFAULT_CITIES: seq<string> := ["Quito", "Bogota", "Cali", "Medellin"]

  const EMPTY_CITY_ERROR := "El nombre de la ciudad no puede estar vacío"

  /**
   * The dictionary the validator returns: `ciudad_verificada`, `encontrada`,
   * `ciudad_exacta`, `total_ciudades` and, on blank input only, `error`.
   */
  datatype CityCheck = CityCheck(
    verified: string,
    found: bool,
    exact: Option<string>,
    total: nat,
    error: Option<string>)

  /** `not ciudad or not ciudad.strip()`. */
  predicate IsBlank(city: string, strip: string -> string)
  {
    city == "" || strip(city) == ""
  }

  /** `cities[k]` is the first entry whose lower-case form equals `key`. */
  ghost predicate FirstCaselessMatch(cities: seq<string>, key: string, lower: string -> string, k: int)
  {
    && 0 <= k < |cities|
    && lower(cities[k]) == key
    && forall j :: 0 <= j < k ==> lower(cities[j]) != key
  }

  /**
   * `verificar_ciudades_clapzy(ciudad, lista_ciudades, case_sensitive)`.
   * `str.strip` and `str.lower` are the parameters `strip` and `lower`: every
   * property below holds whatever their exact definition is. The candidate
   * list and the case mode default as the tool's own arguments do.
   */
  method VerifyCity(
    strip: string -> string,
    lower: string -> string,
    city: string,
    cities: seq<string> := DEFAULT_CITIES,
    caseSensitive: bool := false)
    returns (r: CityCheck)
    ensures r.total == |cities|
    ensures r.exact.None? <==> !r.found
    ensures IsBlank(city, strip) ==> r == CityCheck(city, false, None, |cities|, Some(EMPTY_CITY_ERROR))
    ensures !IsBlank(city, strip) ==> r.verified == strip(city) && r.error.None?
    ensures !IsBlank(city, strip) && caseSensitive ==>
      && (r.found <==> strip(city) in cities)
      && (r.found ==> r.exact == Some(strip(city)))
    ensures !IsBlank(city, strip) && !caseSensitive ==>
      (r.found <==> exists i :: 0 <= i < |cities| && lower(cities[i]) == lower(strip(city)))
    ensures !IsBlank(city, strip) && !caseSensitive && r.found ==>
      exists k :: FirstCaselessMatch(cities, lower(strip(city)), lower, k) && r.exact == Some(cities[k])
  {
    if IsBlank(city, strip) {
      return CityCheck(city, false, None, |cities|, Some(EMPTY_CITY_ERROR));
    }
    var cleaned := strip(city);
    var found := false;
    var exact: Option<string> := None;
    if caseSensitive {
      if cleaned in cities {
        found := true;
        exact := Some(cleaned);
      }
    } else {
      var key := lower(cleaned);
      var i := 0;
      while i < |cities|
        invariant 0 <= i <= |cities|
        invariant !found && exact == None
        invariant forall j :: 0 <= j < i ==> lower(cities[j]) != key
      {
        if lower(cities[i]) == key {
          found := true;
          exact := Some(cities[i]);
          assert FirstCaselessMatch(cities, key, lower, i);
          break;
        }
        i := i + 1;
      }
    }
    r := CityCheck(cleaned, found, exact, |cities|, None);
  }

  // ---------------------------------------------------------------------
  // Upstream requests and replies
  // ---------------------------------------------------------------------

  /** A place's `displayName` object; `text` is None when the object has no such key. */
  datatype DisplayName = DisplayName(text: Option<string>)

  /**
   * A place record: its `displayName` (None when the record has no such key)
   * and its serialized text, otherwise opaque.
   */
  datatype Place = Place(displayName: Option<DisplayName>, json: string)

  /** A partner establishment record: its `name` (None when absent); `json` as for `Place`. */
  datatype Establishment = Establishment(name: Option<string>, json: string)

  /**
   * An upstream reply: its status, its body text and, on 200, the record list
   * under the body's list field (`places` or `establishments`), or None when
   * the body has no such field.
   */
  datatype HttpReply<R> = HttpReply(status: nat, text: string, records: Option<seq<R>>)

  /** The text-search POST: its URL, headers and JSON body fields. */
  datatype PlacesRequest = PlacesRequest(
    url: string,
    headers: map<string, string>,
    textQuery: string,
    pageSize: nat)

  /** The partner coordinate-search GET: its URL, headers and query parameters. */
  datatype PartnerRequest = PartnerRequest(
    url: string,
    headers: map<string, string>,
    latitude: string,
    longitude: string,
    establishmentType: string,
    radius: nat)

  /** What a search tool returns to the agent: a name list or an error text. */
  datatype ToolResult =
    | Names(names: seq<string>)
    | RequestFailed(message: string)
      /** A key lookup raised `KeyError(field)`; the tool framework reports it to the agent. */
    | MissingField(field: string)

  /** The body fields that hold the record lists. */
  const PLACES_FIELD := "places"
  const ESTABLISHMENTS_FIELD := "establishments"

  const PLACES_SEARCH_URL := "https://places.googleapis.com/v1/places:searchText"
  const PLACES_PAGE_SIZE: nat := 20
  const PLACES_FIELD_MASK :=
    "places.displayName,places.formattedAddress,places.location,places.types,"
    + "places.rating,places.userRatingCount,places.priceLevel,places.id,places.photos,"
    + "places.regularOpeningHours.weekdayDescriptions,places.editorialSummary,"
    + "places.internationalPhoneNumber,places.websiteUri,places.primaryType,"
    + "places.shortFormattedAddress,places.businessStatus"

  const PARTNER_URL := "https://backend.clapzy.pro/api/establishments/coordenates"
  const GUEST_PARTNER_URL := "https://backend.clapzy.pro/api/guest/establishments/coordenates"
  const PARTNER_RADIUS: nat := 50

  const AUTHORIZATION := "Authorization"
  const GUEST_TOKEN_HEADER := "X-Guest-Access-Token"
  const CONTENT_TYPE := "Content-Type"
  const ACCEPT := "Accept"

  /**
   * The partner headers and URL: the bearer header and the authenticated URL,
   * unless `token == session_id`, which drops the bearer header, adds the
   * guest header and switches to the guest URL.
   */
  function PartnerAuth(sessionId: string, token: string): (auth: (map<string, string>, string))
    ensures CONTENT_TYPE in auth.0 && auth.0[CONTENT_TYPE] == JSON_MEDIA_TYPE
    ensures ACCEPT in auth.0 && auth.0[ACCEPT] == JSON_MEDIA_TYPE
    ensures token == sessionId ==>
      && auth.0.Keys == {CONTENT_TYPE, ACCEPT, GUEST_TOKEN_HEADER}
      && auth.0[GUEST_TOKEN_HEADER] == token
      && auth.1 == GUEST_PARTNER_URL
    ensures token != sessionId ==>
      && auth.0.Keys == {AUTHORIZATION, CONTENT_TYPE, ACCEPT}
      && auth.0[AUTHORIZATION] == "Bearer " + token
      && auth.1 == PARTNER_URL
  {
    var headers := map[AUTHORIZATION := "Bearer " + token, CONTENT_TYPE := JSON_MEDIA_TYPE, ACCEPT := JSON_MEDIA_TYPE];
    if token == sessionId then
      (headers[GUEST_TOKEN_HEADER := token] - {AUTHORIZATION}, GUEST_PARTNER_URL)
    else
      (headers, PARTNER_URL)
  }

  const API_KEY_HEADER := "X-Goog-Api-Key"
  const FIELD_MASK_HEADER := "X-Goog-FieldMask"

  /** The text-search POST: the query and page size in the body, the key and field mask in the headers. */
  function PlacesSearchRequest(query: string, apiKey: string): (req: PlacesRequest)
    ensures req.url == PLACES_SEARCH_URL
    ensures req.textQuery == query && req.pageSize == PLACES_PAGE_SIZE
    ensures req.headers.Keys == {CONTENT_TYPE, API_KEY_HEADER, FIELD_MASK_HEADER}
    ensures req.headers[CONTENT_TYPE] == JSON_MEDIA_TYPE
    ensures req.headers[API_KEY_HEADER] == apiKey
    ensures req.headers[FIELD_MASK_HEADER] == PLACES_FIELD_MASK
  {
    var headers := map[CONTENT_TYPE := JSON_MEDIA_TYPE, API_KEY_HEADER := apiKey, FIELD_MASK_HEADER := PLACES_FIELD_MASK];
    PlacesRequest(PLACES_SEARCH_URL, headers, query, PLACES_PAGE_SIZE)
  }

  function PartnerSearchRequest(
    latitude: string,
    longitude: string,
    sessionId: string,
    establishmentType: string,
    token: string): (req: PartnerRequest)
    ensures (req.headers, req.url) == PartnerAuth(sessionId, token)
    ensures req.latitude == latitude && req.longitude == longitude
    ensures req.establishmentType == establishmentType && req.radius == PARTNER_RADIUS
  {
    var auth := PartnerAuth(sessionId, token);
    PartnerRequest(auth.1, auth.0, latitude, longitude, establishmentType, PARTNER_RADIUS)
  }

  // ---------------------------------------------------------------------
  // Shaping replies
  // ---------------------------------------------------------------------

  /** The key `lugar["displayName"]["text"]` fails on, if any. */
  function PlaceKeyError(p: Place): Option<string>
  {
    match p.displayName
    case None => Some("displayName")
    case Some(d) => if d.text.None? then Some("text") else None
  }

  /** The key `lugar["name"]` fails on, if any. */
  function EstablishmentKeyError(e: Establishment): Option<string>
  {
    if e.name.None? then Some("name") else None
  }

  /** The name read from a record, meaningful when its key error is None. */
  function PlaceName(p: Place): string
  {
    if p.displayName.Some? && p.displayName.value.text.Some? then p.displayName.value.text.value else ""
  }
  function PlaceJson(p: Place): string { p.json }
  function EstablishmentName(e: Establishment): string { if e.name.Some? then e.name.value else "" }
  function EstablishmentJson(e: Establishment): string { e.json }

  /**
   * The key error the comprehension over `records` raises: the one of the
   * first record whose name cannot be read, or None when every record has one.
   */
  function FirstKeyError<R>(records: seq<R>, missing: R -> Option<string>): (err: Option<string>)
    ensures err.None? <==> forall i :: 0 <= i < |records| ==> missing(records[i]).None?
    ensures err.Some? ==>
      exists k :: 0 <= k < |records| && missing(records[k]) == err
        && forall j :: 0 <= j < k ==> missing(records[j]).None?
  {
    if records == [] then None
    else if missing(records[0]).Some? then missing(records[0])
    else
      var rest := FirstKeyError(records[1..], missing);
      if rest.Some? then
        var k :| 0 <= k < |records[1..]| && missing(records[1..][k]) == rest
          && forall j :: 0 <= j < k ==> missing(records[1..][j]).None?;
        assert missing(records[k + 1]) == rest;
        rest
      else rest
  }

  /** `[get(record) for record in records]`. */
  function Collect<R>(records: seq<R>, get: R -> string): (out: seq<string>)
    ensures |out| == |records|
    ensures forall i :: 0 <= i < |records| ==> out[i] == get(records[i])
  {
    if records == [] then [] else [get(records[0])] + Collect(records[1..], get)
  }

  function JoinWith(items: seq<string>, separator: string): string
  {
    if |items| == 0 then ""
    else if |items| == 1 then items[0]
    else items[0] + separator + JoinWith(items[1..], separator)
  }

  /**
   * `json.dumps` of a list whose elements serialize to `items`, with Python's
   * default separator. Never empty, so the chat endpoint always finds it truthy.
   */
  function JsonArray(items: seq<string>): (text: string)
    ensures |text| >= 2 && text[0] == '[' && text[|text| - 1] == ']'
  {
    "[" + JoinWith(items, ", ") + "]"
  }

  /**
   * A 200 reply with an empty list is answered with an empty name list, not
   * with an error message, and "[]" is what gets cached.
   */
  lemma NoMatchIsEmptyList<R>(get: R -> string, json: R -> string)
    ensures Collect([], get) == []
    ensures JsonArray(Collect([], json)) == "[]"
  {
  }

  /** The number a string of decimal digits denotes, most significant digit first. */
  function DigitsValue(text: string): nat
    requires forall i :: 0 <= i < |text| ==> '0' <= text[i] <= '9'
  {
    if text == [] then 0
    else DigitsValue(text[..|text| - 1]) * 10 + (text[|text| - 1] as int - '0' as int)
  }

  /** The decimal text of a status code, as an f-string writes it. */
  function DecimalText(n: nat): (text: string)
    ensures |text| >= 1
    ensures forall i :: 0 <= i < |text| ==> '0' <= text[i] <= '9'
    ensures |text| > 1 ==> text[0] != '0'
    ensures DigitsValue(text) == n
  {
    if n < 10 then ["0123456789"[n]]
    else
      var prefix := DecimalText(n / 10);
      var text := prefix + ["0123456789"[n % 10]];
      assert text[..|text| - 1] == prefix;
      text
  }

  const REQUEST_ERROR_PREFIX := "Error en la solicitud: "

  /** `f"Error en la solicitud: {status_code} - {text}"`. */
  function RequestErrorText(status: nat, text: string): (message: string)
    ensures |message| >= |REQUEST_ERROR_PREFIX| + 4 + |text|
    ensures message[..|REQUEST_ERROR_PREFIX|] == REQUEST_ERROR_PREFIX
    ensures message[|message| - |text|..] == text
    ensures message[|message| - |text| - 3..|message| - |text|] == " - "
    ensures var code := message[|REQUEST_ERROR_PREFIX|..|message| - |text| - 3];
      && |code| >= 1
      && (forall i :: 0 <= i < |code| ==> '0' <= code[i] <= '9')
      && (|code| > 1 ==> code[0] != '0')
      && DigitsValue(code) == status
  {
    var code := DecimalText(status);
    var message := REQUEST_ERROR_PREFIX + code + " - " + text;
    assert message[|REQUEST_ERROR_PREFIX|..|message| - |text| - 3] == code;
    message
  }

  // ---------------------------------------------------------------------
  // The two search tools
  // ---------------------------------------------------------------------

  /**
   * `recomendar_lugares_google_places`. On a 200 reply with a `places` list
   * it returns the display names in record order and caches the serialized
   * records under the session id and the query under `{session_id}_query`.
   * An empty list is not an error: it returns no names and caches "[]". A 200
   * body without `places`, or with a record lacking `displayName` or its
   * `text`, raises `KeyError` before any write. Any other status
   * returns the error text and writes nothing. `placeType` is accepted and not
   * used.
   */
  method RecommendGooglePlaces(
    cache: KeyValue.Cache,
    query: string,
    sessionId: string,
    placeType: string,
    apiKey: string,
    post: PlacesRequest -> HttpReply<Place>)
    returns (r: ToolResult)
    modifies cache
    ensures var reply := post(PlacesSearchRequest(query, apiKey));
      if reply.status != 200 then
        && r == RequestFailed(RequestErrorText(reply.status, reply.text))
        && cache.entries == old(cache.entries)
      else if reply.records.None? then
        && r == MissingField(PLACES_FIELD)
        && cache.entries == old(cache.entries)
      else if FirstKeyError(reply.records.value, PlaceKeyError).Some? then
        && r == MissingField(FirstKeyError(reply.records.value, PlaceKeyError).value)
        && cache.entries == old(cache.entries)
      else
        && r == Names(Collect(reply.records.value, PlaceName))
        && (forall i :: 0 <= i < |r.names| ==>
              reply.records.value[i].displayName == Some(DisplayName(Some(r.names[i]))))
        && cache.entries == old(cache.entries)
             [sessionId := JsonArray(Collect(reply.records.value, PlaceJson))]
             [sessionId + QUERY_KEY_SUFFIX := query]
  {
    var reply := post(PlacesSearchRequest(query, apiKey));
    if reply.status != 200 {
      return RequestFailed(RequestErrorText(reply.status, reply.text));
    }
    if reply.records.None? {
      return MissingField(PLACES_FIELD);
    }
    var missing := FirstKeyError(reply.records.value, PlaceKeyError);
    if missing.Some? {
      return MissingField(missing.value);
    }
    var names := Collect(reply.records.value, PlaceName);
    cache.Set(sessionId, JsonArray(Collect(reply.records.value, PlaceJson)));
    cache.Set(sessionId + QUERY_KEY_SUFFIX, query);
    r := Names(names);
  }

  /**
   * `recomendar_lugares_clapzy`. It queries the partner service with the
   * guest or bearer shape that `PartnerAuth` selects. On a 200 reply with an
   * `establishments` list it returns the establishment names in record order
   * and caches the serialized records under `{session_id}_clapzy`; an empty
   * list returns no names and caches "[]". A 200 body without
   * `establishments`, or with a record lacking `name`, raises `KeyError`
   * before the write. Any other status
   * returns the error text and writes nothing.
   */
  method RecommendPartnerPlaces(
    cache: KeyValue.Cache,
    latitude: string,
    longitude: string,
    sessionId: string,
    establishmentType: string,
    token: string,
    get: PartnerRequest -> HttpReply<Establishment>)
    returns (r: ToolResult)
    modifies cache
    ensures var reply := get(PartnerSearchRequest(latitude, longitude, sessionId, establishmentType, token));
      if reply.status != 200 then
        && r == RequestFailed(RequestErrorText(reply.status, reply.text))
        && cache.entries == old(cache.entries)
      else if reply.records.None? then
        && r == MissingField(ESTABLISHMENTS_FIELD)
        && cache.entries == old(cache.entries)
      else if FirstKeyError(reply.records.value, EstablishmentKeyError).Some? then
        && r == MissingField(FirstKeyError(reply.records.value, EstablishmentKeyError).value)
        && cache.entries == old(cache.entries)
      else
        && r == Names(Collect(reply.records.value, EstablishmentName))
        && (forall i :: 0 <= i < |r.names| ==> reply.records.value[i].name == Some(r.names[i]))
        && cache.entries == old(cache.entries)
             [sessionId + PARTNER_KEY_SUFFIX := JsonArray(Collect(reply.records.value, EstablishmentJson))]
  {
    var reply := get(PartnerSearchRequest(latitude, longitude, sessionId, establishmentType, token));
    if reply.status != 200 {
      return RequestFailed(RequestErrorText(reply.status, reply.text));
    }
    if reply.records.None? {
      return MissingField(ESTABLISHMENTS_FIELD);
    }
    var missing := FirstKeyError(reply.records.value, EstablishmentKeyError);
    if missing.Some? {
      return MissingField(missing.value);
    }
    var names := Collect(reply.records.value, EstablishmentName);
    cache.Set(sessionId + PARTNER_KEY_SUFFIX, JsonArray(Collect(reply.records.value, EstablishmentJson)));
    r := Names(names);
  }
}
