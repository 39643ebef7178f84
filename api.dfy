/**
 * The server client (services/api.ts): the session record helpers, the request bodies
 * the query methods build, the mappers applied to the server's answers, the title
 * stripping of `saveFormData`, and `login`/`logout` with their persistence on success.
 * `fetch` is an oracle: a request is recorded as sent and answered by a `Reply`.
 * A JavaScript exception is an `Err` outcome.
 */
module Api {
  import opened Wrappers
  import opened Js
  import opened Text
  import opened Types
  import opened Storage

  const ApiBaseUrl := "https://demo.ngi-gps.com/apimobile/v1.0"
  const NoAuthDataMessage := "No auth data found"

  /** A request as handed to `fetch`: the URL, the bearer token if any, the JSON body. */
  datatype Request = Request(url: string, token: Option<string>, body: Json)

  /** What `fetch` gives back: a rejection, or a response with its `ok` flag and a body that may not parse. */
  datatype Reply<T> = NetworkError | Response(ok: bool, body: Option<T>)

  /** The exceptions the client lets escape. */
  datatype Failure = Thrown(message: string) | TypeError | NetworkFailure | BadJson

  datatype Outcome<T> = Ok(value: T) | Err(failure: Failure)

  /** One call: the request it sent, if it got that far, and how it ended. */
  datatype Exchange<T> = Exchange(sent: Option<Request>, outcome: Outcome<T>)

  // ---------------------------------------------------------------- session record

  /** `getAuthData`: the stored session, or null when it is absent or the read fails. */
  function GetAuthData(stored: Option<AuthData>, readFails: bool): (r: Option<AuthData>)
    ensures r.Some? <==> !readFails && stored.Some?
    ensures r.Some? ==> r == stored
  {
    if readFails then None else stored
  }

  /** `setAuthData`: a failed write is logged and swallowed. */
  method SetAuthData(storage: DeviceStorage, authData: AuthData, writeFails: bool)
    modifies storage`authData
    ensures storage.authData == if writeFails then old(storage.authData) else Some(authData)
    ensures !writeFails ==> GetAuthData(storage.authData, false) == Some(authData)
  {
    if !writeFails {
      storage.authData := Some(authData);
    }
  }

  /** `removeAuthData`: a failed removal is logged and swallowed. */
  method RemoveAuthData(storage: DeviceStorage, removeFails: bool)
    modifies storage`authData
    ensures storage.authData == if removeFails then old(storage.authData) else None
    ensures !removeFails ==> forall readFails :: GetAuthData(storage.authData, readFails).None?
  {
    if !removeFails {
      storage.authData := None;
    }
  }

  // ---------------------------------------------------------------- responses

  /** An HTTP exchange: a non-ok status throws `failMessage`, an ok one yields the parsed body. */
  function Receive<T>(reply: Reply<T>, failMessage: string): (r: Outcome<T>)
    ensures r.Ok? <==> reply.Response? && reply.ok && reply.body.Some?
    ensures r.Ok? ==> r.value == reply.body.value
    ensures reply.Response? && !reply.ok ==> r == Err(Thrown(failMessage))
  {
    match reply
    case NetworkError => Err(NetworkFailure)
    case Response(ok, body) =>
      if !ok then Err(Thrown(failMessage))
      else if body.None? then Err(BadJson)
      else Ok(body.value)
  }

  /** `data.result || []`; reading `result` of a null body throws. */
  function ResultOrEmpty(data: Json): (r: Outcome<Json>)
    ensures data.JNull? ==> r == Err(TypeError)
    ensures r.Ok? ==> Truthy(r.value) && (Truthy(Prop(data, "result")) ==> r.value == Prop(data, "result"))
    ensures r.Ok? && !Truthy(Prop(data, "result")) ==> r.value == JArr([])
    ensures !(data.JUndef? || data.JNull?) ==> r.Ok?
  {
    match StrictProp(data, "result")
    case None => Err(TypeError)
    case Some(result) => Ok(Or(result, JArr([])))
  }

  /** `list.map(f)` where `f` may throw: the first throwing element ends it; a non-array has no `map`. */
  function MapAll<T>(items: seq<Json>, f: Json -> Option<T>): (r: Option<seq<T>>)
    ensures r.Some? <==> forall i :: 0 <= i < |items| ==> f(items[i]).Some?
    ensures r.Some? ==> |r.value| == |items| && forall i :: 0 <= i < |items| ==> f(items[i]) == Some(r.value[i])
  {
    if items == [] then Some([])
    else match f(items[0])
      case None => None
      case Some(x) =>
        match MapAll(items[1..], f)
        case None => None
        case Some(rest) => Some([x] + rest)
  }

  function MapList<T>(list: Json, f: Json -> Option<T>): Outcome<seq<T>> {
    if !list.JArr? then Err(TypeError)
    else match MapAll(list.items, f)
      case None => Err(TypeError)
      case Some(xs) => Ok(xs)
  }

  /** The driver mapper: a null element throws when its `_id` is read. */
  function MapDriver(d: Json): (r: Option<Driver>)
    ensures r.None? <==> d.JUndef? || d.JNull?
  {
    match StrictProp(d, "_id")
    case None => None
    case Some(id) =>
      var first := Prop(d, "first_name");
      var last := Prop(d, "last_name");
      Some(Driver(Or(id, Prop(d, "id")), DriverFullName(first, last), first, last, Prop(d, "email"), Prop(d, "phone")))
  }

  /** The driver display name: first and last name (each "" when falsy) joined by one space, then trimmed. */
  function DriverFullName(first: Json, last: Json): string {
    Trim(ToJsString(Or(first, JStr(""))) + " " + ToJsString(Or(last, JStr(""))))
  }

  /** The bac (container) mapper: `bac._id` of a null element throws; `properties` is read with `?.`. */
  function MapBac(b: Json): (r: Option<Bac>)
    ensures r.None? <==> b.JUndef? || b.JNull?
  {
    match StrictProp(b, "_id")
    case None => None
    case Some(id) =>
      var props := Prop(b, "properties");
      Some(Bac(id, Or(Prop(props, "Nom"), JStr("Unnamed")), Or(Prop(props, "Description"), JStr("")),
               Or(Prop(props, "capacity"), JNum(0)), Or(Prop(b, "category"), JStr("Point"))))
  }

  /** A driver's id is `_id` when truthy, else `id`; the other fields are copied. */
  lemma DriverFields(d: Json)
    requires d.JObj?
    ensures var r := MapDriver(d).value;
      r.id == (if Truthy(Prop(d, "_id")) then Prop(d, "_id") else Prop(d, "id"))
      && r.firstName == Prop(d, "first_name") && r.lastName == Prop(d, "last_name")
      && r.email == Prop(d, "email") && r.phone == Prop(d, "phone")
  {
  }

  /** Two parts with nothing to trim, joined by a space and trimmed: no stray space when a part is empty. */
  lemma {:induction false} TrimmedJoin(first: string, last: string)
    requires first == [] || (!IsWhitespace(first[0]) && !IsWhitespace(first[|first| - 1]))
    requires last == [] || (!IsWhitespace(last[0]) && !IsWhitespace(last[|last| - 1]))
    ensures Trim(first + " " + last) == if first == [] then last else if last == [] then first else first + " " + last
  {
    var joined := first + " " + last;
    if first == [] && last == [] {
      assert joined == " ";
      assert forall i :: 0 <= i < |joined| ==> IsWhitespace(joined[i]);
    } else if first == [] {
      assert joined == " " + last;
      TrimLeadingSpace(last);
    } else if last == [] {
      assert joined == first + " ";
      TrimTrailingSpace(first);
    } else {
      TrimOfTrimmed(joined);
    }
  }

  /** A name part as the server sends it: the string `text`, or (with `text` empty) an absent or null field. */
  predicate NamePart(j: Json, text: string) {
    j == JStr(text) || (text == [] && (j.JUndef? || j.JNull?))
  }

  /** A driver's name is "first last"; a part that is empty, absent or null leaves no stray space. */
  lemma DriverName(d: Json, first: string, last: string)
    requires d.JObj?
    requires first == [] || (!IsWhitespace(first[0]) && !IsWhitespace(first[|first| - 1]))
    requires last == [] || (!IsWhitespace(last[0]) && !IsWhitespace(last[|last| - 1]))
    requires NamePart(Prop(d, "first_name"), first) && NamePart(Prop(d, "last_name"), last)
    ensures MapDriver(d).value.name ==
      if first == [] then last else if last == [] then first else first + " " + last
  {
    var f := ToJsString(Or(Prop(d, "first_name"), JStr("")));
    var l := ToJsString(Or(Prop(d, "last_name"), JStr("")));
    assert f == first && l == last;
    assert MapDriver(d).value.name == DriverFullName(Prop(d, "first_name"), Prop(d, "last_name")) == Trim(f + " " + l);
    TrimmedJoin(first, last);
  }

  /** A bac copies each truthy field and puts "Unnamed", "", 0 and "Point" in place of a falsy one. */
  lemma BacDefaults(b: Json)
    requires b.JObj?
    ensures var r := MapBac(b).value;
      r.id == Prop(b, "_id") && Truthy(r.name) && Truthy(r.bacType)
      && (!Truthy(Prop(Prop(b, "properties"), "Nom")) ==> r.name == JStr("Unnamed"))
      && (!Truthy(Prop(b, "category")) ==> r.bacType == JStr("Point"))
      && (!Truthy(Prop(Prop(b, "properties"), "Description")) ==> r.location == JStr(""))
      && (!Truthy(Prop(Prop(b, "properties"), "capacity")) ==> r.capacity == JNum(0))
    ensures var r := MapBac(b).value;
      var props := Prop(b, "properties");
      (Truthy(Prop(props, "Nom")) ==> r.name == Prop(props, "Nom"))
      && (Truthy(Prop(props, "Description")) ==> r.location == Prop(props, "Description"))
      && (Truthy(Prop(props, "capacity")) ==> r.capacity == Prop(props, "capacity"))
      && (Truthy(Prop(b, "category")) ==> r.bacType == Prop(b, "category"))
  {
  }

  /** A bac without `properties` gets every default. */
  lemma BacWithoutProperties(id: Json)
    ensures MapBac(JObj(map["_id" := id])) == Some(Bac(id, JStr("Unnamed"), JStr(""), JNum(0), JStr("Point")))
  {
  }

  /** The driver list keeps the server's length and order; one null element makes the whole call throw. */
  lemma DriversKeepOrder(items: seq<Json>)
    ensures MapList(JArr(items), MapDriver).Ok? <==> forall i :: 0 <= i < |items| ==> !(items[i].JUndef? || items[i].JNull?)
    ensures MapList(JArr(items), MapDriver).Ok? ==>
      var ds := MapList(JArr(items), MapDriver).value;
      |ds| == |items| && forall i :: 0 <= i < |items| ==> MapDriver(items[i]) == Some(ds[i])
  {
  }

  /** The bac list keeps the server's length and order; one null element makes the whole call throw. */
  lemma BacsKeepOrder(items: seq<Json>)
    ensures MapList(JArr(items), MapBac).Ok? <==> forall i :: 0 <= i < |items| ==> !(items[i].JUndef? || items[i].JNull?)
    ensures MapList(JArr(items), MapBac).Ok? ==>
      var bs := MapList(JArr(items), MapBac).value;
      |bs| == |items| && forall i :: 0 <= i < |items| ==> MapBac(items[i]) == Some(bs[i])
  {
  }

  // ---------------------------------------------------------------- search bodies

  /** The search guard: the term has a character that is not whitespace. */
  predicate HasSearchTerm(term: string) {
    !IsBlank(term)
  }

  /** A case-insensitive regular-expression condition on one key. */
  function Regex(key: string, term: string): Json {
    JObj(map[key := JObj(map["$regex" := JStr(term), "$options" := JStr("i")])])
  }

  /** The owner id read off the session user's company owner; reading it throws when the owner is null or absent. */
  function OwnerId(auth: AuthData): Option<Json> {
    StrictProp(auth.user.companyOwner, "_id")
  }

  /** A query method's `body`: the `query` filter and the `options`. */
  function SearchBody(query: map<string, Json>, options: Json): Json {
    JObj(map["query" := JObj(query), "options" := options])
  }

  /** The term a search sends: the term as typed when it is not blank, else none. */
  function SearchTerm(term: string): Option<string> {
    if HasSearchTerm(term) then Some(term) else None
  }

  /** The asset filter for the term a search sends. */
  function AssetFilter(owner: Json, search: Option<string>): map<string, Json> {
    var query := map["_company_owner" := owner];
    if search.Some? then query["$or" := JArr([Regex("name", search.value), Regex("licensePlate", search.value)])] else query
  }

  function AssetQuery(owner: Json, term: string): map<string, Json> {
    AssetFilter(owner, SearchTerm(term))
  }

  function AssetQueryOptions(): Json {
    JObj(map["populate" := JArr([JObj(map["path" := JStr("_asset"), "select" := JStr("name")])]),
             "sortBy" := JObj(map["from_dt" := JNum(-1)])])
  }

  function AssetQueryBody(owner: Json, term: string): Json {
    SearchBody(AssetQuery(owner, term), AssetQueryOptions())
  }

  /** The driver filter for the term a search sends. */
  function DriverFilter(owner: Json, search: Option<string>): map<string, Json> {
    var query := map["_company_owner" := owner];
    if search.Some? then query["$or" := JArr([Regex("first_name", search.value), Regex("last_name", search.value)])] else query
  }

  function DriverQuery(owner: Json, term: string): map<string, Json> {
    DriverFilter(owner, SearchTerm(term))
  }

  function DriverQueryOptions(): Json {
    JObj(map["sortBy" := JObj(map["from_dt" := JNum(-1)])])
  }

  function DriverQueryBody(owner: Json, term: string): Json {
    SearchBody(DriverQuery(owner, term), DriverQueryOptions())
  }

  /** The bac filter for the term a search sends. */
  function BacFilter(owner: Json, search: Option<string>): map<string, Json> {
    var query := map["_company_owner" := owner, "geometry.type" := JStr("Point")];
    if search.Some? then query["properties.Nom" := JObj(map["$regex" := JStr(search.value), "$options" := JStr("i")])] else query
  }

  function BacQuery(owner: Json, term: string): map<string, Json> {
    BacFilter(owner, SearchTerm(term))
  }

  function BacQueryOptions(): Json {
    JObj(map["sortBy" := JObj(map["creation_dt" := JNum(-1)])])
  }

  function BacQueryBody(owner: Json, term: string): Json {
    SearchBody(BacQuery(owner, term), BacQueryOptions())
  }

  function FormQueryBody(): Json {
    SearchBody(map[], JObj(map["sortBy" := JObj(map["createdAt" := JNum(-1)])]))
  }

  /** The term a `{ $regex, $options: "i" }` condition searches for, read back out of a body. */
  function RegexTerm(condition: Json): Option<string> {
    var r := Prop(condition, "$regex");
    if r.JStr? && Prop(condition, "$options") == JStr("i") then Some(r.s) else None
  }

  /** The term the first `$or` alternative that mentions `field` searches it for. */
  function AlternativeTerm(alternatives: seq<Json>, field: string): Option<string>
    decreases |alternatives|
  {
    if alternatives == [] then None
    else if Prop(alternatives[0], field) != JUndef then RegexTerm(Prop(alternatives[0], field))
    else AlternativeTerm(alternatives[1..], field)
  }

  /** The term a query body searches `field` for: a condition on the field itself, else an `$or` alternative. */
  function FilterTerm(body: Json, field: string): Option<string> {
    var query := Prop(body, "query");
    var alternatives := Prop(query, "$or");
    if Prop(query, field) != JUndef then RegexTerm(Prop(query, field))
    else if alternatives.JArr? then AlternativeTerm(alternatives.items, field)
    else None
  }

  lemma QueryOfSearchBody(query: map<string, Json>, options: Json, field: string)
    ensures FilterTerm(SearchBody(query, options), field) ==
      if field in query && query[field] != JUndef then RegexTerm(query[field])
      else if "$or" in query && query["$or"].JArr? then AlternativeTerm(query["$or"].items, field)
      else None
  {
    assert Prop(SearchBody(query, options), "query") == JObj(query);
  }

  lemma RegexReadBack(key: string, other: string, term: string)
    requires other != key
    ensures RegexTerm(Prop(Regex(key, term), key)) == Some(term)
    ensures Prop(Regex(key, term), other) == JUndef
  {
  }

  /** The two alternatives of an `$or` search both carry the term. */
  lemma AlternativesReadBack(k1: string, k2: string, term: string)
    requires k1 != k2
    ensures AlternativeTerm([Regex(k1, term), Regex(k2, term)], k1) == Some(term)
    ensures AlternativeTerm([Regex(k1, term), Regex(k2, term)], k2) == Some(term)
  {
    RegexReadBack(k1, k2, term);
    RegexReadBack(k2, k1, term);
    assert [Regex(k1, term), Regex(k2, term)][1..] == [Regex(k2, term)];
    assert [Regex(k2, term)][1..] == [];
  }

  /** The asset filter reads back as the owner scope and the sent term on both searched fields. */
  lemma AssetFilterReadBack(owner: Json, search: Option<string>)
    ensures Prop(Prop(SearchBody(AssetFilter(owner, search), AssetQueryOptions()), "query"), "_company_owner") == owner
    ensures FilterTerm(SearchBody(AssetFilter(owner, search), AssetQueryOptions()), "name") == search
    ensures FilterTerm(SearchBody(AssetFilter(owner, search), AssetQueryOptions()), "licensePlate") == search
  {
    var q := AssetFilter(owner, search);
    assert "name" !in q && "licensePlate" !in q;
    QueryOfSearchBody(q, AssetQueryOptions(), "name");
    QueryOfSearchBody(q, AssetQueryOptions(), "licensePlate");
    if search.Some? {
      AlternativesReadBack("name", "licensePlate", search.value);
    }
  }

  /**
   * The asset search: always scoped to the owner; filtered on name and licensePlate with
   * the untrimmed term exactly when the term is not blank.
   */
  lemma AssetSearch(owner: Json, term: string)
    ensures Prop(Prop(AssetQueryBody(owner, term), "query"), "_company_owner") == owner
    ensures FilterTerm(AssetQueryBody(owner, term), "name") == if HasSearchTerm(term) then Some(term) else None
    ensures FilterTerm(AssetQueryBody(owner, term), "licensePlate") == if HasSearchTerm(term) then Some(term) else None
  {
    AssetFilterReadBack(owner, SearchTerm(term));
  }

  /** The driver filter reads back as the owner scope and the sent term on both name fields. */
  lemma DriverFilterReadBack(owner: Json, search: Option<string>)
    ensures Prop(Prop(SearchBody(DriverFilter(owner, search), DriverQueryOptions()), "query"), "_company_owner") == owner
    ensures FilterTerm(SearchBody(DriverFilter(owner, search), DriverQueryOptions()), "first_name") == search
    ensures FilterTerm(SearchBody(DriverFilter(owner, search), DriverQueryOptions()), "last_name") == search
  {
    var q := DriverFilter(owner, search);
    assert "first_name" !in q && "last_name" !in q;
    QueryOfSearchBody(q, DriverQueryOptions(), "first_name");
    QueryOfSearchBody(q, DriverQueryOptions(), "last_name");
    if search.Some? {
      AlternativesReadBack("first_name", "last_name", search.value);
    }
  }

  /**
   * The driver search: always scoped to the owner; filtered on first_name and last_name with
   * the untrimmed term exactly when the term is not blank.
   */
  lemma DriverSearch(owner: Json, term: string)
    ensures Prop(Prop(DriverQueryBody(owner, term), "query"), "_company_owner") == owner
    ensures FilterTerm(DriverQueryBody(owner, term), "first_name") == if HasSearchTerm(term) then Some(term) else None
    ensures FilterTerm(DriverQueryBody(owner, term), "last_name") == if HasSearchTerm(term) then Some(term) else None
  {
    DriverFilterReadBack(owner, SearchTerm(term));
  }

  /** The bac filter's fixed keys differ from the searched one. */
  lemma BacKeysDiffer()
    ensures "_company_owner" != "properties.Nom" && "geometry.type" != "properties.Nom"
  {
    assert "_company_owner"[0] != "properties.Nom"[0];
  }

  /** The bac filter reads back as the owner and point-geometry scope and the sent term on the name. */
  lemma BacFilterReadBack(owner: Json, search: Option<string>)
    ensures var q := Prop(SearchBody(BacFilter(owner, search), BacQueryOptions()), "query");
      Prop(q, "_company_owner") == owner && Prop(q, "geometry.type") == JStr("Point")
    ensures FilterTerm(SearchBody(BacFilter(owner, search), BacQueryOptions()), "properties.Nom") == search
  {
    BacKeysDiffer();
    var q := BacFilter(owner, search);
    assert Prop(SearchBody(q, BacQueryOptions()), "query") == JObj(q);
    if search.Some? {
      assert q["properties.Nom"] == JObj(map["$regex" := JStr(search.value), "$options" := JStr("i")]);
    } else {
      assert "properties.Nom" !in q && "$or" !in q;
    }
  }

  /**
   * The bac search: always scoped to the owner and to point geometries; filtered on
   * `properties.Nom` with the untrimmed term exactly when the term is not blank.
   */
  lemma BacSearch(owner: Json, term: string)
    ensures var q := Prop(BacQueryBody(owner, term), "query");
      Prop(q, "_company_owner") == owner && Prop(q, "geometry.type") == JStr("Point")
    ensures FilterTerm(BacQueryBody(owner, term), "properties.Nom") == if HasSearchTerm(term) then Some(term) else None
  {
    BacFilterReadBack(owner, SearchTerm(term));
  }

  /** Whether a term searches does not depend on surrounding whitespace, but the term is sent as typed. */
  lemma {:induction false} PaddedTermSearchesAsTyped(owner: Json, term: string)
    requires HasSearchTerm(term)
    ensures HasSearchTerm(" " + term)
    ensures FilterTerm(BacQueryBody(owner, " " + term), "properties.Nom") == Some(" " + term)
  {
    var padded := " " + term;
    if IsBlank(padded) {
      forall i | 0 <= i < |term| ensures IsWhitespace(term[i]) {
        assert term[i] == padded[i + 1];
      }
    }
    BacSearch(owner, padded);
  }

  // ---------------------------------------------------------------- the calls

  /**
   * The shape every authorised call shares: read the session (absent: throw before any
   * request); build the body, which can throw; send; a non-ok status throws `failMessage`;
   * decode the parsed body.
   */
  function Authorized<T>(auth: Option<AuthData>, url: string, build: AuthData -> Option<Json>,
                         reply: Reply<Json>, failMessage: string, decode: Json -> Outcome<T>): (r: Exchange<T>)
    ensures auth.None? ==> r == Exchange(None, Err(Thrown(NoAuthDataMessage)))
    ensures r.sent.Some? <==> auth.Some? && build(auth.value).Some?
    ensures r.sent.Some? ==> r.sent.value == Request(url, Some(auth.value.token), build(auth.value).value)
    ensures r.outcome.Ok? ==> r.sent.Some? && Receive(reply, failMessage).Ok? && r.outcome == decode(Receive(reply, failMessage).value)
  {
    if auth.None? then Exchange(None, Err(Thrown(NoAuthDataMessage)))
    else match build(auth.value)
      case None => Exchange(None, Err(TypeError))
      case Some(body) =>
        var req := Request(url, Some(auth.value.token), body);
        match Receive(reply, failMessage)
        case Err(f) => Exchange(Some(req), Err(f))
        case Ok(data) => Exchange(Some(req), decode(data))
  }

  function QueryUrl(path: string): string {
    ApiBaseUrl + path + "?limit=10&page=1"
  }

  /** `queryAssets`: the response's `result` as it came, or an empty list when it is falsy. */
  function QueryAssets(auth: Option<AuthData>, term: string, reply: Reply<Json>): Exchange<Json> {
    Authorized(auth, QueryUrl("/asset/query"),
               (a: AuthData) => match OwnerId(a) case None => None case Some(o) => Some(AssetQueryBody(o, term)),
               reply, "Failed to query assets", ResultOrEmpty)
  }

  /** `queryDrivers`: the response's `result` (or an empty list) mapped by the driver mapper. */
  function QueryDrivers(auth: Option<AuthData>, term: string, reply: Reply<Json>): Exchange<seq<Driver>> {
    Authorized(auth, QueryUrl("/driver/query"),
               (a: AuthData) => match OwnerId(a) case None => None case Some(o) => Some(DriverQueryBody(o, term)),
               reply, "Failed to query drivers",
               (data: Json) => match ResultOrEmpty(data) case Err(f) => Err(f) case Ok(list) => MapList(list, MapDriver))
  }

  /** `queryBacs`: the response's `result` (or an empty list) mapped by the bac mapper. */
  function QueryBacs(auth: Option<AuthData>, term: string, reply: Reply<Json>): Exchange<seq<Bac>> {
    Authorized(auth, QueryUrl("/geodata/query"),
               (a: AuthData) => match OwnerId(a) case None => None case Some(o) => Some(BacQueryBody(o, term)),
               reply, "Failed to query bacs",
               (data: Json) => match ResultOrEmpty(data) case Err(f) => Err(f) case Ok(list) => MapList(list, MapBac))
  }

  /** `queryForms`: no owner scope; the response's `result` as it came, or an empty list. */
  function QueryForms(auth: Option<AuthData>, limit: int, page: int, reply: Reply<Json>): Exchange<Json> {
    Authorized(auth, ApiBaseUrl + "/form/query?limit=" + IntToString(limit) + "&page=" + IntToString(page),
               (a: AuthData) => Some(FormQueryBody()), reply, "Failed to query forms", ResultOrEmpty)
  }

  /** The title deletion of `saveFormData`: exactly the title key goes, every other key keeps its value. */
  function StripTitle(formData: Payload): (r: Payload)
    ensures "title" !in r
    ensures forall k :: k != "title" ==> (k in r <==> k in formData) && (k in r ==> r[k] == formData[k])
  {
    formData - {"title"}
  }

  /** Stripping is idempotent, and a payload without a title is left as it is. */
  lemma StripTitleIdempotent(formData: Payload)
    ensures StripTitle(StripTitle(formData)) == StripTitle(formData)
    ensures "title" !in formData ==> StripTitle(formData) == formData
  {
  }

  /**
   * `saveFormData(formData)`: the argument object after the call (its title deleted first,
   * before the session is even read) and the exchange, which sends the stripped object.
   */
  function SaveFormData(auth: Option<AuthData>, formData: Payload, reply: Reply<Json>): (r: (Payload, Exchange<Json>))
    ensures r.0 == StripTitle(formData)
    ensures r.1.sent.Some? ==> r.1.sent.value.body == JObj(r.0)
  {
    var stripped := StripTitle(formData);
    (stripped, Authorized(auth, ApiBaseUrl + "/form_data/", (a: AuthData) => Some(JObj(stripped)),
                          reply, "Failed to save form data", (data: Json) => Ok(data)))
  }

  /** Every authorised call throws "No auth data found" without sending anything when no session is stored. */
  lemma NoRequestWithoutAuth(term: string, formData: Payload, limit: int, page: int, reply: Reply<Json>)
    ensures QueryAssets(None, term, reply) == Exchange(None, Err(Thrown(NoAuthDataMessage)))
    ensures QueryDrivers(None, term, reply) == Exchange(None, Err(Thrown(NoAuthDataMessage)))
    ensures QueryBacs(None, term, reply) == Exchange(None, Err(Thrown(NoAuthDataMessage)))
    ensures SaveFormData(None, formData, reply).1 == Exchange(None, Err(Thrown(NoAuthDataMessage)))
    ensures QueryForms(None, limit, page, reply) == Exchange(None, Err(Thrown(NoAuthDataMessage)))
  {
  }

  /** A session whose user has no company owner makes the three searches throw a TypeError before sending. */
  lemma SearchWithoutOwnerThrows(auth: AuthData, term: string, reply: Reply<Json>)
    requires auth.user.companyOwner.JNull? || auth.user.companyOwner.JUndef?
    ensures QueryAssets(Some(auth), term, reply) == Exchange(None, Err(TypeError))
    ensures QueryDrivers(Some(auth), term, reply) == Exchange(None, Err(TypeError))
    ensures QueryBacs(Some(auth), term, reply) == Exchange(None, Err(TypeError))
  {
  }

  /** With a session, a non-ok answer throws the call's message; an ok one yields `result`, or [] when it is falsy. */
  lemma QueryAssetsOutcome(auth: AuthData, term: string, reply: Reply<Json>)
    requires OwnerId(auth).Some?
    ensures QueryAssets(Some(auth), term, reply).sent ==
      Some(Request(QueryUrl("/asset/query"), Some(auth.token), AssetQueryBody(OwnerId(auth).value, term)))
    ensures reply.Response? && !reply.ok ==> QueryAssets(Some(auth), term, reply).outcome == Err(Thrown("Failed to query assets"))
    ensures reply == Response(true, Some(JObj(map[]))) ==> QueryAssets(Some(auth), term, reply).outcome == Ok(JArr([]))
  {
    if reply == Response(true, Some(JObj(map[]))) {
      assert Receive(reply, "Failed to query assets") == Ok(JObj(map[]));
      assert ResultOrEmpty(JObj(map[])) == Ok(JArr([]));
    }
  }

  // ---------------------------------------------------------------- login and logout

  function LoginBody(credentials: LoginRequest): Json {
    JObj(map["login" := JStr(credentials.login), "password" := JStr(credentials.password)])
  }

  /** `apiService.login`: on an ok reply with `success`, the session is stored (a failed write is swallowed). */
  method Login(storage: DeviceStorage, credentials: LoginRequest, reply: Reply<LoginResponse>, writeFails: bool)
    returns (sent: Request, outcome: Outcome<LoginResponse>)
    modifies storage`authData
    ensures sent == Request(ApiBaseUrl + "/login", None, LoginBody(credentials))
    ensures outcome == Receive(reply, "Login failed")
    ensures storage.authData ==
      if outcome.Ok? && outcome.value.success && !writeFails then Some(outcome.value.result) else old(storage.authData)
  {
    sent := Request(ApiBaseUrl + "/login", None, LoginBody(credentials));
    outcome := Receive(reply, "Login failed");
    if outcome.Ok? && outcome.value.success {
      SetAuthData(storage, outcome.value.result, writeFails);
    }
  }

  /** `apiService.logout`: needs a session; on an ok reply with `success`, the session is removed. */
  method Logout(storage: DeviceStorage, request: LogoutRequest, readFails: bool, reply: Reply<LogoutResponse>, removeFails: bool)
    returns (sent: Option<Request>, outcome: Outcome<LogoutResponse>)
    modifies storage`authData
    ensures var auth := GetAuthData(old(storage.authData), readFails);
      (auth.None? ==> sent.None? && outcome == Err(Thrown(NoAuthDataMessage)))
      && (auth.Some? ==> sent == Some(Request(ApiBaseUrl + "/logout", Some(auth.value.token), JObj(map["id" := JStr(request.id)])))
                         && outcome == Receive(reply, "Logout failed"))
    ensures storage.authData ==
      if outcome.Ok? && outcome.value.success && !removeFails then None else old(storage.authData)
  {
    var auth := GetAuthData(storage.authData, readFails);
    if auth.None? {
      sent, outcome := None, Err(Thrown(NoAuthDataMessage));
    } else {
      sent := Some(Request(ApiBaseUrl + "/logout", Some(auth.value.token), JObj(map["id" := JStr(request.id)])));
      outcome := Receive(reply, "Logout failed");
      if outcome.Ok? && outcome.value.success {
        RemoveAuthData(storage, removeFails);
      }
    }
  }

  /** Logging in stores the session that `getAuthData` then returns. */
  method LoginThenGet(storage: DeviceStorage, credentials: LoginRequest, response: LoginResponse)
    returns (auth: Option<AuthData>)
    requires response.success
    modifies storage`authData
    ensures auth == Some(response.result)
  {
    var sent, outcome := Login(storage, credentials, Response(true, Some(response)), false);
    auth := GetAuthData(storage.authData, false);
  }
}
