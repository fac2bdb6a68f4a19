/** The two claim endpoints as decisions: from the snapshot (present or
    not), the request parameters and the query engine's answer to the
    status code and the kind of JSON body written back. */
module Api {
  import opened Wrappers
  import opened RegistryTypes
  import opened Registry

  const StatusOK := 200
  const StatusNotFound := 404
  const StatusServiceUnavailable := 503

  const JsonContentType := "application/json"
  const ListAPIVersion := "claim-registry.io/v1alpha1"
  const ListKind := "ClaimList"
  const NotLoadedMessage := "registry not yet loaded"
  const NotFoundMessage := "claim not found"

  /** The envelope of the list endpoint. */
  datatype ClaimListResponse = ClaimListResponse(apiVersion: string, kind: string, items: seq<ClaimEntry>)

  /** The JSON object written: `{"error": ...}`, one entry, or the list envelope. */
  datatype Body = ErrorBody(error: string) | EntryBody(entry: ClaimEntry) | ListBody(list: ClaimListResponse)

  /** What a handler writes: its Content-Type header, status and body. */
  datatype Reply = Reply(contentType: string, status: int, body: Body)

  /** A URL's query parameters: each key with its values in order. */
  type QueryValues = map<string, seq<string>>

  /** The first value of a parameter, or "" when it is missing. */
  function QueryGet(query: QueryValues, key: string): (v: string)
    ensures key in query && |query[key]| > 0 ==> v == query[key][0]
    ensures v != "" ==> key in query && |query[key]| > 0
  {
    if key in query && |query[key]| > 0 then query[key][0] else ""
  }

  /** The filter criteria listClaims reads from its query parameters: each
      the first value given, and a missing parameter a wildcard. */
  function CriteriaOf(query: QueryValues): (q: Query)
    ensures "category" !in query ==> q.category == ""
    ensures "template" !in query ==> q.template == ""
    ensures "status" !in query ==> q.status == ""
    ensures "source" !in query ==> q.source == ""
    ensures "category" in query && |query["category"]| > 0 ==> q.category == query["category"][0]
    ensures "template" in query && |query["template"]| > 0 ==> q.template == query["template"][0]
    ensures "status" in query && |query["status"]| > 0 ==> q.status == query["status"][0]
    ensures "source" in query && |query["source"]| > 0 ==> q.source == query["source"][0]
  {
    Query(QueryGet(query, "category"), QueryGet(query, "template"),
          QueryGet(query, "status"), QueryGet(query, "source"))
  }

  /** The `{name}` route variable; a missing one reads as "". */
  function RouteName(vars: map<string, string>): (name: string)
    ensures "name" in vars ==> name == vars["name"]
    ensures "name" !in vars ==> name == ""
  {
    if "name" in vars then vars["name"] else ""
  }

  /** listClaims: 503 until a snapshot exists; otherwise 200 with the
      filtered claims in a fixed envelope, whatever the document's own tags. */
  function ListClaims(snapshot: Option<ClaimRegistry>, query: QueryValues): (r: Reply)
    ensures r.contentType == JsonContentType
    ensures snapshot.None? ==> r.status == StatusServiceUnavailable && r.body == ErrorBody(NotLoadedMessage)
    ensures snapshot.Some? ==> r.status == StatusOK && r.body.ListBody?
    ensures r.body.ListBody? ==>
      && r.body.list.apiVersion == ListAPIVersion
      && r.body.list.kind == ListKind
      && snapshot.Some?
      && r.body.list.items == Filter(snapshot.value.claims, CriteriaOf(query))
  {
    match snapshot
    case None => Reply(JsonContentType, StatusServiceUnavailable, ErrorBody(NotLoadedMessage))
    case Some(reg) =>
      var items := Filter(reg.claims, CriteriaOf(query));
      Reply(JsonContentType, StatusOK, ListBody(ClaimListResponse(ListAPIVersion, ListKind, items)))
  }

  /** getClaim: 503 until a snapshot exists; 404 when no claim has the name;
      otherwise 200 with the first claim of that name. */
  function GetClaim(snapshot: Option<ClaimRegistry>, vars: map<string, string>): (r: Reply)
    ensures r.contentType == JsonContentType
    ensures snapshot.None? ==> r.status == StatusServiceUnavailable && r.body == ErrorBody(NotLoadedMessage)
    ensures r.status == StatusNotFound <==>
      snapshot.Some? && forall i :: 0 <= i < |snapshot.value.claims| ==> snapshot.value.claims[i].name != RouteName(vars)
    ensures r.status == StatusNotFound ==> r.body == ErrorBody(NotFoundMessage)
    ensures r.status == StatusOK ==>
      && snapshot.Some? && r.body.EntryBody?
      && exists i :: IsFirstMatch(snapshot.value.claims, RouteName(vars), i) && r.body.entry == snapshot.value.claims[i]
    ensures r.status == StatusServiceUnavailable <==> snapshot.None?
    ensures snapshot.Some? && FirstMatch(snapshot.value.claims, RouteName(vars)).Some? ==>
      var i := FirstMatch(snapshot.value.claims, RouteName(vars)).value;
      r == Reply(JsonContentType, StatusOK, EntryBody(snapshot.value.claims[i]))
    ensures r.status in {StatusOK, StatusNotFound, StatusServiceUnavailable}
  {
    match snapshot
    case None => Reply(JsonContentType, StatusServiceUnavailable, ErrorBody(NotLoadedMessage))
    case Some(reg) =>
      match FirstMatch(reg.claims, RouteName(vars))
      case None => Reply(JsonContentType, StatusNotFound, ErrorBody(NotFoundMessage))
      case Some(i) => Reply(JsonContentType, StatusOK, EntryBody(reg.claims[i]))
  }

  /** Before the first successful sync the answer does not depend on the
      request: no lookup or filter takes place. */
  lemma NotLoadedIgnoresRequest(q1: QueryValues, q2: QueryValues, v1: map<string, string>, v2: map<string, string>)
    ensures ListClaims(None, q1) == ListClaims(None, q2)
    ensures GetClaim(None, v1) == GetClaim(None, v2)
  {
  }

  /** The list envelope ignores the document's own apiVersion and kind. */
  lemma ListEnvelopeIgnoresDocumentTags(d1: ClaimRegistry, d2: ClaimRegistry, query: QueryValues)
    requires d1.claims == d2.claims
    ensures ListClaims(Some(d1), query) == ListClaims(Some(d2), query)
  {
  }

  /** A request with none of the four parameters lists every claim in order. */
  lemma MissingParametersListEverything(reg: ClaimRegistry, query: QueryValues)
    requires "category" !in query && "template" !in query && "status" !in query && "source" !in query
    ensures ListClaims(Some(reg), query).body.list.items == reg.claims
  {
    FilterEverything(reg.claims);
  }

  /** A loaded registry with no matching claim still answers 200, with an
      empty (never null) item list. */
  lemma NoMatchIsEmptyList(reg: ClaimRegistry, query: QueryValues)
    requires forall i :: 0 <= i < |reg.claims| ==> !Matches(reg.claims[i], CriteriaOf(query))
    ensures ListClaims(Some(reg), query).status == StatusOK
    ensures ListClaims(Some(reg), query).body.list.items == []
  {
    FilterNoMatch(reg.claims, CriteriaOf(query));
  }
}
