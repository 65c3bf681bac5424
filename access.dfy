/** The client side: an instance's configuration, the request URL built from
    it, and what `bugs`, `bug` and `search` make of the server's reply. The
    HTTP transport is a parameter, `Server`, from the request sent to the
    JSON body received or a transport failure. */
module Access {
  import opened Results
  import opened Json
  import opened Text
  import opened BugModel

  // ---------------------------------------------------------------------------
  // Authentication

  /** How the client authenticates. */
  datatype Auth = Anonymous | ApiKey(key: string) | Basic(user: string, password: string)

  /** What a request carries to authenticate: no credentials, an
      `Authorization` header value, or a user and password that the transport
      encodes for HTTP basic authentication. */
  datatype Authorization =
    | NoAuthorization
    | Header(value: string)
    | BasicAuth(user: string, password: string)

  /** An API key travels as a bearer token (section 2.1 of RFC 6750). */
  function AuthorizationFor(auth: Auth): (a: Authorization)
    ensures auth.Anonymous? <==> a.NoAuthorization?
    ensures auth.ApiKey? <==> a.Header?
    ensures auth.ApiKey? ==> |a.value| >= 7 && a.value[..7] == "Bearer " && a.value[7..] == auth.key
    ensures auth.Basic? ==> a.BasicAuth? && a.user == auth.user && a.password == auth.password
  {
    match auth
    case Anonymous => NoAuthorization
    case ApiKey(key) => Header("Bearer " + key)
    case Basic(user, password) => BasicAuth(user, password)
  }

  // ---------------------------------------------------------------------------
  // Pagination

  /** The upper limit on the number of bugs in a reply: the instance's own
      default, an explicit limit, or none (`limit=0`). */
  datatype Pagination = Default | Limit(n: u32) | Unlimited {

    function UrlFragment(): (fragment: string)
      ensures fragment == "" <==> this.Default?
      ensures !this.Default? ==> |fragment| > 7 && fragment[..7] == "&limit=" && AllDigits(fragment[7..])
      ensures !this.Default? ==> (fragment[7] == '0' ==> fragment[7..] == "0")
      ensures this.Unlimited? ==> fragment == "&limit=0"
    {
      match this
      case Default => ""
      case Limit(n) => "&limit=" + Decimal(n as nat)
      case Unlimited => "&limit=0"
    }
  }

  /** The `limit` a server reads from a pagination fragment: none, or the
      decimal number after `&limit=` (where 0 means no upper limit). */
  function ReadLimit(fragment: string): Option<nat>
  {
    if |fragment| >= 7 && fragment[..7] == "&limit=" && AllDigits(fragment[7..])
    then Some(ParseDecimal(fragment[7..]))
    else Option.None
  }

  /** Each pagination mode reaches the server as the limit it stands for. */
  lemma PaginationLimit(p: Pagination)
    ensures p.Default? ==> p.UrlFragment() == "" && ReadLimit(p.UrlFragment()) == Option.None
    ensures p.Limit? ==> ReadLimit(p.UrlFragment()) == Some(p.n as nat)
    ensures p.Unlimited? ==> ReadLimit(p.UrlFragment()) == Some(0)
  {
    if p.Limit? {
      var fragment := p.UrlFragment();
      assert fragment[7..] == Decimal(p.n as nat);
      ParseDecimalOfDecimal(p.n as nat);
    } else if p.Unlimited? {
      assert p.UrlFragment()[7..] == "0" == Decimal(0);
      ParseDecimalOfDecimal(0);
    }
  }

  /** `Unlimited` and `Limit(0)` send the same request. */
  lemma UnlimitedIsLimitZero()
    ensures Unlimited.UrlFragment() == Limit(0).UrlFragment()
  {
  }

  // ---------------------------------------------------------------------------
  // Request method

  /** Either specific bug IDs or a free-form search query, passed as is. */
  datatype Method = Ids(ids: seq<string>) | Search(query: string) {

    function UrlFragment(): (fragment: string)
      ensures this.Ids? ==> |fragment| >= 3 && fragment[..3] == "id="
      ensures this.Search? ==> fragment == query
    {
      match this
      case Ids(ids) => "id=" + Join(ids, ',')
      case Search(query) => query
    }
  }

  /** The `id` parameter lists the requested IDs in the caller's order. */
  lemma IdsParameter(ids: seq<string>)
    requires ids != []
    requires forall i :: 0 <= i < |ids| ==> ',' !in ids[i]
    ensures var fragment := Ids(ids).UrlFragment();
      |fragment| >= 3 && fragment[..3] == "id=" && Split(fragment[3..], ',') == ids
  {
    var fragment := Ids(ids).UrlFragment();
    assert fragment[3..] == Join(ids, ',');
    SplitJoin(ids, ',');
  }

  // ---------------------------------------------------------------------------
  // Requests and replies

  /** An authenticated GET of `url`. */
  datatype Request = Request(url: string, authorization: Authorization)

  /** The transport: for each request, the parsed JSON body of the reply or a
      transport failure (connection, TLS, a body that is not JSON). The HTTP
      status is not checked: an error status with a JSON body reaches the
      decoder like any other reply. */
  type Server = Request -> Result<Value, string>

  datatype Failure = Transport(message: string) | Decode(error: DecodeError)

  /** The errors a query reports. `MissingBugs` is declared by the library
      but no query produces it. */
  datatype QueryError = MissingBugs(ids: seq<string>) | NoBugs | Rest(failure: Failure)

  /** The reply to a query, decoded into a `Response` and checked: failures
      pass through, and a reply without bugs is the `NoBugs` error rather than
      an empty success. */
  function Received(reply: Result<Value, string>): (r: Result<seq<Bug>, QueryError>)
    ensures r.Ok? ==> r.value != []
    ensures r.Ok? <==>
      reply.Ok? && DecodeResponse(reply.value).Ok? && DecodeResponse(reply.value).value.bugs != []
    ensures r.Ok? ==> r.value == DecodeResponse(reply.value).value.bugs
    ensures r == Err(NoBugs) <==>
      reply.Ok? && DecodeResponse(reply.value).Ok? && DecodeResponse(reply.value).value.bugs == []
    ensures reply.Err? ==> r == Err(Rest(Transport(reply.error)))
    ensures reply.Ok? && DecodeResponse(reply.value).Err? ==>
      r == Err(Rest(Decode(DecodeResponse(reply.value).error)))
  {
    match reply
    case Err(message) => Err(Rest(Transport(message)))
    case Ok(body) =>
      match DecodeResponse(body)
      case Err(error) => Err(Rest(Decode(error)))
      case Ok(response) => if response.bugs == [] then Err(NoBugs) else Ok(response.bugs)
  }

  /** Bugzilla's error report, `{"error": true, "code": ..., "message": ...}`. */
  function ErrorReport(code: int, message: string): Value
  {
    Object(map["error" := Bool(true), "code" := Number(code), "message" := Str(message)])
  }

  /** The client does not check the HTTP status, so an error report from the
      server fails to decode as a reply: it has no `bugs`. */
  lemma ErrorReportIsDecodeFailure(code: int, message: string)
    ensures Received(Ok(ErrorReport(code, message))) == Err(Rest(Decode(MissingField("bugs"))))
  {
    var fields := ErrorReport(code, message).fields;
    assert "offset" !in fields && "limit" !in fields && "total_matches" !in fields;
    assert "bugs" !in fields;
  }

  /** The first bug of a list, or `NoBugs` for an empty one. */
  function First(bugs: seq<Bug>): (r: Result<Bug, QueryError>)
    ensures r.Ok? <==> bugs != []
    ensures r.Ok? ==> r.value == bugs[0]
    ensures r.Err? ==> r.error == NoBugs
  {
    if bugs == [] then Err(NoBugs) else Ok(bugs[0])
  }

  /** A query parameter after the first, with its `&` separator: splitting
      the query at `&` yields it as one more parameter. */
  lemma {:induction false} SplitAfterParameter(query: string, parameter: string)
    requires '&' !in parameter
    ensures Split(query + "&" + parameter, '&') == Split(query, '&') + [parameter]
  {
    SplitAround(query, '&', parameter);
    SplitWithout(parameter, '&');
  }

  // ---------------------------------------------------------------------------
  // The instance

  /** The configuration and credentials for one Bugzilla instance. */
  class BzInstance {
    var host: string
    var auth: Auth
    var pagination: Pagination
    var includedFields: seq<string>

    /** A client for `host`, anonymous, with the instance's default paging
        and its default field set `_default`. */
    constructor At(host: string)
      ensures this.host == host
      ensures auth == Anonymous && pagination == Default && includedFields == ["_default"]
    {
      this.host := host;
      auth := Anonymous;
      pagination := Default;
      includedFields := ["_default"];
    }

    method Authenticate(auth: Auth)
      modifies this
      ensures this.auth == auth
      ensures host == old(host) && pagination == old(pagination) && includedFields == old(includedFields)
    {
      this.auth := auth;
    }

    method Paginate(pagination: Pagination)
      modifies this
      ensures this.pagination == pagination
      ensures host == old(host) && auth == old(auth) && includedFields == old(includedFields)
    {
      this.pagination := pagination;
    }

    /** Replaces the requested fields; it does not add to them. */
    method IncludeFields(fields: seq<string>)
      modifies this
      ensures includedFields == fields
      ensures host == old(host) && auth == old(auth) && pagination == old(pagination)
    {
      includedFields := fields;
    }

    /** The `include_fields` parameter, left out when no field is requested. */
    function FieldsAsQuery(): (query: string)
      reads this
      ensures query == "" <==> includedFields == []
    {
      if includedFields == [] then "" else "&include_fields=" + Join(includedFields, ',')
    }

    /** The absolute URL of a request: the host, the REST endpoint, then the
        method, field and pagination parameters in that order. */
    function Path(m: Method): (url: string)
      reads this
      ensures |url| >= |host| + 10 && url[..|host| + 10] == host + "/rest/bug?"
      ensures m.Search? ==>
        |url| >= |host| + 10 + |m.query| && url[|host| + 10..|host| + 10 + |m.query|] == m.query
    {
      var prefix, query := host + "/rest/bug?", m.UrlFragment() + FieldsAsQuery() + pagination.UrlFragment();
      assert (prefix + query)[..|prefix|] == prefix;
      assert m.Search? ==> (prefix + query)[|prefix|..|prefix| + |m.query|] == query[..|m.query|] == m.query;
      prefix + query
    }

    /** The request `authenticated_get` sends for `url`. */
    function AuthenticatedGet(url: string): (request: Request)
      reads this
      ensures request.url == url
      ensures auth.Anonymous? ==> request.authorization == NoAuthorization
      ensures auth.ApiKey? ==> request.authorization == Header("Bearer " + auth.key)
      ensures auth.Basic? ==> request.authorization == BasicAuth(auth.user, auth.password)
    {
      Request(url, AuthorizationFor(auth))
    }

    /** Several bugs by ID. No ID means no request and no bugs; otherwise one
        request, and the reply's bugs in the server's order. */
    method Bugs(ids: seq<string>, server: Server) returns (r: Result<seq<BugModel.Bug>, QueryError>)
      ensures ids == [] ==> r == Ok([])
      ensures ids != [] ==> r == Received(server(AuthenticatedGet(Path(Ids(ids)))))
    {
      if |ids| == 0 {
        return Ok([]);
      }
      var url := Path(Ids(ids));
      var reply := server(AuthenticatedGet(url));
      r := Received(reply);
    }

    /** One bug by ID: the first bug of the one-ID query, so never a success
        on an empty reply. */
    method Bug(id: string, server: Server) returns (r: Result<BugModel.Bug, QueryError>)
      ensures var got := Received(server(AuthenticatedGet(Path(Ids([id])))));
        && (r.Ok? <==> got.Ok?)
        && (r.Ok? ==> r.value == got.value[0])
        && (r.Err? ==> r.error == got.error)
    {
      var bugs :- Bugs([id], server);
      r := First(bugs);
    }

    /** Bugs by a free-form query, with no shortcut for an empty query. */
    method Search(query: string, server: Server) returns (r: Result<seq<BugModel.Bug>, QueryError>)
      ensures r == Received(server(AuthenticatedGet(Path(Method.Search(query)))))
    {
      var url := Path(Method.Search(query));
      var reply := server(AuthenticatedGet(url));
      r := Received(reply);
    }
  }

  /** The requested fields are listed in the `include_fields` parameter in
      the configured order. */
  lemma IncludeFieldsParameter(instance: BzInstance)
    requires instance.includedFields != []
    requires forall i :: 0 <= i < |instance.includedFields| ==> ',' !in instance.includedFields[i]
    ensures var query := instance.FieldsAsQuery();
      |query| >= 16 && query[..16] == "&include_fields=" &&
      Split(query[16..], ',') == instance.includedFields
  {
    var query := instance.FieldsAsQuery();
    assert query[16..] == Join(instance.includedFields, ',');
    SplitJoin(instance.includedFields, ',');
  }

  /** The parameters the field selection adds to a query. */
  function FieldParameters(fields: seq<string>): seq<string>
  {
    if fields == [] then [] else ["include_fields=" + Join(fields, ',')]
  }

  /** The parameters a pagination mode adds to a query. */
  function LimitParameters(pagination: Pagination): seq<string>
  {
    match pagination
    case Default => []
    case Limit(n) => ["limit=" + Decimal(n as nat)]
    case Unlimited => ["limit=0"]
  }

  lemma FieldsFragmentParameters(instance: BzInstance, query: string)
    requires forall i :: 0 <= i < |instance.includedFields| ==> '&' !in instance.includedFields[i]
    ensures Split(query + instance.FieldsAsQuery(), '&') == Split(query, '&') + FieldParameters(instance.includedFields)
  {
    var fields := instance.includedFields;
    if fields == [] {
      assert query + instance.FieldsAsQuery() == query;
    } else {
      var parameter := "include_fields=" + Join(fields, ',');
      JoinAvoids(fields, ',', '&');
      assert '&' !in "include_fields=";
      assert '&' !in parameter;
      assert query + instance.FieldsAsQuery() == query + "&" + parameter;
      SplitAfterParameter(query, parameter);
    }
  }

  lemma PaginationFragmentParameters(pagination: Pagination, query: string)
    ensures Split(query + pagination.UrlFragment(), '&') == Split(query, '&') + LimitParameters(pagination)
  {
    match pagination
    case Default =>
      assert query + pagination.UrlFragment() == query;
    case Limit(n) =>
      LimitFragmentParameter(n, query);
    case Unlimited =>
      UnlimitedFragmentParameter(query);
  }

  lemma UnlimitedFragmentParameter(query: string)
    ensures Split(query + Unlimited.UrlFragment(), '&') == Split(query, '&') + ["limit=0"]
  {
    assert query + Unlimited.UrlFragment() == query + "&" + "limit=0";
    SplitAfterParameter(query, "limit=0");
  }

  lemma LimitFragmentParameter(n: u32, query: string)
    ensures Split(query + Limit(n).UrlFragment(), '&') == Split(query, '&') + ["limit=" + Decimal(n as nat)]
  {
    var digits := Decimal(n as nat);
    var parameter := "limit=" + digits;
    assert '&' !in parameter by {
      assert forall i :: 0 <= i < |digits| ==> IsDigit(digits[i]);
      assert '&' !in "limit=";
    }
    assert query + Limit(n).UrlFragment() == query + "&" + parameter;
    SplitAfterParameter(query, parameter);
  }

  /** Split at `&`, the query part of a request URL is the method's own
      parameters followed by `include_fields` (when fields are requested) and
      `limit` (unless the pagination is the default). */
  lemma PathParameters(instance: BzInstance, m: Method)
    requires forall i :: 0 <= i < |instance.includedFields| ==> '&' !in instance.includedFields[i]
    ensures var url := instance.Path(m);
      Split(url[|instance.host| + 10..], '&') ==
        Split(m.UrlFragment(), '&') + FieldParameters(instance.includedFields) + LimitParameters(instance.pagination)
  {
    var prefix, methodPart := instance.host + "/rest/bug?", m.UrlFragment();
    var withFields := methodPart + instance.FieldsAsQuery();
    var query := withFields + instance.pagination.UrlFragment();
    assert instance.Path(m)[|instance.host| + 10..] == query by {
      assert instance.Path(m) == prefix + query;
      assert |prefix| == |instance.host| + 10;
    }
    assert Split(withFields, '&') == Split(methodPart, '&') + FieldParameters(instance.includedFields) by {
      FieldsFragmentParameters(instance, methodPart);
    }
    assert Split(query, '&') == Split(withFields, '&') + LimitParameters(instance.pagination) by {
      PaginationFragmentParameters(instance.pagination, withFields);
    }
  }
}
