/**
 * router.py: a `Router` holds a base URL, trimmed of trailing slashes, and a
 * table from entity kind to endpoint path; `post` sends a whole batch to
 * base URL + endpoint in one request.
 */
module Routing {
  import opened Wrappers
  import opened Exceptions
  import opened Text
  import opened Entities
  import EnumNames
  import Http

  datatype Router = Router(baseUrl: string, endpoints: map<Entity, string>)

  /** The rows of the endpoint table as written, each naming its enum member. */
  const EndpointRows: seq<(string, string)> := [
    ("CREDITCARD", "/creditcards"), ("EMPLOYEE", "/employees"), ("FLIGHT", "/flights"),
    ("PASSENGER", "/passengers"), ("PLANE", "/planes"), ("USER", "/users")]

  /** `Entity.<name>`: attribute access on the enum class. */
  function Attribute(name: string): (r: Result<Entity, Error>)
    ensures r.Ok? ==> Name(r.value) == name
    ensures r.Err? ==> r.error == AttributeError(name)
    ensures r.Err? ==> forall e: Entity :: Name(e) != name
  {
    MembersWellNamed();
    match EnumNames.Lookup(name, Members, Name)
    case Some(e) => Ok(e)
    case None => Err(AttributeError(name))
  }

  /**
   * Evaluating the dict display left to right: every row's key is looked up
   * in turn, and the first row that names no member raises.
   */
  function ResolveRows(rows: seq<(string, string)>, table: map<Entity, string>): (r: Result<map<Entity, string>, Error>)
    ensures r.Ok? <==> forall i :: 0 <= i < |rows| ==> Attribute(rows[i].0).Ok?
    ensures r.Err? ==> exists i :: 0 <= i < |rows| && r.error == AttributeError(rows[i].0)
                               && Attribute(rows[i].0).Err? && forall j :: 0 <= j < i ==> Attribute(rows[j].0).Ok?
    ensures r.Ok? ==> table.Keys <= r.value.Keys
  {
    if rows == [] then Ok(table)
    else
      match Attribute(rows[0].0)
      case Err(e) => Err(e)
      case Ok(k) => ResolveRows(rows[1..], table[k := rows[0].1])
  }

  /**
   * `Router(base_url)` as the code is written: `base_url` is trimmed, then the
   * endpoint table's first key, `Entity.CREDITCARD`, is looked up.
   */
  function NewRouterAsWritten(baseUrl: string): (r: Result<Router, Error>)
    ensures r.Ok? <==> forall i :: 0 <= i < |EndpointRows| ==> Attribute(EndpointRows[i].0).Ok?
    ensures r.Ok? ==> r.value.baseUrl == RStrip(baseUrl, '/')
    ensures r.Err? ==> r.error.AttributeError?
  {
    var trimmed := RStrip(baseUrl, '/');
    match ResolveRows(EndpointRows, map[])
    case Err(e) => Err(e)
    case Ok(table) => Ok(Router(trimmed, table))
  }

  /** The enumeration declares no `CREDITCARD`, so constructing a router always raises. */
  lemma RouterAsWrittenRaises(baseUrl: string)
    ensures NewRouterAsWritten(baseUrl) == Err(AttributeError("CREDITCARD"))
  {
    CreditcardUndeclared();
    assert EndpointRows[0].0 == "CREDITCARD";
  }

  /** `Entity.CREDITCARD` raises: no member has that name. */
  lemma CreditcardUndeclared()
    ensures Attribute("CREDITCARD") == Err(AttributeError("CREDITCARD"))
  {
    forall e: Entity ensures Name(e) != "CREDITCARD" {
      assert |Name(e)| < 10;
    }
  }

  /** The endpoint table over the members the enumeration declares. */
  const Endpoints: map<Entity, string> := map[
    Employee := "/employees", Flight := "/flights", Passenger := "/passengers",
    Plane := "/planes", User := "/users"]

  /**
   * The table is the written one without its dangling first row: the other
   * five rows, in order, are the routed members' names and paths.
   */
  lemma EndpointsAreDeclaredRows()
    ensures EndpointRows[1..] == [
      (Name(Employee), Endpoints[Employee]), (Name(Flight), Endpoints[Flight]),
      (Name(Passenger), Endpoints[Passenger]), (Name(Plane), Endpoints[Plane]),
      (Name(User), Endpoints[User])]
    ensures forall e: Entity :: Name(e) != EndpointRows[0].0
  {
    forall e: Entity ensures Name(e) != EndpointRows[0].0 {
      assert |Name(e)| < |EndpointRows[0].0|;
    }
  }

  /** The written table: six rows, each path a single '/' and a word, no two paths alike. */
  lemma EndpointRowPaths()
    ensures |EndpointRows| == 6
    ensures forall i :: 0 <= i < |EndpointRows| ==>
      |EndpointRows[i].1| >= 2 && EndpointRows[i].1[0] == '/' && EndpointRows[i].1[1] != '/'
    ensures forall i, j :: 0 <= i < j < |EndpointRows| ==> EndpointRows[i].1 != EndpointRows[j].1
  {
    forall i, j | 0 <= i < j < |EndpointRows| ensures EndpointRows[i].1 != EndpointRows[j].1 {
      assert |EndpointRows[i].1| != |EndpointRows[j].1|;
    }
  }

  /** Every routed path starts with a single '/', and no two kinds share one. */
  lemma EndpointPaths()
    ensures Endpoints.Keys == {Employee, Flight, Passenger, Plane, User}
    ensures forall e :: e in Endpoints ==> |Endpoints[e]| >= 2 && Endpoints[e][0] == '/' && Endpoints[e][1] != '/'
    ensures forall a, b :: a in Endpoints && b in Endpoints && a != b ==> Endpoints[a] != Endpoints[b]
  {
    forall a, b | a in Endpoints && b in Endpoints && a != b ensures Endpoints[a] != Endpoints[b] {
      assert |Endpoints[a]| != |Endpoints[b]|;
    }
  }

  /** `Router(base_url)` with the table over the declared members. */
  function NewRouter(baseUrl: string): (r: Router)
    ensures r.baseUrl <= baseUrl
    ensures r.baseUrl == [] || r.baseUrl[|r.baseUrl| - 1] != '/'
    ensures forall i :: |r.baseUrl| <= i < |baseUrl| ==> baseUrl[i] == '/'
    ensures r.endpoints == Endpoints
  {
    Router(RStrip(baseUrl, '/'), Endpoints)
  }

  /** Trimming is complete the first time: a router built from a stored base URL stores the same one. */
  lemma NewRouterIdempotent(baseUrl: string)
    ensures NewRouter(NewRouter(baseUrl).baseUrl) == NewRouter(baseUrl)
  {
    RStripIdempotent(baseUrl, '/');
  }

  /** The request `post` sends: `json=data`, `params={'batch': 'true'}`. */
  datatype Request = Request(url: string, body: seq<Record>, params: map<string, string>)

  /** The lookup and URL building of `post`, before anything is sent. */
  function BuildRequest(router: Router, kind: Entity, data: seq<Record>): (r: Result<Request, Error>)
    ensures r.Ok? <==> kind in router.endpoints
    ensures r.Ok? ==> r.value.url == router.baseUrl + router.endpoints[kind]
    ensures r.Ok? ==> r.value.body == data && r.value.params == map["batch" := "true"]
    ensures r.Err? ==> r.error == ValueError("No endpoint found for entity: " + Name(kind))
  {
    if kind !in router.endpoints then Err(ValueError("No endpoint found for entity: " + Name(kind)))
    else Ok(Request(router.baseUrl + router.endpoints[kind], data, map["batch" := "true"]))
  }

  /** How a call of `post` ends. */
  datatype Delivery =
    | Unrouted(error: Error)
    | Delivered(request: Request)
    | Failed(request: Request, error: Error)

  /** `post(kind, data)`: at most one request, carrying the entire batch. */
  function Post(router: Router, kind: Entity, data: seq<Record>, response: Http.Outcome): (d: Delivery)
    ensures d.Unrouted? <==> kind !in router.endpoints
    ensures d.Unrouted? ==> d.error == ValueError("No endpoint found for entity: " + Name(kind))
    ensures !d.Unrouted? ==> d.request.body == data && d.request.url == router.baseUrl + router.endpoints[kind]
    ensures d.Failed? <==> kind in router.endpoints && Http.Raised(response).Some?
    ensures d.Failed? ==> Http.Raised(response) == Some(d.error)
  {
    match BuildRequest(router, kind, data)
    case Err(e) => Unrouted(e)
    case Ok(request) =>
      match Http.Raised(response)
      case None => Delivered(request)
      case Some(e) => Failed(request, e)
  }

  /** Bank, payment and refund batches have no route: `post` raises before building a request. */
  lemma UnroutedKinds(baseUrl: string, kind: Entity, data: seq<Record>)
    ensures BuildRequest(NewRouter(baseUrl), kind, data).Err? <==> kind == Bank || kind == Payment || kind == Refund
  {
  }

  /**
   * The URL is the trimmed base followed by the endpoint, with exactly one '/'
   * at the join however many the base ended with.
   */
  lemma UrlJoin(baseUrl: string, kind: Entity, data: seq<Record>)
    requires kind in Endpoints
    ensures var t := RStrip(baseUrl, '/');
      var url := BuildRequest(NewRouter(baseUrl), kind, data).value.url;
      && url == t + Endpoints[kind]
      && url[|t|] == '/' && url[|t| + 1] != '/'
      && (t == [] || url[|t| - 1] != '/')
  {
    EndpointPaths();
  }

  /** Extra trailing slashes on the base URL change no request. */
  lemma UrlIgnoresTrailingSlashes(baseUrl: string, n: nat, kind: Entity, data: seq<Record>)
    ensures BuildRequest(NewRouter(baseUrl + seq(n, _ => '/')), kind, data)
         == BuildRequest(NewRouter(baseUrl), kind, data)
  {
    RStripIgnoresTrailing(baseUrl, '/', n);
  }
}
