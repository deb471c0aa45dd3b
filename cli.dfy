/**
 * main.py: the command-line entry point. It has its own nine-member `Entity`
 * enumeration (the factory's eight and `REQUEST`), a handler table and an
 * endpoint table over it, `process_entity`, which runs the handler and posts
 * `{"amount": amount}` to `BASE_URL` + endpoint, and `main`, which turns a
 * `ValueError` into exit code 1.
 *
 * The environment and the server's answer are parameters; the handlers only
 * log, so running one is recorded as an action and nothing else.
 */
module Cli {
  import opened Wrappers
  import opened Exceptions
  import opened Text
  import EnumNames
  import Http

  datatype Entity = Bank | Employee | Flight | Passenger | Payment | Plane | Refund | Request | User

  /** The members in declaration order. */
  const Members: seq<Entity> := [Bank, Employee, Flight, Passenger, Payment, Plane, Refund, Request, User]

  /** `e.name`. */
  function Name(e: Entity): string {
    match e
    case Bank => "BANK"
    case Employee => "EMPLOYEE"
    case Flight => "FLIGHT"
    case Passenger => "PASSENGER"
    case Payment => "PAYMENT"
    case Plane => "PLANE"
    case Refund => "REFUND"
    case Request => "REQUEST"
    case User => "USER"
  }

  /** Two members with the same name are the same member. */
  lemma NameInjective(a: Entity, b: Entity)
    ensures Name(a) == Name(b) ==> a == b
  {
    if Name(a) == Name(b) {
      assert |Name(a)| == |Name(b)| && Name(a)[0] == Name(b)[0];
    }
  }

  lemma MembersWellNamed()
    ensures forall e: Entity :: e in Members
    ensures EnumNames.WellNamed(Members, Name)
  {
    forall e: Entity ensures e in Members {
      match e
      case Bank => assert Members[0] == e;
      case Employee => assert Members[1] == e;
      case Flight => assert Members[2] == e;
      case Passenger => assert Members[3] == e;
      case Payment => assert Members[4] == e;
      case Plane => assert Members[5] == e;
      case Refund => assert Members[6] == e;
      case Request => assert Members[7] == e;
      case User => assert Members[8] == e;
    }
    forall e | e in Members ensures AllUpper(Name(e)) {
    }
    forall i, j | 0 <= i < j < |Members| ensures Name(Members[i]) != Name(Members[j]) {
      NameInjective(Members[i], Members[j]);
    }
  }

  /** `Entity.from_string(value)`. */
  function FromString(value: string): (r: Result<Entity, Error>)
    ensures r.Ok? ==> Name(r.value) == Upper(value)
    ensures r.Err? ==> forall e :: Name(e) != Upper(value)
    ensures r.Err? ==> r.error == ValueError(EnumNames.InvalidMessage(value, Members, Name))
  {
    MembersWellNamed();
    EnumNames.Parse(value, Members, Name)
  }

  /** Case-insensitive: the input parses to `e` exactly when its upper-case form is `e`'s name. */
  lemma FromStringIff(value: string, e: Entity)
    ensures FromString(value) == Ok(e) <==> Upper(value) == Name(e)
  {
    MembersWellNamed();
    EnumNames.ParseIff(value, Members, Name, e);
  }

  /** "request", the member the factory's enumeration lacks, parses in any case. */
  lemma FromStringRequest()
    ensures FromString("request") == Ok(Request)
    ensures FromString("Request") == Ok(Request)
  {
    assert Upper("request") == Upper("Request") == Name(Request);
    FromStringIff("request", Request);
    FromStringIff("Request", Request);
  }

  // ---------------------------------------------------------------------------
  // The tables

  /** The logging-only functions `process_bank` .. `process_user`. */
  datatype Handler =
    | ProcessBank | ProcessEmployee | ProcessFlight | ProcessPassenger | ProcessPayment
    | ProcessPlane | ProcessRefund | ProcessRequest | ProcessUser

  /** The kind whose operations a handler announces. */
  function Handles(h: Handler): Entity {
    match h
    case ProcessBank => Bank
    case ProcessEmployee => Employee
    case ProcessFlight => Flight
    case ProcessPassenger => Passenger
    case ProcessPayment => Payment
    case ProcessPlane => Plane
    case ProcessRefund => Refund
    case ProcessRequest => Request
    case ProcessUser => User
  }

  /** `ENTITY_HANDLERS`. */
  const EntityHandlers: map<Entity, Handler> := map[
    Bank := ProcessBank, Employee := ProcessEmployee, Flight := ProcessFlight,
    Passenger := ProcessPassenger, Payment := ProcessPayment, Plane := ProcessPlane,
    Refund := ProcessRefund, Request := ProcessRequest, User := ProcessUser]

  /** `ENTITY_ENDPOINTS`. */
  const EntityEndpoints: map<Entity, string> := map[
    Bank := "/banks", Employee := "/employees", Flight := "/flights",
    Passenger := "/passengers", Payment := "/payments", Plane := "/planes",
    Refund := "/refunds", Request := "/requests", User := "/users"]

  /**
   * Both tables cover the whole enumeration, each kind handled by its own
   * handler, so the "No handler" and "No endpoint" errors cannot be raised.
   */
  lemma TablesTotal(e: Entity)
    ensures e in EntityHandlers && Handles(EntityHandlers[e]) == e
    ensures e in EntityEndpoints
  {
  }

  /** Each endpoint is "/" followed by the lower-case plural of the member's name. */
  lemma EndpointsArePlurals(e: Entity)
    ensures EntityEndpoints[e] == "/" + LowerAscii(Name(e)) + "s"
  {
    PluralsOfBankEmployeeFlight();
    PluralsOfPassengerPaymentPlane();
    PluralsOfRefundRequestUser();
  }

  lemma PluralsOfBankEmployeeFlight()
    ensures EntityEndpoints[Bank] == "/" + LowerAscii(Name(Bank)) + "s"
    ensures EntityEndpoints[Employee] == "/" + LowerAscii(Name(Employee)) + "s"
    ensures EntityEndpoints[Flight] == "/" + LowerAscii(Name(Flight)) + "s"
  {
    assert LowerAscii(Name(Bank)) == "bank";
    assert LowerAscii(Name(Employee)) == "employee";
    assert LowerAscii(Name(Flight)) == "flight";
  }

  lemma PluralsOfPassengerPaymentPlane()
    ensures EntityEndpoints[Passenger] == "/" + LowerAscii(Name(Passenger)) + "s"
    ensures EntityEndpoints[Payment] == "/" + LowerAscii(Name(Payment)) + "s"
    ensures EntityEndpoints[Plane] == "/" + LowerAscii(Name(Plane)) + "s"
  {
    assert LowerAscii(Name(Passenger)) == "passenger";
    assert LowerAscii(Name(Payment)) == "payment";
    assert LowerAscii(Name(Plane)) == "plane";
  }

  lemma PluralsOfRefundRequestUser()
    ensures EntityEndpoints[Refund] == "/" + LowerAscii(Name(Refund)) + "s"
    ensures EntityEndpoints[Request] == "/" + LowerAscii(Name(Request)) + "s"
    ensures EntityEndpoints[User] == "/" + LowerAscii(Name(User)) + "s"
  {
    assert LowerAscii(Name(Refund)) == "refund";
    assert LowerAscii(Name(Request)) == "request";
    assert LowerAscii(Name(User)) == "user";
  }

  /** No two kinds share an endpoint. */
  lemma EndpointsDistinct(a: Entity, b: Entity)
    ensures a != b ==> EntityEndpoints[a] != EntityEndpoints[b]
  {
    if a != b {
      var pa, pb := EntityEndpoints[a], EntityEndpoints[b];
      assert |pa| != |pb| || pa[1] != pb[1];
    }
  }

  // ---------------------------------------------------------------------------
  // process_entity and main

  /** `os.getenv('BASE_URL', 'http://localhost:8080')`. */
  const DefaultBaseUrl := "http://localhost:8080"

  function BaseUrl(env: map<string, string>): (r: string)
    ensures "BASE_URL" !in env ==> r == DefaultBaseUrl
    ensures "BASE_URL" in env ==> r == env["BASE_URL"]
  {
    if "BASE_URL" in env then env["BASE_URL"] else DefaultBaseUrl
  }

  /**
   * What `process_entity` does, in order. `Posted` is the call of
   * `requests.post` with that URL and body: an attempt, which sends nothing
   * when `requests` rejects the URL.
   */
  datatype Action =
    | Handled(handler: Handler, amount: int)
    | Posted(url: string, amount: int)

  /** The actions taken and the exception that ended `process_entity`, if any. */
  datatype Processed = Processed(actions: seq<Action>, error: Option<Error>)

  /**
   * `process_entity(entity, amount)`: the handler is looked up and run, then
   * the endpoint is looked up and `{"amount": amount}` is posted to
   * `BASE_URL` + endpoint, with no trimming; a request exception is
   * re-raised as it is.
   */
  function ProcessEntity(entity: Entity, amount: int, baseUrl: string, response: Http.Outcome): (p: Processed)
    ensures p.actions == [Handled(EntityHandlers[entity], amount), Posted(baseUrl + EntityEndpoints[entity], amount)]
    ensures p.error == Http.Raised(response)
  {
    if entity !in EntityHandlers then
      Processed([], Some(ValueError("No handler found for entity: " + Name(entity))))
    else
      var handled := [Handled(EntityHandlers[entity], amount)];
      if entity !in EntityEndpoints then
        Processed(handled, Some(ValueError("No endpoint found for entity: " + Name(entity))))
      else
        var url := baseUrl + EntityEndpoints[entity];
        Processed(handled + [Posted(url, amount)], Http.Raised(response))
  }

  /** A base URL ending in '/' gives a URL with a doubled '/' at the join. */
  lemma UrlNotTrimmed(entity: Entity, amount: int, baseUrl: string, response: Http.Outcome)
    requires baseUrl != [] && baseUrl[|baseUrl| - 1] == '/'
    ensures var url := ProcessEntity(entity, amount, baseUrl, response).actions[1].url;
      url[|baseUrl| - 1] == '/' && url[|baseUrl|] == '/'
  {
    var url := ProcessEntity(entity, amount, baseUrl, response).actions[1].url;
    assert url == baseUrl + EntityEndpoints[entity];
  }

  /** How `main()` ends: it returns an exit code, or an exception escapes it. */
  datatype Exit = Returned(code: int) | Escaped(error: Error)

  /** `main()` with `--entity name --amount amount`. */
  function Main(name: string, amount: int, env: map<string, string>, response: Http.Outcome): (x: Exit)
    ensures x == Returned(0) <==> FromString(name).Ok? && Http.Raised(response).None?
    ensures x == Returned(1) <==> FromString(name).Err? || response.RejectedUrl?
    ensures x.Escaped? <==> FromString(name).Ok? && Http.Raised(response).Some? && !response.RejectedUrl?
    ensures x.Escaped? ==> Http.Raised(response) == Some(x.error)
  {
    var caught := (e: Error) => if IsValueError(e) then Returned(1) else Escaped(e);
    match FromString(name)
    case Err(e) => caught(e)
    case Ok(entity) =>
      var p := ProcessEntity(entity, amount, BaseUrl(env), response);
      if p.error.None? then Returned(0) else caught(p.error.value)
  }

  /** An HTTP error status is not a `ValueError`: it escapes `main` instead of giving 1. */
  lemma HttpErrorEscapes(name: string, amount: int, env: map<string, string>, status: int)
    requires FromString(name).Ok? && 400 <= status < 600
    ensures Main(name, amount, env, Http.Answered(status)) == Escaped(HttpError(status))
  {
  }
}
