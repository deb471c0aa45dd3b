/**
 * entity.py: the eight-member `Entity` enumeration, its name parser, and
 * `EntityFactory`, which turns an entity kind into freshly generated records.
 *
 * Randomness is an explicit input. For planes and flights, every
 * `random.randint` and `random.choice` is a field of a draw record, with the
 * range that call names; a flight's departure instant (`future_datetime`) is
 * an unconstrained number of seconds and its `bothify` letters are three
 * ASCII letters. Values the model does not look into (prices, and every
 * faker and `random` call of the other generators, collapsed into one value
 * per record) are opaque `Fake` tokens.
 */
module Entities {
  import opened Wrappers
  import opened Exceptions
  import opened Text
  import EnumNames

  datatype Entity = Bank | Employee | Flight | Passenger | Payment | Plane | Refund | User

  /** The members in declaration order. */
  const Members: seq<Entity> := [Bank, Employee, Flight, Passenger, Payment, Plane, Refund, User]

  /** `e.name`. */
  function Name(e: Entity): string {
    match e
    case Bank => "BANK"
    case Employee => "EMPLOYEE"
    case Flight => "FLIGHT"
    case Passenger => "PASSENGER"
    case Payment => "PAYMENT"
    case Plane => "PLANE"
    case Refund => "REFUND"
    case User => "USER"
  }

  /** Two members with the same name are the same member. */
  lemma NameInjective(a: Entity, b: Entity)
    ensures Name(a) == Name(b) ==> a == b
  {
    if Name(a) == Name(b) {
      assert |Name(a)| == |Name(b)| && Name(a)[0] == Name(b)[0];
    }
  }

  lemma MembersWellNamed()
    ensures forall e: Entity :: e in Members
    ensures EnumNames.WellNamed(Members, Name)
  {
    forall e: Entity ensures e in Members {
      match e
      case Bank => assert Members[0] == e;
      case Employee => assert Members[1] == e;
      case Flight => assert Members[2] == e;
      case Passenger => assert Members[3] == e;
      case Payment => assert Members[4] == e;
      case Plane => assert Members[5] == e;
      case Refund => assert Members[6] == e;
      case User => assert Members[7] == e;
    }
    forall e | e in Members ensures AllUpper(Name(e)) {
    }
    forall i, j | 0 <= i < j < |Members| ensures Name(Members[i]) != Name(Members[j]) {
      NameInjective(Members[i], Members[j]);
    }
  }

  /** `Entity.from_string(value)`. */
  function FromString(value: string): (r: Result<Entity, Error>)
    ensures r.Ok? ==> Name(r.value) == Upper(value)
    ensures r.Err? ==> forall e :: Name(e) != Upper(value)
    ensures r.Err? ==> r.error == ValueError(EnumNames.InvalidMessage(value, Members, Name))
  {
    MembersWellNamed();
    EnumNames.Parse(value, Members, Name)
  }

  /** Case-insensitive: the input parses to `e` exactly when its upper-case form is `e`'s name. */
  lemma FromStringIff(value: string, e: Entity)
    ensures FromString(value) == Ok(e) <==> Upper(value) == Name(e)
  {
    MembersWellNamed();
    EnumNames.ParseIff(value, Members, Name, e);
  }

  /** "plane", "Plane" and "PLANE" all give `Plane`. */
  lemma FromStringSpellings()
    ensures FromString("plane") == Ok(Plane)
    ensures FromString("Plane") == Ok(Plane)
    ensures FromString("PLANE") == Ok(Plane)
  {
    assert Upper("plane") == Upper("Plane") == Upper("PLANE") == Name(Plane);
    FromStringIff("plane", Plane);
    FromStringIff("Plane", Plane);
    FromStringIff("PLANE", Plane);
  }

  // ---------------------------------------------------------------------------
  // Records and the random draws that fill them

  /** A value produced by the faker library, not looked into. */
  type Fake = string

  const PlaneModels: seq<string> := ["737", "747", "777", "787", "A320", "A330", "A350", "A380"]
  const Manufacturers: seq<string> := ["Boeing", "Airbus"]
  const Statuses: seq<string> := ["active", "inactive"]
  const AirlineCodes: seq<string> := ["TK", "PC", "XQ", "J2"]
  const DepartureAirports: seq<string> := ["IST", "SAW", "ESB", "AYT", "ADB"]
  const DestinationAirports: seq<string> := ["LHR", "CDG", "FRA", "JFK", "DXB"]
  const GateLetters: seq<string> := ["A", "B", "C", "D"]
  const FlightStatuses: seq<string> := ["scheduled", "delayed", "cancelled", "departed", "arrived"]
  const RegistrationPrefix := "TC-"
  const SecondsPerHour := 3600

  /**
   * A generated record. Plane and flight records carry the fields the scheme
   * relies on; an employee record is its single `employee` key; the other
   * kinds are opaque. Flight times are whole seconds on one clock.
   */
  datatype Record =
    | PlaneRecord(registration: string, model: string, manufacturer: string, capacity: int,
                  status: string)
    | FlightRecord(flightNumber: string, departureAirport: string, destinationAirport: string,
                   departureTime: int, arrivalTime: int,
                   departureGate: string, destinationGate: string,
                   planeRegistration: string, status: string, price: Fake)
    | EmployeeRecord(employee: Fake)
    | FakeRecord(kind: Entity, fields: Fake)

  function KindOf(r: Record): Entity {
    match r
    case PlaneRecord(_, _, _, _, _) => Plane
    case FlightRecord(_, _, _, _, _, _, _, _, _, _) => Flight
    case EmployeeRecord(_) => Employee
    case FakeRecord(k, _) => k
  }

  /** `random.randint` results and `random.choice` indices for `_create_plane`. */
  datatype PlaneDraw = PlaneDraw(number: int, model: nat, manufacturer: nat, capacity: int, status: nat)

  predicate ValidPlaneDraw(d: PlaneDraw) {
    && 10000 <= d.number <= 99999
    && d.model < |PlaneModels|
    && d.manufacturer < |Manufacturers|
    && 100 <= d.capacity <= 500
    && d.status < |Statuses|
  }

  datatype GateDraw = GateDraw(letter: nat, number: int)

  predicate ValidGateDraw(g: GateDraw) {
    g.letter < |GateLetters| && 1 <= g.number <= 30
  }

  /**
   * The choices of `_create_flight`: the departure instant from
   * `future_datetime`, the duration in hours, the flight code and number, the
   * airports, the gates, the three letters `bothify('???')` draws, the status
   * and the price.
   */
  datatype FlightDraw = FlightDraw(
    departure: int, hours: int, code: nat, number: int,
    origin: nat, destination: nat, departureGate: GateDraw, destinationGate: GateDraw,
    letters: string, status: nat, price: Fake)

  predicate ValidFlightDraw(d: FlightDraw) {
    && 1 <= d.hours <= 12
    && d.code < |AirlineCodes|
    && 100 <= d.number <= 9999
    && d.origin < |DepartureAirports|
    && d.destination < |DestinationAirports|
    && ValidGateDraw(d.departureGate) && ValidGateDraw(d.destinationGate)
    && |d.letters| == 3 && (forall i :: 0 <= i < 3 ==> IsAsciiLetter(d.letters[i]))
    && d.status < |FlightStatuses|
  }

  /** All random input one call of a generator may consume. */
  datatype Draws = Draws(plane: PlaneDraw, flight: FlightDraw, fake: Fake)

  predicate ValidDraws(d: Draws) {
    ValidPlaneDraw(d.plane) && ValidFlightDraw(d.flight)
  }

  /** `_create_plane()`. */
  function GeneratePlane(d: PlaneDraw): (r: Record)
    requires ValidPlaneDraw(d)
    ensures r.PlaneRecord?
  {
    PlaneRecord(RegistrationPrefix + DecimalString(d.number), PlaneModels[d.model],
                Manufacturers[d.manufacturer], d.capacity, Statuses[d.status])
  }

  function Gate(g: GateDraw): string
    requires ValidGateDraw(g)
  {
    GateLetters[g.letter] + DecimalString(g.number)
  }

  /** A gate number: one of the letters A..D followed by the digits of a number in [1, 30]. */
  lemma GateShape(g: GateDraw)
    requires ValidGateDraw(g)
    ensures 2 <= |Gate(g)| <= 3 && Gate(g)[..1] in GateLetters
    ensures AllDigits(Gate(g)[1..]) && 1 <= DigitsValue(Gate(g)[1..]) <= 30
  {
    assert Pow10(1) == 10 && Pow10(2) == 100;
    if g.number < 10 { DecimalStringWidth(g.number, 1); } else { DecimalStringWidth(g.number, 2); }
    DecimalStringRoundTrip(g.number);
    assert Gate(g)[1..] == DecimalString(g.number);
  }

  /** `_create_flight()`. */
  function GenerateFlight(d: FlightDraw): (r: Record)
    requires ValidFlightDraw(d)
    ensures r.FlightRecord?
  {
    FlightRecord(
      AirlineCodes[d.code] + DecimalString(d.number),
      DepartureAirports[d.origin], DestinationAirports[d.destination],
      d.departure, d.departure + d.hours * SecondsPerHour,
      Gate(d.departureGate), Gate(d.destinationGate),
      RegistrationPrefix + Upper(d.letters),
      FlightStatuses[d.status], d.price)
  }

  /** A generated plane: "TC-" and five digits whose value is in [10000, 99999], capacity in [100, 500]. */
  lemma PlaneShape(d: PlaneDraw)
    requires ValidPlaneDraw(d)
    ensures var r := GeneratePlane(d);
      && |r.registration| == 8
      && r.registration[..3] == RegistrationPrefix
      && AllDigits(r.registration[3..])
      && 10000 <= DigitsValue(r.registration[3..]) <= 99999
      && 100 <= r.capacity <= 500
      && r.model in PlaneModels && r.manufacturer in Manufacturers && r.status in Statuses
  {
    var r := GeneratePlane(d);
    assert Pow10(4) == 10000 && Pow10(5) == 100000;
    DecimalStringWidth(d.number, 5);
    DecimalStringRoundTrip(d.number);
    assert r.registration[3..] == DecimalString(d.number);
  }

  /** A generated flight number: one of the four airline codes followed by a number in [100, 9999]. */
  lemma FlightNumberShape(d: FlightDraw)
    requires ValidFlightDraw(d)
    ensures var r := GenerateFlight(d);
      && 5 <= |r.flightNumber| <= 6
      && r.flightNumber[..2] in AirlineCodes
      && AllDigits(r.flightNumber[2..])
      && 100 <= DigitsValue(r.flightNumber[2..]) <= 9999
  {
    var r := GenerateFlight(d);
    DecimalStringThreeOrFour(d.number);
    assert |AirlineCodes[d.code]| == 2;
    assert r.flightNumber[..2] == AirlineCodes[d.code];
    assert r.flightNumber[2..] == DecimalString(d.number);
  }

  /**
   * A generated flight: its number as `FlightNumberShape` states; it lands a
   * whole number of hours, 1 to 12, after it leaves; its own plane
   * registration is "TC-" and three upper-case letters.
   */
  lemma FlightShape(d: FlightDraw)
    requires ValidFlightDraw(d)
    ensures var r := GenerateFlight(d);
      && 5 <= |r.flightNumber| <= 6
      && r.flightNumber[..2] in AirlineCodes
      && AllDigits(r.flightNumber[2..])
      && 100 <= DigitsValue(r.flightNumber[2..]) <= 9999
      && (exists h :: 1 <= h <= 12 && r.arrivalTime == r.departureTime + h * SecondsPerHour)
      && r.departureTime < r.arrivalTime
      && |r.planeRegistration| == 6
      && r.planeRegistration[..3] == RegistrationPrefix
      && AllUpper(r.planeRegistration[3..])
  {
    var r := GenerateFlight(d);
    FlightNumberShape(d);
    UpperOfLetters(d.letters);
    assert r.planeRegistration[3..] == Upper(d.letters);
    assert r.arrivalTime == r.departureTime + d.hours * SecondsPerHour;
  }

  /**
   * A flight's own registration ("TC-" and three letters) never equals a
   * plane's ("TC-" and five digits): a flight names a real plane only through
   * the override.
   */
  lemma FreshFlightNamesNoPlane(fd: FlightDraw, pd: PlaneDraw)
    requires ValidFlightDraw(fd) && ValidPlaneDraw(pd)
    ensures GenerateFlight(fd).planeRegistration != GeneratePlane(pd).registration
  {
    FlightShape(fd);
    PlaneShape(pd);
  }

  // ---------------------------------------------------------------------------
  // The factory

  /** The factory methods `_create_bank` .. `_create_user`. */
  datatype Generator =
    | CreateBank | CreateEmployee | CreateFlight | CreatePassenger
    | CreatePayment | CreatePlane | CreateRefund | CreateUser

  /** The kind of record a factory method builds. */
  function Makes(g: Generator): Entity {
    match g
    case CreateBank => Bank
    case CreateEmployee => Employee
    case CreateFlight => Flight
    case CreatePassenger => Passenger
    case CreatePayment => Payment
    case CreatePlane => Plane
    case CreateRefund => Refund
    case CreateUser => User
  }

  /** `factory_map.get(kind)` in `_get_factory_method`: every kind has its own factory method. */
  function FactoryLookup(kind: Entity): (r: Option<Generator>)
    ensures r.Some? && Makes(r.value) == kind
  {
    match kind
    case Bank => Some(CreateBank)
    case Employee => Some(CreateEmployee)
    case Flight => Some(CreateFlight)
    case Passenger => Some(CreatePassenger)
    case Payment => Some(CreatePayment)
    case Plane => Some(CreatePlane)
    case Refund => Some(CreateRefund)
    case User => Some(CreateUser)
  }

  /** `_get_factory_method(kind)`. */
  function GetFactoryMethod(kind: Entity): (r: Result<Generator, Error>)
    ensures r.Ok? ==> Makes(r.value) == kind
    ensures r.Err? ==> r.error == ValueError("No factory method found for entity type: " + Name(kind))
  {
    if FactoryLookup(kind).Some? then Ok(FactoryLookup(kind).value)
    else Err(ValueError("No factory method found for entity type: " + Name(kind)))
  }

  /** The table covers the whole enumeration, so the "No factory method found" branch is unreachable. */
  lemma FactoryMapTotal(kind: Entity)
    ensures FactoryLookup(kind).Some?
    ensures GetFactoryMethod(kind).Ok?
  {
  }

  /** Calling a factory method on the draws it consumes. */
  function Generate(g: Generator, d: Draws): (r: Record)
    requires ValidDraws(d)
    ensures KindOf(r) == Makes(g)
    ensures r.PlaneRecord? <==> g == CreatePlane
    ensures r.FlightRecord? <==> g == CreateFlight
  {
    match g
    case CreatePlane => GeneratePlane(d.plane)
    case CreateFlight => GenerateFlight(d.flight)
    case CreateEmployee => EmployeeRecord(d.fake)
    case _ => FakeRecord(Makes(g), d.fake)
  }

  /** `create_entity(kind)`. */
  function CreateEntity(kind: Entity, d: Draws): (r: Result<Record, Error>)
    requires ValidDraws(d)
    ensures r.Ok? <==> FactoryLookup(kind).Some?
    ensures r.Ok? ==> KindOf(r.value) == kind
  {
    match GetFactoryMethod(kind)
    case Ok(g) => Ok(Generate(g, d))
    case Err(e) => Err(e)
  }

  /** `[factory_method() for _ in range(0, n)]`, call `i` consuming `draws[i]`. */
  function Batch(g: Generator, n: nat, draws: seq<Draws>): (r: seq<Record>)
    requires n <= |draws| && forall d :: d in draws ==> ValidDraws(d)
    ensures |r| == n && forall i :: 0 <= i < n ==> r[i] == Generate(g, draws[i])
  {
    if n == 0 then [] else Batch(g, n - 1, draws) + [Generate(g, draws[n - 1])]
  }

  /**
   * `create_entities(kind, amount)`: one factory call per element of
   * `range(0, amount)`, call `i` consuming `draws[i]`.
   */
  function CreateEntities(kind: Entity, amount: int, draws: seq<Draws>): (r: Result<seq<Record>, Error>)
    requires amount <= |draws| && forall d :: d in draws ==> ValidDraws(d)
    ensures r.Ok? <==> FactoryLookup(kind).Some?
    ensures r.Ok? ==> |r.value| == (if amount > 0 then amount else 0)
    ensures r.Ok? ==> forall i :: 0 <= i < |r.value| ==>
      r.value[i] == Generate(FactoryLookup(kind).value, draws[i]) && KindOf(r.value[i]) == kind
  {
    match GetFactoryMethod(kind)
    case Ok(g) =>
      var n := if amount > 0 then amount else 0;
      Ok(Batch(g, n, draws))
    case Err(e) => Err(e)
  }

  // ---------------------------------------------------------------------------
  // The plane-registration override of the flight step

  /** The message Python gives for a keyword argument the callee does not declare. */
  function UnexpectedKeyword(keyword: string): string {
    "EntityFactory.create_entity() got an unexpected keyword argument '" + keyword + "'"
  }

  /**
   * `create_entity(kind, **kwargs)` as the code is written: `create_entity`
   * takes no keyword argument besides `entity_type`, which `kind` already
   * fills, so any keyword argument raises `TypeError` before a record is
   * built.
   */
  function CreateEntityCall(kind: Entity, kwargs: seq<(string, string)>, d: Draws): (r: Result<Record, Error>)
    requires ValidDraws(d)
    ensures kwargs != [] ==> r.Err? && r.error.TypeError?
    ensures kwargs != [] && kwargs[0].0 != "entity_type" ==> r.error == TypeError(UnexpectedKeyword(kwargs[0].0))
    ensures kwargs == [] ==> r == CreateEntity(kind, d)
  {
    if kwargs == [] then CreateEntity(kind, d)
    else if kwargs[0].0 == "entity_type" then
      Err(TypeError("EntityFactory.create_entity() got multiple values for argument 'entity_type'"))
    else
      Err(TypeError(UnexpectedKeyword(kwargs[0].0)))
  }

  /** The call of the flight step raises whatever registration it passes. */
  lemma FlightOverrideRaises(registration: string, d: Draws)
    requires ValidDraws(d)
    ensures CreateEntityCall(Flight, [("plane_registration", registration)], d).Err?
    ensures CreateEntityCall(Flight, [("plane_registration", registration)], d).error
         == TypeError(UnexpectedKeyword("plane_registration"))
  {
    assert |"plane_registration"| != |"entity_type"|;
  }

  /**
   * The intended call: a generated flight with its `plane_registration`
   * replaced by `registration` and every other field as generated.
   */
  function CreateFlightFor(registration: string, d: Draws): (r: Record)
    requires ValidDraws(d)
    ensures r.FlightRecord? && r.planeRegistration == registration
    ensures r.(planeRegistration := GenerateFlight(d.flight).planeRegistration) == GenerateFlight(d.flight)
  {
    var f := GenerateFlight(d.flight);
    f.(planeRegistration := registration)
  }
}
