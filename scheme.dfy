/**
 * scheme.py: `StandardScheme` is a one-shot generator of `(kind, batch)`
 * steps, an employee batch of size 0, a plane batch of size 2 and a flight
 * batch of size 4 whose flights are assigned to the generated planes, and
 * `execute` posts each step through the router as it is produced.
 *
 * The generator's suspended position is the field `stage` (0 before the
 * first step, 3 once exhausted) and the local `planes` it keeps alive across
 * the second `yield` is the field `planes`. Randomness enters as a
 * `StepInput` per step: the draws of the factory calls and, for the flight
 * step, the index `random.choice` picks among the planes for each flight.
 */
module Scheme {
  import opened Wrappers
  import opened Exceptions
  import opened Entities
  import opened Routing
  import Http

  const NumEmployees := 0
  const NumPlanes := 2
  const NumFlights := 4

  /** One value the generator yields: an entity kind and its batch. */
  datatype Step = Step(kind: Entity, batch: seq<Record>)

  /** The random choices one step consumes. */
  datatype StepInput = StepInput(draws: seq<Draws>, picks: seq<nat>)

  /**
   * The input is enough for the step at `stage`: a draw per record, and for
   * the flight step one pick per flight among the two planes. Picks may
   * repeat: `random.choice` draws with replacement.
   */
  predicate Fits(stage: nat, input: StepInput) {
    && (forall i :: 0 <= i < |input.draws| ==> ValidDraws(input.draws[i]))
    && (stage == 1 ==> |input.draws| >= NumPlanes)
    && (stage == 2 ==> |input.draws| >= NumFlights && |input.picks| >= NumFlights
                       && forall i :: 0 <= i < NumFlights ==> input.picks[i] < NumPlanes)
  }

  /** What the generator holds in `planes` once the plane step has run. */
  predicate PlaneBatch(planes: seq<Record>) {
    |planes| == NumPlanes && forall p :: p in planes ==> p.PlaneRecord?
  }

  function Registrations(planes: seq<Record>): set<string> {
    set p | p in planes && p.PlaneRecord? :: p.registration
  }

  /** The flight loop: flight `i` gets the registration of plane `picks[i]`. */
  function WireFlights(planes: seq<Record>, draws: seq<Draws>, picks: seq<nat>): (flights: seq<Record>)
    requires forall p :: p in planes ==> p.PlaneRecord?
    requires |picks| <= |draws| && forall d :: d in draws ==> ValidDraws(d)
    requires forall i :: 0 <= i < |picks| ==> picks[i] < |planes|
    ensures |flights| == |picks|
    ensures forall f :: f in flights ==> f.FlightRecord? && f.planeRegistration in Registrations(planes)
  {
    seq(|picks|, i requires 0 <= i < |picks| => CreateFlightFor(planes[picks[i]].registration, draws[i]))
  }

  /**
   * The flight loop as the code is written: the first call of
   * `create_entity` with the `plane_registration` keyword raises, so the loop
   * never completes a flight.
   */
  function WireFlightsAsWritten(planes: seq<Record>, draws: seq<Draws>, picks: seq<nat>): (r: Result<seq<Record>, Error>)
    requires forall p :: p in planes ==> p.PlaneRecord?
    requires |picks| <= |draws| && forall d :: d in draws ==> ValidDraws(d)
    requires forall i :: 0 <= i < |picks| ==> picks[i] < |planes|
    ensures r.Ok? <==> picks == []
    ensures r.Ok? ==> r.value == []
    ensures r.Err? ==> r.error.TypeError?
  {
    if picks == [] then Ok([])
    else
      var registration := planes[picks[0]].registration;
      var rest := WireFlightsAsWritten(planes, draws[1..], picks[1..]);
      match (CreateEntityCall(Flight, [("plane_registration", registration)], draws[0]), rest)
      case (Err(e), _) => Err(e)
      case (Ok(flight), Ok(flights)) => Ok([flight] + flights)
      case (Ok(_), Err(e)) => Err(e)
  }

  /** As written, the third `next()` raises `TypeError` instead of yielding flights. */
  lemma FlightStepAsWrittenRaises(planes: seq<Record>, input: StepInput)
    requires PlaneBatch(planes) && Fits(2, input)
    ensures WireFlightsAsWritten(planes, input.draws, input.picks[..NumFlights]).Err?
    ensures WireFlightsAsWritten(planes, input.draws, input.picks[..NumFlights]).error.TypeError?
  {
    var registration := planes[input.picks[0]].registration;
    FlightOverrideRaises(registration, input.draws[0]);
  }

  /** What `next()` yields at `stage`, or `None` (`StopIteration`) once exhausted. */
  function Yield(stage: nat, planes: seq<Record>, input: StepInput): (r: Option<Step>)
    requires Fits(stage, input)
    requires stage == 2 ==> PlaneBatch(planes)
    ensures r.None? <==> stage >= 3
  {
    if stage == 0 then Some(Step(Employee, CreateEntities(Employee, NumEmployees, input.draws).value))
    else if stage == 1 then Some(Step(Plane, CreateEntities(Plane, NumPlanes, input.draws).value))
    else if stage == 2 then Some(Step(Flight, WireFlights(planes, input.draws, input.picks[..NumFlights])))
    else None
  }

  /** The three inputs of a complete run, each enough for its step. */
  predicate Ready(inputs: seq<StepInput>) {
    |inputs| >= 3 && forall k :: 0 <= k < 3 ==> Fits(k, inputs[k])
  }

  /** The planes the plane step of a run generates. */
  function RunPlanes(inputs: seq<StepInput>): seq<Record>
    requires Ready(inputs)
  {
    Yield(1, [], inputs[1]).value.batch
  }

  /** Everything a fresh scheme yields, in order. */
  function Steps(inputs: seq<StepInput>): (steps: seq<Step>)
    requires Ready(inputs)
    ensures |steps| == 3
  {
    [Yield(0, [], inputs[0]).value, Yield(1, [], inputs[1]).value, Yield(2, RunPlanes(inputs), inputs[2]).value]
  }

  /**
   * A run yields exactly three batches: no employees, two planes made by the
   * plane factory, then four flights, flight `i` a generated flight carrying
   * the registration of the plane picked for it, so every flight names one
   * of the two planes.
   */
  lemma StepsShape(inputs: seq<StepInput>)
    requires Ready(inputs)
    ensures var steps := Steps(inputs);
      && |steps| == 3
      && steps[0].kind == Employee && steps[1].kind == Plane && steps[2].kind == Flight
      && |steps[0].batch| == NumEmployees
      && |steps[1].batch| == NumPlanes
      && |steps[2].batch| == NumFlights
      && (forall i :: 0 <= i < NumPlanes ==> steps[1].batch[i] == GeneratePlane(inputs[1].draws[i].plane))
      && (forall i :: 0 <= i < NumFlights ==>
            steps[2].batch[i] == CreateFlightFor(steps[1].batch[inputs[2].picks[i]].registration, inputs[2].draws[i]))
      && (forall f :: f in steps[2].batch ==> f.FlightRecord? && f.planeRegistration in Registrations(steps[1].batch))
  {
    var steps := Steps(inputs);
    assert FactoryLookup(Plane) == Some(CreatePlane);
    assert steps[1].batch == RunPlanes(inputs);
    forall i | 0 <= i < NumPlanes ensures steps[1].batch[i] == GeneratePlane(inputs[1].draws[i].plane) {
      assert steps[1].batch[i] == Generate(CreatePlane, inputs[1].draws[i]);
    }
  }

  /**
   * The picks may all name the same plane: then every flight carries that
   * plane's registration, and when the two planes' registrations differ
   * (two independent draws may coincide) no flight names the other plane.
   */
  lemma ChoiceWithReplacement(inputs: seq<StepInput>)
    requires Ready(inputs) && inputs[2].picks[..NumFlights] == [0, 0, 0, 0]
    ensures forall f :: f in Steps(inputs)[2].batch ==> f.planeRegistration == RunPlanes(inputs)[0].registration
    ensures RunPlanes(inputs)[0].registration != RunPlanes(inputs)[1].registration ==>
      forall f :: f in Steps(inputs)[2].batch ==> f.planeRegistration != RunPlanes(inputs)[1].registration
  {
    var planes := RunPlanes(inputs);
    var flights := Steps(inputs)[2].batch;
    assert flights == WireFlights(planes, inputs[2].draws, inputs[2].picks[..NumFlights]);
    forall i | 0 <= i < NumFlights ensures flights[i].planeRegistration == planes[0].registration {
      assert inputs[2].picks[..NumFlights][i] == 0;
    }
  }

  // ---------------------------------------------------------------------------
  // `execute`: the steps posted one by one

  /**
   * How `execute` ends: the steps it took from the generator, the requests
   * `post` attempted (built and handed to `requests.post`, whether or not
   * anything reached the server), and the exception that escaped, if any.
   */
  datatype Run = Run(posted: seq<Step>, sent: seq<Request>, error: Option<Error>)

  /** The run after one post: a raised post ends it, a delivered one goes on with `rest`. */
  function Continue(step: Step, d: Delivery, rest: Run): (r: Run)
    ensures d.Delivered? ==> |r.posted| == 1 + |rest.posted| && r.error == rest.error
    ensures !d.Delivered? ==> |r.posted| == 1 && r.error == Some(d.error)
  {
    match d
    case Unrouted(e) => Run([step], [], Some(e))
    case Failed(request, e) => Run([step], [request], Some(e))
    case Delivered(request) => Run([step] + rest.posted, [request] + rest.sent, rest.error)
  }

  /** A run preceded by the steps already posted and the requests already sent. */
  function After(posted: seq<Step>, sent: seq<Request>, rest: Run): Run {
    rest.(posted := posted + rest.posted, sent := sent + rest.sent)
  }

  /** A delivered post moves one step and one request in front of the rest of the run. */
  lemma AfterDelivered(posted: seq<Step>, sent: seq<Request>, step: Step, request: Request, rest: Run)
    ensures After(posted, sent, Continue(step, Delivered(request), rest))
         == After(posted + [step], sent + [request], rest)
  {
    assert posted + ([step] + rest.posted) == (posted + [step]) + rest.posted;
    assert sent + ([request] + rest.sent) == (sent + [request]) + rest.sent;
  }

  /**
   * `execute` over the steps from `k` on, the server answering step `j` with
   * `responses[j]`: each step is posted as soon as it is taken, and an
   * exception from `post` ends the loop with the later steps never taken.
   * At most one request is sent per step taken, and a run that raises
   * nothing takes every step; an exhausted generator takes none.
   */
  function Drain(k: nat, steps: seq<Step>, router: Router, responses: seq<Http.Outcome>): (r: Run)
    requires k <= |steps| <= |responses|
    ensures |r.posted| <= |steps| - k
    ensures |r.sent| <= |r.posted|
    ensures r.error.None? ==> |r.posted| == |steps| - k
    decreases |steps| - k
  {
    if k == |steps| then Run([], [], None)
    else
      Continue(steps[k], Post(router, steps[k].kind, steps[k].batch, responses[k]),
               Drain(k + 1, steps, router, responses))
  }

  /** The steps a run takes are the scheme's next ones, in order, none skipped. */
  lemma {:induction false} DrainTakesInOrder(k: nat, steps: seq<Step>, router: Router, responses: seq<Http.Outcome>)
    requires k <= |steps| <= |responses|
    ensures forall i :: 0 <= i < |Drain(k, steps, router, responses).posted| ==>
      Drain(k, steps, router, responses).posted[i] == steps[k + i]
    decreases |steps| - k
  {
    if k < |steps| {
      DrainTakesInOrder(k + 1, steps, router, responses);
      var r := Drain(k, steps, router, responses);
      var rest := Drain(k + 1, steps, router, responses);
      if Post(router, steps[k].kind, steps[k].batch, responses[k]).Delivered? {
        assert r.posted == [steps[k]] + rest.posted;
        forall i | 1 <= i < |r.posted| ensures r.posted[i] == steps[k + i] {
          assert r.posted[i] == rest.posted[i - 1];
        }
      } else {
        assert r.posted == [steps[k]];
      }
    }
  }

  /**
   * Every step routed and answered without error: every step is posted, one
   * request per step, each request carrying that step's whole batch to its
   * kind's endpoint.
   */
  lemma {:induction false} DrainDelivers(k: nat, steps: seq<Step>, router: Router, responses: seq<Http.Outcome>)
    requires k <= |steps| <= |responses|
    requires forall j :: k <= j < |steps| ==> steps[j].kind in router.endpoints && Http.Raised(responses[j]).None?
    decreases |steps| - k
    ensures var r := Drain(k, steps, router, responses);
      && r.posted == steps[k..] && r.error.None?
      && |r.sent| == |steps| - k
      && forall j :: 0 <= j < |r.sent| ==> r.sent[j] == BuildRequest(router, steps[k + j].kind, steps[k + j].batch).value
  {
    if k < |steps| {
      DrainDelivers(k + 1, steps, router, responses);
      var rest := Drain(k + 1, steps, router, responses);
      var r := Drain(k, steps, router, responses);
      assert r.sent == [BuildRequest(router, steps[k].kind, steps[k].batch).value] + rest.sent;
    }
  }

  /**
   * The first post that does not deliver, at step `f`, ends `execute`: steps
   * `k..f` were taken and posted, a request went out for each of them except
   * an unrouted `f`, and the exception of step `f` escapes.
   */
  lemma {:induction false} DrainStopsAt(k: nat, steps: seq<Step>, router: Router, responses: seq<Http.Outcome>, f: nat)
    requires k <= f < |steps| <= |responses|
    requires forall j :: k <= j < f ==> steps[j].kind in router.endpoints && Http.Raised(responses[j]).None?
    requires steps[f].kind !in router.endpoints || Http.Raised(responses[f]).Some?
    ensures var r := Drain(k, steps, router, responses);
      && r.posted == steps[k..f + 1]
      && |r.sent| == (if steps[f].kind in router.endpoints then f + 1 - k else f - k)
      && r.error == Some(Post(router, steps[f].kind, steps[f].batch, responses[f]).error)
    decreases f - k
  {
    var r := Drain(k, steps, router, responses);
    if k < f {
      DrainStopsAt(k + 1, steps, router, responses, f);
      var rest := Drain(k + 1, steps, router, responses);
      assert r.posted == [steps[k]] + rest.posted;
      assert steps[k..f + 1] == [steps[k]] + steps[k + 1..f + 1];
    }
  }

  /**
   * With the three kinds routed and every answer a success, a run posts
   * the whole scheme: no employees, then the two planes, then the four
   * flights, each batch in one request to its kind's endpoint.
   */
  lemma RunDelivers(router: Router, inputs: seq<StepInput>, responses: seq<Http.Outcome>)
    requires Ready(inputs) && |responses| >= 3
    requires Employee in router.endpoints && Plane in router.endpoints && Flight in router.endpoints
    requires forall k :: 0 <= k < 3 ==> Http.Raised(responses[k]).None?
    ensures var run := Drain(0, Steps(inputs), router, responses);
      && run.posted == Steps(inputs) && run.error.None?
      && |run.sent| == 3
      && |run.sent[0].body| == NumEmployees && |run.sent[1].body| == NumPlanes && |run.sent[2].body| == NumFlights
      && run.sent[0].url == router.baseUrl + router.endpoints[Employee]
      && run.sent[1].url == router.baseUrl + router.endpoints[Plane]
      && run.sent[2].url == router.baseUrl + router.endpoints[Flight]
  {
    StepsShape(inputs);
    DrainDelivers(0, Steps(inputs), router, responses);
  }

  /**
   * A router without an employee route stops the run at the first step:
   * the empty employee batch is taken, no request is sent, and the
   * `ValueError` escapes before the planes are generated.
   */
  lemma RunStopsUnrouted(router: Router, inputs: seq<StepInput>, responses: seq<Http.Outcome>)
    requires Ready(inputs) && |responses| >= 3
    requires Employee !in router.endpoints
    ensures var run := Drain(0, Steps(inputs), router, responses);
      && |run.posted| == 1 && run.posted[0].kind == Employee
      && run.sent == []
      && run.error == Some(ValueError("No endpoint found for entity: " + Name(Employee)))
  {
    StepsShape(inputs);
    DrainStopsAt(0, Steps(inputs), router, responses, 0);
  }

  // ---------------------------------------------------------------------------
  // The scheme object

  class StandardScheme {
    /** The router `execute` posts through. */
    const router: Router
    /** The choices the factory and `random.choice` make, one `StepInput` per step. */
    const inputs: seq<StepInput>
    /** The generator's position: how many steps it has yielded (3: exhausted). */
    var stage: nat
    /** The plane batch the generator keeps for the flight step. */
    var planes: seq<Record>

    ghost predicate Valid()
      reads this
    {
      Ready(inputs) && stage <= 3 && (stage >= 2 ==> PlaneBatch(planes) && planes == RunPlanes(inputs))
    }

    /** `StandardScheme(factory, router)`: the generator is created, nothing is generated yet. */
    constructor (router: Router, inputs: seq<StepInput>)
      requires Ready(inputs)
      ensures Valid() && this.router == router && this.inputs == inputs
      ensures stage == 0 && planes == []
    {
      this.router := router;
      this.inputs := inputs;
      stage := 0;
      planes := [];
    }

    /** `next(scheme)`: the next step of the run, or `None` (`StopIteration`) once exhausted. */
    method Next() returns (step: Option<Step>)
      requires Valid()
      modifies this
      ensures Valid()
      ensures old(stage) < 3 ==> step == Some(Steps(inputs)[old(stage)])
      ensures old(stage) == 3 ==> step.None?
      ensures stage == if old(stage) < 3 then old(stage) + 1 else 3
      ensures planes == if old(stage) == 1 then RunPlanes(inputs) else old(planes)
    {
      if stage == 0 {
        var employees := CreateEntities(Employee, NumEmployees, inputs[0].draws);
        step := Some(Step(Employee, employees.value));
        stage := 1;
      } else if stage == 1 {
        var made := CreateEntities(Plane, NumPlanes, inputs[1].draws);
        planes := made.value;
        step := Some(Step(Plane, planes));
        stage := 2;
      } else if stage == 2 {
        var flights := BuildFlights();
        step := Some(Step(Flight, flights));
        stage := 3;
      } else {
        step := None;
      }
    }

    /** The flight loop of `build`: one flight per pick, each given the picked plane's registration. */
    method BuildFlights() returns (flights: seq<Record>)
      requires |inputs| >= 3 && Fits(2, inputs[2]) && PlaneBatch(planes)
      ensures flights == WireFlights(planes, inputs[2].draws, inputs[2].picks[..NumFlights])
      ensures |flights| == NumFlights
      ensures forall f :: f in flights ==> f.FlightRecord? && f.planeRegistration in Registrations(planes)
    {
      var input := inputs[2];
      flights := [];
      for i := 0 to NumFlights
        invariant |flights| == i
        invariant forall j :: 0 <= j < i ==> flights[j] == CreateFlightFor(planes[input.picks[j]].registration, input.draws[j])
      {
        var registration := planes[input.picks[i]].registration;
        var flight := CreateFlightFor(registration, input.draws[i]);
        flights := flights + [flight];
      }
    }

    /**
     * `execute()`: posts every remaining step, with the server's answer at
     * step `k` given as `responses[k]`, until the generator is exhausted or
     * a post raises.
     */
    method Execute(responses: seq<Http.Outcome>) returns (posted: seq<Step>, sent: seq<Request>, error: Option<Error>)
      requires Valid() && |responses| >= 3
      modifies this
      ensures Valid()
      ensures Drain(old(stage), Steps(inputs), router, responses) == Run(posted, sent, error)
      ensures stage == old(stage) + |posted|
      ensures error.None? ==> stage == 3
    {
      posted, sent, error := [], [], None;
      ghost var total := Drain(stage, Steps(inputs), router, responses);
      while stage < 3
        invariant Valid()
        invariant total == After(posted, sent, Drain(stage, Steps(inputs), router, responses))
        invariant stage == old(stage) + |posted|
        decreases 3 - stage
      {
        ghost var postedBefore, sentBefore := posted, sent;
        ghost var rest := Drain(stage + 1, Steps(inputs), router, responses);
        var next := Next();
        var step := next.value;
        var delivery := Post(router, step.kind, step.batch, responses[stage - 1]);
        posted := posted + [step];
        if delivery.Unrouted? {
          error := Some(delivery.error);
          return;
        }
        sent := sent + [delivery.request];
        if delivery.Failed? {
          error := Some(delivery.error);
          return;
        }
        AfterDelivered(postedBefore, sentBefore, step, delivery.request, rest);
      }
      assert posted + [] == posted && sent + [] == sent;
    }
  }
}
