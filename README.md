# Airline management system: test-data generator

This project models the core of the airline management system's data generator. The generator makes
fake airline records and posts them to the system's REST API:

- **`Entity` and `EntityFactory`** (entity.py). Kinds of record are named by an enumeration, and
  `Entity.from_string` parses a name case-insensitively. `EntityFactory` maps each kind to a generator
  method and builds one record or a batch. It also formats datetimes as `YYYY-MM-DDTHH:MM:SSZ`.
- **`Router`** (router.py). It keeps a base URL stripped of trailing slashes and a table from kind to
  endpoint path. `post` sends a whole batch in one request to base URL + endpoint.
- **`StandardScheme`** (scheme.py). A one-shot generator yields three `(kind, batch)` steps: no
  employees, two planes, then four flights, each flight given the registration of a randomly chosen
  plane. `execute` posts each step as it is produced.
- **The command line** (main.py). It has its own nine-member enumeration, a handler table and an
  endpoint table. `process_entity` posts `{"amount": n}`, and `main` turns a `ValueError` into exit
  code 1.

Randomness is an explicit input here. For planes and flights, every `random.randint` and
`random.choice` becomes a field of a draw record, with the range that call names; a flight's departure
instant (`future_datetime`) is an unconstrained integer number of seconds, its letters from `bothify`
are three ASCII letters, and its price is opaque. Every other generator's faker and `random` calls
collapse into one opaque value per record. The server's answer to each POST is a
parameter (`Http.Outcome`). The scheme is an imperative class. Its generator position is the field
`stage` (0 to 3), and the planes it keeps between steps are the field `planes`. Its `Execute` loop is
proved against a recursive specification, `Scheme.Drain`, and the lemmas beside `Drain` prove what a
run posts.

Files:

| file | contents |
|---|---|
| wrappers.dfy | `Option` and `Result` |
| exceptions.dfy | the Python exception kinds the code raises |
| text.dfy | `str.upper`, `str.lower`, `str.join`, `str.rstrip`, decimal digits |
| enum_names.dfy | the `from_string` class method both enumerations share |
| date_format.dfy | `_format_datetime` and its inverse |
| entity.py → entity.dfy | module `Entities` |
| http.dfy | what `requests.post` followed by `raise_for_status()` raises |
| router.py → router.dfy | module `Routing` |
| scheme.py → scheme.dfy | module `Scheme`, class `StandardScheme` |
| main.py → cli.dfy | module `Cli` |

## Model

| member | source | states |
|---|---|---|
| Text.UpperChar | entity.py:20 | upper-casing a character gives one to three characters; an ASCII letter becomes its upper-case letter |
| Text.Upper | entity.py:20 | `s.upper()` is at least as long as `s` and at most three times as long |
| Text.UpperOfLetters | entity.py:121 | `bothify('???').upper()` gives three upper-case ASCII letters |
| Text.UpperOfLower | entity.py:22 | upper-casing the lower-case spelling of a member name gives the name back |
| Text.UpperOfUpper | entity.py:20 | a member name is its own upper-case form |
| Text.LowerAscii | entity.py:22 | `name.lower()` keeps the length |
| Text.Join | entity.py:22 | `', '.join(parts)` starts with the first part and ends with the last |
| Text.RStrip | router.py:14 | `rstrip('/')` gives a prefix of the input that does not end in '/'; everything it removed was '/' |
| Text.RStripIdempotent | router.py:14 | stripping a second time removes nothing more |
| Text.RStripIgnoresTrailing | router.py:14 | the stripped text is the same however many '/' the input ends with |
| Text.DecimalString | entity.py:166 | `str(n)` is a non-empty string of decimal digits |
| Text.DecimalStringRoundTrip | entity.py:166 | reading `str(n)` back as a number gives `n` |
| Text.DecimalStringWidth | entity.py:166 | a number with `w` digits prints as exactly `w` characters, equal to its zero-padded form |
| Text.DecimalStringThreeOrFour | entity.py:114 | a number in [100, 9999] prints as three or four digits that read back as the number |
| Text.PadDigits | entity.py:212 | a zero-padded field has exactly the field width, all digits |
| Text.PadDigitsRoundTrip | entity.py:212 | a zero-padded number that fits its width reads back as the number |
| EnumNames.Lookup | entity.py:20 | `Enum[key]` finds a member whose name is `key`, and fails only when no member has that name |
| EnumNames.Listing | entity.py:22 | the names listed in the message run from the first member's lower-case name to the last's |
| EnumNames.InvalidMessage | entity.py:22 | the message is "Invalid entity: ", the input verbatim, ". Must be one of: " and the listing |
| EnumNames.Parse | entity.py:17-22 | `from_string` returns the member named by the upper-cased input, or a `ValueError` whose message lists the names in lower case |
| EnumNames.ParseIff | entity.py:18-20 | for distinct upper-case names, parsing gives `e` exactly when the upper-cased input is `e`'s name |
| EnumNames.ParseSpellings | entity.py:18-20 | a member's name and its lower-case spelling both parse to that member |
| Entities.NameInjective | entity.py:7-15 | no two members share a name |
| Entities.MembersWellNamed | entity.py:7-15 | the member list holds every member, with distinct upper-case names |
| Entities.FromString | entity.py:17-22 | `Entity.from_string`: success names the member whose name is the upper-cased input; failure is a `ValueError` with the fixed message listing all names |
| Entities.FromStringIff | entity.py:18-22 | parsing gives `e` if and only if the upper-cased input is `e`'s name |
| Entities.FromStringSpellings | entity.py:18-20 | "plane", "Plane" and "PLANE" all give `PLANE` |
| Entities.GeneratePlane | entity.py:163-171 | `_create_plane` returns a plane record |
| Entities.GenerateFlight | entity.py:108-124 | `_create_flight` returns a flight record |
| Entities.PlaneShape | entity.py:163-171 | the registration is "TC-" and five digits whose value is in [10000, 99999]; capacity is in [100, 500]; model, manufacturer and status come from their lists |
| Entities.FlightNumberShape | entity.py:114 | the flight number is an airline code from TK/PC/XQ/J2 followed by the digits of a number in [100, 9999] |
| Entities.FlightShape | entity.py:108-124 | flight number as above; arrival is departure plus a whole number of hours in [1, 12], so it is strictly later; the flight's own plane registration is "TC-" and three upper-case letters |
| Entities.FreshFlightNamesNoPlane | entity.py:121 | a generated flight's own registration never equals a generated plane's registration (entity.py:166) |
| Entities.GateShape | entity.py:119-120 | a gate number is one of the letters A to D followed by the digits of a number in [1, 30] |
| Entities.FactoryLookup | entity.py:43-54 | the factory table has an entry for every kind, and that entry builds records of the kind |
| Entities.GetFactoryMethod | entity.py:41-59 | the factory found for a kind builds records of that kind; a missing entry raises `ValueError("No factory method found for entity type: NAME")` |
| Entities.FactoryMapTotal | entity.py:43-57 | the factory table covers all eight members, so the "No factory method found" branch is unreachable |
| Entities.Generate | entity.py:33-34 | calling a factory method builds a record of the kind it is registered for; only the plane generator builds planes and only the flight generator builds flights |
| Entities.CreateEntity | entity.py:31-34 | `create_entity(kind)` succeeds exactly when the table has the kind, and returns a record of that kind |
| Entities.Batch | entity.py:39 | the comprehension makes `n` records, record `i` from call `i` of one and the same factory method |
| Entities.CreateEntities | entity.py:36-39 | `create_entities(kind, n)` returns `max(n, 0)` records, all from the kind's factory method and all of that kind |
| Entities.CreateEntityCall | entity.py:31 | `create_entity` accepts no keyword argument besides `entity_type`, which the positional kind already fills: any keyword argument raises `TypeError`, with Python's "unexpected keyword argument" message for any other name, and without one it is `create_entity` |
| Entities.FlightOverrideRaises | entity.py:31 | the `plane_registration=` call made by scheme.py:41 raises `TypeError` with the "unexpected keyword argument 'plane_registration'" message |
| Entities.CreateFlightFor | scheme.py:41 | the intended override: a generated flight whose `plane_registration` is the given one and whose other fields are as generated |
| DateFormat.Truncate | entity.py:203-210 | rebuilding from the fields down to the second keeps a valid datetime valid, clears the microseconds and the time zone, and changes nothing else |
| DateFormat.FormatDateTime | entity.py:201-212 | the output is 20 characters: `-` at 4 and 7, `T` at 10, `:` at 13 and 16, and `Z` at the end |
| DateFormat.ParseDateTime | entity.py:212 | a parsed string gives a valid datetime with no microseconds and no time zone |
| DateFormat.FormatRoundTrip | entity.py:201-212 | parsing the formatted string gives back the datetime truncated to the second |
| DateFormat.FormatSameIff | entity.py:203-210 | two datetimes format alike exactly when they agree down to the second: only microseconds and time zone are lost |
| Http.Raised | router.py:47-48 | `raise_for_status` raises `HTTPError` for a 4xx or 5xx status and nothing for any other status; a rejected URL raises a `ValueError` subclass and a failed connection does not |
| Routing.Attribute | router.py:16-21 | `Entity.NAME` gives the member with that name, and raises `AttributeError` only when no member of entity.py:7-15 has that name |
| Routing.ResolveRows | router.py:15-22 | the dict display is evaluated row by row: it succeeds exactly when every row's key names a member, and otherwise raises the `AttributeError` of the first row whose key names none |
| Routing.NewRouterAsWritten | router.py:7-22 | the router as written is built exactly when every key of the table names a member, with the base URL stripped of trailing '/'; otherwise it raises `AttributeError` |
| Routing.RouterAsWrittenRaises | router.py:15-16 | as written, building a router always raises `AttributeError('CREDITCARD')` |
| Routing.CreditcardUndeclared | router.py:16 | `Entity.CREDITCARD` raises, because entity.py:7-15 declares no such member |
| Routing.EndpointsAreDeclaredRows | router.py:15-22 | the modelled table is the written one minus its dangling first row; the first row names no member |
| Routing.EndpointRowPaths | router.py:15-22 | the written table has six rows, each path a single '/' and then a word, no two paths alike |
| Routing.EndpointPaths | router.py:17-21 | five kinds are routed, each path starts with a single '/', and no two kinds share a path |
| Routing.NewRouter | router.py:7-22 | the stored base URL is the input with every trailing '/' removed; the table is the endpoint table |
| Routing.NewRouterIdempotent | router.py:14 | building a router from a stored base URL stores the same base URL |
| Routing.BuildRequest | router.py:39-47 | a request is built exactly when the kind is routed; its URL is base URL + endpoint, its body the whole batch, its parameters `batch=true`; an unrouted kind raises `ValueError("No endpoint found for entity: NAME")` |
| Routing.Post | router.py:24-52 | `post` raises `ValueError` exactly for unrouted kinds, before building a request; otherwise it hands one request carrying the entire batch to `requests.post`, and fails exactly when `requests.post` or `raise_for_status` raises (a failed connection, a rejected URL or an error status) |
| Routing.UnroutedKinds | router.py:39-41 | BANK, PAYMENT and REFUND, and only those, are rejected before a request is built |
| Routing.UrlJoin | router.py:43 | the URL is the trimmed base followed by the endpoint, with exactly one '/' at the join |
| Routing.UrlIgnoresTrailingSlashes | router.py:14 | extra trailing slashes on the base URL change no request |
| Scheme.WireFlights | scheme.py:38-42 | the flight loop makes one flight per pick, each carrying the registration of one of the planes |
| Scheme.WireFlightsAsWritten | scheme.py:38-42 | the flight loop as written completes only when it makes no flight; otherwise it raises `TypeError` |
| Scheme.FlightStepAsWrittenRaises | scheme.py:41 | as written, building the flight batch raises `TypeError` |
| Scheme.Yield | scheme.py:30-44 | the generator yields a step at positions 0 to 2 and is exhausted from 3 on |
| Scheme.Steps | scheme.py:30-44 | a run yields three steps |
| Scheme.StepsShape | scheme.py:30-44 | the steps are EMPLOYEE, PLANE, FLIGHT with 0, 2 and 4 records; the planes are generated planes; flight `i` is a generated flight carrying the registration of the plane picked for it, so every flight names a plane of the earlier batch |
| Scheme.ChoiceWithReplacement | scheme.py:40 | the picks may repeat: when all pick plane 0, every flight names plane 0, and when the two planes' registrations differ no flight names plane 1 |
| Scheme.Continue | scheme.py:47-49 | a delivered post adds one step to the rest of the run and keeps its outcome; a raised post ends the run with its exception |
| Scheme.AfterDelivered | scheme.py:47-49 | a delivered post moves exactly one step and one request in front of the rest of the run |
| Scheme.Drain | scheme.py:46-49 | `execute` takes no more steps than remain, sends at most one request per step taken, and takes every step when nothing raises |
| Scheme.DrainTakesInOrder | scheme.py:47 | the steps posted are the next ones in yield order, each once |
| Scheme.DrainDelivers | scheme.py:46-49 | when every post succeeds, every remaining step is posted in order, one request per step carrying its whole batch to its kind's endpoint |
| Scheme.DrainStopsAt | scheme.py:46-49 | the first post that raises ends the run: later steps are never taken, and that post's exception escapes |
| Scheme.RunDelivers | scheme.py:30-49 | with every answer a success, a run posts three requests, of 0, 2 and 4 records, to the employee, plane and flight endpoints in that order |
| Scheme.RunStopsUnrouted | scheme.py:46-49 | without an employee route the run stops at the first step with `ValueError`, and the planes are never built |
| Scheme.StandardScheme.constructor | scheme.py:25-28 | a new scheme is at position 0 with nothing generated |
| Scheme.StandardScheme.Next | scheme.py:14-44 | `next()` returns step `stage` of the run and advances by one; once exhausted it returns nothing and stays exhausted; only the plane step changes the kept planes |
| Scheme.StandardScheme.BuildFlights | scheme.py:37-42 | the loop builds exactly the four flights of `WireFlights`, each naming one of the kept planes |
| Scheme.StandardScheme.Execute | scheme.py:46-49 | the loop posts exactly what `Drain` specifies from the current position, advances one position per step taken, and ends exhausted when nothing raised |
| Cli.NameInjective | main.py:21-30 | no two of the nine members share a name |
| Cli.MembersWellNamed | main.py:21-30 | the member list holds all nine members, with distinct upper-case names |
| Cli.FromString | main.py:32-37 | `from_string` over the nine members: success names the member whose name is the upper-cased input; failure is the `ValueError` listing all names |
| Cli.FromStringIff | main.py:33-37 | parsing gives `e` if and only if the upper-cased input is `e`'s name |
| Cli.FromStringRequest | main.py:21-37 | "request" and "Request" parse to `REQUEST`, the member the factory's enumeration lacks |
| Cli.TablesTotal | main.py:99-122 | both tables cover all nine members, each handler for its own kind, so the "No handler" and "No endpoint" errors are unreachable |
| Cli.EndpointsArePlurals | main.py:112-122 | each endpoint is "/" and the lower-case plural of the member's name |
| Cli.EndpointsDistinct | main.py:112-122 | no two kinds share an endpoint |
| Cli.BaseUrl | main.py:41 | `BASE_URL` comes from the environment, defaulting to `http://localhost:8080` |
| Cli.ProcessEntity | main.py:125-154 | the handler runs first, then `{"amount": n}` is posted to `BASE_URL` + endpoint; the only exception is the one the request raises, re-raised as it is |
| Cli.UrlNotTrimmed | main.py:145 | the base URL is not trimmed: one ending in '/' gives a doubled '/' at the join |
| Cli.Main | main.py:157-183 | `main` returns 0 exactly when the name parses and the request succeeds, 1 exactly for a `ValueError` (an unknown name or a rejected URL), and otherwise lets the request's exception escape |
| Cli.HttpErrorEscapes | main.py:147-181 | an HTTP error status is not a `ValueError`, so it escapes `main` instead of producing 1 |

## Left out

- fake.py: faker outputs are opaque `Fake` values. The `+30d` bound of `future_datetime` (entity.py:110) is not kept: a flight's departure is any integer.
- The HTTP transport (`requests.post`, timeouts, retries, response bodies): the server's answer to each POST is a parameter, and only the exception it leads to is modelled.
- Probability distributions: `random.randint` and `random.choice` are draws constrained to their ranges; uniformity is not modelled.
- Floating-point fields (`price`, `amount` from `round(random.uniform(...), 2)`): kept as opaque values.
- `datetime.now()`, `future_datetime` and the flight times' `isoformat()`: a flight's departure is an integer number of seconds and its arrival that plus whole hours. The text of `departure_datetime` and `arrival_datetime` is not modelled.
- argparse, dotenv and all logging (main.py:1-19, main.py:157-174): the parsed `--entity` and `--amount` and the environment map are parameters.
- The `process_*` handlers (main.py:44-95) only log: running one is recorded as a `Handled` action and has no other effect.
- The fields of the bank, payment, refund, passenger and user records are opaque. An employee record keeps only its single `employee` key.
- tests.py: integration tests against a live server.
- Seat allocation, credit-card and passenger steps, and deep-merge overrides have no code in these files and are not modelled.
- `BaseScheme.build` and `BaseScheme.execute` only raise `NotImplementedError`; the model has only the `StandardScheme` subclass.
- Text.UpperChar: exact only for characters whose Python upper-case form is ASCII letters. Every other character is kept as it is, and neither it nor its real upper-case form can spell an ASCII member name.
- Routing.Attribute: the `AttributeError` carries the bare member name, as `Enum` raised it up to Python 3.11. Later versions raise "type object 'Entity' has no attribute 'CREDITCARD'"; the model does not track the version.
- Scheme.Drain: a run's `sent` holds the requests `post` handed to `requests.post`. For a URL that `requests` rejects (`MissingSchema`, `InvalidSchema`, `InvalidURL`), that request never leaves the machine, but the model still lists it. The `Posted` action of `Cli.ProcessEntity` is an attempt in the same sense.
- DateFormat.FormatDateTime: `_format_datetime` appends `Z` without converting to UTC. The model does the same: the offset is dropped, not applied.
- EnumNames.Parse: the error message is stated through `Listing`, the lower-cased names joined with ", ", and not as a literal string.
- Scheme.ChoiceWithReplacement: the two plane registrations come from independent draws and may coincide, so the model does not promise they are distinct; "no flight names plane 1" is stated only when they differ.
- Scheme.StandardScheme: the factory's random choices are the `inputs` fixed when the scheme is built, one `StepInput` per step, and not draws made on demand.
- Scheme.StandardScheme.Execute: takes the server's answers as a parameter, the answer to step `k` being `responses[k]`.
- Scheme.Continue: states the lengths of the run and its error. `DrainTakesInOrder` and `DrainDelivers` state which steps and requests it holds.
- Http.Raised: `raise_for_status` raises only for statuses 400 to 599. A 1xx or 3xx answer is therefore not an error, even though only 2xx means success to the API.

## Findings

| source | as written | input that shows it | evidently intended | confidence | as-written member | corrected member |
|---|---|---|---|---|---|---|
| scheme.py:41 | `create_entity(Entity.FLIGHT, plane_registration=registration)`, but `create_entity` (entity.py:31) accepts no keyword argument besides `entity_type`, so the call raises `TypeError` | any run: the third `next()`, for any two planes and any picks | a generated flight whose `plane_registration` is the picked plane's registration | high; not executed | Scheme.FlightStepAsWrittenRaises | Scheme.WireFlights |
| router.py:16 | the endpoint table's first key is `Entity.CREDITCARD`, which entity.py:7-15 does not declare, so `Router(base_url)` raises `AttributeError` | `Router("http://localhost:8080")`, or any base URL | the table over the five declared members it lists | high; not executed | Routing.RouterAsWrittenRaises | Routing.NewRouter |
