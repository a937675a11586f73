/**
 A model of the "days of the week" HTTP service: a process-wide, ordered
 store of day records, the four request handlers that read or append to it,
 and the two error handlers that turn an aborted request into a JSON error
 envelope.

 Routing, JSON (de)serialisation and process start-up are not modelled: a
 request body arrives already parsed, and a response is a status code with an
 abstract body.
 */
module App {

  datatype Option<+T> = None | Some(value: T)

  /** A JSON value, as the request parser produces it. */
  datatype Value =
    | Null
    | Bool(b: bool)
    | Number(n: int)
    | Str(s: string)
    | Array(items: seq<Value>)
    | Object(fields: map<string, Value>)

  /** A parsed JSON object body of a request. */
  type JsonObject = map<string, Value>

  /** One record of the store. */
  datatype Day = Day(id: int, name: Value)

  /** The reason a handler aborts: an HTTP status code and a description. */
  datatype Abort = Abort(code: nat, description: string)

  datatype Result<+T> = Ok(value: T) | Err(error: Abort)

  /** The JSON bodies the service can send. */
  datatype Body =
    | DayList(days: seq<Day>)             // the bare array of records
    | OneDay(day: Day)                    // {"day": record}
    | Created(success: bool, day: Day)    // {"success": ..., "day": record}
    | Status(status: string)              // {"status": ...}
    | ErrorBody(error: string)            // {"error": description}

  datatype Response = Response(code: nat, body: Body)

  const DayNotFound: string := "Day not found"
  const MissingName: string := "Missing 'name' in request"
  const WeekdayNames: seq<string> :=
    ["Monday", "Tuesday", "Wednesday", "Thursday", "Friday", "Saturday", "Sunday"]

  // ---------------------------------------------------------------------------
  // The store's contents and its invariant
  // ---------------------------------------------------------------------------

  /** The seven records the store holds when the process starts. */
  function Seed(): (r: seq<Day>)
    ensures |r| == |WeekdayNames| == 7
    ensures forall i :: 0 <= i < |r| ==> r[i].id == i + 1 && r[i].name == Str(WeekdayNames[i])
  {
    [ Day(1, Str("Monday")), Day(2, Str("Tuesday")), Day(3, Str("Wednesday")),
      Day(4, Str("Thursday")), Day(5, Str("Friday")), Day(6, Str("Saturday")),
      Day(7, Str("Sunday")) ]
  }

  /** The records of `days` are numbered consecutively from `base + 1`. */
  predicate NumberedFrom(days: seq<Day>, base: int)
  {
    forall i :: 0 <= i < |days| ==> days[i].id == base + i + 1
  }

  /** The store invariant: position i holds id i + 1. */
  predicate DenseIds(days: seq<Day>)
  {
    NumberedFrom(days, 0)
  }

  /** `i` is the first position of `days` whose record has id `dayId`. */
  predicate FirstWithId(days: seq<Day>, dayId: int, i: int)
  {
    0 <= i < |days| && days[i].id == dayId &&
    forall j :: 0 <= j < i ==> days[j].id != dayId
  }

  lemma SeedIsDense()
    ensures DenseIds(Seed())
  {
  }

  /** Under the store invariant no two positions share an id. */
  lemma DenseIdsAreUnique(days: seq<Day>)
    requires DenseIds(days)
    ensures forall i, j :: 0 <= i < |days| && 0 <= j < |days| && days[i].id == days[j].id ==> i == j
  {
  }

  // ---------------------------------------------------------------------------
  // Reading the store
  // ---------------------------------------------------------------------------

  /** The records of `days` whose id is `dayId`, in store order. */
  function Matching(days: seq<Day>, dayId: int): (r: seq<Day>)
    ensures forall d :: d in r ==> d in days && d.id == dayId
    ensures forall i :: 0 <= i < |days| && days[i].id == dayId ==> days[i] in r
    ensures |r| > 0 ==> exists i :: FirstWithId(days, dayId, i) && r[0] == days[i]
  {
    if days == [] then []
    else
      var rest := Matching(days[1..], dayId);
      assert forall i :: 1 <= i < |days| ==> days[i] == days[1..][i - 1];
      assert |rest| > 0 && days[0].id != dayId ==>
        exists i :: FirstWithId(days[1..], dayId, i) && rest[0] == days[1..][i] && FirstWithId(days, dayId, i + 1);
      if days[0].id == dayId then
        assert FirstWithId(days, dayId, 0);
        [days[0]] + rest
      else
        rest
  }

  /** Finding the record with a given id: the first record that has it, or a
      404 abort when none does. */
  function Lookup(days: seq<Day>, dayId: nat): (r: Result<Day>)
    ensures r.Ok? <==> exists i :: 0 <= i < |days| && days[i].id == dayId
    ensures r.Ok? ==> exists i :: FirstWithId(days, dayId, i) && r.value == days[i]
    ensures r.Err? ==> r.error == Abort(404, DayNotFound)
  {
    var matches := Matching(days, dayId);
    if |matches| == 0 then Err(Abort(404, DayNotFound)) else Ok(matches[0])
  }

  /** On records numbered from `base + 1` the filter keeps exactly the one
      record at the matching position, or nothing. */
  lemma {:induction false} MatchingOfNumbered(days: seq<Day>, base: int, dayId: int)
    requires NumberedFrom(days, base)
    ensures Matching(days, dayId) ==
            if base < dayId <= base + |days| then [days[dayId - base - 1]] else []
  {
    if days != [] {
      assert NumberedFrom(days[1..], base + 1) by {
        forall i | 0 <= i < |days[1..]| ensures days[1..][i].id == base + 1 + i + 1 {
          assert days[1..][i] == days[i + 1];
        }
      }
      MatchingOfNumbered(days[1..], base + 1, dayId);
    }
  }

  /** Under the store invariant, a lookup succeeds exactly for the ids
      1..|days| and yields the record at position id - 1. */
  lemma {:induction false} LookupDense(days: seq<Day>, dayId: nat)
    ensures DenseIds(days) ==>
      (Lookup(days, dayId).Ok? <==> 1 <= dayId <= |days|) &&
      (Lookup(days, dayId).Ok? ==> Lookup(days, dayId).value == days[dayId - 1])
  {
    if DenseIds(days) {
      MatchingOfNumbered(days, 0, dayId);
    }
  }

  // ---------------------------------------------------------------------------
  // Appending to the store
  // ---------------------------------------------------------------------------

  /** The `name` of a POST body, or a 400 abort when the body is absent, empty
      or lacks the key. */
  function RequiredName(body: Option<JsonObject>): (r: Result<Value>)
    ensures r.Ok? <==> body.Some? && "name" in body.value
    ensures r.Ok? ==> r.value == body.value["name"]
    ensures r.Err? ==> r.error == Abort(400, MissingName)
  {
    if body.None? || body.value == map[] || "name" !in body.value then
      Err(Abort(400, MissingName))
    else
      Ok(body.value["name"])
  }

  /** The store after appending a record called `name`: numbered one past the
      current length, earlier records untouched. */
  function Append(days: seq<Day>, name: Value): (r: seq<Day>)
    ensures |r| == |days| + 1 && r[..|days|] == days
    ensures r[|days|] == Day(|days| + 1, name)
    ensures DenseIds(days) ==> DenseIds(r)
  {
    days + [Day(|days| + 1, name)]
  }

  /** After an append, the new id finds the new record and every earlier id
      still finds what it found before. */
  lemma {:induction false} LookupAfterAppend(days: seq<Day>, name: Value, dayId: nat)
    requires DenseIds(days)
    ensures Lookup(Append(days, name), |days| + 1) == Ok(Day(|days| + 1, name))
    ensures dayId <= |days| ==> Lookup(Append(days, name), dayId) == Lookup(days, dayId)
  {
    LookupDense(days, dayId);
    LookupDense(Append(days, name), dayId);
    LookupDense(Append(days, name), |days| + 1);
  }

  // ---------------------------------------------------------------------------
  // Error handlers
  // ---------------------------------------------------------------------------

  /** The registered error handlers for an abort: `not_found` for 404 and
      `bad_request` for 400, the only codes that have one. Either way the
      status is kept and the body is the error envelope. */
  function ErrorResponse(error: Abort): (r: Response)
    requires error.code == 404 || error.code == 400
    ensures r.code == error.code && r.body == ErrorBody(error.description)
  {
    if error.code == 404 then
      Response(404, ErrorBody(error.description))   // not_found
    else
      Response(400, ErrorBody(error.description))   // bad_request
  }

  // ---------------------------------------------------------------------------
  // The service: the store and its handlers
  // ---------------------------------------------------------------------------

  class Server {
    /** The process-wide list of records. */
    var days: seq<Day>

    ghost predicate Valid()
      reads this
    {
      DenseIds(days)
    }

    /** The store at process start. */
    constructor ()
      ensures days == Seed() && Valid()
    {
      days := Seed();
      SeedIsDense();
    }

    /** GET /: every record, in insertion order; and under the invariant,
        the record at position i is the one GET /(i+1) returns. */
    function GetDays(): (r: Response)
      reads this
      ensures r.code == 200 && r.body == DayList(days)
      ensures Valid() ==> forall i :: 0 <= i < |days| ==> GetDay(i + 1) == Response(200, OneDay(days[i]))
    {
      Response(200, DayList(days))
    }

    /** GET /<id>: the first record with that id, or the 404 envelope. */
    function GetDay(dayId: nat): (r: Response)
      reads this
      ensures r.code == 200 <==> exists i :: 0 <= i < |days| && days[i].id == dayId
      ensures r.code == 200 ==> exists i :: FirstWithId(days, dayId, i) && r.body == OneDay(days[i])
      ensures r.code != 200 ==> r == Response(404, ErrorBody(DayNotFound))
      ensures Valid() ==> (r.code == 200 <==> 1 <= dayId <= |days|)
      ensures Valid() && 1 <= dayId <= |days| ==> r.body == OneDay(days[dayId - 1])
    {
      LookupDense(days, dayId);
      match Lookup(days, dayId)
      case Ok(d) => Response(200, OneDay(d))
      case Err(e) => ErrorResponse(e)
    }

    /** POST /: append a record named by the body, or answer 400 and leave
        the store as it was. */
    method PostDays(body: Option<JsonObject>) returns (r: Response)
      modifies this
      ensures !(body.Some? && "name" in body.value) ==>
        days == old(days) && r == Response(400, ErrorBody(MissingName))
      ensures body.Some? && "name" in body.value ==>
        days == Append(old(days), body.value["name"]) &&
        r == Response(201, Created(true, Day(|old(days)| + 1, body.value["name"])))
      ensures old(Valid()) ==> Valid()
    {
      match RequiredName(body)
      case Err(e) =>
        r := ErrorResponse(e);
      case Ok(name) =>
        var newDay := Day(|days| + 1, name);
        days := days + [newDay];
        r := Response(201, Created(true, newDay));
    }

    /** GET /health: always healthy; with no reads clause it cannot depend
        on the store. */
    function HealthCheck(): (r: Response)
      ensures r.code == 200 && r.body == Status("healthy")
    {
      Response(200, Status("healthy"))
    }
  }

  /** A fresh service accepts {"name": "Funday"} as record 8, after which it
      lists eight records and GET /8 finds the new one. */
  method FundayScenario() returns (created: Response, listed: nat, found: Response)
    ensures created == Response(201, Created(true, Day(8, Str("Funday"))))
    ensures listed == 8
    ensures found == Response(200, OneDay(Day(8, Str("Funday"))))
  {
    var server := new Server();
    created := server.PostDays(Some(map["name" := Str("Funday")]));
    listed := |server.GetDays().body.days|;
    found := server.GetDay(8);
  }

  /** A fresh service rejects bodies without a name and still lists seven
      records. */
  method RejectedPostScenario(body: Option<JsonObject>) returns (rejected: Response, listed: nat)
    requires body.None? || "name" !in body.value
    ensures rejected == Response(400, ErrorBody(MissingName))
    ensures listed == 7
  {
    var server := new Server();
    rejected := server.PostDays(body);
    listed := |server.GetDays().body.days|;
  }
}
