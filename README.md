# Days-of-the-week service: a Dafny model

This project models a small HTTP service. The service keeps a process-wide,
ordered list of day records `{id, name}`. At start-up the list holds Monday to
Sunday with ids 1 to 7. The service has four endpoints:

- `GET /` lists every record.
- `GET /<id>` returns the first record with that id, or 404 `{"error": "Day not found"}`.
- `POST /` appends a record with id `len(days) + 1`. A body that is absent, empty
  or has no `name` gets 400 `{"error": "Missing 'name' in request"}` instead.
- `GET /health` answers `{"status": "healthy"}`.

Two error handlers turn a 404 or 400 abort into the `{"error": description}` envelope.

Everything is in `app.dfy`, module `App`:

- The store is the class `Server`. Its field `days: seq<Day>` is the global list.
  `PostDays` is a `modifies this` method that reassigns the field.
- The read-only handlers are functions that `reads this`.
- `HealthCheck` has no `reads` clause. So it provably neither reads nor changes the store.
- The invariant `Valid()` says that position `i` holds id `i + 1` (`DenseIds`).
  The seed satisfies it, and `PostDays` preserves it.
- Under the invariant ids are unique, and a lookup of `k` succeeds exactly when
  `1 <= k <= |days|`. It then returns `days[k-1]`.
- The pure functions `Matching` (the list-comprehension filter), `Lookup`,
  `RequiredName` and `Append` specify the handlers. The lemmas are proved about
  these functions.

A request body is already parsed: `Option<map<string, Value>>`, where `Value` is
an abstract JSON value. A response is a status code with an abstract body
variant, not serialised JSON.

For an absent body or an object body (the only bodies modelled), the emptiness
half of the `not request.json` test in `post_days` is implied by the `"name" in`
test: an object that contains `name` is never empty. `RequiredName` states the
resulting simpler condition: it accepts such a body exactly when the body is
present and has the key `name`.

## Model

| member | source | states |
|---|---|---|
| `App.Seed` | app.py:4-12 | the initial store has 7 records; record i has id i+1 and name Monday..Sunday in order |
| `App.SeedIsDense` | app.py:4-12 | the seed satisfies the store invariant (position i holds id i+1) |
| `App.DenseIdsAreUnique` | app.py:35 | under the invariant, no two positions share an id |
| `App.Matching` | app.py:25 | the filter keeps only records with the id, drops none of them, and its first element is the first record with that id |
| `App.Lookup` | app.py:24-28 | succeeds iff some record has the id, returning the first such record; otherwise aborts with 404 "Day not found" |
| `App.MatchingOfNumbered` | app.py:25 | on consecutively numbered records the filter yields exactly the one record at the id's position, or nothing |
| `App.LookupDense` | app.py:25-28 | under the invariant, lookup of k succeeds iff 1 <= k <= number of records, and returns the record at position k-1 |
| `App.RequiredName` | app.py:33-34 | a body is accepted iff it is present and has the key `name`; the accepted value is that entry; otherwise a 400 abort with "Missing 'name' in request" |
| `App.Append` | app.py:35-36 | appending adds exactly one record, with id old length + 1 and the given name; earlier records are unchanged; the invariant is preserved |
| `App.LookupAfterAppend` | app.py:35-36 | after an append, the new id finds the new record and every earlier id finds what it found before |
| `App.ErrorResponse` | app.py:45-52 | the `not_found` (404) and `bad_request` (400) handlers: a 404 or 400 abort becomes a response with the same status and body `{"error": description}` |
| `App.Server.constructor` | app.py:4-12 | the store starts as the seed and satisfies the invariant |
| `App.Server.GetDays` | app.py:18-20 | status 200 with exactly the stored records in insertion order; under the invariant, the record at position i is what GET /(i+1) returns |
| `App.Server.GetDay` | app.py:23-28 | status 200 iff some record has the id, with the first such record; otherwise 404 "Day not found"; under the invariant, 200 exactly for ids 1..number of records, with the record at position id-1 |
| `App.Server.PostDays` | app.py:31-37 | without a present `name` key: 400 "Missing 'name' in request" and the store is unchanged; with one: exactly one record appended with id old length + 1, and 201 with success true and the new record; the invariant is preserved |
| `App.Server.HealthCheck` | app.py:40-42 | always 200 with status "healthy"; it has no reads frame, so it does not depend on the store |
| `App.FundayScenario` | app.py:32-37 | on a fresh store, posting name "Funday" gives 201 with record 8; afterwards 8 records are listed, and GET /8 returns the new record |
| `App.RejectedPostScenario` | app.py:33-34 | on a fresh store, a body without `name` gives 400 and the store still lists 7 records |

## Left out

- Routing and the `<int:day_id>` path converter. The id is a `nat`, because the converter hands only non-negative integers to the handler.
- JSON serialisation (`jsonify`) and request parsing (`request.json`). This includes content-type checks and malformed-JSON errors raised by the framework.
- JSON bodies that are not objects (a list, string, number or boolean). For example, `["name"]` passes the `in` test and then fails on indexing. Only object bodies, or no body, are modelled.
- JSON numbers are modelled as integers. The model never inspects a name's value, so this does not affect any property.
- The error-handler registration mechanism (`@app.errorhandler`). Only the mapping from an abort to its response is modelled.
- Reading the debug flag from the environment, and `app.run` (app.py:55-59). Both are process start-up and I/O.
- Concurrency. Requests are modelled as sequential, so the race between reading `len(days)` and appending is not modelled.
