# Doctor table of the Flask-RESTful server, modelled in Dafny

The server in `app.py` keeps its data in one module-level list, `doctors`.
Each entry is a dict with an integer `id` and some named fields. The list
is seeded with two doctors, ids 1 and 2. Four handlers work on it:

- POST on the list resource appends a record. The new id is the last
  record's id + 1, and the record gets `title`, `description` and
  `done = False`.
- GET on an item scans the list and returns the first record with that id,
  or aborts with 404.
- PUT on an item finds the first record with that id (404 if there is none).
  For each parsed argument (`title`, `description`, `done`) whose value is
  not None, it overwrites that key of the record in place.
- DELETE on an item finds the first record with that id (404 if there is
  none) and calls `list.remove` with it.

The model has three modules:

- `DoctorRecords` (records.dfy) holds the records and the pure list logic.
  A record is `Doctor(id, fields)`, where `fields` is a `map<string, Value>`.
  `Matching` is the list comprehension of the id scan. `IndexOf` is the
  first position with the id. `Merged` is the partial merge. `RemoveFirst`
  is `list.remove`: it drops the first element *equal* to the given record.
- `IdOrder` (order.dfy) covers the ordering invariant. If ids increase
  strictly along the list, as in the seed, then append-next, rewriting a
  record's fields and deleting one record all keep them increasing. Ids are
  then unique.
- `DoctorStore` (store.dfy) holds the class `Doctors`, whose `seq` field
  the handler methods reassign. `ApplyArgs` is put's merge loop. `abort(404)`
  is the result `Err(NotFound)`, and the list is unchanged on that path.
  The IndexError that `doctors[-1]` raises on an empty list is
  `Err(EmptyTable)`, also with the list unchanged.

## Model

| member | source | states |
|---|---|---|
| DoctorRecords.Seed | app.py:10-21 | the process starts with two records, with ids 1 and 2 |
| DoctorRecords.Matching | app.py:88 | the comprehension keeps exactly the records whose id equals the requested one: every kept record is from the list and has that id, and every such record is kept |
| DoctorRecords.IndexOf | app.py:88-91 | the first match: the record at the returned position has the id and no earlier one does; if there is no position, no record has the id |
| DoctorRecords.MatchingHead | app.py:88-91 | the comprehension is empty exactly when no record has the id (both directions); otherwise its head `doctor[0]` is the record at the first matching position |
| DoctorRecords.Merged | app.py:99-101 | the merged record's keys are its old keys plus the supplied ones; each supplied key holds the argument's value; every other key keeps its old value |
| DoctorRecords.MergedIdempotent | app.py:99-101 | applying the same update arguments twice gives the same record as applying them once |
| DoctorRecords.MergedNothingSupplied | app.py:99-101 | when every argument is None, the record is unchanged |
| DoctorRecords.RemoveFirst | app.py:108 | `list.remove` shortens the list by one and removes one copy of the value: the multiset of records loses exactly that element |
| DoctorRecords.RemoveFirstAt | app.py:105-108 | if no earlier element equals the first match, removing it by value removes exactly its position, and the rest keep their order |
| IdOrder.SeedIncreasing | app.py:10-21 | ids strictly increase along the seed list |
| IdOrder.IncreasingUnique | app.py:56 | in a list with strictly increasing ids, two positions with the same id are the same position |
| IdOrder.IncreasingMatchesAtMostOne | app.py:88 | with strictly increasing ids, the comprehension finds at most one record; when the head has the id, that record is the only one found |
| IdOrder.AppendNext | app.py:56-61 | appending a record whose id is the last id + 1 keeps ids strictly increasing, and a lookup of the new id then finds the appended record at the end |
| IdOrder.RewriteFields | app.py:97-101 | replacing one record's fields and keeping its id preserves increasing ids; if the record was the first match for its id, it still is |
| IdOrder.RemoveAt | app.py:108 | removing one position keeps ids strictly increasing, and the removed id is then no longer found |
| DoctorStore.ApplyArgs | app.py:98-101 | the merge loop over the parsed arguments produces exactly the merged record (overwrite only supplied keys, add absent ones, keep the rest) |
| DoctorStore.Doctors.constructor | app.py:10-21 | a new table holds the seed records, with increasing ids |
| DoctorStore.Doctors.Get | app.py:87-91 | returns the first record with the id, or NotFound exactly when no record has it |
| DoctorStore.Doctors.Create | app.py:53-62 | on an empty list, fails with EmptyTable and changes nothing. Otherwise appends one record at the end, with id = last id + 1, title and description as given and done = false; the existing records are unchanged. Keeps ids increasing, and the new id then resolves to the new record |
| DoctorStore.Doctors.Update | app.py:93-102 | on an absent id, fails with NotFound and changes nothing. Otherwise replaces only the first record with that id by the merged record; its id, the length and all other records stay as they were. Returns the updated record and keeps ids increasing |
| DoctorStore.Doctors.Delete | app.py:104-109 | on an absent id, fails with NotFound and changes nothing. Otherwise removes exactly the first record with that id; the others keep their relative order and the length drops by one. With increasing ids, the id is then gone |

## Left out

- Routing, `Api.add_resource` and `app.run` (app.py:7-8, 112-116) are HTTP plumbing. HTTP status codes (201, 404) become result values.
- `reqparse` argument parsing (app.py:42-47, 81-84) is library code. Create takes the parsed `title` and `description` strings. Update takes the parsed arguments as a map with exactly the keys `title`, `description` and `done`, each holding a value or None. The 400 response for a missing required `title` is not modelled.
- `marshal`, the `fields.*` projections and `fields.Url` (app.py:25-37, 51, 62, 91, 102) are library serialisation. The handlers return the raw records.
- The list handler `DoctorListAPI.get` (app.py:50-51) only marshals every record, so it has no logic beyond serialisation.
- `AppointmentAPI` (app.py:65-75) refers to an undefined `appointments` list, is never registered and only marshals.
- Put mutates the dict that sits inside the list, through the alias `doctor[0]`. The model replaces the list element at the first-match position with the merged record. That is the same final list, but the model has no object identity.
- Concurrent requests are not modelled. Each handler is one atomic step on the list.
