/** The module-level `doctors` list and the four handlers that change or
    read it: create (POST on the list resource), get, put and delete (on the
    item resource). A handler that aborts with 404 leaves the list as it was. */
module DoctorStore {
  import opened DoctorRecords
  import opened IdOrder

  /** `NotFound` is `abort(404)`. `EmptyTable` is the IndexError that
      `doctors[-1]` raises when create runs on an empty list. */
  datatype Failure = NotFound | EmptyTable

  datatype Result<T> = Ok(value: T) | Err(error: Failure)

  /** The partial-merge loop of put: every argument whose parsed value is
      present overwrites (or adds) that key; nothing else changes. */
  method ApplyArgs(fields: map<string, Value>, args: Args) returns (r: map<string, Value>)
    ensures r == Merged(fields, args)
  {
    r := fields;
    var todo := args.Keys;
    while todo != {}
      invariant todo <= args.Keys
      invariant r.Keys == fields.Keys + (Supplied(args) - todo)
      invariant forall k :: k in r ==>
                  r[k] == if k !in todo && k in args && args[k].Some? then args[k].value else fields[k]
      decreases todo
    {
      var k :| k in todo;
      if args[k].Some? {
        r := r[k := args[k].value];
      }
      todo := todo - {k};
    }
  }

  class Doctors {
    /** The table, in insertion order. */
    var doctors: seq<Doctor>

    /** The process starts with the two seed records. */
    constructor ()
      ensures doctors == Seed() && IdsIncreasing(doctors)
    {
      doctors := Seed();
    }

    /** GET by id: the first record with that id, or NotFound. */
    function Get(id: int): (r: Result<Doctor>)
      reads this
      ensures IndexOf(doctors, id).None? ==> r == Err(NotFound)
      ensures IndexOf(doctors, id).Some? ==> r == Ok(doctors[IndexOf(doctors, id).value])
    {
      var found := Matching(doctors, id);
      MatchingHead(doctors, id);
      if |found| == 0 then Err(NotFound) else Ok(found[0])
    }

    /** POST: append a record with the next id and `done` false. */
    method Create(title: string, description: string) returns (r: Result<Doctor>)
      modifies this
      ensures old(doctors) == [] ==> r == Err(EmptyTable) && doctors == old(doctors)
      ensures old(doctors) != [] ==>
                r.Ok? &&
                r.value.id == old(doctors[|doctors| - 1].id) + 1 &&
                r.value.fields == map["title" := Str(title), "description" := Str(description),
                                      "done" := Bool(false)] &&
                doctors == old(doctors) + [r.value]
      ensures old(IdsIncreasing(doctors)) ==> IdsIncreasing(doctors)
      ensures old(IdsIncreasing(doctors)) && r.Ok? ==>
                IndexOf(doctors, r.value.id) == Some(|doctors| - 1)
    {
      if |doctors| == 0 {
        return Err(EmptyTable);
      }
      var d := Doctor(doctors[|doctors| - 1].id + 1,
                      map["title" := Str(title), "description" := Str(description),
                          "done" := Bool(false)]);
      if IdsIncreasing(doctors) {
        AppendNext(doctors, d);
      }
      doctors := doctors + [d];
      r := Ok(d);
    }

    /** PUT: merge the supplied arguments into the first record with that id. */
    method Update(id: int, args: Args) returns (r: Result<Doctor>)
      requires ParsedArgs(args)
      modifies this
      ensures old(IndexOf(doctors, id)).None? ==> r == Err(NotFound) && doctors == old(doctors)
      ensures old(IndexOf(doctors, id)).Some? ==>
                var i := old(IndexOf(doctors, id)).value;
                doctors == old(doctors)[i := Doctor(id, Merged(old(doctors)[i].fields, args))] &&
                r == Ok(doctors[i]) &&
                IndexOf(doctors, id) == Some(i)
      ensures old(IdsIncreasing(doctors)) ==> IdsIncreasing(doctors)
    {
      var found := Matching(doctors, id);
      MatchingHead(doctors, id);
      if |found| == 0 {
        return Err(NotFound);
      }
      var i := IndexOf(doctors, id).value;
      var fields := ApplyArgs(found[0].fields, args);
      RewriteFields(doctors, i, fields);
      doctors := doctors[i := Doctor(id, fields)];
      r := Ok(doctors[i]);
    }

    /** DELETE: remove the first record with that id. */
    method Delete(id: int) returns (r: Result<bool>)
      modifies this
      ensures old(IndexOf(doctors, id)).None? ==> r == Err(NotFound) && doctors == old(doctors)
      ensures old(IndexOf(doctors, id)).Some? ==>
                var i := old(IndexOf(doctors, id)).value;
                r == Ok(true) && doctors == old(doctors[..i] + doctors[i + 1..])
      ensures old(IdsIncreasing(doctors)) ==> IdsIncreasing(doctors) && IndexOf(doctors, id).None?
    {
      var found := Matching(doctors, id);
      MatchingHead(doctors, id);
      if |found| == 0 {
        return Err(NotFound);
      }
      var i := IndexOf(doctors, id).value;
      RemoveFirstAt(doctors, i);
      if IdsIncreasing(doctors) {
        RemoveAt(doctors, i);
      }
      doctors := RemoveFirst(doctors, found[0]);
      r := Ok(true);
    }
  }
}
