/** The records of the in-memory doctor table and the pure operations the
    request handlers perform on the list: the id scan (a list comprehension),
    the partial merge of parsed arguments into a record, and the removal of
    a record by value equality. */
module DoctorRecords {

  datatype Option<T> = None | Some(value: T)

  /** A field value as it arrives from the JSON body: strings for names,
      title and description, a boolean for `done`. */
  datatype Value = Str(s: string) | Bool(b: bool)

  /** A row of the table: its integer id and every other field by name. */
  datatype Doctor = Doctor(id: int, fields: map<string, Value>)

  /** Parsed update arguments: a field name mapped to the parsed value, or
      to None when the request body did not supply it. */
  type Args = map<string, Option<Value>>

  /** The arguments the update parser declares. `id` is not among them. */
  const UpdateKeys: set<string> := {"title", "description", "done"}

  /** The parser returns every declared argument, None for absent ones. */
  predicate ParsedArgs(args: Args) {
    args.Keys == UpdateKeys
  }

  /** The keys whose parsed value is present. */
  function Supplied(args: Args): set<string> {
    set k | k in args && args[k].Some?
  }

  /** The seed table the process starts with. */
  function Seed(): (s: seq<Doctor>)
    ensures |s| == 2 && s[0].id == 1 && s[1].id == 2
  {
    [ Doctor(1, map["first_name" := Str("Julius"), "last_name" := Str("Hilbert")]),
      Doctor(2, map["first_name" := Str("John"), "last_name" := Str("Smith")]) ]
  }

  // ---------------------------------------------------------------------
  // Scanning by id

  /** `[d for d in s if d.id == id]`: the records with that id, in list order. */
  function Matching(s: seq<Doctor>, id: int): (r: seq<Doctor>)
    ensures |r| <= |s|
    ensures forall d :: d in r ==> d in s && d.id == id
    ensures forall d :: d in s && d.id == id ==> d in r
  {
    if s == [] then []
    else (if s[0].id == id then [s[0]] else []) + Matching(s[1..], id)
  }

  /** The position of the first record with that id, if any. */
  function IndexOf(s: seq<Doctor>, id: int): (r: Option<nat>)
    ensures r.Some? ==> r.value < |s| && s[r.value].id == id
    ensures r.Some? ==> forall j :: 0 <= j < r.value ==> s[j].id != id
    ensures r.None? ==> forall j :: 0 <= j < |s| ==> s[j].id != id
  {
    if s == [] then None
    else if s[0].id == id then Some(0)
    else match IndexOf(s[1..], id)
      case None => None
      case Some(i) => Some(i + 1)
  }

  /** The comprehension is empty exactly when no record has the id, and
      otherwise its head is the record at the first matching position. */
  lemma {:induction false} MatchingHead(s: seq<Doctor>, id: int)
    ensures Matching(s, id) == [] <==> IndexOf(s, id).None?
    ensures IndexOf(s, id).Some? ==> Matching(s, id)[0] == s[IndexOf(s, id).value]
  {
    if s != [] && s[0].id != id {
      MatchingHead(s[1..], id);
    }
  }

  // ---------------------------------------------------------------------
  // Partial merge

  /** The record after `for k, v in args.items(): if v is not None: d[k] = v`. */
  function Merged(fields: map<string, Value>, args: Args): (r: map<string, Value>)
    ensures r.Keys == fields.Keys + Supplied(args)
    ensures forall k :: k in args && args[k].Some? ==> r[k] == args[k].value
    ensures forall k :: k in fields && !(k in args && args[k].Some?) ==> r[k] == fields[k]
  {
    map k | k in fields.Keys + Supplied(args) ::
      if k in args && args[k].Some? then args[k].value else fields[k]
  }

  /** Applying the same arguments twice is the same as applying them once. */
  lemma MergedIdempotent(fields: map<string, Value>, args: Args)
    ensures Merged(Merged(fields, args), args) == Merged(fields, args)
  {
  }

  /** Arguments that are all None leave the record as it is. */
  lemma MergedNothingSupplied(fields: map<string, Value>, args: Args)
    requires forall k :: k in args ==> args[k].None?
    ensures Merged(fields, args) == fields
  {
  }

  // ---------------------------------------------------------------------
  // Removal by value

  /** `s.remove(x)`: drop the first element equal to `x` (a ValueError when
      there is none, which the caller never triggers). */
  function RemoveFirst(s: seq<Doctor>, x: Doctor): (r: seq<Doctor>)
    requires x in s
    ensures |r| == |s| - 1
    ensures multiset(r) == multiset(s) - multiset{x}
  {
    assert s == [s[0]] + s[1..];
    if s[0] == x then s[1..]
    else [s[0]] + RemoveFirst(s[1..], x)
  }

  /** When no element before position `i` equals `s[i]`, removing `s[i]` by
      value removes exactly position `i` and keeps the order of the rest. */
  lemma {:induction false} RemoveFirstAt(s: seq<Doctor>, i: nat)
    requires i < |s|
    requires forall j :: 0 <= j < i ==> s[j] != s[i]
    ensures RemoveFirst(s, s[i]) == s[..i] + s[i + 1..]
  {
    if i > 0 {
      var t := s[1..];
      assert t[i - 1] == s[i];
      RemoveFirstAt(t, i - 1);
      assert s[..i] + s[i + 1..] == [s[0]] + (t[..i - 1] + t[i..]);
    }
  }
}
