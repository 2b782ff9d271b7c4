/** The id-ordering invariant of the doctor table: the seed list has ids
    1, 2 and create assigns last id + 1, so ids run strictly upwards along
    the list as long as every change keeps them so. These lemmas show that
    appending, rewriting a record's fields and deleting one record all do,
    and what that buys the lookups: ids are unique. */
module IdOrder {
  import opened DoctorRecords

  predicate IdsIncreasing(s: seq<Doctor>) {
    forall i, j :: 0 <= i < j < |s| ==> s[i].id < s[j].id
  }

  lemma SeedIncreasing()
    ensures IdsIncreasing(Seed())
  {
  }

  /** Strictly increasing ids are pairwise distinct. */
  lemma IncreasingUnique(s: seq<Doctor>, i: nat, j: nat)
    requires IdsIncreasing(s)
    requires i < |s| && j < |s| && s[i].id == s[j].id
    ensures i == j
  {
  }

  /** With unique ids the comprehension finds at most one record. */
  lemma {:induction false} IncreasingMatchesAtMostOne(s: seq<Doctor>, id: int)
    requires IdsIncreasing(s)
    ensures |Matching(s, id)| <= 1
    ensures s != [] && s[0].id == id ==> Matching(s, id) == [s[0]]
  {
    if s != [] {
      assert IdsIncreasing(s[1..]);
      IncreasingMatchesAtMostOne(s[1..], id);
      if s[0].id == id {
        forall j | 0 <= j < |s[1..]| ensures s[1..][j].id != id {
          assert s[0].id < s[j + 1].id;
        }
        MatchingHead(s[1..], id);
      }
    }
  }

  /** Appending a record whose id is one more than the last keeps the order,
      and the new record is then the one found under its id. */
  lemma AppendNext(s: seq<Doctor>, d: Doctor)
    requires IdsIncreasing(s) && s != []
    requires d.id == s[|s| - 1].id + 1
    ensures IdsIncreasing(s + [d])
    ensures IndexOf(s + [d], d.id) == Some(|s|)
  {
  }

  /** Rewriting the fields of one record keeps the ids, hence the order, and
      the rewritten record is still the first found under its id. */
  lemma RewriteFields(s: seq<Doctor>, i: nat, f: map<string, Value>)
    requires i < |s|
    ensures IdsIncreasing(s) ==> IdsIncreasing(s[i := Doctor(s[i].id, f)])
    ensures IndexOf(s, s[i].id) == Some(i) ==>
              IndexOf(s[i := Doctor(s[i].id, f)], s[i].id) == Some(i)
  {
    var t := s[i := Doctor(s[i].id, f)];
    assert forall j :: 0 <= j < |t| ==> t[j].id == s[j].id;
  }

  /** Removing one position keeps the order, and with unique ids the removed
      id is no longer found. */
  lemma RemoveAt(s: seq<Doctor>, i: nat)
    requires IdsIncreasing(s) && i < |s|
    ensures IdsIncreasing(s[..i] + s[i + 1..])
    ensures IndexOf(s[..i] + s[i + 1..], s[i].id).None?
  {
  }
}
