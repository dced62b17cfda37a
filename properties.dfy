/**
  Properties that relate several handlers of the picture service: ids stay
  distinct and grow over creates, a created record is what a lookup of its id
  returns, a create does not change any other lookup, and count agrees with
  list-all.
 */
module RouteProperties {
  import opened Pictures
  import opened Routes

  /** A successful create keeps integer ids pairwise distinct; a failed one leaves the list as it was. */
  lemma CreateKeepsIdsDistinct(s: seq<Picture>, req: Request)
    requires DistinctIds(s)
    ensures DistinctIds(Create(s, req).after)
  {
  }

  /** Appending a record does not move where the scan stops, unless the scan ran off the end. */
  lemma {:induction false} FindByIdAppend(s: seq<Picture>, x: Picture, id: int)
    ensures !FindById(s, id).Miss? ==> FindById(s + [x], id) == FindById(s, id)
    ensures FindById(s, id).Miss? && x.id == IntId(id) ==> FindById(s + [x], id) == Hit(|s|)
    ensures FindById(s, id).Miss? && SkippedBy(x.id, id) ==> FindById(s + [x], id).Miss?
    ensures FindById(s, id).Miss? && x.id != IntId(id) && !SkippedBy(x.id, id) ==> FindById(s + [x], id) == Fail(|s|)
    decreases |s|
  {
    if |s| > 0 {
      assert (s + [x])[1..] == s[1..] + [x];
      FindByIdAppend(s[1..], x, id);
    } else {
      assert s + [x] == [x];
    }
  }

  /** A lookup of the id a create has just assigned returns the created record. */
  lemma CreatedRecordIsFound(s: seq<Picture>, req: Request)
    requires CreateSucceeds(s, req)
    requires Create(s, req).after[|s|].id.n >= 0
    ensures var t := Create(s, req).after;
      LookupOutcome(t, t[|s|].id.n) == Returned(Response(200, One(t[|s|])))
  {
  }

  /** A create does not change the outcome of a lookup of any other id. */
  lemma CreateLeavesOtherLookups(s: seq<Picture>, req: Request, id: nat)
    requires CreateSucceeds(s, req)
    requires Create(s, req).after[|s|].id != IntId(id)
    ensures LookupOutcome(Create(s, req).after, id) == LookupOutcome(s, id)
  {
  }

  /**
    On a list where every id either converts or raises a caught exception,
    a lookup answers 404 exactly when no record's id converts to the requested one,
    and 200 otherwise.
   */
  lemma LookupNotFoundIff(s: seq<Picture>, id: nat)
    requires forall j :: 0 <= j < |s| && !s[j].id.IntId? ==> Caught(IntError(s[j].id))
    ensures LookupOutcome(s, id).Returned?
    ensures LookupOutcome(s, id).response.code == 404 <==> forall j :: 0 <= j < |s| ==> s[j].id != IntId(id)
    ensures LookupOutcome(s, id).response.code == 200 <==> exists j :: 0 <= j < |s| && s[j].id == IntId(id)
  {
  }

  /** The list after creates with the given requests, one after the other. */
  ghost function CreateMany(s: seq<Picture>, reqs: seq<Request>): seq<Picture>
    decreases |reqs|
  {
    if |reqs| == 0 then s else CreateMany(Create(s, reqs[0]).after, reqs[1..])
  }

  /** Every record at index `k` or later has a larger id than every record before it. */
  ghost predicate IdsGrowFrom(t: seq<Picture>, k: nat) {
    forall i, j :: 0 <= i < j < |t| && k <= j ==>
      t[i].id.IntId? && t[j].id.IntId? && t[i].id.n < t[j].id.n
  }

  /**
    Over any sequence of creates on a list whose ids are all integers, the old
    records stay in place, all ids stay integers, and every created record's id
    is larger than the id of every record before it.
   */
  lemma {:induction false} CreatesAssignIncreasingIds(s: seq<Picture>, reqs: seq<Request>)
    requires AllIntIds(s)
    ensures var t := CreateMany(s, reqs);
      AllIntIds(t) && |s| <= |t| && t[..|s|] == s && IdsGrowFrom(t, |s|)
    decreases |reqs|
  {
    if |reqs| > 0 {
      var s1 := Create(s, reqs[0]).after;
      var t := CreateMany(s, reqs);
      assert t == CreateMany(s1, reqs[1..]);
      CreatesAssignIncreasingIds(s1, reqs[1..]);
      assert AllIntIds(s1);
      assert s1[..|s|] == s;
      forall i, j | 0 <= i < j < |t| && |s| <= j
        ensures t[i].id.IntId? && t[j].id.IntId? && t[i].id.n < t[j].id.n
      {
        if j < |s1| {
          assert t[i] == s1[i] && t[j] == s1[j];
          assert j == |s| && i < |s|;
          assert s1[i] == s[i];
        }
      }
      assert t[..|s|] == s1[..|s1|][..|s|];
    }
  }

  /** Over any sequence of creates, integer ids that were distinct stay distinct. */
  lemma {:induction false} CreatesKeepIdsDistinct(s: seq<Picture>, reqs: seq<Request>)
    requires DistinctIds(s)
    ensures DistinctIds(CreateMany(s, reqs))
    decreases |reqs|
  {
    if |reqs| > 0 {
      CreateKeepsIdsDistinct(s, reqs[0]);
      CreatesKeepIdsDistinct(Create(s, reqs[0]).after, reqs[1..]);
    }
  }

  /** When count succeeds, it reports the length of the array list-all returns. */
  lemma CountMatchesListing(store: PictureStore)
    ensures store.Count().response.code == 200 ==>
      store.Count().response.payload == Length(|store.GetPictures().response.payload.items|)
  {
  }
}
